# Zim Farm Pro screen logic in Dafny

This project models the logic inside the screens of Zim Farm Pro, a React Native app for farmers in Zimbabwe, and proves properties of that model. Almost all of the app renders data. The model keeps the parts that compute something:

- **List queries.** These cover:
  - the pest catalogue search with its type and severity chips;
  - the identification history's severity filter and its three sorts;
  - the market price board's sort, with its key and order toggle;
  - the extension offices' province filter;
  - the crop calendar's month lookup.
- **Screen state machines.** These are:
  - the notification and data-sync switches;
  - the "Toggle All" and "Enable Critical" buttons;
  - the manual-sync progress timer;
  - the "How It Works" stepper;
  - the FAQ accordion;
  - the month picker;
  - the soil-type picker.
- **Classification helpers.** These give the colour, icon or photo chosen from a status, a name or a field's area.
- **Field aggregates.** These are the perimeter of a recorded boundary, walked as a closed ring, and its centre, the mean of its points.

The shared modules model JavaScript built-ins:

| module | models |
|---|---|
| `Lists` | `Array.prototype.filter` and `find`, and their order and membership facts |
| `Sorting` | `Array.prototype.sort` on a copy, with a comparator that reads one key. It is a stable insertion sort, since ECMAScript 2019 requires `Array.prototype.sort` to be stable. |
| `Text` | ASCII `toLowerCase`, `includes`, string `<`, and `split`/`join` on a one-character separator |
| `Switches` | the settings record of named booleans, as a `map`, rebuilt with object spread |
| `Wrappers` | `Option`, and the "tap again to deselect" toggle shared by the month picker and the FAQ |
| `Theme` | the palette names of `colors` |

Screens whose fields change in place are classes:

- `MarketPrices.SortControl`
- `NotificationSettings.NotificationScreen`
- `DataSyncSettings.SyncScreen`
- `PestTutorial.Tutorial`
- `CropsCalendar.CalendarScreen`
- `HelpSupport.FaqScreen`
- `FieldDetails.FieldDetailsScreen`

Each method's contract ties the new state to a function of the old one. The properties are proved about those functions.

Two loops are kept as loops:

- `FieldDetails.CalculatePerimeter` is proved equal to the ring sum `Perimeter`.
- `NotificationSettings.NotificationScreen.SwitchOn`, the `forEach` of "Enable Critical", is proved equal to `Switches.Enable`.

The sync timer's repeated callbacks are driven by `DataSyncSettings.SyncScreen.RunToCompletion`. It is proved to stop after exactly the number of callbacks that `TicksLeft` gives: eleven from a fresh start.

Three behaviours of the code worth noting:

- `getBestPractices` looks the crop name up exactly, with no case folding.
- The month colour tests only the first activity of the month.
- The FAQ toggle, like the month toggle, clears the selection when the open entry is tapped again.

## Model

| member | source | states |
|---|---|---|
| PestDatabase.FilteredPestsMembership | app/pest-database.tsx:60-69 | a pest is listed exactly when it is in the catalogue and matches the search and the type chip and the severity chip |
| PestDatabase.FilteredPestsInOrder | app/pest-database.tsx:60 | the result is the catalogue with entries dropped, never reordered |
| PestDatabase.FilteredPests | app/pest-database.tsx:60-69 | the result is never longer than the catalogue |
| PestDatabase.MatchesSearch | app/pest-database.tsx:61-63 | a pest matches exactly when the lowercased query occurs in its lowercased name, its lowercased scientific name or one of its lowercased affected crops; the empty query matches every pest |
| PestDatabase.MatchesType | app/pest-database.tsx:65 | the 'all' chip matches every pest; any other chip matches exactly the pests of that type |
| PestDatabase.MatchesSeverity | app/pest-database.tsx:66 | the 'all' chip matches every pest; any other chip matches exactly the pests of that severity |
| PestDatabase.SearchIgnoresQueryCase | app/pest-database.tsx:61-63 | lowercasing the query does not change whether a pest matches |
| PestDatabase.SearchIgnoresNameCase | app/pest-database.tsx:61 | lowercasing a pest's name does not change whether it matches |
| PestDatabase.NoCriteriaListsEverything | app/pest-database.tsx:60-69 | with an empty query and both chips on 'all', the whole catalogue is listed unchanged |
| PestDatabase.AllFiltersAreNeutral | app/pest-database.tsx:65-66 | with both chips on 'all', the result equals filtering by the search alone |
| PestDatabase.SeverityColor | app/pest-database.tsx:33-40 | 'high', 'medium' and 'low' give error, warning and success, each if and only if; any other value gives the secondary text colour |
| PestDatabase.ShownCrops | app/pest-database.tsx:239 | at most three crop tags are shown, and they are a prefix of the list |
| PestDatabase.MoreCrops | app/pest-database.tsx:244-247 | the "+N more" note appears exactly when there are more than three crops, and N plus the shown tags is the number of crops |
| PestDatabase.ResultWord | app/pest-database.tsx:185 | the label reads "Result" exactly when the count is 1, and "Results" otherwise |
| PestHistory.AllKeepsEverything | app/pest-history.tsx:123-126 | the 'all' chip keeps every result, in order |
| PestHistory.OnlySeverityMembership | app/pest-history.tsx:123-126 | a level chip keeps exactly the results of that level, as a subsequence of the input |
| PestHistory.FilteredResults | app/pest-history.tsx:123-126 | every kept result has the chip's level, and there are no more results than before |
| PestHistory.SortKey | app/pest-history.tsx:128-136 | the key of each chip orders records exactly as their timestamps, severity ranks or confidences compare |
| PestHistory.SortedResults | app/pest-history.tsx:128 | the sorted list is a permutation of the filtered list |
| PestHistory.SortedByKey | app/pest-history.tsx:128-140 | no result is followed by one with a larger key for the chosen sort |
| PestHistory.NewestFirst | app/pest-history.tsx:130-131 | sorting by date gives non-increasing timestamps |
| PestHistory.MostSevereFirst | app/pest-history.tsx:132-134 | sorting by severity gives non-increasing ranks, with high 3, medium 2 and low 1 |
| PestHistory.Rank | app/pest-history.tsx:133 | ranks lie between 1 and 3; rank 3 is high and rank 1 is low |
| PestHistory.MostConfidentFirst | app/pest-history.tsx:135-136 | sorting by confidence gives non-increasing confidence |
| PestHistory.SeveritySortIsStable | app/pest-history.tsx:128-134 | the results of one severity keep their filtered order after the severity sort |
| PestHistory.HighSeverityCount | app/pest-history.tsx:338 | the "High Severity" figure counts over all results and never exceeds their number |
| PestHistory.HighSeverityCountIsHighFilter | app/pest-history.tsx:338 | the figure equals the length of the list under the 'high' chip, whatever chip is active |
| PestHistory.EmptyMessage | app/pest-history.tsx:240-243 | the empty state shows the "no identifications yet" text exactly when the chip is 'all' |
| PestHistory.SeverityColor | app/pest-history.tsx:33-40 | each level gets the same colour as that level's name on the pest database screen, and never the fallback colour |
| PestHistory.PestName | app/pest-history.tsx:53-56 | without a catalogue entry for the id the name is 'Unknown Pest'; otherwise it is the first matching entry's name, or 'Unknown Pest' when that name is empty |
| PestHistory.MockStatistics | app/pest-history.tsx:89-121 | on the sample scans, two of the three are high severity and one is medium |
| MarketPrices.Compare | app/market-prices.tsx:45-49 | the comparator answers only 1 or -1, and 1 exactly when the first record belongs after the second under the chosen order |
| MarketPrices.SortedPrices | app/market-prices.tsx:24 | the sorted board is a permutation of the board |
| MarketPrices.SortedPricesRespectCompare | app/market-prices.tsx:24-50 | the comparator answers -1 for every pair of records in sorted order |
| MarketPrices.PriceOrder | app/market-prices.tsx:32-34 | sorting by price gives non-decreasing prices ascending and non-increasing prices descending |
| MarketPrices.ChangeOrder | app/market-prices.tsx:36-38 | sorting by change gives non-decreasing changes ascending and non-increasing changes descending |
| MarketPrices.CropOrder | app/market-prices.tsx:28-30 | sorting by crop gives alphabetical order ascending and reverse alphabetical order descending |
| MarketPrices.SortedPricesUnique | app/market-prices.tsx:45-49 | when no two records share the key, any permutation the comparator accepts equals the model's result, so the outcome does not depend on the sorting algorithm |
| MarketPrices.CompareTieAnswersBothWays | app/market-prices.tsx:45-49 | for two records whose keys tie, the comparator answers -1 both ways, so it is not antisymmetric |
| MarketPrices.SameCropComparedBothWays | app/market-prices.tsx:46 | two different maize entries, compared by crop, each come out as smaller than the other |
| MarketPrices.ConsistentCompare | app/market-prices.tsx:45-49 | the corrected comparator answers 1, -1 or 0 exactly when the first record belongs after, before or level with the second |
| MarketPrices.ConsistentCompareAntisymmetric | app/market-prices.tsx:45-49 | swapping the records negates the corrected comparator's answer |
| MarketPrices.SortedPricesFollowConsistentCompare | app/market-prices.tsx:24-50 | the model's sort never puts a record before one that the corrected comparator orders ahead of it, and records that tie keep their board order |
| MarketPrices.Press | app/market-prices.tsx:68-75 | pressing the active chip flips the order; pressing another chip selects it with ascending order |
| MarketPrices.PressActiveTwice | app/market-prices.tsx:69-70 | pressing the active chip twice restores the state |
| MarketPrices.PressOtherTwice | app/market-prices.tsx:71-73 | pressing another chip twice leaves it active in descending order |
| MarketPrices.SortControl.constructor | app/market-prices.tsx:13-14 | the board starts sorted by crop, ascending |
| MarketPrices.SortControl.HandleSort | app/market-prices.tsx:68-75 | the new key and order are `Press` of the old ones |
| MarketPrices.SortControl.Shown | app/market-prices.tsx:24-50 | the board shown is a permutation of the prices, and the comparator of the active chip and order answers -1 for every pair in it |
| MarketPrices.TrendIcon | app/market-prices.tsx:52-58 | 'up' and 'down' give the up and down arrows, each if and only if; any other trend gives 'minus' |
| MarketPrices.TrendColor | app/market-prices.tsx:60-66 | 'up' and 'down' give success and error, each if and only if; any other trend gives the secondary text colour |
| MarketPrices.RisingCount | app/market-prices.tsx:124 | the "Rising" figure is the number of positions whose trend is 'up' |
| MarketPrices.FallingCount | app/market-prices.tsx:132 | the "Falling" figure is the number of positions whose trend is 'down' |
| MarketPrices.RisingPlusFallingAtMostTotal | app/market-prices.tsx:124-139 | "Rising" plus "Falling" never exceeds the total shown beside them |
| MarketPrices.UnitSuffix | app/market-prices.tsx:202 | a suffix is shown exactly when the unit contains '/', and it never contains '/' itself |
| MarketPrices.UnitSuffixOfPair | app/market-prices.tsx:202 | a unit "currency/measure" with no other '/' shows the measure |
| MarketPrices.UnitSuffixWithoutSlash | app/market-prices.tsx:202 | a unit without '/' has no suffix |
| MarketPrices.SampleUnit | data/zimbabweData.ts:158 | "USD/tonne" shows "tonne" |
| MarketPrices.SampleKeysDistinct | data/zimbabweData.ts:154-209 | on the sample board no two prices and no two changes tie, so its sorts are unique |
| Switches.Toggle | app/notification-settings.tsx:24-29 | toggling flips the one key, keeps every key, and leaves every other switch unchanged |
| Switches.ToggleTwice | app/notification-settings.tsx:24-29 | toggling the same key twice restores the record |
| Switches.ToggleCommutes | app/data-sync-settings.tsx:23-28 | toggling two keys gives the same record in either order |
| Switches.AllOn | app/notification-settings.tsx:144 | `every(v => v)` holds exactly when no value of the record is false |
| Switches.SetAll | app/notification-settings.tsx:145-148 | the rebuilt record holds exactly the listed keys, each with the given value |
| Switches.Enable | app/notification-settings.tsx:159-162 | the listed keys are switched on, every key of the record is kept, and every unlisted key keeps its value |
| Switches.EnableIdempotent | app/notification-settings.tsx:159-162 | switching the same keys on twice gives the same record as once |
| NotificationSettings.EveryKeyListed | app/notification-settings.tsx:11-20 | every setting appears in the key list |
| NotificationSettings.KeysOf | app/notification-settings.tsx:159 | the mapped key list has one key per row, taken from that row |
| NotificationSettings.CriticalAlerts | app/notification-settings.tsx:31-96 | the rows marked critical are the weather, pest and drought alerts, in that order |
| NotificationSettings.CriticalKeys | app/notification-settings.tsx:159 | there are no more keys than rows, and no key when no row is critical |
| NotificationSettings.ToggleAll | app/notification-settings.tsx:144-149 | the new record holds every key: all off when every switch was on, and all on otherwise |
| NotificationSettings.ToggleAllTwiceFromAllOn | app/notification-settings.tsx:144-149 | from a complete all-on record, pressing twice restores it |
| NotificationSettings.ToggleAllTwiceFromMixed | app/notification-settings.tsx:144-149 | from a record with a switch off, pressing once turns all on and pressing again turns all off |
| NotificationSettings.WithCritical | app/notification-settings.tsx:158-163 | every key is kept, the weather, pest and drought alerts are on, and every other switch keeps its value |
| NotificationSettings.WithCriticalSpec | app/notification-settings.tsx:158-163 | "Enable Critical" keeps every key, switches on the weather, pest and drought alerts, and leaves the other five switches unchanged |
| NotificationSettings.WithCriticalIdempotent | app/notification-settings.tsx:158-163 | pressing "Enable Critical" again changes nothing |
| NotificationSettings.NotificationScreen.constructor | app/notification-settings.tsx:11-22 | the screen starts with the initial switches, every key present, and the time "08:00" |
| NotificationSettings.NotificationScreen.ToggleSetting | app/notification-settings.tsx:24-29 | the switches become `Toggle` of the old ones, and the time is unchanged |
| NotificationSettings.NotificationScreen.ToggleAllSettings | app/notification-settings.tsx:143-150 | the switches become `ToggleAll` of the old ones, and the time is unchanged |
| NotificationSettings.NotificationScreen.EnableCritical | app/notification-settings.tsx:158-164 | the switches become `WithCritical` of the old ones, and the time is unchanged |
| NotificationSettings.NotificationScreen.SwitchOn | app/notification-settings.tsx:159-163 | the loop over a copy stores `Enable` of the old switches, and the time is unchanged |
| NotificationSettings.NotificationScreen.SelectTime | app/notification-settings.tsx:226 | the time becomes exactly the tapped option, and the switches are unchanged |
| DataSyncSettings.Start | app/data-sync-settings.tsx:30-35 | starting a sync sets progress to 0 and syncing on, starts the timer, and keeps the last-sync text |
| DataSyncSettings.Advance | app/data-sync-settings.tsx:35-47 | below 100 a callback adds exactly 10; at 100 or more it leaves 100, clears syncing and the timer, and records the time |
| DataSyncSettings.AdvanceKeepsConsistent | app/data-sync-settings.tsx:36-44 | a callback keeps progress a multiple of ten in [0, 100], with the timer running exactly while syncing |
| DataSyncSettings.TicksLeft | app/data-sync-settings.tsx:35-47 | from progress p, (100 - p) / 10 + 1 callbacks run before the timer is cleared |
| DataSyncSettings.Ticks | app/data-sync-settings.tsx:35-47 | callbacks keep a consistent status consistent and never lower the progress, and nothing happens once the timer is cleared |
| DataSyncSettings.TicksBeforeEnd | app/data-sync-settings.tsx:44 | before the last callback, n callbacks have added exactly 10n |
| DataSyncSettings.TicksToEnd | app/data-sync-settings.tsx:37-42 | the last callback leaves progress at 100, syncing off, the timer cleared and the time recorded |
| DataSyncSettings.TicksThenOne | app/data-sync-settings.tsx:35-47 | while the timer is still registered, one more callback is one more `Advance` |
| DataSyncSettings.ManualSyncTakesElevenTicks | app/data-sync-settings.tsx:30-47 | a manual sync runs exactly eleven callbacks: progress 10n and still syncing after n < 11 callbacks, finished after 11 |
| DataSyncSettings.SyncScreen.constructor | app/data-sync-settings.tsx:11-21 | the screen starts with the initial switches, progress 0, not syncing, and the initial last-sync text |
| DataSyncSettings.SyncScreen.ToggleSetting | app/data-sync-settings.tsx:23-28 | the switches become `Toggle` of the old ones, and the sync status is unchanged |
| DataSyncSettings.SyncScreen.HandleManualSync | app/data-sync-settings.tsx:146 | the button, enabled only when not syncing, sets the status to `Start` of the old one |
| DataSyncSettings.SyncScreen.Tick | app/data-sync-settings.tsx:35-47 | one timer callback sets the status to `Advance` of the old one |
| DataSyncSettings.SyncScreen.RunToCompletion | app/data-sync-settings.tsx:35-47 | the timer fires exactly `TicksLeft` times; it ends at 100 with syncing off and the time recorded, and the switches are unchanged |
| PestTutorial.NextStepOf | app/pest-tutorial.tsx:91-97 | Next stays within the steps; it leaves the step unchanged exactly on the last step, and otherwise moves one step forward |
| PestTutorial.PrevStepOf | app/pest-tutorial.tsx:99-103 | Previous is a no-op exactly at step 0, and otherwise moves one step back |
| PestTutorial.PrevUndoesNext | app/pest-tutorial.tsx:91-103 | Previous after a Next that stayed returns to the original step |
| PestTutorial.NextUndoesPrev | app/pest-tutorial.tsx:91-103 | Next after a Previous that moved returns to the original step |
| PestTutorial.ProgressFraction | app/pest-tutorial.tsx:127 | the bar's fraction lies in (0, 1] and is 1 exactly on the last step |
| PestTutorial.ProgressGrows | app/pest-tutorial.tsx:127 | each Next that stays lengthens the bar by one step's share |
| PestTutorial.Counter | app/pest-tutorial.tsx:132 | the counter shows "x of n" with 1 <= x <= n = the number of steps, and x = n exactly on the last step |
| PestTutorial.NextLabel | app/pest-tutorial.tsx:208 | the Next button reads "Get Started" exactly on the last step, and "Next" otherwise |
| PestTutorial.Tutorial.constructor | app/pest-tutorial.tsx:80 | the tutorial starts on the first step, with nothing visited |
| PestTutorial.Tutorial.Step | app/pest-tutorial.tsx:105 | the step on screen is the one numbered currentStep + 1 |
| PestTutorial.Tutorial.NextStep | app/pest-tutorial.tsx:91-97 | the step becomes `NextStepOf` the old one, and the identification route is visited exactly when Next leaves the tutorial |
| PestTutorial.Tutorial.PrevStep | app/pest-tutorial.tsx:99-103 | the step becomes `PrevStepOf` the old one, with nothing visited |
| PestTutorial.Tutorial.Skip | app/pest-tutorial.tsx:82-89 | Skip visits the identification route and keeps the step |
| PestTutorial.WalkThrough | app/pest-tutorial.tsx:27-76 | on the four sample steps, three presses of Next reach the last step, whose label is "Get Started" and whose bar is full |
| CropsCalendar.CurrentCropCalendar | app/crops-calendar.tsx:20 | no calendar is found exactly when none has the selected crop's name; a found calendar has that name and is the first in the list that does |
| CropsCalendar.MonthActivities | app/crops-calendar.tsx:22-24 | every listed activity is dated the given month |
| CropsCalendar.MonthActivitiesOfCalendar | app/crops-calendar.tsx:22-24 | the month lists exactly the selected calendar's activities of that month, in calendar order |
| CropsCalendar.UnknownCropHasNoActivities | app/crops-calendar.tsx:23 | a crop without a calendar has no activities in any month |
| CropsCalendar.ActivityColor | app/crops-calendar.tsx:30-34 | 'plant' wins over 'harvest', which wins over 'preparation', each as a lowercased substring; primary is the fallback; each case holds if and only if |
| CropsCalendar.ActivityColorIgnoresCase | app/crops-calendar.tsx:31-33 | the colour does not depend on the case of the activity name |
| CropsCalendar.MonthColor | app/crops-calendar.tsx:26-35 | a month gets the card colour exactly when it has no activities, and otherwise its first activity's colour |
| CropsCalendar.OnlyFirstActivityCounts | app/crops-calendar.tsx:30 | two calendars whose month starts with the same activity give that month the same colour |
| CropsCalendar.InitialCrop | app/crops-calendar.tsx:12 | the picker starts on the first calendar's crop, or 'Maize' when there is none or its name is empty |
| CropsCalendar.CalendarScreen.constructor | app/crops-calendar.tsx:12-13 | the screen starts on `InitialCrop` with no month selected |
| CropsCalendar.CalendarScreen.SelectCrop | app/crops-calendar.tsx:83 | a crop chip selects that crop, keeps the selected month and keeps the screen's invariant |
| CropsCalendar.CalendarScreen.TapMonth | app/crops-calendar.tsx:118 | tapping the selected month clears the selection, and tapping another month selects it alone; the crop is unchanged |
| CropsCalendar.CalendarScreen.CloseDetails | app/crops-calendar.tsx:144 | the close button always clears the selected month |
| CropsCalendar.CalendarScreen.Details | app/crops-calendar.tsx:138-163 | the details card is empty with no month selected, and otherwise lists `MonthActivities` of the selected crop and month, each dated that month |
| CropsCalendar.MaizeJuneIsEmpty | data/zimbabweData.ts:263-277 | June, with nothing scheduled for maize, gets the card colour, and the picker starts on Maize |
| CropsCalendar.PlantingIsGreen | data/zimbabweData.ts:267 | the maize "Planting" month gets the success colour |
| CropsCalendar.HarvestingIsWarning | data/zimbabweData.ts:274 | the maize "Harvesting" month gets the warning colour |
| Wrappers.ToggleSelection | app/crops-calendar.tsx:118 | tapping the selected item clears the selection; tapping any other item selects it |
| Wrappers.ToggleSelectionTwice | app/help-support.tsx:102-104 | from no selection, or with the item selected, tapping it twice comes back |
| Wrappers.ToggleSelectionTwiceFromOther | app/help-support.tsx:102-104 | with another item selected, tapping an item twice leaves nothing selected |
| ExtensionServices.FilteredServices | app/extension-services.tsx:14-16 | 'All' returns the list unchanged; a province keeps only its own offices |
| ExtensionServices.ProvinceMembership | app/extension-services.tsx:16 | a province keeps exactly its offices, in their original order |
| ExtensionServices.CountIsOfficesInProvince | app/extension-services.tsx:106 | the "Available Services" figure is the number of positions holding an office of the province |
| ExtensionServices.ProvinceWithoutOffice | app/extension-services.tsx:16 | a province without offices shows an empty list |
| ExtensionServices.MasvingoHasNoOffice | data/zimbabweData.ts:211-260 | Masvingo is a listed province with no office in the sample data, so its list is empty |
| HelpSupport.TapShowsOnlyTapped | app/help-support.tsx:102-104 | after a tap the tapped answer is shown exactly when it was hidden, and no other answer is shown |
| HelpSupport.FaqScreen.constructor | app/help-support.tsx:11 | no answer is open at first |
| HelpSupport.FaqScreen.ToggleFaq | app/help-support.tsx:102-104 | the open entry becomes `ToggleSelection` of the old one, within the six questions |
| CropDetails.StatusColor | app/crop-details.tsx:18-25 | 'optimal', 'caution' and 'not-recommended' give success, warning and error, each if and only if; anything else gives the secondary text colour |
| CropDetails.CropImage | app/crop-details.tsx:27-35 | the first of maize, tobacco, cotton and soybean, tried in that order, that the lowercased name contains picks the photo, and a name with none of them gets the wheat photo; each case holds if and only if |
| CropDetails.CropImageIgnoresCase | app/crop-details.tsx:28 | the photo does not depend on the case of the name |
| CropDetails.CropImageOfNameWithMaize | app/crop-details.tsx:29 | any name containing "maize" in any case gets the maize photo |
| CropDetails.BestPractices | app/crop-details.tsx:37-74 | "Maize", "Tobacco" and "Cotton" each get their own list of seven practices; any other name gets the five general ones, and only such names get a list of five |
| CropDetails.PracticesAreCaseSensitive | app/crop-details.tsx:67 | 'maize' in lower case gets the general list, and 'Maize' gets its own |
| CropDetails.RenderCalendar | app/crop-details.tsx:146-174 | the "not available" text for the crop is shown exactly when no calendar has the exact crop name; otherwise the calendar shown is the first in the list with that name |
| CropDetails.RenderContent | app/crop-details.tsx:345-354 | each tab key shows its section, if and only if; any unrecognised key shows the overview |
| FieldDetails.NextIndex | app/field-details.tsx:65 | the next corner is (i + 1) mod n |
| FieldDetails.CalculatePerimeter | app/field-details.tsx:58-83 | the loop returns `Perimeter`, which is 0 below two points |
| FieldDetails.EdgeSumNonNegative | app/field-details.tsx:62-80 | with a non-negative distance, any partial sum of edges is non-negative |
| FieldDetails.PerimeterNonNegative | app/field-details.tsx:58-83 | with a non-negative distance, the perimeter is non-negative |
| FieldDetails.PerimeterIncludesClosingEdge | app/field-details.tsx:65 | the perimeter includes the edge from the last point back to the first |
| FieldDetails.PerimeterOfTwoPoints | app/field-details.tsx:62-80 | two points give the way there plus the way back |
| FieldDetails.RotatedEdgeSum | app/field-details.tsx:62-80 | the edges of the rotated ring are the original edges without the first one |
| FieldDetails.PerimeterRotationInvariant | app/field-details.tsx:62-80 | starting the walk at another corner gives the same perimeter |
| FieldDetails.CenterPoint | app/field-details.tsx:85-92 | no points give (0, 0); otherwise the centre times the number of points is the sum of latitudes and of longitudes |
| FieldDetails.ShiftedSums | app/field-details.tsx:88-89 | moving every point by an offset adds n times the offset to each sum |
| FieldDetails.CenterFollowsShift | app/field-details.tsx:85-92 | moving every point by an offset moves the centre by that offset |
| FieldDetails.SampleFieldCenter | app/field-details.tsx:44-49 | the centre of the sample field is (-17.8262, 31.0335) |
| FieldDetails.SoilTypeColor | app/field-details.tsx:94-107 | the lowercased name picks its colour from the table; an unknown name gets the secondary text colour |
| FieldDetails.SoilTypeColorIgnoresCase | app/field-details.tsx:95 | the colour does not depend on the case of the soil name |
| FieldDetails.FieldDetailsScreen.constructor | app/field-details.tsx:55-56 | the picker starts on the field's soil type, or "" without one, with the overlay closed |
| FieldDetails.FieldDetailsScreen.UpdateSoilType | app/field-details.tsx:109-111 | the overlay opens and the selection is unchanged |
| FieldDetails.FieldDetailsScreen.HandleSoilTypeSelect | app/field-details.tsx:113-117 | the selection becomes the chosen soil type and the overlay closes |
| FieldDetails.FieldDetailsScreen.SelectedSoilColor | app/field-details.tsx:207 | the indicator colour depends only on the lowercased selection, and an unknown soil gets the secondary text colour |
| FieldBoundaryCard.Band | components/FieldBoundaryCard.tsx:64-74 | an area above 10 is large, above 5 up to 10 is medium, and 5 or less is small; the three bands are disjoint and cover every area |
| FieldBoundaryCard.BandMonotonic | components/FieldBoundaryCard.tsx:64-74 | a larger field never falls in a smaller band |
| FieldBoundaryCard.StatusIcon | components/FieldBoundaryCard.tsx:64-68 | the 3x3, 2x2 and single-square icons go to the large, medium and small bands, each if and only if |
| FieldBoundaryCard.StatusColor | components/FieldBoundaryCard.tsx:70-74 | success, warning and info go to the large, medium and small bands, each if and only if |
| FieldBoundaryCard.SoilTypeColor | components/FieldBoundaryCard.tsx:37-62 | no soil, absent or empty, gives the secondary text colour; any other name gets the details screen's colour |
| FieldBoundaryCard.CardAgreesWithDetails | components/FieldBoundaryCard.tsx:37-62 | the card and the details screen colour every soil name alike |
| FieldBoundaryCard.CenterLine | components/FieldBoundaryCard.tsx:133-137 | the centre line is shown exactly when the field has points, and then it is the details screen's centre |
| Sorting.SortBy | app/pest-history.tsx:128 | the sorted copy is a permutation of the input |
| Sorting.SortByIsSorted | app/pest-history.tsx:128 | the sorted copy puts no record after one that belongs behind it |
| Sorting.SortByIsStable | app/pest-history.tsx:128 | records with equal keys keep their input order |
| Sorting.SortedUnique | app/market-prices.tsx:24 | with distinct keys, two sorted permutations of a list are equal |
| Lists.Filter | app/pest-database.tsx:60 | the filtered list is never longer than the input |
| Lists.FilterMembership | app/pest-database.tsx:60 | an element is kept exactly when it is in the input and satisfies the predicate |
| Lists.FilterIsSubsequence | app/pest-database.tsx:60 | filtering never reorders the elements it keeps |
| Lists.FilterLengthCountsPositions | app/market-prices.tsx:124 | the length of a filter is the number of positions whose element satisfies the predicate |
| Lists.FindFirst | app/crops-calendar.tsx:20 | nothing is found exactly when no element satisfies the predicate; a found element is the first one that does |
| Text.ToLower | app/pest-database.tsx:61 | the result has the input's length, with each character lowercased, A to Z only |
| Text.Contains | app/pest-database.tsx:61-63 | an included string is never longer than the string that includes it |
| Text.StrLess | app/market-prices.tsx:28-30 | a string never sorts before itself, and a proper prefix sorts before the longer string |
| Text.ToLowerIdempotent | app/pest-database.tsx:61 | lowercasing twice is lowercasing once |
| Text.JoinSplit | app/market-prices.tsx:202 | joining the pieces of a split gives back the string |
| Text.Split | app/market-prices.tsx:202 | a split has at least one piece, and no piece contains the separator |
| Text.SplitJoin | app/market-prices.tsx:202 | splitting a join of pieces without the separator gives back the pieces |

## Findings

| source | as written | input that shows it | evidently intended | confidence | as-written member | corrected member |
|---|---|---|---|---|---|---|
| app/market-prices.tsx:45-49 | the comparator answers `aValue > bValue ? 1 : -1` (or `<` when descending), so two records with equal keys each compare as smaller than the other | two different entries for crop "Maize", sorted by crop ascending | a consistent comparator that answers 0 on a tie, so that `sort` keeps tied records in board order | not executed | MarketPrices.SameCropComparedBothWays | MarketPrices.SortedPricesFollowConsistentCompare |

Under the comparator as written, the sort's result for tied keys depends on the engine. The ECMAScript specification of `Array.prototype.sort` calls such a comparator inconsistent and leaves the order implementation-defined. `MarketPrices.CompareTieAnswersBothWays` states the general fault. `MarketPrices.ConsistentCompare` is the corrected comparator. `MarketPrices.SortedPrices`, the stable sort by the key that the rest of the model uses, is proved to follow it. The sample board has no ties (`MarketPrices.SampleKeysDistinct`), so the shipped data does not show the fault.

## Left out

- **Distance.** The Haversine formula of `calculatePerimeter`, and its floating-point rounding, are not modelled. The distance is a function parameter `dist` over `real`. Non-negativity is a precondition of the lemmas that need it.
- **Floating point and formatting.** All numbers are exact `real`s. The following are not modelled:
  - `toFixed(2)` and `toFixed(4)`;
  - `Math.round` of the confidence percentage;
  - the "x of n" and "+N more" text. The model gives the numbers.
- **Average confidence.** The statistic at app/pest-history.tsx:345 is left out. It is a rounded floating-point mean.
- **`parseFloat` of the change text.** `MarketPrice.change` holds the already-parsed percentage.
- **Dates and clocks.** The following are not modelled:
  - timestamps are integers of milliseconds;
  - `Date.now()` is the parameter `now`;
  - `new Date().toLocaleString()` is the text parameter `now` of `Tick`;
  - date formatting.
- **Timer period.** The 200 ms period of `setInterval` is not modelled. Each callback is one `Tick`.
- **Side effects.** `Alert.alert` dialogs, `Linking.openURL` calls, `router.back` and the refresh spinner are left out. The tutorial's `router.push` calls are recorded in `navigations` rather than performed.
- **Type icon, colour and capitalisation.** `getTypeIcon`, `getTypeColor` and the capitalised type and severity labels of the pest database are fixed tables that no proved property uses.
- **Case folding.** `toLowerCase` is modelled on ASCII letters only. Other Unicode case mappings are not modelled.
- **Pest catalogue.** The entries of `pestsAndDiseases` are not part of this model. The pest database lemmas hold for any catalogue.
- **Display text.** Titles, descriptions and icons of the notification rows are left out, as are the tutorial tips and the FAQ texts.
- **Month badge.** The three-letter month badge, `month.slice(0, 3)`, is not modelled.
- **Polygon area and GPS tracking.** Neither appears in the modelled files. The sample field's area is the constant 2.5.
- **Other screens.** The following are not part of this model:
  - app/pest-identification.tsx, whose camera, picker and mock analysis are I/O;
  - the animated tab bar;
  - the alert, crop, weather and soil overlay cards;
  - the privacy, language and profile screens.
- **Step dots.** The tutorial's step dots are not modelled. Dot i is highlighted exactly when i equals the current step.
- CropDetails.BestPractices: a JavaScript object lookup also finds inherited keys such as "constructor". The model treats every name other than the three crops as unknown.
- MarketPrices.SortedPrices: it is the stable sort by the key. Under the comparator as written, the order of tied records is engine-defined (see Findings).
- NotificationSettings.NotificationScreen.SelectTime: it requires one of the nine time options, since the screen only offers those.
- CropsCalendar.CalendarScreen.TapMonth: it requires a month from the grid, since the screen only offers the twelve months.
- DataSyncSettings.SyncScreen.HandleManualSync: it requires that no sync is running, because the button is disabled while one runs.
