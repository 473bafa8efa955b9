/**
 * The crop calendar screen (app/crops-calendar.tsx): a crop picker, a grid of
 * months coloured by their first activity, and a details card for the tapped
 * month.
 */
module CropsCalendar {
  import opened Wrappers
  import opened Theme
  import opened Text
  import opened Lists

  datatype Activity = Activity(month: string, activity: string, description: string)

  datatype CropCalendar = CropCalendar(crop: string, activities: seq<Activity>)

  const Months: seq<string> := [
    "January", "February", "March", "April", "May", "June",
    "July", "August", "September", "October", "November", "December"
  ]

  /** `cropsCalendar.find(c => c.crop === selectedCrop)`. */
  function CurrentCropCalendar(calendars: seq<CropCalendar>, crop: string): (r: Option<CropCalendar>)
    ensures r.None? <==> forall k :: 0 <= k < |calendars| ==> calendars[k].crop != crop
    ensures r.Some? ==> r.value in calendars && r.value.crop == crop
    ensures r.Some? ==> exists i :: 0 <= i < |calendars| && calendars[i] == r.value &&
                                   forall j :: 0 <= j < i ==> calendars[j].crop != crop
  {
    FindFirst(calendars, (c: CropCalendar) => c.crop == crop)
  }

  /** `getMonthActivities`. */
  function MonthActivities(calendars: seq<CropCalendar>, crop: string, month: string): (r: seq<Activity>)
    ensures forall k :: 0 <= k < |r| ==> r[k].month == month
  {
    match CurrentCropCalendar(calendars, crop)
    case None => []
    case Some(c) =>
      var inMonth := (a: Activity) => a.month == month;
      FilterSatisfies(c.activities, inMonth);
      Filter(c.activities, inMonth)
  }

  /**
   * The activities of a month are exactly those of the selected crop's
   * calendar dated that month, in calendar order.
   */
  lemma MonthActivitiesOfCalendar(calendars: seq<CropCalendar>, crop: string, month: string, a: Activity)
    requires CurrentCropCalendar(calendars, crop).Some?
    ensures var c := CurrentCropCalendar(calendars, crop).value;
            && (a in MonthActivities(calendars, crop, month) <==> a in c.activities && a.month == month)
            && IsSubsequence(MonthActivities(calendars, crop, month), c.activities)
  {
    var c := CurrentCropCalendar(calendars, crop).value;
    FilterMembership(c.activities, (x: Activity) => x.month == month, a);
    FilterIsSubsequence(c.activities, (x: Activity) => x.month == month);
  }

  /** A crop without a calendar has no activities in any month. */
  lemma UnknownCropHasNoActivities(calendars: seq<CropCalendar>, crop: string, month: string)
    requires forall k :: 0 <= k < |calendars| ==> calendars[k].crop != crop
    ensures MonthActivities(calendars, crop, month) == []
  {
  }

  /**
   * The colour an activity gives its month: the first of 'plant', 'harvest'
   * and 'preparation' found in its lowercased name decides.
   */
  function ActivityColor(a: Activity): (c: Color)
    ensures var name := ToLower(a.activity);
            && (c == Success <==> Contains(name, "plant"))
            && (c == Warning <==> !Contains(name, "plant") && Contains(name, "harvest"))
            && (c == Info <==> !Contains(name, "plant") && !Contains(name, "harvest") &&
                               Contains(name, "preparation"))
            && (c == Primary <==> !Contains(name, "plant") && !Contains(name, "harvest") &&
                                  !Contains(name, "preparation"))
  {
    var name := ToLower(a.activity);
    if Contains(name, "plant") then Success
    else if Contains(name, "harvest") then Warning
    else if Contains(name, "preparation") then Info
    else Primary
  }

  /** The match ignores the case of the activity's name. */
  lemma ActivityColorIgnoresCase(a: Activity)
    ensures ActivityColor(a) == ActivityColor(a.(activity := ToLower(a.activity)))
  {
    ToLowerIdempotent(a.activity);
  }

  /** `getMonthColor`. */
  function MonthColor(calendars: seq<CropCalendar>, crop: string, month: string): (c: Color)
    ensures c == Card <==> MonthActivities(calendars, crop, month) == []
    ensures c != Card ==> c == ActivityColor(MonthActivities(calendars, crop, month)[0])
  {
    var activities := MonthActivities(calendars, crop, month);
    if |activities| == 0 then Card else ActivityColor(activities[0])
  }

  /** Only the first activity of a month decides its colour: later ones never matter. */
  lemma OnlyFirstActivityCounts(calendars: seq<CropCalendar>, crop: string, month: string,
                                others: seq<CropCalendar>)
    requires MonthActivities(calendars, crop, month) != []
    requires MonthActivities(others, crop, month) != []
    requires MonthActivities(calendars, crop, month)[0] == MonthActivities(others, crop, month)[0]
    ensures MonthColor(calendars, crop, month) == MonthColor(others, crop, month)
  {
  }

  /** `cropsCalendar[0]?.crop || 'Maize'`. */
  function InitialCrop(calendars: seq<CropCalendar>): (crop: string)
    ensures crop != ""
    ensures |calendars| > 0 && calendars[0].crop != "" ==> crop == calendars[0].crop
    ensures (|calendars| == 0 || calendars[0].crop == "") ==> crop == "Maize"
  {
    if |calendars| > 0 && calendars[0].crop != "" then calendars[0].crop else "Maize"
  }

  /** The screen's state, updated in place by taps. */
  class CalendarScreen {
    var selectedCrop: string
    var selectedMonth: Option<string>

    ghost predicate Valid()
      reads this
    {
      selectedMonth.Some? ==> selectedMonth.value in Months
    }

    constructor (calendars: seq<CropCalendar>)
      ensures Valid()
      ensures selectedCrop == InitialCrop(calendars) && selectedMonth == None
    {
      selectedCrop := InitialCrop(calendars);
      selectedMonth := None;
    }

    /** A crop chip. */
    method SelectCrop(crop: string)
      requires Valid()
      modifies this
      ensures Valid()
      ensures selectedCrop == crop && selectedMonth == old(selectedMonth)
    {
      selectedCrop := crop;
    }

    /** A month card: deselects the selected month, selects any other. */
    method TapMonth(month: string)
      requires Valid() && month in Months
      modifies this
      ensures Valid()
      ensures selectedMonth == ToggleSelection(old(selectedMonth), month)
      ensures selectedCrop == old(selectedCrop)
    {
      selectedMonth := if selectedMonth == Some(month) then None else Some(month);
    }

    /** The close button of the details card. */
    method CloseDetails()
      modifies this
      ensures Valid()
      ensures selectedMonth == None && selectedCrop == old(selectedCrop)
    {
      selectedMonth := None;
    }

    /** The activities listed in the details card, when a month is selected. */
    function Details(calendars: seq<CropCalendar>): (shown: seq<Activity>)
      reads this
      ensures selectedMonth.None? ==> shown == []
      ensures selectedMonth.Some? ==> shown == MonthActivities(calendars, selectedCrop, selectedMonth.value)
      ensures forall k :: 0 <= k < |shown| ==> selectedMonth == Some(shown[k].month)
    {
      match selectedMonth
      case None => []
      case Some(month) => MonthActivities(calendars, selectedCrop, month)
    }
  }

  /** The maize calendar of the sample data. */
  const MaizeCalendar := CropCalendar("Maize", [
    Activity("September", "Land preparation", "Clear fields, plough and harrow"),
    Activity("October", "Planting", "Plant with first rains, 75cm x 25cm spacing"),
    Activity("November", "First weeding", "Weed and apply basal fertilizer"),
    Activity("December", "Top dressing", "Apply nitrogen fertilizer"),
    Activity("January", "Second weeding", "Weed and monitor for pests"),
    Activity("February", "Pest control", "Monitor for fall armyworm and other pests"),
    Activity("March", "Pre-harvest", "Monitor crop maturity"),
    Activity("April", "Harvesting", "Harvest when moisture content is 12.5%"),
    Activity("May", "Post-harvest", "Dry and store properly")
  ])

  /** June, with nothing scheduled for maize, has the card colour. */
  lemma MaizeJuneIsEmpty()
    ensures MonthColor([MaizeCalendar], "Maize", "June") == Card
    ensures InitialCrop([MaizeCalendar]) == "Maize"
  {
    var acts := MaizeCalendar.activities;
    forall k | 0 <= k < |acts|
      ensures acts[k].month != "June"
    {
    }
    FilterKeepsNone(acts, (a: Activity) => a.month == "June");
  }

  /** The maize planting colours its month green. */
  lemma PlantingIsGreen()
    ensures ActivityColor(MaizeCalendar.activities[1]) == Success
  {
    var name := ToLower("Planting");
    assert name[0] == 'p';
    assert name[..5] == "plant";
  }

  /** The maize harvest colours its month with the warning colour. */
  lemma HarvestingIsWarning()
    ensures ActivityColor(MaizeCalendar.activities[7]) == Warning
  {
    var name := ToLower("Harvesting");
    assert name[0] == 'h';
    assert name[..7] == "harvest";
    assert name == "harvesting";
    MissingCharNotContained(name, "plant", 'p');
  }
}
