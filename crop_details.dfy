/**
 * The crop details screen (app/crop-details.tsx): the suitability colour, the
 * header photo chosen from the crop's name, the best-practice list, the
 * calendar tab and the tab dispatch.
 */
module CropDetails {
  import opened Wrappers
  import opened Theme
  import opened Text
  import CropsCalendar

  /** `getStatusColor`. */
  function StatusColor(status: string): (c: Color)
    ensures status == "optimal" <==> c == Success
    ensures status == "caution" <==> c == Warning
    ensures status == "not-recommended" <==> c == Error
    ensures c == TextSecondary <==> status !in ["optimal", "caution", "not-recommended"]
  {
    match status
    case "optimal" => Success
    case "caution" => Warning
    case "not-recommended" => Error
    case _ => TextSecondary
  }

  const MaizeImage := "https://images.unsplash.com/photo-1551754655-cd27e38d2076?w=400"
  const TobaccoImage := "https://images.unsplash.com/photo-1544966503-7cc5ac882d5d?w=400"
  const CottonImage := "https://images.unsplash.com/photo-1586771107445-d3ca888129ff?w=400"
  const SoybeanImage := "https://images.unsplash.com/photo-1509358271058-acd22cc93898?w=400"
  const WheatImage := "https://images.unsplash.com/photo-1574323347407-f5e1ad6d020b?w=400"

  /** `getCropImage`: the first crop word found in the lowercased name picks the photo. */
  function CropImage(cropName: string): (url: string)
    ensures var name := ToLower(cropName);
            && (url == MaizeImage <==> Contains(name, "maize"))
            && (url == TobaccoImage <==> !Contains(name, "maize") && Contains(name, "tobacco"))
            && (url == CottonImage <==> !Contains(name, "maize") && !Contains(name, "tobacco") &&
                                        Contains(name, "cotton"))
            && (url == SoybeanImage <==> !Contains(name, "maize") && !Contains(name, "tobacco") &&
                                         !Contains(name, "cotton") && Contains(name, "soybean"))
            && (url == WheatImage <==> !Contains(name, "maize") && !Contains(name, "tobacco") &&
                                       !Contains(name, "cotton") && !Contains(name, "soybean"))
  {
    var name := ToLower(cropName);
    if Contains(name, "maize") then MaizeImage
    else if Contains(name, "tobacco") then TobaccoImage
    else if Contains(name, "cotton") then CottonImage
    else if Contains(name, "soybean") then SoybeanImage
    else if Contains(name, "wheat") then WheatImage
    else WheatImage
  }

  /** The photo does not depend on the case of the name. */
  lemma CropImageIgnoresCase(cropName: string)
    ensures CropImage(cropName) == CropImage(ToLower(cropName))
  {
    ToLowerIdempotent(cropName);
  }

  /** A name that contains the word maize, spelt in any case, gets the maize photo. */
  lemma CropImageOfNameWithMaize(prefix: string, word: string, suffix: string)
    requires ToLower(word) == "maize"
    ensures CropImage(prefix + word + suffix) == MaizeImage
  {
    var s := prefix + word + suffix;
    var name := ToLower(s);
    assert |word| == 5;
    assert name[|prefix|..|prefix| + 5] == ToLower(word) by {
      forall i | 0 <= i < 5
        ensures name[|prefix| + i] == ToLower(word)[i]
      {
        assert s[|prefix| + i] == word[i];
      }
    }
    assert OccursAt(name, "maize", |prefix|);
    ContainsAt(name, "maize");
  }

  const MaizePractices: seq<string> := [
    "Plant with first effective rains (October-November)",
    "Use certified seeds and proper spacing (75cm x 25cm)",
    "Apply basal fertilizer at planting",
    "Top dress with nitrogen at 4-6 weeks",
    "Control weeds early and regularly",
    "Monitor for fall armyworm and other pests",
    "Harvest at proper moisture content (12.5%)"
  ]

  const TobaccoPractices: seq<string> := [
    "Prepare seedbeds in August-September",
    "Transplant healthy seedlings in October",
    "Maintain proper plant spacing (90cm x 60cm)",
    "Top plants to remove flower heads",
    "Remove suckers regularly",
    "Harvest leaves when mature (bottom to top)",
    "Cure leaves properly for quality"
  ]

  const CottonPractices: seq<string> := [
    "Plant after soil temperature reaches 16°C",
    "Use recommended varieties for your area",
    "Maintain plant population of 40,000-50,000 plants/ha",
    "Apply fertilizer based on soil test results",
    "Monitor and control bollworm and other pests",
    "Harvest when bolls are fully open",
    "Store cotton in clean, dry conditions"
  ]

  const DefaultPractices: seq<string> := [
    "Follow recommended planting dates",
    "Use quality seeds and proper spacing",
    "Apply fertilizers as recommended",
    "Control weeds and pests regularly",
    "Harvest at proper maturity"
  ]

  /** `getBestPractices`: the crop's own list for an exact name, the general list otherwise. */
  function BestPractices(cropName: string): (practices: seq<string>)
    ensures cropName == "Maize" ==> practices == MaizePractices
    ensures cropName == "Tobacco" ==> practices == TobaccoPractices
    ensures cropName == "Cotton" ==> practices == CottonPractices
    ensures cropName in {"Maize", "Tobacco", "Cotton"} ==> |practices| == 7
    ensures cropName !in {"Maize", "Tobacco", "Cotton"} ==> practices == DefaultPractices
    ensures |practices| == 5 <==> practices == DefaultPractices
  {
    match cropName
    case "Maize" => MaizePractices
    case "Tobacco" => TobaccoPractices
    case "Cotton" => CottonPractices
    case _ => DefaultPractices
  }

  /** The lookup is exact: another spelling of a crop gets the general list. */
  lemma PracticesAreCaseSensitive()
    ensures BestPractices("maize") == DefaultPractices
    ensures BestPractices("Maize") == MaizePractices
  {
  }

  /** What the Calendar tab shows. */
  datatype CalendarView =
    | CalendarAvailable(calendar: CropsCalendar.CropCalendar)
    | CalendarNotAvailable(message: string)

  /** `renderCalendar`, with the calendar found by exact crop name. */
  function RenderCalendar(calendars: seq<CropsCalendar.CropCalendar>, cropName: string): (v: CalendarView)
    ensures v.CalendarNotAvailable? <==> forall k :: 0 <= k < |calendars| ==> calendars[k].crop != cropName
    ensures v.CalendarAvailable? ==> v.calendar in calendars && v.calendar.crop == cropName
    ensures v.CalendarAvailable? ==> exists i :: 0 <= i < |calendars| && calendars[i] == v.calendar &&
                                                forall j :: 0 <= j < i ==> calendars[j].crop != cropName
    ensures v.CalendarNotAvailable? ==> v.message == "Calendar data not available for " + cropName
  {
    match CropsCalendar.CurrentCropCalendar(calendars, cropName)
    case None => CalendarNotAvailable("Calendar data not available for " + cropName)
    case Some(c) => CalendarAvailable(c)
  }

  datatype Tab = Overview | Calendar | Practices | Market | Pests

  /** `renderContent`: the section for the active tab key, the overview for any other key. */
  function RenderContent(activeTab: string): (t: Tab)
    ensures activeTab == "calendar" <==> t == Calendar
    ensures activeTab == "practices" <==> t == Practices
    ensures activeTab == "pests" <==> t == Pests
    ensures activeTab == "market" <==> t == Market
    ensures t == Overview <==> activeTab !in ["calendar", "practices", "pests", "market"]
  {
    match activeTab
    case "overview" => Overview
    case "calendar" => Calendar
    case "practices" => Practices
    case "pests" => Pests
    case "market" => Market
    case _ => Overview
  }
}
