/**
 * The field card of the field list (components/FieldBoundaryCard.tsx): the
 * size band of a field, its soil colour and the centre line.
 */
module FieldBoundaryCard {
  import opened Wrappers
  import opened Theme
  import FieldDetails
  import Text

  /** The size bands: above 10, above 5 up to 10, and 5 or less. */
  datatype SizeBand = Large | Medium | Small

  function Band(area: real): (b: SizeBand)
    ensures b == Large <==> area > 10.0
    ensures b == Medium <==> 5.0 < area <= 10.0
    ensures b == Small <==> area <= 5.0
  {
    if area > 10.0 then Large else if area > 5.0 then Medium else Small
  }

  function BandRank(b: SizeBand): nat {
    match b
    case Small => 0
    case Medium => 1
    case Large => 2
  }

  /** A larger field never falls in a smaller band. */
  lemma BandMonotonic(a: real, b: real)
    requires a <= b
    ensures BandRank(Band(a)) <= BandRank(Band(b))
  {
  }

  /** `getFieldStatusIcon`. */
  function StatusIcon(area: real): (icon: string)
    ensures icon == "square.grid.3x3.fill" <==> Band(area) == Large
    ensures icon == "square.grid.2x2.fill" <==> Band(area) == Medium
    ensures icon == "square.fill" <==> Band(area) == Small
  {
    if area > 10.0 then "square.grid.3x3.fill"
    else if area > 5.0 then "square.grid.2x2.fill"
    else "square.fill"
  }

  /** `getFieldStatusColor`. */
  function StatusColor(area: real): (c: Color)
    ensures c == Success <==> Band(area) == Large
    ensures c == Warning <==> Band(area) == Medium
    ensures c == Info <==> Band(area) == Small
  {
    if area > 10.0 then Success
    else if area > 5.0 then Warning
    else Info
  }

  /** `getSoilTypeColor` of the card: no soil (absent or empty) is grey, otherwise the screen's table. */
  function SoilTypeColor(soilType: Option<string>): (c: Color)
    ensures soilType == None || soilType == Some("") ==> c == TextSecondary
    ensures soilType.Some? && soilType.value != "" ==> c == FieldDetails.SoilTypeColor(soilType.value)
  {
    match soilType
    case None => TextSecondary
    case Some(s) => if s == "" then TextSecondary else FieldDetails.SoilTypeColor(s)
  }

  /** The card and the details screen colour every named soil alike. */
  lemma CardAgreesWithDetails(s: string)
    ensures SoilTypeColor(Some(s)) == FieldDetails.SoilTypeColor(s)
  {
    if s == "" {
      assert FieldDetails.SoilTypeColor(s) == TextSecondary by {
        assert Text.ToLower(s) == "";
      }
    }
  }

  /**
   * The "Center:" line, shown only for a field with points, so its division
   * always has a positive divisor.
   */
  function CenterLine(points: seq<FieldDetails.LocationPoint>): (line: Option<FieldDetails.Coordinate>)
    ensures line.None? <==> points == []
    ensures line.Some? ==> line.value == FieldDetails.CenterPoint(points)
  {
    if |points| > 0 then
      Some(FieldDetails.Coordinate(FieldDetails.SumLatitude(points) / |points| as real,
                                   FieldDetails.SumLongitude(points) / |points| as real))
    else None
  }
}
