/**
 * The field details screen (app/field-details.tsx): the perimeter of the
 * recorded boundary, its centre, the soil colour and the soil-type picker.
 *
 * The distance between two points is a parameter `dist`: the Haversine
 * formula the screen evaluates in floating point is not modelled.
 */
module FieldDetails {
  import opened Wrappers
  import opened Theme
  import opened Text

  /** One recorded GPS fix; `timestamp` is in milliseconds. */
  datatype LocationPoint = LocationPoint(latitude: real, longitude: real, timestamp: int, accuracy: Option<real>)

  datatype FieldBoundary = FieldBoundary(
    id: string,
    name: string,
    points: seq<LocationPoint>,
    area: real,
    soilType: Option<string>,
    createdAt: int)

  /** The index after `i` on a ring of `n` points. */
  function NextIndex(i: nat, n: nat): (j: nat)
    requires i < n
    ensures j < n
    ensures j == (i + 1) % n
  {
    if i + 1 < n then i + 1 else 0
  }

  /** The edge from point `i` to the next point of the ring, the last one wrapping to the first. */
  function Edge(points: seq<LocationPoint>, dist: (LocationPoint, LocationPoint) -> real, i: nat): real
    requires i < |points|
  {
    dist(points[i], points[NextIndex(i, |points|)])
  }

  /** The total length of the first `n` edges of the ring. */
  function EdgeSum(points: seq<LocationPoint>, dist: (LocationPoint, LocationPoint) -> real, n: nat): real
    requires n <= |points|
  {
    if n == 0 then 0.0 else EdgeSum(points, dist, n - 1) + Edge(points, dist, n - 1)
  }

  /** The perimeter as the screen defines it: zero below two points, otherwise every edge of the ring. */
  function Perimeter(points: seq<LocationPoint>, dist: (LocationPoint, LocationPoint) -> real): real {
    if |points| < 2 then 0.0 else EdgeSum(points, dist, |points|)
  }

  /** `calculatePerimeter`: one edge per point, summed in a loop. */
  method CalculatePerimeter(points: seq<LocationPoint>, dist: (LocationPoint, LocationPoint) -> real)
    returns (perimeter: real)
    ensures perimeter == Perimeter(points, dist)
    ensures |points| < 2 ==> perimeter == 0.0
  {
    if |points| < 2 {
      return 0.0;
    }
    perimeter := 0.0;
    for i := 0 to |points|
      invariant perimeter == EdgeSum(points, dist, i)
    {
      var current := points[i];
      var next := points[(i + 1) % |points|];
      perimeter := perimeter + dist(current, next);
    }
  }

  lemma {:induction false} EdgeSumNonNegative(points: seq<LocationPoint>,
                                              dist: (LocationPoint, LocationPoint) -> real, n: nat)
    requires n <= |points|
    requires forall a, b :: dist(a, b) >= 0.0
    ensures EdgeSum(points, dist, n) >= 0.0
  {
    if n > 0 {
      EdgeSumNonNegative(points, dist, n - 1);
    }
  }

  /** With a distance that is never negative, the perimeter is never negative. */
  lemma PerimeterNonNegative(points: seq<LocationPoint>, dist: (LocationPoint, LocationPoint) -> real)
    requires forall a, b :: dist(a, b) >= 0.0
    ensures Perimeter(points, dist) >= 0.0
  {
    if |points| >= 2 {
      EdgeSumNonNegative(points, dist, |points|);
    }
  }

  /** The ring includes the closing edge from the last point back to the first. */
  lemma PerimeterIncludesClosingEdge(points: seq<LocationPoint>, dist: (LocationPoint, LocationPoint) -> real)
    requires |points| >= 2
    ensures Perimeter(points, dist) ==
            EdgeSum(points, dist, |points| - 1) + dist(points[|points| - 1], points[0])
  {
  }

  /** Two points give the way there and the way back. */
  lemma PerimeterOfTwoPoints(a: LocationPoint, b: LocationPoint, dist: (LocationPoint, LocationPoint) -> real)
    ensures Perimeter([a, b], dist) == dist(a, b) + dist(b, a)
  {
    assert EdgeSum([a, b], dist, 1) == dist(a, b);
  }

  /** The ring after moving the first point to the end. */
  function Rotated(points: seq<LocationPoint>): seq<LocationPoint>
    requires |points| >= 1
  {
    points[1..] + [points[0]]
  }

  lemma {:induction false} RotatedEdgeSum(points: seq<LocationPoint>,
                                          dist: (LocationPoint, LocationPoint) -> real, n: nat)
    requires |points| >= 2 && n < |points|
    ensures EdgeSum(Rotated(points), dist, n) == EdgeSum(points, dist, n + 1) - Edge(points, dist, 0)
  {
    if n > 0 {
      RotatedEdgeSum(points, dist, n - 1);
      var r := Rotated(points);
      assert r[n - 1] == points[n];
      assert r[n] == points[NextIndex(n, |points|)];
      assert Edge(r, dist, n - 1) == Edge(points, dist, n);
    } else {
      assert EdgeSum(points, dist, 1) == Edge(points, dist, 0);
    }
  }

  /** Starting the walk at another corner of the ring does not change the perimeter. */
  lemma PerimeterRotationInvariant(points: seq<LocationPoint>, dist: (LocationPoint, LocationPoint) -> real)
    requires |points| >= 1
    ensures Perimeter(Rotated(points), dist) == Perimeter(points, dist)
  {
    if |points| >= 2 {
      var n := |points|;
      var r := Rotated(points);
      RotatedEdgeSum(points, dist, n - 1);
      assert r[n - 1] == points[0] && r[0] == points[1];
      assert Edge(r, dist, n - 1) == Edge(points, dist, 0);
    }
  }

  /** `points.reduce((sum, p) => sum + p.latitude, 0)`. */
  function SumLatitude(points: seq<LocationPoint>): real {
    if points == [] then 0.0 else SumLatitude(points[..|points| - 1]) + points[|points| - 1].latitude
  }

  /** `points.reduce((sum, p) => sum + p.longitude, 0)`. */
  function SumLongitude(points: seq<LocationPoint>): real {
    if points == [] then 0.0 else SumLongitude(points[..|points| - 1]) + points[|points| - 1].longitude
  }

  datatype Coordinate = Coordinate(latitude: real, longitude: real)

  /** `getCenterPoint`: the mean latitude and longitude, or (0, 0) without points. */
  function CenterPoint(points: seq<LocationPoint>): (c: Coordinate)
    ensures points == [] ==> c == Coordinate(0.0, 0.0)
    ensures points != [] ==> c.latitude * |points| as real == SumLatitude(points) &&
                             c.longitude * |points| as real == SumLongitude(points)
  {
    if |points| == 0 then Coordinate(0.0, 0.0)
    else Coordinate(SumLatitude(points) / |points| as real, SumLongitude(points) / |points| as real)
  }

  /** Every point moved by the same offset. */
  function Shifted(points: seq<LocationPoint>, dLat: real, dLon: real): (r: seq<LocationPoint>)
    ensures |r| == |points|
  {
    seq(|points|, i requires 0 <= i < |points| =>
      points[i].(latitude := points[i].latitude + dLat, longitude := points[i].longitude + dLon))
  }

  lemma {:induction false} ShiftedSums(points: seq<LocationPoint>, dLat: real, dLon: real)
    ensures SumLatitude(Shifted(points, dLat, dLon)) == SumLatitude(points) + |points| as real * dLat
    ensures SumLongitude(Shifted(points, dLat, dLon)) == SumLongitude(points) + |points| as real * dLon
    decreases |points|
  {
    if points != [] {
      var init := points[..|points| - 1];
      ShiftedSums(init, dLat, dLon);
      assert Shifted(points, dLat, dLon)[..|points| - 1] == Shifted(init, dLat, dLon);
    }
  }

  /** Moving every point by an offset moves the centre by the same offset. */
  lemma CenterFollowsShift(points: seq<LocationPoint>, dLat: real, dLon: real)
    requires points != []
    ensures CenterPoint(Shifted(points, dLat, dLon)) ==
            Coordinate(CenterPoint(points).latitude + dLat, CenterPoint(points).longitude + dLon)
  {
    ShiftedSums(points, dLat, dLon);
    var n := |points| as real;
    var c := CenterPoint(points);
    var s := CenterPoint(Shifted(points, dLat, dLon));
    assert s.latitude * n == c.latitude * n + n * dLat;
    assert s.longitude * n == c.longitude * n + n * dLon;
  }

  /** The boundary of the sample field. */
  function SampleField(now: int): FieldBoundary {
    FieldBoundary("1", "Sample Field", [
      LocationPoint(-17.8252, 31.0335, now, None),
      LocationPoint(-17.8262, 31.0345, now, None),
      LocationPoint(-17.8272, 31.0335, now, None),
      LocationPoint(-17.8262, 31.0325, now, None)
    ], 2.5, Some("Clay loam"), now)
  }

  /** The centre of the sample field is the middle of its diamond. */
  lemma SampleFieldCenter(now: int)
    ensures CenterPoint(SampleField(now).points) == Coordinate(-17.8262, 31.0335)
  {
    var p := SampleField(now).points;
    assert p[..3][..2] == p[..2] && p[..2][..1] == p[..1] && p[..1][..0] == [];
    assert SumLatitude(p[..1]) == -17.8252 && SumLongitude(p[..1]) == 31.0335;
    assert SumLatitude(p[..2]) == -35.6514 && SumLongitude(p[..2]) == 62.0680;
    assert SumLatitude(p[..3]) == -53.4786 && SumLongitude(p[..3]) == 93.1015;
    assert SumLatitude(p) == -71.3048 && SumLongitude(p) == 124.1340;
  }

  /** The soil colours, keyed by lowercased soil name. */
  const SoilColors: map<string, string> := map[
    "clay loam" := "#8B4513", "sandy loam" := "#F4A460", "silt loam" := "#D2B48C",
    "clay" := "#A0522D", "sandy clay" := "#CD853F", "well-drained" := "#DEB887",
    "fertile loam" := "#228B22", "red clay" := "#B22222", "black cotton soil" := "#2F4F4F"
  ]

  /** `getSoilTypeColor`. */
  function SoilTypeColor(soilType: string): (c: Color)
    ensures ToLower(soilType) in SoilColors ==> c == Hex(SoilColors[ToLower(soilType)])
    ensures ToLower(soilType) !in SoilColors ==> c == TextSecondary
  {
    match ToLower(soilType)
    case "clay loam" => Hex("#8B4513")
    case "sandy loam" => Hex("#F4A460")
    case "silt loam" => Hex("#D2B48C")
    case "clay" => Hex("#A0522D")
    case "sandy clay" => Hex("#CD853F")
    case "well-drained" => Hex("#DEB887")
    case "fertile loam" => Hex("#228B22")
    case "red clay" => Hex("#B22222")
    case "black cotton soil" => Hex("#2F4F4F")
    case _ => TextSecondary
  }

  /** The colour ignores the case of the soil name. */
  lemma SoilTypeColorIgnoresCase(soilType: string)
    ensures SoilTypeColor(soilType) == SoilTypeColor(ToLower(soilType))
  {
    ToLowerIdempotent(soilType);
  }

  /** The screen's soil picker state, updated in place. */
  class FieldDetailsScreen {
    const field: FieldBoundary
    var selectedSoilType: string
    var showSoilOverlay: bool

    /** `useState(field.soilType || '')` and a hidden overlay. */
    constructor (field: FieldBoundary)
      ensures this.field == field
      ensures selectedSoilType == (if field.soilType.Some? then field.soilType.value else "")
      ensures !showSoilOverlay
    {
      this.field := field;
      selectedSoilType := if field.soilType.Some? then field.soilType.value else "";
      showSoilOverlay := false;
    }

    /** `updateSoilType`: opens the overlay. */
    method UpdateSoilType()
      modifies this
      ensures showSoilOverlay && selectedSoilType == old(selectedSoilType)
    {
      showSoilOverlay := true;
    }

    /** `handleSoilTypeSelect`: records the choice and closes the overlay. */
    method HandleSoilTypeSelect(soilType: string)
      modifies this
      ensures selectedSoilType == soilType && !showSoilOverlay
    {
      selectedSoilType := soilType;
      showSoilOverlay := false;
    }

    /** The colour shown for the selected soil. */
    function SelectedSoilColor(): (c: Color)
      reads this
      ensures c == SoilTypeColor(ToLower(selectedSoilType))
      ensures ToLower(selectedSoilType) !in SoilColors ==> c == TextSecondary
    {
      SoilTypeColorIgnoresCase(selectedSoilType);
      SoilTypeColor(selectedSoilType)
    }
  }
}
