/**
 * The identification history screen (app/pest-history.tsx): a severity filter,
 * a three-way descending sort on a copy of the filtered list, the statistics
 * card, the empty-state message and the pest-name lookup.
 */
module PestHistory {
  import opened Wrappers
  import opened Theme
  import opened Lists
  import opened Sorting
  import PestDatabase

  datatype Severity = High | Medium | Low

  /** The `severityOrder` table of the severity sort. */
  function Rank(level: Severity): (r: nat)
    ensures 1 <= r <= 3
    ensures r == 3 <==> level == High
    ensures r == 1 <==> level == Low
  {
    match level
    case High => 3
    case Medium => 2
    case Low => 1
  }

  function SeverityName(level: Severity): string {
    match level
    case High => "high"
    case Medium => "medium"
    case Low => "low"
  }

  /** One stored identification; `timestamp` is the ISO date as milliseconds since the epoch. */
  datatype Identification = Identification(
    id: string,
    confidence: real,
    identifiedPest: string,
    timestamp: int,
    severity: Severity,
    location: string)

  /** The severity chips: 'all' or one level. */
  datatype SeverityFilter = AllSeverities | OnlySeverity(level: Severity)

  /** The sort chips: 'date', 'severity' or 'confidence'. */
  datatype SortField = ByDate | BySeverity | ByConfidence

  predicate Keeps(filter: SeverityFilter, result: Identification) {
    filter.AllSeverities? || result.severity == filter.level
  }

  /** `filteredResults`. */
  function FilteredResults(results: seq<Identification>, filter: SeverityFilter): (r: seq<Identification>)
    ensures |r| <= |results|
    ensures filter.OnlySeverity? ==> forall k :: 0 <= k < |r| ==> r[k].severity == filter.level
  {
    var kept := (x: Identification) => Keeps(filter, x);
    FilterSatisfies(results, kept);
    Filter(results, kept)
  }

  /** 'all' keeps every result, in order. */
  lemma AllKeepsEverything(results: seq<Identification>)
    ensures FilteredResults(results, AllSeverities) == results
  {
    FilterKeepsAll(results, (x: Identification) => Keeps(AllSeverities, x));
  }

  /** A level keeps exactly the results of that level, in their original order. */
  lemma OnlySeverityMembership(results: seq<Identification>, level: Severity, x: Identification)
    ensures x in FilteredResults(results, OnlySeverity(level)) <==> x in results && x.severity == level
    ensures IsSubsequence(FilteredResults(results, OnlySeverity(level)), results)
  {
    FilterMembership(results, (y: Identification) => Keeps(OnlySeverity(level), y), x);
    FilterIsSubsequence(results, (y: Identification) => Keeps(OnlySeverity(level), y));
  }

  /**
   * The comparator of each sort chip, as a key sorted in descending order:
   * `b - a` on timestamps, severity ranks or confidences.
   */
  function SortKey(field: SortField): (key: Identification -> Key)
    ensures field == ByDate ==> forall x, y :: KeyLess(key(x), key(y)) <==> x.timestamp < y.timestamp
    ensures field == BySeverity ==> forall x, y :: KeyLess(key(x), key(y)) <==> Rank(x.severity) < Rank(y.severity)
    ensures field == ByConfidence ==> forall x, y :: KeyLess(key(x), key(y)) <==> x.confidence < y.confidence
  {
    match field
    case ByDate => (x: Identification) => Num(x.timestamp as real)
    case BySeverity => (x: Identification) => Num(Rank(x.severity) as real)
    case ByConfidence => (x: Identification) => Num(x.confidence)
  }

  /** `sortedResults`: a sorted copy of the filtered list. */
  function SortedResults(results: seq<Identification>, filter: SeverityFilter, field: SortField)
    : (r: seq<Identification>)
    ensures multiset(r) == multiset(FilteredResults(results, filter))
  {
    SortBy(FilteredResults(results, filter), SortKey(field), Desc)
  }

  lemma SortedByKey(results: seq<Identification>, filter: SeverityFilter, field: SortField, i: int, j: int)
    requires 0 <= i < j < |SortedResults(results, filter, field)|
    ensures !KeyLess(SortKey(field)(SortedResults(results, filter, field)[i]),
                     SortKey(field)(SortedResults(results, filter, field)[j]))
  {
    SortByIsSorted(FilteredResults(results, filter), SortKey(field), Desc);
  }

  /** Sorting by date lists the newest identification first. */
  lemma NewestFirst(results: seq<Identification>, filter: SeverityFilter)
    ensures var r := SortedResults(results, filter, ByDate);
            forall i, j :: 0 <= i < j < |r| ==> r[i].timestamp >= r[j].timestamp
  {
    var r := SortedResults(results, filter, ByDate);
    forall i, j | 0 <= i < j < |r|
      ensures r[i].timestamp >= r[j].timestamp
    {
      SortedByKey(results, filter, ByDate, i, j);
    }
  }

  /** Sorting by severity lists high before medium before low. */
  lemma MostSevereFirst(results: seq<Identification>, filter: SeverityFilter)
    ensures var r := SortedResults(results, filter, BySeverity);
            forall i, j :: 0 <= i < j < |r| ==> Rank(r[i].severity) >= Rank(r[j].severity)
  {
    var r := SortedResults(results, filter, BySeverity);
    forall i, j | 0 <= i < j < |r|
      ensures Rank(r[i].severity) >= Rank(r[j].severity)
    {
      SortedByKey(results, filter, BySeverity, i, j);
    }
  }

  /** Sorting by confidence lists the results in non-increasing confidence. */
  lemma MostConfidentFirst(results: seq<Identification>, filter: SeverityFilter)
    ensures var r := SortedResults(results, filter, ByConfidence);
            forall i, j :: 0 <= i < j < |r| ==> r[i].confidence >= r[j].confidence
  {
    var r := SortedResults(results, filter, ByConfidence);
    forall i, j | 0 <= i < j < |r|
      ensures r[i].confidence >= r[j].confidence
    {
      SortedByKey(results, filter, ByConfidence, i, j);
    }
  }

  /** ECMAScript 2019 requires `Array.prototype.sort` to be stable: results of one severity keep their filtered order. */
  lemma SeveritySortIsStable(results: seq<Identification>, filter: SeverityFilter, level: Severity)
    ensures Filter(SortedResults(results, filter, BySeverity), (x: Identification) => x.severity == level) ==
            Filter(FilteredResults(results, filter), (x: Identification) => x.severity == level)
  {
    var key := SortKey(BySeverity);
    var p := (x: Identification) => x.severity == level;
    forall y ensures p(y) <==> key(y) == Num(Rank(level) as real) {
      assert key(y) == Num(Rank(y.severity) as real);
    }
    SortByIsStable(FilteredResults(results, filter), key, Desc, Num(Rank(level) as real), p);
  }

  /** The "High Severity" statistic: counted over every result, whatever the filter. */
  function HighSeverityCount(results: seq<Identification>): (n: nat)
    ensures n <= |results|
  {
    |Filter(results, (x: Identification) => x.severity == High)|
  }

  /** The statistic equals the length of the list under the 'high' filter. */
  lemma HighSeverityCountIsHighFilter(results: seq<Identification>)
    ensures HighSeverityCount(results) == |FilteredResults(results, OnlySeverity(High))|
  {
    FilterAgrees(results, (x: Identification) => x.severity == High, (x: Identification) => Keeps(OnlySeverity(High), x));
  }

  const NoHistoryMessage := "You haven't made any pest identifications yet."

  /** The text of the empty state. */
  function EmptyMessage(filter: SeverityFilter): (msg: string)
    ensures msg == NoHistoryMessage <==> filter.AllSeverities?
  {
    match filter
    case AllSeverities => NoHistoryMessage
    case OnlySeverity(level) => "No results found for " + SeverityName(level) + " severity level."
  }

  /** `getSeverityColor`, the same table as on the pest database screen. */
  function SeverityColor(level: Severity): (c: Color)
    ensures c == PestDatabase.SeverityColor(SeverityName(level))
    ensures c != TextSecondary
  {
    match level
    case High => Error
    case Medium => Warning
    case Low => Success
  }

  /** `getPestName`: the catalogue name of the identified pest, or 'Unknown Pest'. */
  function PestName(pests: seq<PestDatabase.Pest>, pestId: string): (name: string)
    ensures (forall k :: 0 <= k < |pests| ==> pests[k].id != pestId) ==> name == "Unknown Pest"
    ensures forall k :: 0 <= k < |pests| && pests[k].id == pestId &&
                        (forall j :: 0 <= j < k ==> pests[j].id != pestId) ==>
              name == if pests[k].name != "" then pests[k].name else "Unknown Pest"
  {
    match FindFirst(pests, (p: PestDatabase.Pest) => p.id == pestId)
    case None => "Unknown Pest"
    case Some(pest) => if pest.name != "" then pest.name else "Unknown Pest"
  }

  /** The three sample identifications, taken 2, 5 and 7 days before `now`. */
  function MockResults(now: int): seq<Identification> {
    var day := 24 * 60 * 60 * 1000;
    [ Identification("result-1", 0.92, "fall-armyworm", now - 2 * day, High, "Field A - Maize"),
      Identification("result-2", 0.87, "aphids", now - 5 * day, Medium, "Field B - Tobacco"),
      Identification("result-3", 0.94, "striga", now - 7 * day, High, "Field C - Sorghum") ]
  }

  /** On the sample data two of three scans are high severity. */
  lemma MockStatistics(now: int)
    ensures HighSeverityCount(MockResults(now)) == 2
    ensures |FilteredResults(MockResults(now), OnlySeverity(Medium))| == 1
  {
    var m := MockResults(now);
    var high := (x: Identification) => x.severity == High;
    var medium := (x: Identification) => Keeps(OnlySeverity(Medium), x);
    assert m[1..][1..][1..] == [];
    assert Filter(m[1..][1..], high) == [m[2]];
    assert Filter(m[1..], high) == [m[2]];
    assert Filter(m, high) == [m[0], m[2]];
    assert Filter(m[1..][1..], medium) == [];
    assert Filter(m[1..], medium) == [m[1]];
    assert Filter(m, medium) == [m[1]];
  }
}
