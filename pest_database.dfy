/**
 * The pest database screen (app/pest-database.tsx): a free-text search plus a
 * type filter and a severity filter over the pest catalogue, the severity
 * badge colour, the "+N more" truncation of affected crops and the result
 * count label.
 */
module PestDatabase {
  import opened Text
  import opened Theme
  import opened Lists

  /** One catalogue entry. `kind` is the source's `type` field. */
  datatype Pest = Pest(
    id: string,
    name: string,
    scientificName: string,
    kind: string,
    severity: string,
    affectedCrops: seq<string>)

  /** The search box matches the name, the scientific name or any affected crop, ignoring case. */
  predicate MatchesSearch(pest: Pest, query: string)
    ensures query == "" ==> MatchesSearch(pest, query)
    ensures MatchesSearch(pest, query) <==>
              || Contains(ToLower(pest.name), ToLower(query))
              || Contains(ToLower(pest.scientificName), ToLower(query))
              || exists c | c in pest.affectedCrops :: Contains(ToLower(c), ToLower(query))
  {
    assert ToLower("") == "";
    ContainsEmpty(ToLower(pest.name));
    var q := ToLower(query);
    || Contains(ToLower(pest.name), q)
    || Contains(ToLower(pest.scientificName), q)
    || exists crop | crop in pest.affectedCrops :: Contains(ToLower(crop), q)
  }

  /** The type chips: 'all' or one of 'pest', 'disease', 'weed'. */
  predicate MatchesType(pest: Pest, filterType: string)
    ensures filterType == "all" ==> MatchesType(pest, filterType)
    ensures filterType != "all" ==> (MatchesType(pest, filterType) <==> pest.kind == filterType)
  {
    filterType == "all" || pest.kind == filterType
  }

  /** The severity chips: 'all' or one of 'high', 'medium', 'low'. */
  predicate MatchesSeverity(pest: Pest, filterSeverity: string)
    ensures filterSeverity == "all" ==> MatchesSeverity(pest, filterSeverity)
    ensures filterSeverity != "all" ==> (MatchesSeverity(pest, filterSeverity) <==> pest.severity == filterSeverity)
  {
    filterSeverity == "all" || pest.severity == filterSeverity
  }

  predicate Matches(pest: Pest, query: string, filterType: string, filterSeverity: string) {
    MatchesSearch(pest, query) && MatchesType(pest, filterType) && MatchesSeverity(pest, filterSeverity)
  }

  /** `pestsAndDiseases.filter(...)`. */
  function FilteredPests(pests: seq<Pest>, query: string, filterType: string, filterSeverity: string)
    : (r: seq<Pest>)
    ensures |r| <= |pests|
  {
    Filter(pests, p => Matches(p, query, filterType, filterSeverity))
  }

  /** A pest is listed exactly when it matches the search, the type and the severity. */
  lemma FilteredPestsMembership(pests: seq<Pest>, query: string, filterType: string,
                                filterSeverity: string, pest: Pest)
    ensures pest in FilteredPests(pests, query, filterType, filterSeverity) <==>
            pest in pests && MatchesSearch(pest, query) && MatchesType(pest, filterType) &&
            MatchesSeverity(pest, filterSeverity)
  {
    FilterMembership(pests, p => Matches(p, query, filterType, filterSeverity), pest);
  }

  /** The result keeps the catalogue's order: it is the catalogue with some entries dropped. */
  lemma FilteredPestsInOrder(pests: seq<Pest>, query: string, filterType: string, filterSeverity: string)
    ensures IsSubsequence(FilteredPests(pests, query, filterType, filterSeverity), pests)
  {
    FilterIsSubsequence(pests, p => Matches(p, query, filterType, filterSeverity));
  }

  /** The search ignores the case of the query. */
  lemma SearchIgnoresQueryCase(pest: Pest, query: string)
    ensures MatchesSearch(pest, query) == MatchesSearch(pest, ToLower(query))
  {
    ToLowerIdempotent(query);
  }

  /** The search ignores the case of the pest's name. */
  lemma SearchIgnoresNameCase(pest: Pest, query: string)
    ensures MatchesSearch(pest, query) == MatchesSearch(pest.(name := ToLower(pest.name)), query)
  {
    ToLowerIdempotent(pest.name);
  }

  /** With an empty query and both filters on 'all' the whole catalogue is listed, unchanged. */
  lemma NoCriteriaListsEverything(pests: seq<Pest>)
    ensures FilteredPests(pests, "", "all", "all") == pests
  {
    assert forall k :: 0 <= k < |pests| ==> Matches(pests[k], "", "all", "all");
    FilterKeepsAll(pests, p => Matches(p, "", "all", "all"));
  }

  /** Filter 'all' imposes no type constraint, and 'all' imposes no severity constraint. */
  lemma AllFiltersAreNeutral(pests: seq<Pest>, query: string)
    ensures FilteredPests(pests, query, "all", "all") == Filter(pests, p => MatchesSearch(p, query))
  {
    FilterAgrees(pests, p => Matches(p, query, "all", "all"), p => MatchesSearch(p, query));
  }

  /** `getSeverityColor`. */
  function SeverityColor(severity: string): (c: Color)
    ensures severity == "high" <==> c == Error
    ensures severity == "medium" <==> c == Warning
    ensures severity == "low" <==> c == Success
    ensures c == TextSecondary <==> severity !in ["high", "medium", "low"]
  {
    match severity
    case "high" => Error
    case "medium" => Warning
    case "low" => Success
    case _ => TextSecondary
  }

  /** `affectedCrops.slice(0, 3)`: the first three crop tags, or all of them when there are fewer. */
  function ShownCrops(crops: seq<string>): (shown: seq<string>)
    ensures |shown| == if |crops| < 3 then |crops| else 3
    ensures shown <= crops
  {
    if |crops| <= 3 then crops else crops[..3]
  }

  /**
   * The "+N more" note: present only when some crops are not shown, and N
   * together with the shown tags accounts for every crop.
   */
  function MoreCrops(crops: seq<string>): (n: int)
    ensures n > 0 <==> |crops| > 3
    ensures |ShownCrops(crops)| + n == |crops|
  {
    if |crops| > 3 then |crops| - 3 else 0
  }

  /** "Result" or "Results" after the count. */
  function ResultWord(count: nat): (w: string)
    ensures w == "Result" <==> count == 1
    ensures w == "Result" || w == "Results"
  {
    "Result" + (if count != 1 then "s" else "")
  }
}
