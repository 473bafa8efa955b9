/**
 * The market prices screen (app/market-prices.tsx): a sorted copy of the price
 * list, the sort-key/sort-order toggle, the rising/falling summary, the trend
 * badge and the unit shown after "per".
 */
module MarketPrices {
  import opened Wrappers
  import opened Theme
  import opened Text
  import opened Lists
  import opened Sorting

  /** One price entry; `change` is the percentage after `parseFloat` of its "+5%" text. */
  datatype MarketPrice = MarketPrice(
    crop: string,
    price: real,
    unit: string,
    change: real,
    market: string,
    trend: string)

  /** The sort chips: 'crop', 'price' or 'change'. */
  datatype SortField = ByCrop | ByPrice | ByChange

  /** The value the comparator reads from each record for a sort chip. */
  function SortKey(field: SortField): MarketPrice -> Key {
    match field
    case ByCrop => (p: MarketPrice) => Str(p.crop)
    case ByPrice => (p: MarketPrice) => Num(p.price)
    case ByChange => (p: MarketPrice) => Num(p.change)
  }

  /**
   * The comparator passed to `sort`: `a > b ? 1 : -1` ascending and
   * `a < b ? 1 : -1` descending. It never answers "equal".
   */
  function Compare(field: SortField, order: Order, a: MarketPrice, b: MarketPrice): (c: int)
    ensures c == 1 || c == -1
    ensures c == 1 <==> After(order, SortKey(field)(a), SortKey(field)(b))
  {
    var x := SortKey(field)(a);
    var y := SortKey(field)(b);
    if order == Asc then (if KeyLess(y, x) then 1 else -1)
    else (if KeyLess(x, y) then 1 else -1)
  }

  /** `sortedPrices`: a sorted copy of the price list. */
  function SortedPrices(prices: seq<MarketPrice>, field: SortField, order: Order): (r: seq<MarketPrice>)
    ensures multiset(r) == multiset(prices)
    ensures |r| == |prices|
  {
    SortBy(prices, SortKey(field), order)
  }

  /** No record is placed before one that the comparator says it follows. */
  lemma SortedPricesRespectCompare(prices: seq<MarketPrice>, field: SortField, order: Order)
    ensures var r := SortedPrices(prices, field, order);
            forall i, j :: 0 <= i < j < |r| ==> Compare(field, order, r[i], r[j]) == -1
  {
    SortByIsSorted(prices, SortKey(field), order);
  }

  /** Sorting by price: non-decreasing ascending, non-increasing descending. */
  lemma PriceOrder(prices: seq<MarketPrice>, order: Order)
    ensures var r := SortedPrices(prices, ByPrice, order);
            forall i, j :: 0 <= i < j < |r| ==>
              if order == Asc then r[i].price <= r[j].price else r[i].price >= r[j].price
  {
    var r := SortedPrices(prices, ByPrice, order);
    SortedPricesRespectCompare(prices, ByPrice, order);
    forall i, j | 0 <= i < j < |r|
      ensures if order == Asc then r[i].price <= r[j].price else r[i].price >= r[j].price
    {
      assert Compare(ByPrice, order, r[i], r[j]) == -1;
    }
  }

  /** Sorting by change: non-decreasing ascending, non-increasing descending. */
  lemma ChangeOrder(prices: seq<MarketPrice>, order: Order)
    ensures var r := SortedPrices(prices, ByChange, order);
            forall i, j :: 0 <= i < j < |r| ==>
              if order == Asc then r[i].change <= r[j].change else r[i].change >= r[j].change
  {
    var r := SortedPrices(prices, ByChange, order);
    SortedPricesRespectCompare(prices, ByChange, order);
    forall i, j | 0 <= i < j < |r|
      ensures if order == Asc then r[i].change <= r[j].change else r[i].change >= r[j].change
    {
      assert Compare(ByChange, order, r[i], r[j]) == -1;
    }
  }

  /** Sorting by crop: alphabetical ascending, reverse alphabetical descending. */
  lemma CropOrder(prices: seq<MarketPrice>, order: Order)
    ensures var r := SortedPrices(prices, ByCrop, order);
            forall i, j :: 0 <= i < j < |r| ==>
              if order == Asc then !StrLess(r[j].crop, r[i].crop) else !StrLess(r[i].crop, r[j].crop)
  {
    var r := SortedPrices(prices, ByCrop, order);
    SortedPricesRespectCompare(prices, ByCrop, order);
    forall i, j | 0 <= i < j < |r|
      ensures if order == Asc then !StrLess(r[j].crop, r[i].crop) else !StrLess(r[i].crop, r[j].crop)
    {
      assert Compare(ByCrop, order, r[i], r[j]) == -1;
    }
  }

  /**
   * When no two records share the key, every arrangement of the list that the
   * comparator accepts is the model's: the outcome does not depend on which
   * sorting algorithm the engine uses.
   */
  lemma SortedPricesUnique(prices: seq<MarketPrice>, field: SortField, order: Order, r: seq<MarketPrice>)
    requires multiset(r) == multiset(prices)
    requires forall i, j :: 0 <= i < j < |r| ==> Compare(field, order, r[i], r[j]) == -1
    requires forall i, j :: 0 <= i < j < |prices| ==> SortKey(field)(prices[i]) != SortKey(field)(prices[j])
    ensures r == SortedPrices(prices, field, order)
  {
    assert DistinctKeys(prices, SortKey(field));
    SortByUnique(prices, r, SortKey(field), order);
  }

  /**
   * As written, the comparator answers -1 both ways for two records whose keys
   * tie, so it claims each one sorts before the other.
   */
  lemma CompareTieAnswersBothWays(field: SortField, order: Order, a: MarketPrice, b: MarketPrice)
    requires SortKey(field)(a) == SortKey(field)(b)
    ensures Compare(field, order, a, b) == -1 && Compare(field, order, b, a) == -1
    ensures Compare(field, order, a, b) != -Compare(field, order, b, a)
  {
    AfterIrreflexive(order, SortKey(field)(a));
  }

  /** Two maize entries from different markets are such a pair. */
  lemma SameCropComparedBothWays()
    ensures var a := MarketPrice("Maize", 320.0, "USD/tonne", 5.0, "Harare Commodity Exchange", "up");
            var b := MarketPrice("Maize", 300.0, "USD/tonne", 2.0, "Grain Marketing Board", "up");
            a != b && Compare(ByCrop, Asc, a, b) == -1 && Compare(ByCrop, Asc, b, a) == -1
  {
    var a := MarketPrice("Maize", 320.0, "USD/tonne", 5.0, "Harare Commodity Exchange", "up");
    var b := MarketPrice("Maize", 300.0, "USD/tonne", 2.0, "Grain Marketing Board", "up");
    CompareTieAnswersBothWays(ByCrop, Asc, a, b);
  }

  /** The comparator with ties answered by 0, as a sort comparator must be consistent. */
  function ConsistentCompare(field: SortField, order: Order, a: MarketPrice, b: MarketPrice): (c: int)
    ensures c == 1 <==> After(order, SortKey(field)(a), SortKey(field)(b))
    ensures c == -1 <==> After(order, SortKey(field)(b), SortKey(field)(a))
    ensures c == 0 <==> SortKey(field)(a) == SortKey(field)(b)
  {
    var x := SortKey(field)(a);
    var y := SortKey(field)(b);
    AfterIrreflexive(order, x);
    if After(order, x, y) then
      AfterAsymmetric(order, x, y);
      1
    else if After(order, y, x) then
      -1
    else
      (if x != y then AfterTotal(order, x, y); 0 else 0)
  }

  /** Swapping the records negates the answer. */
  lemma ConsistentCompareAntisymmetric(field: SortField, order: Order, a: MarketPrice, b: MarketPrice)
    ensures ConsistentCompare(field, order, a, b) == -ConsistentCompare(field, order, b, a)
  {
    var c := ConsistentCompare(field, order, a, b);
    var d := ConsistentCompare(field, order, b, a);
    assert c == 1 <==> d == -1;
    assert c == 0 <==> d == 0;
  }

  /**
   * The model's sorted list is the stable sort under the consistent comparator:
   * no record comes after one it compares above, and tied records keep their
   * order on the board.
   */
  lemma SortedPricesFollowConsistentCompare(prices: seq<MarketPrice>, field: SortField, order: Order, k: Key)
    ensures var r := SortedPrices(prices, field, order);
            forall i, j :: 0 <= i < j < |r| ==> ConsistentCompare(field, order, r[i], r[j]) <= 0
    ensures Filter(SortedPrices(prices, field, order), (p: MarketPrice) => SortKey(field)(p) == k) ==
            Filter(prices, (p: MarketPrice) => SortKey(field)(p) == k)
  {
    SortByIsSorted(prices, SortKey(field), order);
    SortByIsStable(prices, SortKey(field), order, k, (p: MarketPrice) => SortKey(field)(p) == k);
  }

  /** The `sortBy`/`sortOrder` pair. */
  datatype SortState = SortState(field: SortField, order: Order)

  function Flip(order: Order): Order {
    if order == Asc then Desc else Asc
  }

  /** `handleSort` on values: the state after pressing a sort chip. */
  function Press(s: SortState, pressed: SortField): (r: SortState)
    ensures r.field == pressed
    ensures s.field == pressed ==> r.order != s.order
    ensures s.field != pressed ==> r.order == Asc
  {
    if s.field == pressed then SortState(s.field, Flip(s.order)) else SortState(pressed, Asc)
  }

  /** Pressing the active chip twice restores the state. */
  lemma PressActiveTwice(s: SortState)
    ensures Press(Press(s, s.field), s.field) == s
  {
  }

  /** Pressing another chip twice leaves that chip active in descending order. */
  lemma PressOtherTwice(s: SortState, pressed: SortField)
    requires s.field != pressed
    ensures Press(Press(s, pressed), pressed) == SortState(pressed, Desc)
  {
  }

  /** The screen's sort state, updated in place by the chips. */
  class SortControl {
    var sortBy: SortField
    var sortOrder: Order

    constructor ()
      ensures sortBy == ByCrop && sortOrder == Asc
    {
      sortBy := ByCrop;
      sortOrder := Asc;
    }

    function State(): SortState
      reads this
    {
      SortState(sortBy, sortOrder)
    }

    /** `handleSort`. */
    method HandleSort(newSortBy: SortField)
      modifies this
      ensures State() == Press(old(State()), newSortBy)
      ensures old(sortBy) == newSortBy ==> sortBy == old(sortBy) && sortOrder == Flip(old(sortOrder))
      ensures old(sortBy) != newSortBy ==> sortBy == newSortBy && sortOrder == Asc
    {
      if sortBy == newSortBy {
        sortOrder := if sortOrder == Asc then Desc else Asc;
      } else {
        sortBy := newSortBy;
        sortOrder := Asc;
      }
    }

    /** The list the screen shows. */
    function Shown(prices: seq<MarketPrice>): (r: seq<MarketPrice>)
      reads this
      ensures multiset(r) == multiset(prices)
      ensures forall i, j :: 0 <= i < j < |r| ==> Compare(sortBy, sortOrder, r[i], r[j]) == -1
    {
      SortedPricesRespectCompare(prices, sortBy, sortOrder);
      SortedPrices(prices, sortBy, sortOrder)
    }
  }

  /** `getTrendIcon`. */
  function TrendIcon(trend: string): (icon: string)
    ensures trend == "up" <==> icon == "arrow.up.right"
    ensures trend == "down" <==> icon == "arrow.down.right"
    ensures icon == "minus" <==> trend != "up" && trend != "down"
  {
    match trend
    case "up" => "arrow.up.right"
    case "down" => "arrow.down.right"
    case _ => "minus"
  }

  /** `getTrendColor`. */
  function TrendColor(trend: string): (c: Color)
    ensures trend == "up" <==> c == Success
    ensures trend == "down" <==> c == Error
    ensures c == TextSecondary <==> trend != "up" && trend != "down"
  {
    match trend
    case "up" => Success
    case "down" => Error
    case _ => TextSecondary
  }

  /** The "Rising" figure. */
  function RisingCount(prices: seq<MarketPrice>): (n: nat)
    ensures n == |set i | 0 <= i < |prices| && prices[i].trend == "up"|
  {
    var up := (p: MarketPrice) => p.trend == "up";
    FilterLengthCountsPositions(prices, up);
    assert IndicesWhere(prices, up) == set i | 0 <= i < |prices| && prices[i].trend == "up";
    |Filter(prices, up)|
  }

  /** The "Falling" figure. */
  function FallingCount(prices: seq<MarketPrice>): (n: nat)
    ensures n == |set i | 0 <= i < |prices| && prices[i].trend == "down"|
  {
    var down := (p: MarketPrice) => p.trend == "down";
    FilterLengthCountsPositions(prices, down);
    assert IndicesWhere(prices, down) == set i | 0 <= i < |prices| && prices[i].trend == "down";
    |Filter(prices, down)|
  }

  /** Rising and falling never add up to more than the total. */
  lemma {:induction false} RisingPlusFallingAtMostTotal(prices: seq<MarketPrice>)
    ensures RisingCount(prices) + FallingCount(prices) <= |prices|
    decreases |prices|
  {
    if prices != [] {
      RisingPlusFallingAtMostTotal(prices[1..]);
      assert RisingCount(prices) == (if prices[0].trend == "up" then 1 else 0) + RisingCount(prices[1..]);
      assert FallingCount(prices) == (if prices[0].trend == "down" then 1 else 0) + FallingCount(prices[1..]);
    }
  }

  /** `unit.split('/')[1]`: the text between the first and a second '/', absent without a '/'. */
  function UnitSuffix(unit: string): (r: Option<string>)
    ensures r.Some? <==> '/' in unit
    ensures r.Some? ==> '/' !in r.value
  {
    JoinSplit(unit, '/');
    var parts := Split(unit, '/');
    if |parts| >= 2 then Some(parts[1]) else None
  }

  /** A unit "currency/measure" shows the measure. */
  lemma UnitSuffixOfPair(currency: string, measure: string)
    requires '/' !in currency && '/' !in measure
    ensures UnitSuffix(currency + "/" + measure) == Some(measure)
  {
    assert Join([measure], '/') == measure;
    assert Join([currency, measure], '/') == currency + "/" + measure;
    SplitJoin([currency, measure], '/');
  }

  /** Without a '/' there is no suffix. */
  lemma UnitSuffixWithoutSlash(unit: string)
    requires '/' !in unit
    ensures UnitSuffix(unit) == None
  {
    SplitNoSeparator(unit, '/');
  }

  /** The sample price board. */
  const SamplePrices: seq<MarketPrice> := [
    MarketPrice("Maize", 320.0, "USD/tonne", 5.0, "Harare Commodity Exchange", "up"),
    MarketPrice("Tobacco", 4200.0, "USD/tonne", 12.0, "Tobacco Sales Floor", "up"),
    MarketPrice("Cotton", 1800.0, "USD/tonne", -3.0, "Cotton Marketing Board", "down"),
    MarketPrice("Soybean", 450.0, "USD/tonne", 8.0, "Harare Commodity Exchange", "up"),
    MarketPrice("Wheat", 380.0, "USD/tonne", 2.0, "Grain Marketing Board", "up"),
    MarketPrice("Barley", 290.0, "USD/tonne", -1.0, "Grain Marketing Board", "down")
  ]

  /** The sample unit "USD/tonne" reads "tonne". */
  lemma SampleUnit()
    ensures UnitSuffix("USD/tonne") == Some("tonne")
  {
    assert "USD" + "/" + "tonne" == "USD/tonne";
    UnitSuffixOfPair("USD", "tonne");
  }

  /** On the sample board no two prices and no two changes tie. */
  lemma SampleKeysDistinct()
    ensures forall i, j :: 0 <= i < j < |SamplePrices| ==> SamplePrices[i].price != SamplePrices[j].price
    ensures forall i, j :: 0 <= i < j < |SamplePrices| ==> SamplePrices[i].change != SamplePrices[j].change
  {
  }
}
