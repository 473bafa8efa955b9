/**
 * `[...xs].sort(compare)` for the comparators the screens pass: every one reads
 * a single key from each record and orders by it, ascending or descending.
 *
 * JavaScript's sort is stable, so the model is a stable insertion sort: records
 * whose keys tie keep their input order. `SortedUnique` shows that when no two
 * keys tie, no other order is possible, so the result does not depend on the
 * sorting algorithm.
 */
module Sorting {
  import Text
  import opened Lists

  /** The value a comparator reads from a record: a number or a string. */
  datatype Key = Num(n: real) | Str(s: string)

  /**
   * JavaScript's `<` on two keys of the same kind. A single sort never mixes
   * the two kinds; numbers are put first so that the order is total.
   */
  predicate KeyLess(a: Key, b: Key) {
    match (a, b)
    case (Num(x), Num(y)) => x < y
    case (Str(x), Str(y)) => Text.StrLess(x, y)
    case (Num(_), Str(_)) => true
    case (Str(_), Num(_)) => false
  }

  lemma KeyLessIrreflexive(a: Key)
    ensures !KeyLess(a, a)
  {
    if a.Str? {
      Text.StrLessIrreflexive(a.s);
    }
  }

  lemma KeyLessTransitive(a: Key, b: Key, c: Key)
    requires KeyLess(a, b) && KeyLess(b, c)
    ensures KeyLess(a, c)
  {
    if a.Str? && b.Str? && c.Str? {
      Text.StrLessTransitive(a.s, b.s, c.s);
    }
  }

  lemma KeyLessTotal(a: Key, b: Key)
    requires a != b
    ensures KeyLess(a, b) || KeyLess(b, a)
  {
    if a.Str? && b.Str? {
      Text.StrLessTotal(a.s, b.s);
    }
  }

  datatype Order = Asc | Desc

  /** Under `order`, a record with key `a` belongs strictly after one with key `b`. */
  predicate After(order: Order, a: Key, b: Key) {
    if order == Asc then KeyLess(b, a) else KeyLess(a, b)
  }

  lemma AfterIrreflexive(order: Order, a: Key)
    ensures !After(order, a, a)
  {
    KeyLessIrreflexive(a);
  }

  lemma AfterTransitive(order: Order, a: Key, b: Key, c: Key)
    requires After(order, a, b) && After(order, b, c)
    ensures After(order, a, c)
  {
    if order == Asc {
      KeyLessTransitive(c, b, a);
    } else {
      KeyLessTransitive(a, b, c);
    }
  }

  lemma AfterAsymmetric(order: Order, a: Key, b: Key)
    requires After(order, a, b)
    ensures !After(order, b, a)
  {
    if After(order, b, a) {
      AfterTransitive(order, a, b, a);
      AfterIrreflexive(order, a);
    }
  }

  /** Two different keys are always ordered one way or the other. */
  lemma AfterTotal(order: Order, a: Key, b: Key)
    requires a != b
    ensures After(order, a, b) || After(order, b, a)
  {
    KeyLessTotal(a, b);
  }

  /** No record of `r` belongs strictly after a record that follows it. */
  ghost predicate SortedBy<T>(r: seq<T>, key: T -> Key, order: Order) {
    forall i, j :: 0 <= i < j < |r| ==> !After(order, key(r[i]), key(r[j]))
  }

  /** Inserts `x` into a sorted list after every record it does not belong before. */
  function Insert<T>(x: T, s: seq<T>, key: T -> Key, order: Order): (r: seq<T>)
    ensures multiset(r) == multiset(s) + multiset{x}
    ensures |r| == |s| + 1
    decreases |s|
  {
    if s == [] then [x]
    else if After(order, key(s[0]), key(x)) then [x] + s
    else
      assert s == [s[0]] + s[1..];
      [s[0]] + Insert(x, s[1..], key, order)
  }

  /** The sorted copy `[...s].sort(compare)`. */
  function SortBy<T>(s: seq<T>, key: T -> Key, order: Order): (r: seq<T>)
    ensures multiset(r) == multiset(s)
    ensures |r| == |s|
    decreases |s|
  {
    if s == [] then []
    else
      assert s == s[..|s| - 1] + [s[|s| - 1]];
      Insert(s[|s| - 1], SortBy(s[..|s| - 1], key, order), key, order)
  }

  lemma {:induction false} InsertSorted<T>(x: T, s: seq<T>, key: T -> Key, order: Order)
    requires SortedBy(s, key, order)
    ensures SortedBy(Insert(x, s, key, order), key, order)
    decreases |s|
  {
    if s == [] {
    } else if After(order, key(s[0]), key(x)) {
      var r := [x] + s;
      forall i, j | 0 <= i < j < |r|
        ensures !After(order, key(r[i]), key(r[j]))
      {
        if i == 0 {
          if j == 1 {
            AfterAsymmetric(order, key(s[0]), key(x));
          } else if After(order, key(x), key(s[j - 1])) {
            AfterTransitive(order, key(s[0]), key(x), key(s[j - 1]));
          }
        }
      }
    } else {
      var rest := Insert(x, s[1..], key, order);
      InsertSorted(x, s[1..], key, order);
      var r := [s[0]] + rest;
      forall i, j | 0 <= i < j < |r|
        ensures !After(order, key(r[i]), key(r[j]))
      {
        if i == 0 {
          var z := rest[j - 1];
          assert z in multiset(rest);
          assert z == x || z in multiset(s[1..]);
          if z != x {
            var m :| 0 <= m < |s[1..]| && s[1..][m] == z;
            assert s[m + 1] == z;
          }
        }
      }
    }
  }

  /** The sorted copy really is in order. */
  lemma {:induction false} SortByIsSorted<T>(s: seq<T>, key: T -> Key, order: Order)
    ensures SortedBy(SortBy(s, key, order), key, order)
    decreases |s|
  {
    if s != [] {
      SortByIsSorted(s[..|s| - 1], key, order);
      InsertSorted(s[|s| - 1], SortBy(s[..|s| - 1], key, order), key, order);
    }
  }

  /** A sorted list stays sorted once its first record is dropped. */
  lemma SortedTail<T>(s: seq<T>, key: T -> Key, order: Order)
    requires s != [] && SortedBy(s, key, order)
    ensures SortedBy(s[1..], key, order)
  {
    forall i, j | 0 <= i < j < |s[1..]|
      ensures !After(order, key(s[1..][i]), key(s[1..][j]))
    {
      assert s[1..][i] == s[i + 1] && s[1..][j] == s[j + 1];
    }
  }

  /** When `x` goes in front of a sorted list, no record of the list shares its key. */
  lemma NoTieBehindFront<T>(x: T, s: seq<T>, key: T -> Key, order: Order, p: T -> bool)
    requires SortedBy(s, key, order)
    requires s != [] && After(order, key(s[0]), key(x))
    requires forall y :: p(y) <==> key(y) == key(x)
    ensures Filter(s, p) == []
  {
    forall m | 0 <= m < |s|
      ensures !p(s[m])
    {
      if m == 0 {
        AfterIrreflexive(order, key(x));
      } else {
        assert !After(order, key(s[0]), key(s[m]));
      }
    }
    FilterKeepsNone(s, p);
  }

  /**
   * Inserting into a sorted list puts `x` after every record whose key equals
   * its own; `p` selects the records with key `k`.
   */
  lemma {:induction false} InsertKeepsTies<T>(x: T, s: seq<T>, key: T -> Key, order: Order,
                                              k: Key, p: T -> bool)
    requires SortedBy(s, key, order)
    requires forall y :: p(y) <==> key(y) == k
    ensures Filter(Insert(x, s, key, order), p) ==
            Filter(s, p) + (if key(x) == k then [x] else [])
    decreases |s|
  {
    if s == [] {
      FilterCons(x, [], p);
      assert [x] + [] == [x];
    } else if After(order, key(s[0]), key(x)) {
      FilterCons(x, s, p);
      if key(x) == k {
        NoTieBehindFront(x, s, key, order, p);
      }
    } else {
      SortedTail(s, key, order);
      InsertKeepsTies(x, s[1..], key, order, k, p);
      TiesPassHead(x, s, key, order, p, if key(x) == k then [x] else []);
    }
  }

  /** Passing over the first record of `s` adds that record in front on both sides. */
  lemma TiesPassHead<T>(x: T, s: seq<T>, key: T -> Key, order: Order, p: T -> bool, tail: seq<T>)
    requires s != [] && !After(order, key(s[0]), key(x))
    requires Filter(Insert(x, s[1..], key, order), p) == Filter(s[1..], p) + tail
    ensures Filter(Insert(x, s, key, order), p) == Filter(s, p) + tail
  {
    assert Insert(x, s, key, order) == [s[0]] + Insert(x, s[1..], key, order);
    assert [s[0]] + s[1..] == s;
    FilterConsKeepsTail(s[0], Insert(x, s[1..], key, order), s[1..], p, tail);
  }

  /** Sorting a list adds its last record after the sorted records that share its key. */
  lemma SortByLastKeepsTies<T>(s: seq<T>, key: T -> Key, order: Order, k: Key, p: T -> bool)
    requires s != []
    requires forall y :: p(y) <==> key(y) == k
    ensures Filter(SortBy(s, key, order), p) ==
            Filter(SortBy(s[..|s| - 1], key, order), p) + (if key(s[|s| - 1]) == k then [s[|s| - 1]] else [])
  {
    var sortedInit := SortBy(s[..|s| - 1], key, order);
    assert SortBy(s, key, order) == Insert(s[|s| - 1], sortedInit, key, order);
    SortByIsSorted(s[..|s| - 1], key, order);
    InsertKeepsTies(s[|s| - 1], sortedInit, key, order, k, p);
  }

  /** Filtering a non-empty list filters all but its last element, then looks at that one. */
  lemma FilterLast<T>(s: seq<T>, p: T -> bool)
    requires s != []
    ensures Filter(s, p) == Filter(s[..|s| - 1], p) + (if p(s[|s| - 1]) then [s[|s| - 1]] else [])
  {
    var last := s[|s| - 1];
    FilterCons(last, [], p);
    assert [last] + [] == [last];
    FilterConcat(s[..|s| - 1], [last], p);
    assert s == s[..|s| - 1] + [last];
  }

  /**
   * Stability: the records that share any one key `k` (those `p` selects)
   * come out in their input order.
   */
  lemma {:induction false} SortByIsStable<T>(s: seq<T>, key: T -> Key, order: Order,
                                             k: Key, p: T -> bool)
    requires forall y :: p(y) <==> key(y) == k
    ensures Filter(SortBy(s, key, order), p) == Filter(s, p)
    decreases |s|
  {
    if s != [] {
      SortByIsStable(s[..|s| - 1], key, order, k, p);
      SortByLastKeepsTies(s, key, order, k, p);
      FilterLast(s, p);
      assert p(s[|s| - 1]) <==> key(s[|s| - 1]) == k;
    }
  }

  /** No two records of `s` have the same key. */
  ghost predicate DistinctKeys<T>(s: seq<T>, key: T -> Key) {
    forall i, j :: 0 <= i < j < |s| ==> key(s[i]) != key(s[j])
  }

  /** Two sorted permutations of a list with distinct keys start with the same record. */
  lemma SortedSameHead<T>(a: seq<T>, b: seq<T>, key: T -> Key, order: Order)
    requires a != [] && b != [] && multiset(a) == multiset(b)
    requires SortedBy(a, key, order) && SortedBy(b, key, order)
    requires DistinctKeys(a, key)
    ensures a[0] == b[0]
  {
    assert b[0] in multiset(a) && a[0] in multiset(b);
    var m :| 0 <= m < |a| && a[m] == b[0];
    var n :| 0 <= n < |b| && b[n] == a[0];
    if m != 0 && n != 0 {
      assert !After(order, key(a[0]), key(a[m]));
      assert !After(order, key(b[0]), key(b[n]));
      assert key(a[0]) != key(a[m]);
      AfterTotal(order, key(a[0]), key(b[0]));
      assert false;
    }
  }

  /** A list with distinct keys keeps them once its first record is dropped. */
  lemma DistinctKeysTail<T>(s: seq<T>, key: T -> Key)
    requires s != [] && DistinctKeys(s, key)
    ensures DistinctKeys(s[1..], key)
  {
    forall i, j | 0 <= i < j < |s[1..]|
      ensures key(s[1..][i]) != key(s[1..][j])
    {
      assert s[1..][i] == s[i + 1] && s[1..][j] == s[j + 1];
    }
  }

  /**
   * When keys are distinct, a sorted permutation is unique: any sort that
   * respects the comparator yields the same list as the model.
   */
  lemma {:induction false} SortedUnique<T>(a: seq<T>, b: seq<T>, key: T -> Key, order: Order)
    requires multiset(a) == multiset(b)
    requires SortedBy(a, key, order) && SortedBy(b, key, order)
    requires DistinctKeys(a, key)
    ensures a == b
    decreases |a|
  {
    assert |a| == |multiset(a)| == |multiset(b)| == |b|;
    if a != [] {
      SortedSameHead(a, b, key, order);
      assert a == [a[0]] + a[1..] && b == [b[0]] + b[1..];
      assert multiset(a[1..]) == multiset(a) - multiset{a[0]};
      assert multiset(b[1..]) == multiset(b) - multiset{b[0]};
      SortedTail(a, key, order);
      SortedTail(b, key, order);
      DistinctKeysTail(a, key);
      SortedUnique(a[1..], b[1..], key, order);
    }
  }

  /** The model's sort is the only sorted permutation when keys are distinct. */
  lemma SortByUnique<T>(s: seq<T>, r: seq<T>, key: T -> Key, order: Order)
    requires multiset(r) == multiset(s) && SortedBy(r, key, order)
    requires DistinctKeys(s, key)
    ensures r == SortBy(s, key, order)
  {
    var m := SortBy(s, key, order);
    SortByIsSorted(s, key, order);
    PermutationKeepsDistinctKeys(s, m, key);
    SortedUnique(m, r, key, order);
  }

  /** With distinct keys, no record occurs twice. */
  lemma {:induction false} DistinctKeysOnce<T>(s: seq<T>, key: T -> Key, x: T)
    requires DistinctKeys(s, key)
    ensures multiset(s)[x] <= 1
    decreases |s|
  {
    if s != [] {
      assert s == [s[0]] + s[1..];
      DistinctKeysTail(s, key);
      DistinctKeysOnce(s[1..], key, x);
      if x == s[0] {
        assert x !in s[1..] by {
          forall c | 0 <= c < |s[1..]|
            ensures s[1..][c] != x
          {
            assert s[1..][c] == s[c + 1];
          }
        }
      }
    }
  }

  /** A record at two positions occurs at least twice. */
  lemma RepeatedRecord<T>(m: seq<T>, i: int, j: int)
    requires 0 <= i < j < |m| && m[i] == m[j]
    ensures multiset(m)[m[i]] >= 2
  {
    assert m == m[..i] + [m[i]] + m[i + 1..j] + [m[j]] + m[j + 1..];
  }

  /** A list in which no record occurs twice holds different records at different positions. */
  lemma DifferentRecords<T>(m: seq<T>, i: int, j: int)
    requires 0 <= i < j < |m|
    requires forall x :: multiset(m)[x] <= 1
    ensures m[i] != m[j]
  {
    if m[i] == m[j] {
      RepeatedRecord(m, i, j);
      assert false;
    }
  }

  /** A permutation of a list with distinct keys has distinct keys. */
  lemma PermutationKeepsDistinctKeys<T>(s: seq<T>, m: seq<T>, key: T -> Key)
    requires multiset(m) == multiset(s) && DistinctKeys(s, key)
    ensures DistinctKeys(m, key)
  {
    forall x
      ensures multiset(m)[x] <= 1
    {
      DistinctKeysOnce(s, key, x);
    }
    forall i, j | 0 <= i < j < |m|
      ensures key(m[i]) != key(m[j])
    {
      DifferentRecords(m, i, j);
      assert m[i] in multiset(s) && m[j] in multiset(s);
      var a :| 0 <= a < |s| && s[a] == m[i];
      var b :| 0 <= b < |s| && s[b] == m[j];
      assert a != b;
    }
  }
}
