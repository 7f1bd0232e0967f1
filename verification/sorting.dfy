/**
 * Stable sorting on values and the string order used for name columns.
 * JavaScript's `Array.prototype.sort` is stable, and an SQL `ORDER BY` over
 * unique names is a total order, so both are modelled by one insertion sort
 * parameterised by a "less than or equal" relation.
 */
module Sorting {

  /** `le` is total and transitive: a key order, ties allowed. */
  ghost predicate TotalPreorder<T(!new)>(le: (T, T) -> bool) {
    (forall a, b :: le(a, b) || le(b, a)) &&
    (forall a, b, c :: le(a, b) && le(b, c) ==> le(a, c))
  }

  predicate SortedBy<T>(s: seq<T>, le: (T, T) -> bool) {
    forall i, j :: 0 <= i < j < |s| ==> le(s[i], s[j])
  }

  /** The elements of `s` that tie with `c` under `le`, in their order in `s`. */
  function Ties<T>(s: seq<T>, c: T, le: (T, T) -> bool): seq<T> {
    if s == [] then []
    else (if le(s[0], c) && le(c, s[0]) then [s[0]] else []) + Ties(s[1..], c, le)
  }

  /** Puts `x` in front of the first element it does not exceed. */
  function Insert<T>(x: T, s: seq<T>, le: (T, T) -> bool): seq<T> {
    if s == [] || le(x, s[0]) then [x] + s else [s[0]] + Insert(x, s[1..], le)
  }

  function InsertionSort<T>(s: seq<T>, le: (T, T) -> bool): seq<T> {
    if s == [] then [] else Insert(s[0], InsertionSort(s[1..], le), le)
  }

  lemma {:induction false} InsertPermutes<T>(x: T, s: seq<T>, le: (T, T) -> bool)
    ensures multiset(Insert(x, s, le)) == multiset(s) + multiset{x}
  {
    if s != [] && !le(x, s[0]) {
      InsertPermutes(x, s[1..], le);
      assert s == [s[0]] + s[1..];
    }
  }

  lemma {:induction false} InsertSorted<T(!new)>(x: T, s: seq<T>, le: (T, T) -> bool)
    requires TotalPreorder(le) && SortedBy(s, le)
    ensures SortedBy(Insert(x, s, le), le)
  {
    if s != [] && !le(x, s[0]) {
      InsertSorted(x, s[1..], le);
      InsertPermutes(x, s[1..], le);
      var r := Insert(x, s[1..], le);
      forall k | 0 <= k < |r| ensures le(s[0], r[k]) {
        assert r[k] in multiset(r);
        assert r[k] == x || r[k] in multiset(s[1..]);
      }
    }
  }

  lemma {:induction false} InsertKeepsTies<T(!new)>(x: T, s: seq<T>, c: T, le: (T, T) -> bool)
    requires TotalPreorder(le)
    ensures Ties(Insert(x, s, le), c, le) ==
            (if le(x, c) && le(c, x) then [x] else []) + Ties(s, c, le)
  {
    var tx := if le(x, c) && le(c, x) then [x] else [];
    if s == [] || le(x, s[0]) {
      assert ([x] + s)[1..] == s;
    } else {
      var r := Insert(x, s[1..], le);
      var t0 := if le(s[0], c) && le(c, s[0]) then [s[0]] else [];
      InsertKeepsTies(x, s[1..], c, le);
      assert ([s[0]] + r)[1..] == r;
      assert Ties(Insert(x, s, le), c, le) == t0 + (tx + Ties(s[1..], c, le));
      assert Ties(s, c, le) == t0 + Ties(s[1..], c, le);
      // x passed s[0], so x and s[0] cannot both tie with c.
      var s0 := s[0];
      assert le(x, c) && le(c, s0) ==> le(x, s0);
      assert t0 == [] || tx == [];
    }
  }

  /** Sorting permutes its input. */
  lemma {:induction false} SortPermutes<T>(s: seq<T>, le: (T, T) -> bool)
    ensures multiset(InsertionSort(s, le)) == multiset(s)
  {
    if s != [] {
      SortPermutes(s[1..], le);
      InsertPermutes(s[0], InsertionSort(s[1..], le), le);
      assert s == [s[0]] + s[1..];
    }
  }

  /** Sorting orders its output. */
  lemma {:induction false} SortSorts<T(!new)>(s: seq<T>, le: (T, T) -> bool)
    requires TotalPreorder(le)
    ensures SortedBy(InsertionSort(s, le), le)
  {
    if s != [] {
      SortSorts(s[1..], le);
      InsertSorted(s[0], InsertionSort(s[1..], le), le);
    }
  }

  /** Sorting is stable: elements with equal keys keep their relative order. */
  lemma {:induction false} SortStable<T(!new)>(s: seq<T>, c: T, le: (T, T) -> bool)
    requires TotalPreorder(le)
    ensures Ties(InsertionSort(s, le), c, le) == Ties(s, c, le)
  {
    if s != [] {
      SortStable(s[1..], c, le);
      SortSorts(s[1..], le);
      InsertKeepsTies(s[0], InsertionSort(s[1..], le), c, le);
    }
  }

  /** Lexicographic order on strings by code point (the "C" collation). */
  predicate StrLe(a: string, b: string) {
    if a == [] then true
    else if b == [] then false
    else if a[0] != b[0] then a[0] < b[0]
    else StrLe(a[1..], b[1..])
  }

  lemma {:induction false} StrLeTotal(a: string, b: string)
    ensures StrLe(a, b) || StrLe(b, a)
  {
    if a != [] && b != [] && a[0] == b[0] {
      StrLeTotal(a[1..], b[1..]);
    }
  }

  lemma {:induction false} StrLeTransitive(a: string, b: string, c: string)
    requires StrLe(a, b) && StrLe(b, c)
    ensures StrLe(a, c)
  {
    if a != [] && b != [] && c != [] && a[0] == b[0] && b[0] == c[0] {
      StrLeTransitive(a[1..], b[1..], c[1..]);
    }
  }
}
