/** Array sorting with a comparator: stable, as the language standard requires. */
module Ordering {
  import opened Common

  ghost predicate TotalPreorder<T(!new)>(le: (T, T) -> bool) {
    && (forall a, b :: le(a, b) || le(b, a))
    && (forall a, b, c :: le(a, b) && le(b, c) ==> le(a, c))
  }

  ghost predicate SortedBy<T>(s: seq<T>, le: (T, T) -> bool) {
    forall i, j | 0 <= i < j < |s| :: le(s[i], s[j])
  }

  function InsertSorted<T>(x: T, s: seq<T>, le: (T, T) -> bool): (r: seq<T>)
    ensures multiset(r) == multiset{x} + multiset(s)
    ensures |r| == |s| + 1
  {
    if s == [] || le(x, s[0]) then [x] + s
    else
      assert s == [s[0]] + s[1..];
      [s[0]] + InsertSorted(x, s[1..], le)
  }

  function StableSort<T>(s: seq<T>, le: (T, T) -> bool): (r: seq<T>)
    ensures multiset(r) == multiset(s)
    ensures |r| == |s|
  {
    if s == [] then []
    else
      assert s == [s[0]] + s[1..];
      InsertSorted(s[0], StableSort(s[1..], le), le)
  }

  lemma SameMembers<T>(s: seq<T>, t: seq<T>)
    requires multiset(s) == multiset(t)
    ensures forall x :: x in s <==> x in t
  {
    forall x
      ensures x in s <==> x in t
    {
      assert x in s <==> x in multiset(s);
      assert x in t <==> x in multiset(t);
    }
  }

  lemma {:induction false} InsertKeepsOrder<T(!new)>(x: T, s: seq<T>, le: (T, T) -> bool)
    requires TotalPreorder(le) && SortedBy(s, le)
    ensures SortedBy(InsertSorted(x, s, le), le)
  {
    if s != [] && !le(x, s[0]) {
      var r := InsertSorted(x, s[1..], le);
      InsertKeepsOrder(x, s[1..], le);
      SameMembers(r, [x] + s[1..]);
      forall j | 0 <= j < |r|
        ensures le(s[0], r[j])
      {
        assert r[j] in r;
      }
    }
  }

  lemma {:induction false} SortSorts<T(!new)>(s: seq<T>, le: (T, T) -> bool)
    requires TotalPreorder(le)
    ensures SortedBy(StableSort(s, le), le)
  {
    if s != [] {
      SortSorts(s[1..], le);
      InsertKeepsOrder(s[0], StableSort(s[1..], le), le);
    }
  }

  function TiedWith<T>(le: (T, T) -> bool, pivot: T): T -> bool {
    x => le(x, pivot) && le(pivot, x)
  }

  lemma TiedAreEqual<T(!new)>(le: (T, T) -> bool, pivot: T)
    requires TotalPreorder(le)
    ensures forall a, b :: TiedWith(le, pivot)(a) && TiedWith(le, pivot)(b) ==> le(a, b)
  {
  }

  /** Elements that compare equal keep their relative order. */
  lemma {:induction false} SortIsStable<T(!new)>(s: seq<T>, le: (T, T) -> bool, pivot: T)
    requires TotalPreorder(le)
    ensures Filter(StableSort(s, le), TiedWith(le, pivot)) == Filter(s, TiedWith(le, pivot))
  {
    if s != [] {
      SortIsStable(s[1..], le, pivot);
      TiedAreEqual(le, pivot);
      InsertIsStable(s[0], StableSort(s[1..], le), le, TiedWith(le, pivot));
      assert s == [s[0]] + s[1..];
      FilterConcat([s[0]], s[1..], TiedWith(le, pivot));
      assert StableSort(s, le) == InsertSorted(s[0], StableSort(s[1..], le), le);
    }
  }

  lemma {:induction false} InsertIsStable<T(!new)>(x: T, s: seq<T>, le: (T, T) -> bool, tied: T -> bool)
    requires forall a, b :: tied(a) && tied(b) ==> le(a, b)
    ensures Filter(InsertSorted(x, s, le), tied) == Filter([x], tied) + Filter(s, tied)
  {
    if s == [] || le(x, s[0]) {
      FilterConcat([x], s, tied);
    } else {
      InsertIsStable(x, s[1..], le, tied);
      var rest := InsertSorted(x, s[1..], le);
      FilterCons(s[0], rest, tied);
      FilterCons(s[0], s[1..], tied);
      FilterCons(x, [], tied);
      assert s == [s[0]] + s[1..];
      if tied(x) {
        assert !tied(s[0]);
      }
    }
  }

  lemma FilterCons<T>(x: T, s: seq<T>, p: T -> bool)
    ensures Filter([x] + s, p) == (if p(x) then [x] else []) + Filter(s, p)
    ensures s == [] ==> Filter([x], p) == if p(x) then [x] else []
  {
    assert ([x] + s)[1..] == s;
    assert s == [] ==> [x] + s == [x];
  }
}
