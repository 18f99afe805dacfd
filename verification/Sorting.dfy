/** Sorting by a comparator, in the place of slices.SortFunc. A list without ties has
    one sorted order, so which algorithm finds it does not matter. */
module Sorting {

  /** cmp is a preorder's three-way comparison: it flips sign with its arguments, and
      below is transitive. */
  ghost predicate Orders<T(!new)>(cmp: (T, T) -> int) {
    (forall a, b :: cmp(a, b) < 0 <==> cmp(b, a) > 0)
    && (forall a, b, c :: cmp(a, b) < 0 && cmp(b, c) < 0 ==> cmp(a, c) < 0)
  }

  /** No two places of s compare equal. */
  ghost predicate Apart<T>(cmp: (T, T) -> int, s: seq<T>) {
    forall i, k :: 0 <= i < k < |s| ==> cmp(s[i], s[k]) != 0
  }

  ghost predicate SortedBy<T>(cmp: (T, T) -> int, s: seq<T>) {
    forall i, k :: 0 <= i < k < |s| ==> cmp(s[i], s[k]) < 0
  }

  function Insert<T>(cmp: (T, T) -> int, x: T, s: seq<T>): (r: seq<T>)
    ensures multiset(r) == multiset(s) + multiset{x}
  {
    if s == [] || cmp(x, s[0]) < 0 then [x] + s
    else assert s == [s[0]] + s[1..]; [s[0]] + Insert(cmp, x, s[1..])
  }

  function Sort<T>(cmp: (T, T) -> int, s: seq<T>): (r: seq<T>)
    ensures multiset(r) == multiset(s)
  {
    if s == [] then []
    else
      assert s == s[..|s| - 1] + [s[|s| - 1]];
      Insert(cmp, s[|s| - 1], Sort(cmp, s[..|s| - 1]))
  }

  lemma SameElements<T>(r: seq<T>, s: seq<T>)
    requires multiset(r) == multiset(s)
    ensures |r| == |s| && forall x :: x in r <==> x in s
  {
    assert |multiset(r)| == |r| && |multiset(s)| == |s|;
    forall x ensures x in r <==> x in s {
      assert x in multiset(r) <==> x in r;
      assert x in multiset(s) <==> x in s;
    }
  }

  lemma {:induction false} InsertSorts<T(!new)>(cmp: (T, T) -> int, x: T, s: seq<T>)
    requires Orders(cmp) && SortedBy(cmp, s) && forall i :: 0 <= i < |s| ==> cmp(s[i], x) != 0
    ensures SortedBy(cmp, Insert(cmp, x, s))
  {
    if s != [] && !(cmp(x, s[0]) < 0) {
      InsertSorts(cmp, x, s[1..]);
      HeadBelow(cmp, x, s, Insert(cmp, x, s[1..]));
    }
  }

  lemma HeadBelow<T(!new)>(cmp: (T, T) -> int, x: T, s: seq<T>, r: seq<T>)
    requires Orders(cmp) && SortedBy(cmp, s) && s != [] && cmp(s[0], x) != 0 && !(cmp(x, s[0]) < 0)
    requires multiset(r) == multiset(s[1..]) + multiset{x}
    ensures forall k :: 0 <= k < |r| ==> cmp(s[0], r[k]) < 0
  {
    assert multiset(r) == multiset(s[1..] + [x]);
    SameElements(r, s[1..] + [x]);
    forall k | 0 <= k < |r| ensures cmp(s[0], r[k]) < 0 {
      assert r[k] in s[1..] + [x];
    }
  }

  lemma {:induction false} SortSorts<T(!new)>(cmp: (T, T) -> int, s: seq<T>)
    requires Orders(cmp) && Apart(cmp, s)
    ensures SortedBy(cmp, Sort(cmp, s))
  {
    if s != [] {
      var front, last := s[..|s| - 1], s[|s| - 1];
      SortSorts(cmp, front);
      SameElements(Sort(cmp, front), front);
      forall y | y in Sort(cmp, front) ensures cmp(y, last) != 0 {
        assert y in front;
      }
      InsertSorts(cmp, last, Sort(cmp, front));
    }
  }

  lemma HeadsMeet<T(!new)>(cmp: (T, T) -> int, r: seq<T>, s: seq<T>)
    requires Orders(cmp) && SortedBy(cmp, r) && SortedBy(cmp, s) && r != [] && s != []
    requires r[0] in s && s[0] in r
    ensures r[0] == s[0]
  {
    var i :| 0 <= i < |s| && s[i] == r[0];
    var k :| 0 <= k < |r| && r[k] == s[0];
  }

  lemma TailOf<T(!new)>(cmp: (T, T) -> int, s: seq<T>, x: T)
    requires Orders(cmp) && SortedBy(cmp, s) && s != []
    ensures x in s[1..] <==> x in s && x != s[0]
  {
    assert s == [s[0]] + s[1..];
    if x in s[1..] {
      var i :| 0 <= i < |s[1..]| && s[1..][i] == x;
      assert s[i + 1] == x && cmp(s[0], s[i + 1]) < 0;
    }
  }

  /** Two sorted lists of the same elements are the same list. */
  lemma {:induction false} SortedUnique<T(!new)>(cmp: (T, T) -> int, r: seq<T>, s: seq<T>)
    requires Orders(cmp) && SortedBy(cmp, r) && SortedBy(cmp, s)
    requires forall x :: x in r <==> x in s
    ensures r == s
  {
    assert r != [] ==> r[0] in s;
    assert s != [] ==> s[0] in r;
    if r != [] && s != [] {
      HeadsMeet(cmp, r, s);
      forall x ensures x in r[1..] <==> x in s[1..] { TailOf(cmp, r, x); TailOf(cmp, s, x); }
      SortedUnique(cmp, r[1..], s[1..]);
      assert r == [r[0]] + r[1..] && s == [s[0]] + s[1..];
    }
  }
}
