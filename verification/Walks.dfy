/** Keyset pagination in the abstract: sorted lists of M paged by cursors of type C,
    with a new list for every page. Pagination applies it to Search. */
module Walks {
  import opened Basics
  import S = Sorting

  /** cmp is the sort comparator, after the cursor test, cursor what a row's cursor is,
      and limit the page size. */
  datatype Paging<!M, !C> = Paging(cmp: (M, M) -> int, after: (M, C) -> bool, cursor: M -> C, good: M -> bool, limit: nat)

  datatype Page<M, C> = Page(rows: seq<M>, next: Option<C>)

  /** The cursor test on a row agrees with the comparator. */
  ghost predicate Agrees<M(!new), C>(e: Paging<M, C>) {
    e.limit > 0 && S.Orders(e.cmp)
    && forall x, m :: e.good(x) && e.good(m) ==> (e.after(m, e.cursor(x)) <==> e.cmp(x, m) < 0)
  }

  ghost predicate OnList<M, C>(e: Paging<M, C>, l: seq<M>) {
    S.SortedBy(e.cmp, l) && forall i :: 0 <= i < |l| ==> e.good(l[i])
  }

  /** d is the first place of l after cursor c. */
  predicate IsOffset<M, C>(e: Paging<M, C>, l: seq<M>, c: Option<C>, d: nat) {
    d <= |l|
    && (c.None? ==> d == 0)
    && (c.Some? ==> (forall i :: 0 <= i < d ==> !e.after(l[i], c.value)) && (d < |l| ==> e.after(l[d], c.value)))
  }

  /** The page that begins at place d of l. */
  function Slice<M, C>(e: Paging<M, C>, l: seq<M>, d: nat): Page<M, C>
    requires d <= |l| && e.limit > 0
  {
    if |l| - d > e.limit then Page(l[d..d + e.limit], Some(e.cursor(l[d + e.limit - 1]))) else Page(l[d..], None)
  }

  function CursorAt<M, C>(pages: seq<Page<M, C>>, i: nat): Option<C>
    requires i <= |pages|
  {
    if i == 0 then None else pages[i - 1].next
  }

  ghost predicate PageOK<M, C>(e: Paging<M, C>, l: seq<M>, pages: seq<Page<M, C>>, i: nat, d: nat)
    requires i < |pages|
  {
    e.limit > 0 && OnList(e, l) && IsOffset(e, l, CursorAt(pages, i), d) && pages[i] == Slice(e, l, d)
    && (i + 1 < |pages| ==> pages[i].next.Some?)
  }

  /** One page per list, each asked for at the cursor that the page before returned. */
  ghost predicate IsWalk<M, C>(e: Paging<M, C>, lists: seq<seq<M>>, ds: seq<nat>, pages: seq<Page<M, C>>) {
    |pages| == |lists| == |ds| > 0 && forall i :: 0 <= i < |pages| ==> PageOK(e, lists[i], pages, i, ds[i])
  }

  ghost predicate Complete<M, C>(pages: seq<Page<M, C>>) {
    pages != [] && pages[|pages| - 1].next.None?
  }

  // ------------------------------------------------------------------
  // Returned keys advance

  /** The last row of page i - 1, which the cursor of page i was made from. */
  predicate HasFrom<M(==), C(==)>(e: Paging<M, C>, pages: seq<Page<M, C>>, i: nat)
    requires 0 < i <= |pages|
  {
    var rows := pages[i - 1].rows;
    rows != [] && e.good(rows[|rows| - 1]) && pages[i - 1].next == Some(e.cursor(rows[|rows| - 1]))
  }

  function From<M, C>(pages: seq<Page<M, C>>, i: nat): M
    requires 0 < i <= |pages| && pages[i - 1].rows != []
  {
    pages[i - 1].rows[|pages[i - 1].rows| - 1]
  }

  lemma FromFits<M, C>(e: Paging<M, C>, l: seq<M>, pages: seq<Page<M, C>>, i: nat, d: nat)
    requires i < |pages| && PageOK(e, l, pages, i, d) && pages[i].next.Some?
    ensures HasFrom(e, pages, i + 1) && From(pages, i + 1) == l[d + e.limit - 1]
  {
  }

  /** The places after a good row's cursor are those that sort after the row. */
  lemma AfterFrom<M(!new), C>(e: Paging<M, C>, l: seq<M>, from: M, d: nat, k: nat)
    requires Agrees(e) && OnList(e, l) && e.good(from) && IsOffset(e, l, Some(e.cursor(from)), d) && k < |l|
    ensures e.cmp(from, l[k]) < 0 <==> k >= d
  {
    assert e.good(l[k]);
    if k >= d {
      assert e.good(l[d]) && e.cmp(from, l[d]) < 0;
      assert k > d ==> e.cmp(l[d], l[k]) < 0;
    }
  }

  lemma AfterPage<M(!new), C>(e: Paging<M, C>, lists: seq<seq<M>>, ds: seq<nat>, pages: seq<Page<M, C>>, i: nat, b: nat)
    requires Agrees(e) && IsWalk(e, lists, ds, pages) && 0 < i < |pages| && b < |pages[i].rows|
    ensures HasFrom(e, pages, i) && e.cmp(From(pages, i), pages[i].rows[b]) < 0
  {
    assert PageOK(e, lists[i - 1], pages, i - 1, ds[i - 1]);
    FromFits(e, lists[i - 1], pages, i - 1, ds[i - 1]);
    assert PageOK(e, lists[i], pages, i, ds[i]);
    AfterFrom(e, lists[i], From(pages, i), ds[i], ds[i] + b);
  }

  /** Returned keys strictly advance along the whole walk, whatever becomes of the list
      between pages. */
  lemma {:induction false} KeysAdvance<M(!new), C>(e: Paging<M, C>, lists: seq<seq<M>>, ds: seq<nat>,
                                                  pages: seq<Page<M, C>>, i: nat, a: nat, k: nat, b: nat)
    requires Agrees(e) && IsWalk(e, lists, ds, pages)
    requires i <= k < |pages| && a < |pages[i].rows| && b < |pages[k].rows| && (i < k || a < b)
    ensures e.cmp(pages[i].rows[a], pages[k].rows[b]) < 0
    decreases k
  {
    if i == k {
      assert PageOK(e, lists[k], pages, k, ds[k]);
      var d, l := ds[k], lists[k];
      assert pages[k].rows[a] == l[d + a] && pages[k].rows[b] == l[d + b];
    } else {
      AfterPage(e, lists, ds, pages, k, b);
      var last := |pages[k - 1].rows| - 1;
      if i < k - 1 || a < last { KeysAdvance(e, lists, ds, pages, i, a, k - 1, last); }
    }
  }

  // ------------------------------------------------------------------
  // Stable entries

  /** m' sorts against every row just as m does. */
  ghost predicate SameKey<M(!new), C>(e: Paging<M, C>, m: M, m': M) {
    (forall x :: e.cmp(x, m) < 0 <==> e.cmp(x, m') < 0)
  }

  ghost predicate OnStable<M(!new), C>(e: Paging<M, C>, l: seq<M>, m: M) {
    exists k :: 0 <= k < |l| && SameKey(e, m, l[k])
  }

  /** An entry with the key of m is on page i. */
  ghost predicate ReturnedOn<M(!new), C>(e: Paging<M, C>, pages: seq<Page<M, C>>, m: M, i: nat) {
    i < |pages| && OnStable(e, pages[i].rows, m)
  }

  /** m lies after the cursor of page i. */
  predicate Ahead<M(==), C(==)>(e: Paging<M, C>, pages: seq<Page<M, C>>, m: M, i: nat)
    requires i <= |pages|
  {
    i > 0 ==> HasFrom(e, pages, i) && e.cmp(From(pages, i), m) < 0
  }

  /** A stable entry that is still ahead at page i is on it, or ahead at the next. */
  lemma StableStep<M(!new), C>(e: Paging<M, C>, l: seq<M>, pages: seq<Page<M, C>>, m: M, i: nat, d: nat)
    requires Agrees(e) && i < |pages| && PageOK(e, l, pages, i, d) && OnStable(e, l, m) && Ahead(e, pages, m, i)
    ensures ReturnedOn(e, pages, m, i) || (pages[i].next.Some? && Ahead(e, pages, m, i + 1))
  {
    var k :| 0 <= k < |l| && SameKey(e, m, l[k]);
    if i > 0 { AfterFrom(e, l, From(pages, i), d, k); }
    if k - d < |pages[i].rows| {
      assert pages[i].rows[k - d] == l[k];
    } else {
      FromFits(e, l, pages, i, d);
      assert e.cmp(l[d + e.limit - 1], l[k]) < 0;
    }
  }

  lemma {:induction false} StableFound<M(!new), C>(e: Paging<M, C>, lists: seq<seq<M>>, ds: seq<nat>,
                                                  pages: seq<Page<M, C>>, m: M, i: nat)
    requires Agrees(e) && IsWalk(e, lists, ds, pages) && Complete(pages)
    requires forall j :: 0 <= j < |lists| ==> OnStable(e, lists[j], m)
    requires i < |pages| && Ahead(e, pages, m, i)
    ensures exists k :: i <= k < |pages| && ReturnedOn(e, pages, m, k)
    decreases |pages| - i
  {
    assert PageOK(e, lists[i], pages, i, ds[i]) && OnStable(e, lists[i], m);
    StableStep(e, lists[i], pages, m, i, ds[i]);
    if !ReturnedOn(e, pages, m, i) { StableFound(e, lists, ds, pages, m, i + 1); }
  }

  /** A completed walk returns every entry that is in each list with the same key. */
  lemma StableReturned<M(!new), C>(e: Paging<M, C>, lists: seq<seq<M>>, ds: seq<nat>, pages: seq<Page<M, C>>, m: M)
    requires Agrees(e) && IsWalk(e, lists, ds, pages) && Complete(pages)
    requires forall j :: 0 <= j < |lists| ==> OnStable(e, lists[j], m)
    ensures exists k :: 0 <= k < |pages| && ReturnedOn(e, pages, m, k)
  {
    StableFound(e, lists, ds, pages, m, 0);
  }

  // ------------------------------------------------------------------
  // One list throughout

  /** After the cursor of its own k-th row a list goes on with the next row. */
  lemma OwnOffset<M(!new), C>(e: Paging<M, C>, l: seq<M>, k: nat, d: nat)
    requires Agrees(e) && OnList(e, l) && k < |l| && IsOffset(e, l, Some(e.cursor(l[k])), d)
    ensures d == k + 1
  {
    assert e.good(l[k]);
    AfterFrom(e, l, l[k], d, k);
    if d < |l| { AfterFrom(e, l, l[k], d, d); }
    if k + 1 < |l| { AfterFrom(e, l, l[k], d, k + 1); assert e.cmp(l[k], l[k + 1]) < 0; }
  }

  /** i pages of n rows. */
  function Times(i: nat, n: nat): nat { if i == 0 then 0 else Times(i - 1, n) + n }

  lemma {:induction false} TimesIs(i: nat, n: nat)
    ensures Times(i, n) == i * n
  {
    if i > 0 {
      TimesIs(i - 1, n);
      assert i * n == (i - 1) * n + n;
    }
  }

  /** A walk whose every page is a page of l. */
  ghost predicate IsFixedWalk<M, C>(e: Paging<M, C>, l: seq<M>, ds: seq<nat>, pages: seq<Page<M, C>>) {
    |pages| == |ds| > 0 && forall i :: 0 <= i < |pages| ==> PageOK(e, l, pages, i, ds[i])
  }

  lemma FixedStep<M(!new), C>(e: Paging<M, C>, l: seq<M>, pages: seq<Page<M, C>>, i: nat, d: nat, d': nat)
    requires Agrees(e) && i + 1 < |pages| && PageOK(e, l, pages, i, d) && PageOK(e, l, pages, i + 1, d')
    ensures d' == d + e.limit < |l|
  {
    FromFits(e, l, pages, i, d);
    OwnOffset(e, l, d + e.limit - 1, d');
  }

  lemma FixedEnd<M(!new), C>(e: Paging<M, C>, l: seq<M>, pages: seq<Page<M, C>>, i: nat, d: nat)
    requires i < |pages| && PageOK(e, l, pages, i, d) && pages[i].next.None?
    ensures |l| <= d + e.limit
  {
  }

  /** Page i of a walk over one list begins at i times the limit. */
  lemma {:induction false} FixedPage<M(!new), C>(e: Paging<M, C>, l: seq<M>, ds: seq<nat>, pages: seq<Page<M, C>>, i: nat)
    requires Agrees(e) && IsFixedWalk(e, l, ds, pages) && i < |pages|
    ensures ds[i] == Times(i, e.limit) && (i > 0 ==> ds[i] < |l|)
  {
    assert PageOK(e, l, pages, i, ds[i]);
    if i > 0 {
      FixedPage(e, l, ds, pages, i - 1);
      assert PageOK(e, l, pages, i - 1, ds[i - 1]);
      FixedStep(e, l, pages, i - 1, ds[i - 1], ds[i]);
    }
  }

  function AllRows<M, C>(pages: seq<Page<M, C>>, n: nat): seq<M>
    requires n <= |pages|
  {
    if n == 0 then [] else AllRows(pages, n - 1) + pages[n - 1].rows
  }

  lemma SliceExtends<M, C>(e: Paging<M, C>, l: seq<M>, d: nat)
    requires d <= |l| && e.limit > 0
    ensures l[..d] + Slice(e, l, d).rows == l[..Min(d + e.limit, |l|)]
  {
    if |l| - d > e.limit { assert l[..d] + l[d..d + e.limit] == l[..d + e.limit]; }
    else { assert l[..d] + l[d..] == l && l[..|l|] == l; }
  }

  lemma {:induction false} FixedPrefix<M(!new), C>(e: Paging<M, C>, l: seq<M>, ds: seq<nat>, pages: seq<Page<M, C>>, i: nat)
    requires Agrees(e) && IsFixedWalk(e, l, ds, pages) && i <= |pages|
    ensures AllRows(pages, i) == l[..Min(Times(i, e.limit), |l|)]
  {
    if i > 0 {
      FixedPage(e, l, ds, pages, i - 1);
      FixedPrefix(e, l, ds, pages, i - 1);
      assert PageOK(e, l, pages, i - 1, ds[i - 1]);
      FixedExtends(e, l, pages, i, ds[i - 1]);
    }
  }

  lemma FixedExtends<M(!new), C>(e: Paging<M, C>, l: seq<M>, pages: seq<Page<M, C>>, i: nat, d: nat)
    requires 0 < i <= |pages| && e.limit > 0 && d <= |l| && d == Times(i - 1, e.limit)
    requires pages[i - 1] == Slice(e, l, d) && AllRows(pages, i - 1) == l[..d]
    ensures AllRows(pages, i) == l[..Min(Times(i, e.limit), |l|)]
  {
    SliceExtends(e, l, d);
  }

  /** A walk over one list that is still to go on has not returned it all. */
  lemma FixedUnfinished<M(!new), C>(e: Paging<M, C>, l: seq<M>, ds: seq<nat>, pages: seq<Page<M, C>>)
    requires Agrees(e) && IsFixedWalk(e, l, ds, pages) && !Complete(pages)
    ensures |pages| * e.limit < |l|
  {
    var k := |pages| - 1;
    FixedPage(e, l, ds, pages, k);
    assert PageOK(e, l, pages, k, ds[k]);
    TimesIs(k + 1, e.limit);
  }

  /** On one list a completed walk returns exactly that list, with no gap and no repeat,
      in ceil(total / limit) pages, or one if it is empty. */
  lemma FixedWalk<M(!new), C>(e: Paging<M, C>, l: seq<M>, ds: seq<nat>, pages: seq<Page<M, C>>)
    requires Agrees(e) && IsFixedWalk(e, l, ds, pages) && Complete(pages)
    ensures AllRows(pages, |pages|) == l
    ensures l == [] ==> |pages| == 1
    ensures l != [] ==> (|pages| - 1) * e.limit < |l| <= |pages| * e.limit
  {
    var k := |pages| - 1;
    FixedPage(e, l, ds, pages, k);
    FixedPrefix(e, l, ds, pages, k + 1);
    assert PageOK(e, l, pages, k, ds[k]);
    FixedEnd(e, l, pages, k, ds[k]);
    TimesIs(k, e.limit);
    TimesIs(k + 1, e.limit);
    assert l[..|l|] == l;
  }
}
