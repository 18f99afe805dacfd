/** What following NextCursor through Search returns: on a store that stands still, and
    on one that changes between pages. */
module Pagination {
  import opened Basics
  import opened Readings
  import opened Keyset
  import opened Listings
  import W = Walks

  function Env(t: Text, q: Query): W.Paging<Match, Cursor> {
    W.Paging(Comparator(t, q), (m, c) => IsAfterCursor(t, m, q.sort, c), m => CursorOf(m), m => Fits(t, q, m), LimitOf(q.limit))
  }

  lemma EnvAgrees(t: Text, q: Query)
    ensures W.Agrees(Env(t, q))
  {
    var e := Env(t, q);
    ComparatorOrders(t, q);
    forall x, m | e.good(x) && e.good(m) ensures e.after(m, e.cursor(x)) <==> e.cmp(x, m) < 0 {
      CursorAgrees(t, q.sort, Ranked(t, q), x, m);
    }
  }

  // ------------------------------------------------------------------
  // A search page is a slice of the listing

  function At(q: Query, c: Cursor): Query { q.(cursor := c) }

  function Opt(c: Cursor): Option<Cursor> { if c.valid then Some(c) else None }

  function Offset(t: Text, q: Query, l: seq<Match>, c: Cursor): (d: nat)
    ensures d <= |l|
  {
    |l| - |AfterCursor(t, l, q.sort, c)|
  }

  lemma {:induction false} OffsetIs(t: Text, q: Query, l: seq<Match>, c: Cursor)
    ensures W.IsOffset(Env(t, q), l, Opt(c), Offset(t, q, l, c))
  {
    if l != [] && c.valid && !IsAfterCursor(t, l[0], q.sort, c) {
      OffsetIs(t, q, l[1..], c);
      var d := Offset(t, q, l, c);
      assert d == 1 + Offset(t, q, l[1..], c);
      forall i | 0 <= i < d ensures !IsAfterCursor(t, l[i], q.sort, c) {
        if i > 0 { assert l[i] == l[1..][i - 1] && !Env(t, q).after(l[1..][i - 1], c); }
      }
    }
  }

  function Abstract(t: Text, q: Query, p: Page): W.Page<Match, Cursor> {
    W.Page(seq(|p.readings|, i requires 0 <= i < |p.readings| => MatchOf(t, p.readings[i], q)), Opt(p.next))
  }

  lemma ListingAt(t: Text, rows: Rows, q: Query, c: Cursor)
    requires KeyedRows(rows)
    ensures Listing(t, rows, At(q, c)) == Listing(t, rows, q)
  {
    var l := Listing(t, rows, At(q, c));
    assert IsListing(t, rows, q, l) by {
      forall i | 0 <= i < |l| ensures IsMatch(t, rows, q, l[i]) { assert IsMatch(t, rows, At(q, c), l[i]); }
      forall id | id in rows && Matches(t, rows[id], q) ensures MatchOf(t, rows[id], q) in l {
        assert Matches(t, rows[id], At(q, c)) && MatchOf(t, rows[id], At(q, c)) == MatchOf(t, rows[id], q);
      }
      forall i, k | 0 <= i < k < |l| ensures Comparator(t, q)(l[i], l[k]) < 0 {
        assert Comparator(t, At(q, c))(l[i], l[k]) < 0;
      }
    }
    ListingUnique(t, rows, q, l, Listing(t, rows, q));
  }

  lemma ListingIsList(t: Text, rows: Rows, q: Query)
    requires KeyedRows(rows)
    ensures W.OnList(Env(t, q), Listing(t, rows, q))
    ensures forall i :: 0 <= i < |Listing(t, rows, q)| ==> IsMatch(t, rows, q, Listing(t, rows, q)[i])
  {
    var l := Listing(t, rows, q);
    forall i | 0 <= i < |l| ensures Fits(t, q, l[i]) { MatchFits(t, rows, q, l[i]); }
  }

  lemma PageIsSlice(t: Text, q: Query, l: seq<Match>, c: Cursor)
    requires forall i :: 0 <= i < |l| ==> l[i] == MatchOf(t, l[i].reading, q)
    ensures Abstract(t, q, PageOf(t, l, At(q, c))) == W.Slice(Env(t, q), l, Offset(t, q, l, c))
  {
    PageIsCut(t, q, l, c);
    RestPage(t, q, l, AfterCursor(t, l, q.sort, c));
  }

  lemma PageIsCut(t: Text, q: Query, l: seq<Match>, c: Cursor)
    ensures PageOf(t, l, At(q, c)) == Cut(l, AfterCursor(t, l, q.sort, c), LimitOf(q.limit))
  {
  }

  /** The page cut from what applyCursor keeps. */
  lemma RestPage(t: Text, q: Query, l: seq<Match>, rest: seq<Match>)
    requires |rest| <= |l| && rest == l[|l| - |rest|..]
    requires forall i :: 0 <= i < |l| ==> l[i] == MatchOf(t, l[i].reading, q)
    ensures Abstract(t, q, Cut(l, rest, LimitOf(q.limit))) == W.Slice(Env(t, q), l, |l| - |rest|)
  {
    var p := Cut(l, rest, LimitOf(q.limit));
    assert Abstract(t, q, p).rows == rest[..|p.readings|];
  }

  lemma SearchIsSlice(t: Text, rows: Rows, q: Query, c: Cursor, l: seq<Match>)
    requires KeyedRows(rows) && l == Listing(t, rows, q)
    ensures Abstract(t, q, SearchPage(t, rows, At(q, c))) == W.Slice(Env(t, q), l, Offset(t, q, l, c))
    ensures W.OnList(Env(t, q), l) && W.IsOffset(Env(t, q), l, Opt(c), Offset(t, q, l, c))
  {
    ListingAt(t, rows, q, c);
    ListingIsList(t, rows, q);
    forall i | 0 <= i < |l| ensures l[i] == MatchOf(t, l[i].reading, q) { assert IsMatch(t, rows, q, l[i]); }
    PageIsSlice(t, q, l, c);
    OffsetIs(t, q, l, c);
  }

  // ------------------------------------------------------------------
  // Walks over stores

  function CursorAt(q: Query, pages: seq<Page>, i: nat): Cursor
    requires i <= |pages|
  {
    if i == 0 then q.cursor else pages[i - 1].next
  }

  /** Page i is what a search of rows returns at the cursor of the page before. */
  ghost predicate PageFrom(t: Text, rows: Rows, q: Query, pages: seq<Page>, i: nat)
    requires i < |pages|
  {
    KeyedRows(rows) && pages[i] == SearchPage(t, rows, At(q, CursorAt(q, pages, i)))
    && (i + 1 < |pages| ==> pages[i].next.valid)
  }

  /** A walk: one search per store state, each on the store as it is by then. */
  ghost predicate IsWalk(t: Text, states: seq<Rows>, q: Query, pages: seq<Page>) {
    |pages| == |states| > 0 && !q.cursor.valid && forall i :: 0 <= i < |pages| ==> PageFrom(t, states[i], q, pages, i)
  }

  ghost predicate Complete(pages: seq<Page>) {
    pages != [] && !pages[|pages| - 1].next.valid
  }

  ghost function ListingOf(t: Text, q: Query, rows: Rows): seq<Match> {
    if KeyedRows(rows) then Listing(t, rows, q) else []
  }

  ghost function Lists(t: Text, states: seq<Rows>, q: Query): seq<seq<Match>> {
    seq(|states|, i requires 0 <= i < |states| => ListingOf(t, q, states[i]))
  }

  ghost function Offsets(t: Text, states: seq<Rows>, q: Query, pages: seq<Page>): seq<nat>
    requires |states| == |pages|
  {
    seq(|states|, i requires 0 <= i < |states| => Offset(t, q, ListingOf(t, q, states[i]), CursorAt(q, pages, i)))
  }

  function AbstractAll(t: Text, q: Query, pages: seq<Page>): (r: seq<W.Page<Match, Cursor>>)
    ensures |r| == |pages| && forall i :: 0 <= i < |r| ==> r[i] == Abstract(t, q, pages[i])
  {
    seq(|pages|, i requires 0 <= i < |pages| => Abstract(t, q, pages[i]))
  }

  lemma PageAbstracts(t: Text, rows: Rows, q: Query, pages: seq<Page>, i: nat)
    requires !q.cursor.valid && i < |pages| && PageFrom(t, rows, q, pages, i)
    ensures W.PageOK(Env(t, q), Listing(t, rows, q), AbstractAll(t, q, pages), i,
                     Offset(t, q, Listing(t, rows, q), CursorAt(q, pages, i)))
  {
    SearchIsSlice(t, rows, q, CursorAt(q, pages, i), Listing(t, rows, q));
    assert W.CursorAt(AbstractAll(t, q, pages), i) == Opt(CursorAt(q, pages, i));
  }

  lemma WalkAbstracts(t: Text, states: seq<Rows>, q: Query, pages: seq<Page>)
    requires IsWalk(t, states, q, pages)
    ensures W.IsWalk(Env(t, q), Lists(t, states, q), Offsets(t, states, q, pages), AbstractAll(t, q, pages))
  {
    forall i | 0 <= i < |pages|
      ensures W.PageOK(Env(t, q), Lists(t, states, q)[i], AbstractAll(t, q, pages), i, Offsets(t, states, q, pages)[i])
    {
      assert PageFrom(t, states[i], q, pages, i);
      PageAbstracts(t, states[i], q, pages, i);
    }
  }

  // ------------------------------------------------------------------
  // A store that stands still

  function AllReadings(pages: seq<Page>, n: nat): seq<Reading>
    requires n <= |pages|
  {
    if n == 0 then [] else AllReadings(pages, n - 1) + pages[n - 1].readings
  }

  lemma {:induction false} AllReadingsIs(t: Text, q: Query, pages: seq<Page>, n: nat)
    requires n <= |pages|
    ensures AllReadings(pages, n) == ReadingsOf(W.AllRows(AbstractAll(t, q, pages), n))
  {
    if n > 0 {
      AllReadingsIs(t, q, pages, n - 1);
      assert pages[n - 1].readings == ReadingsOf(AbstractAll(t, q, pages)[n - 1].rows);
    }
  }

  function FixedOffsets(t: Text, q: Query, l: seq<Match>, pages: seq<Page>): (ds: seq<nat>)
    ensures |ds| == |pages| && forall i :: 0 <= i < |ds| ==> ds[i] == Offset(t, q, l, CursorAt(q, pages, i))
  {
    seq(|pages|, i requires 0 <= i < |pages| => Offset(t, q, l, CursorAt(q, pages, i)))
  }

  lemma FixedAbstracts(t: Text, rows: Rows, q: Query, pages: seq<Page>, l: seq<Match>, ds: seq<nat>,
                       ws: seq<W.Page<Match, Cursor>>)
    requires !q.cursor.valid && KeyedRows(rows) && pages != [] && l == Listing(t, rows, q)
    requires forall i :: 0 <= i < |pages| ==> PageFrom(t, rows, q, pages, i)
    requires ds == FixedOffsets(t, q, l, pages) && ws == AbstractAll(t, q, pages)
    ensures W.IsFixedWalk(Env(t, q), l, ds, ws) && (W.Complete(ws) <==> Complete(pages))
  {
    forall i | 0 <= i < |pages| ensures W.PageOK(Env(t, q), l, ws, i, ds[i]) {
      PageAbstracts(t, rows, q, pages, i);
    }
  }

  lemma FixedRows(t: Text, q: Query, pages: seq<Page>, l: seq<Match>, ds: seq<nat>, ws: seq<W.Page<Match, Cursor>>)
    requires W.IsFixedWalk(Env(t, q), l, ds, ws) && W.Complete(ws) && ws == AbstractAll(t, q, pages)
    ensures AllReadings(pages, |pages|) == ReadingsOf(l)
    ensures l == [] ==> |pages| == 1
    ensures l != [] ==> (|pages| - 1) * LimitOf(q.limit) < |l| <= |pages| * LimitOf(q.limit)
  {
    EnvAgrees(t, q);
    W.FixedWalk(Env(t, q), l, ds, ws);
    AllReadingsIs(t, q, pages, |pages|);
  }

  /** On a fixed store a completed walk returns exactly the sorted, filtered list, with
      no gap and no repeat, in ceil(total / limit) pages, or one if it is empty. */
  lemma FixedStore(t: Text, rows: Rows, q: Query, pages: seq<Page>)
    requires !q.cursor.valid && KeyedRows(rows) && Complete(pages)
    requires forall i :: 0 <= i < |pages| ==> PageFrom(t, rows, q, pages, i)
    ensures AllReadings(pages, |pages|) == ReadingsOf(Listing(t, rows, q))
    ensures Listing(t, rows, q) == [] ==> |pages| == 1
    ensures Listing(t, rows, q) != [] ==>
              (|pages| - 1) * LimitOf(q.limit) < |Listing(t, rows, q)| <= |pages| * LimitOf(q.limit)
  {
    var l := Listing(t, rows, q);
    var ds, ws := FixedOffsets(t, q, l, pages), AbstractAll(t, q, pages);
    FixedAbstracts(t, rows, q, pages, l, ds, ws);
    FixedRows(t, q, pages, l, ds, ws);
  }

  /** A walk on a fixed store that is to go on has returned less than the list. */
  lemma FixedUnfinished(t: Text, rows: Rows, q: Query, pages: seq<Page>)
    requires !q.cursor.valid && KeyedRows(rows) && pages != [] && !Complete(pages)
    requires forall i :: 0 <= i < |pages| ==> PageFrom(t, rows, q, pages, i)
    ensures |pages| * LimitOf(q.limit) < |Listing(t, rows, q)|
  {
    var l := Listing(t, rows, q);
    var ds, ws := FixedOffsets(t, q, l, pages), AbstractAll(t, q, pages);
    FixedAbstracts(t, rows, q, pages, l, ds, ws);
    EnvAgrees(t, q);
    W.FixedUnfinished(Env(t, q), l, ds, ws);
  }

  // ------------------------------------------------------------------
  // A store that changes between pages

  /** Returned keys strictly advance: a later row sorts strictly after every earlier one,
      by the keys they had when they were returned. */
  lemma KeysAdvance(t: Text, states: seq<Rows>, q: Query, pages: seq<Page>, i: nat, a: nat, k: nat, b: nat)
    requires IsWalk(t, states, q, pages) && i <= k < |pages| && a < |pages[i].readings| && b < |pages[k].readings|
    requires i < k || a < b
    ensures Order(t, q.sort, Ranked(t, q), MatchOf(t, pages[i].readings[a], q), MatchOf(t, pages[k].readings[b], q)) < 0
  {
    WalkAbstracts(t, states, q, pages);
    EnvAgrees(t, q);
    W.KeysAdvance(Env(t, q), Lists(t, states, q), Offsets(t, states, q, pages), AbstractAll(t, q, pages), i, a, k, b);
  }

  /** The two matches have the same id, score and sort key. */
  predicate SameKey(t: Text, q: Query, m: Match, m': Match) {
    m'.reading.id == m.reading.id && m'.score == m.score
    && (if q.sort.Title? then t.lower(m'.reading.title) == t.lower(m.reading.title)
        else m'.reading.createdAt == m.reading.createdAt)
  }

  /** The reading is in the store, matches, and has the key of m. */
  predicate StableIn(t: Text, rows: Rows, q: Query, id: string, m: Match) {
    id in rows && Matches(t, rows[id], q) && SameKey(t, q, m, MatchOf(t, rows[id], q))
  }

  predicate ReturnedAt(pages: seq<Page>, id: string, i: nat, a: nat) {
    i < |pages| && a < |pages[i].readings| && pages[i].readings[a].id == id
  }

  lemma SameKeySorts(t: Text, q: Query, m: Match, m': Match)
    requires SameKey(t, q, m, m')
    ensures W.SameKey(Env(t, q), m, m')
    ensures Order(t, q.sort, Ranked(t, q), m, m') == 0
  {
    OrderFlips(t, q.sort, Ranked(t, q), m', m');
  }

  lemma StableOnList(t: Text, rows: Rows, q: Query, id: string, m: Match)
    requires KeyedRows(rows) && StableIn(t, rows, q, id, m)
    ensures W.OnStable(Env(t, q), Listing(t, rows, q), m)
  {
    var l := Listing(t, rows, q);
    var k :| 0 <= k < |l| && l[k] == MatchOf(t, rows[id], q);
    SameKeySorts(t, q, m, l[k]);
  }

  /** A row that sorts just as m does is m's reading. */
  lemma KeyNamesReading(t: Text, q: Query, m: Match, m': Match)
    requires W.SameKey(Env(t, q), m, m')
    ensures m'.reading.id == m.reading.id
  {
    var e := Env(t, q);
    OrderFlips(t, q.sort, Ranked(t, q), m, m);
    OrderFlips(t, q.sort, Ranked(t, q), m', m');
    OrderFlips(t, q.sort, Ranked(t, q), m, m');
    assert e.cmp(m, m) < 0 <==> e.cmp(m, m') < 0;
    assert e.cmp(m', m) < 0 <==> e.cmp(m', m') < 0;
  }

  lemma StableReturned(t: Text, states: seq<Rows>, q: Query, pages: seq<Page>, id: string, m: Match)
    requires IsWalk(t, states, q, pages) && Complete(pages) && m.reading.id == id
    requires forall i :: 0 <= i < |states| ==> StableIn(t, states[i], q, id, m)
    ensures exists i, a :: 0 <= i && 0 <= a && ReturnedAt(pages, id, i, a)
  {
    WalkAbstracts(t, states, q, pages);
    EnvAgrees(t, q);
    var e, ws := Env(t, q), AbstractAll(t, q, pages);
    forall j | 0 <= j < |states| ensures W.OnStable(e, Lists(t, states, q)[j], m) {
      assert PageFrom(t, states[j], q, pages, j);
      StableOnList(t, states[j], q, id, m);
    }
    W.StableReturned(e, Lists(t, states, q), Offsets(t, states, q, pages), ws, m);
    var i :| 0 <= i < |ws| && W.ReturnedOn(e, ws, m, i);
    var a :| 0 <= a < |ws[i].rows| && W.SameKey(e, m, ws[i].rows[a]);
    KeyNamesReading(t, q, m, ws[i].rows[a]);
    assert ReturnedAt(pages, id, i, a);
  }

  /** A returned reading is the store's row of that moment. */
  lemma ReturnedRow(t: Text, rows: Rows, q: Query, pages: seq<Page>, i: nat, a: nat)
    requires i < |pages| && PageFrom(t, rows, q, pages, i) && a < |pages[i].readings|
    ensures var r := pages[i].readings[a]; r.id in rows && rows[r.id] == r && Matches(t, r, q)
  {
    var c, l := CursorAt(q, pages, i), Listing(t, rows, q);
    ListingAt(t, rows, q, c);
    ListingIsList(t, rows, q);
    OnPage(t, q, l, c, a);
  }

  lemma OnPage(t: Text, q: Query, l: seq<Match>, c: Cursor, a: nat)
    requires a < |PageOf(t, l, At(q, c)).readings|
    ensures exists k :: 0 <= k < |l| && l[k].reading == PageOf(t, l, At(q, c)).readings[a]
  {
    PageIsCut(t, q, l, c);
    OnCut(l, AfterCursor(t, l, q.sort, c), LimitOf(q.limit), a);
  }

  lemma OnCut(l: seq<Match>, rest: seq<Match>, n: nat, a: nat)
    requires |rest| <= |l| && rest == l[|l| - |rest|..] && n > 0 && a < |Cut(l, rest, n).readings|
    ensures exists k :: 0 <= k < |l| && l[k].reading == Cut(l, rest, n).readings[a]
  {
    CutAt(l, rest, n, a);
    var k := |l| - |rest| + a;
    assert l[k] == rest[a];
  }

  lemma CutAt(l: seq<Match>, rest: seq<Match>, n: nat, a: nat)
    requires n > 0 && a < |Cut(l, rest, n).readings|
    ensures a < |rest| && Cut(l, rest, n).readings[a] == rest[a].reading
  {
  }

  lemma AtMostOnce(t: Text, states: seq<Rows>, q: Query, pages: seq<Page>, id: string, m: Match, i: nat, a: nat, k: nat, b: nat)
    requires IsWalk(t, states, q, pages) && ReturnedAt(pages, id, i, a) && ReturnedAt(pages, id, k, b)
    requires StableIn(t, states[i], q, id, m) && StableIn(t, states[k], q, id, m)
    ensures !(i < k || (i == k && a < b))
  {
    assert PageFrom(t, states[i], q, pages, i) && PageFrom(t, states[k], q, pages, k);
    ReturnedRow(t, states[i], q, pages, i, a);
    ReturnedRow(t, states[k], q, pages, k, b);
    SameKeySorts(t, q, MatchOf(t, pages[i].readings[a], q), MatchOf(t, pages[k].readings[b], q));
    if i < k || (i == k && a < b) { KeysAdvance(t, states, q, pages, i, a, k, b); }
  }

  /** However the store changes between pages, a completed walk returns each reading
      whose match, score and sort key stay the same exactly once. */
  lemma StableOnce(t: Text, states: seq<Rows>, q: Query, pages: seq<Page>, id: string, m: Match)
    requires IsWalk(t, states, q, pages) && Complete(pages) && m.reading.id == id
    requires forall i :: 0 <= i < |states| ==> StableIn(t, states[i], q, id, m)
    ensures exists i, a :: 0 <= i && 0 <= a && ReturnedAt(pages, id, i, a)
              && forall k, b :: 0 <= k && 0 <= b && ReturnedAt(pages, id, k, b) ==> k == i && b == a
  {
    StableReturned(t, states, q, pages, id, m);
    var i, a :| 0 <= i && 0 <= a && ReturnedAt(pages, id, i, a);
    forall k, b | 0 <= k && 0 <= b && ReturnedAt(pages, id, k, b) ensures k == i && b == a {
      assert StableIn(t, states[i], q, id, m) && StableIn(t, states[k], q, id, m);
      AtMostOnce(t, states, q, pages, id, m, i, a, k, b);
      AtMostOnce(t, states, q, pages, id, m, k, b, i, a);
    }
  }
}
