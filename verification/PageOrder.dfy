/** What a page of a search shows, said of its readings alone: which rows are on it, and
    in what order. */
module PageOrder {
  import opened Basics
  import opened Readings
  import opened Lexical
  import opened Keyset
  import opened Listings
  import S = Sorting

  // ------------------------------------------------------------------
  // Orders of readings

  /** a was created after b; of two created at once the greater id counts as newer. */
  predicate Newer(a: Reading, b: Reading) {
    a.createdAt > b.createdAt || (a.createdAt == b.createdAt && Below(b.id, a.id))
  }

  predicate Older(a: Reading, b: Reading) {
    a.createdAt < b.createdAt || (a.createdAt == b.createdAt && Below(a.id, b.id))
  }

  /** a's title, in lower case, comes before b's in the dictionary. */
  predicate Titled(t: Text, a: Reading, b: Reading) {
    Below(t.lower(a.title), t.lower(b.title)) || (t.lower(a.title) == t.lower(b.title) && Below(a.id, b.id))
  }

  predicate InMode(t: Text, sort: SortMode, a: Reading, b: Reading) {
    match sort
    case Title => Titled(t, a, b)
    case Oldest => Older(a, b)
    case _ => Newer(a, b)
  }

  /** How often the terms of the query occur in the reading. */
  function Hits(t: Text, q: Query, r: Reading): nat { Score(t, r, t.tokenize(q.q)) }

  /** A query without terms sorts by its mode; any other by hits first. */
  predicate Precedes(t: Text, q: Query, a: Reading, b: Reading) {
    if t.tokenize(q.q) == [] then InMode(t, q.sort, a, b)
    else Hits(t, q, a) > Hits(t, q, b) || (Hits(t, q, a) == Hits(t, q, b) && InMode(t, q.sort, a, b))
  }

  /** The reading has the status and all the tags asked for, and a term occurs in it. */
  predicate Passes(t: Text, q: Query, r: Reading) {
    (q.status.Some? ==> r.status == q.status.value)
    && (forall tag :: tag in q.tags ==> tag in r.tags)
    && (t.tokenize(q.q) != [] ==> exists i :: 0 <= i < |t.tokenize(q.q)| && t.count(r, t.tokenize(q.q)[i]) > 0)
  }

  /** The cursor that a page of this query ends with when x is its last reading. */
  predicate CursorAt(t: Text, q: Query, x: Reading, c: Cursor) {
    c == Cursor(x.createdAt, x.id, x.title, Hits(t, q, x) as real, true) && (t.tokenize(q.q) != [] ==> Hits(t, q, x) > 0)
  }

  /** A row the query asks for that this page need not come before: after its cursor. */
  ghost predicate Due(t: Text, q: Query, r: Reading) {
    Passes(t, q, r) && (q.cursor.valid ==> forall x :: CursorAt(t, q, x, q.cursor) ==> Precedes(t, q, x, r))
  }

  // ------------------------------------------------------------------
  // Pages

  /** The readings of the page are rows that pass, in order, and after the cursor. */
  ghost predicate Shows(t: Text, rows: Rows, q: Query, rs: seq<Reading>) {
    (forall i :: 0 <= i < |rs| ==> rs[i].id in rows && rows[rs[i].id] == rs[i] && Due(t, q, rs[i]))
    && (forall i, k :: 0 <= i < k < |rs| ==> Precedes(t, q, rs[i], rs[k]))
  }

  /** A row that is due and not on the page comes after all of it, and there is a next
      page. */
  ghost predicate Skips(t: Text, rows: Rows, q: Query, p: Page) {
    (q.cursor.valid ==> exists x :: CursorAt(t, q, x, q.cursor)) ==>
      forall id :: id in rows && Due(t, q, rows[id]) && rows[id] !in p.readings ==>
        p.next.valid && forall i :: 0 <= i < |p.readings| ==> Precedes(t, q, p.readings[i], rows[id])
  }

  function Limit(q: Query): int { if q.limit > 0 then q.limit else 50 }

  ghost predicate PageMeans(t: Text, rows: Rows, q: Query, p: Page) {
    && Shows(t, rows, q, p.readings) && Skips(t, rows, q, p)
    && p.total == |set id | id in rows && Passes(t, q, rows[id])|
    && |p.readings| <= Limit(q)
    && (p.next.valid ==> |p.readings| == Limit(q) && CursorAt(t, q, p.readings[|p.readings| - 1], p.next))
  }

  // ------------------------------------------------------------------
  // The comparator means this order

  lemma OrderMeans(t: Text, q: Query, a: Reading, b: Reading)
    ensures Order(t, q.sort, Ranked(t, q), MatchOf(t, a, q), MatchOf(t, b, q)) < 0 <==> Precedes(t, q, a, b)
  {
    CompareBelow(a.id, b.id);
    CompareBelow(b.id, a.id);
    CompareBelow(t.lower(a.title), t.lower(b.title));
    CompareZero(t.lower(a.title), t.lower(b.title));
  }

  lemma {:induction false} ScorePositive(t: Text, r: Reading, terms: seq<string>)
    ensures Score(t, r, terms) > 0 <==> exists i :: 0 <= i < |terms| && t.count(r, terms[i]) > 0
  {
    if terms != [] {
      var n := |terms| - 1;
      ScorePositive(t, r, terms[..n]);
      if i :| 0 <= i < |terms[..n]| && t.count(r, terms[..n][i]) > 0 { assert terms[i] == terms[..n][i]; }
      if i :| 0 <= i < |terms| && t.count(r, terms[i]) > 0 { assert i < n ==> terms[..n][i] == terms[i]; }
    }
  }

  /** A score counts every term once: it is the count of a lone term, and adds up. */
  lemma {:induction false} ScoreAdds(t: Text, r: Reading, xs: seq<string>, ys: seq<string>)
    ensures Score(t, r, xs + ys) == Score(t, r, xs) + Score(t, r, ys)
    ensures |ys| == 1 ==> Score(t, r, ys) == t.count(r, ys[0])
    decreases |ys|
  {
    if ys == [] {
      assert xs + ys == xs;
    } else {
      var n := |ys| - 1;
      ScoreAdds(t, r, xs, ys[..n]);
      assert (xs + ys)[..|xs + ys| - 1] == xs + ys[..n];
    }
  }

  lemma MatchesMeans(t: Text, q: Query, r: Reading)
    ensures Matches(t, r, q) <==> Passes(t, q, r)
  {
    ScorePositive(t, r, t.tokenize(q.q));
  }

  // ------------------------------------------------------------------
  // The cut after the cursor

  /** Place d is the first after the cursor of the query. */
  predicate StartsAt(t: Text, q: Query, l: seq<Match>, d: nat) {
    d <= |l| && (!q.cursor.valid ==> d == 0)
    && (q.cursor.valid ==> (forall i :: 0 <= i < d ==> !IsAfterCursor(t, l[i], q.sort, q.cursor))
                           && (d < |l| ==> IsAfterCursor(t, l[d], q.sort, q.cursor)))
  }

  lemma {:induction false} AfterCursorStarts(t: Text, q: Query, l: seq<Match>)
    ensures StartsAt(t, q, l, |l| - |AfterCursor(t, l, q.sort, q.cursor)|)
  {
    if l != [] && q.cursor.valid && !IsAfterCursor(t, l[0], q.sort, q.cursor) {
      AfterCursorStarts(t, q, l[1..]);
      OneMore(t, q, l, |l[1..]| - |AfterCursor(t, l[1..], q.sort, q.cursor)|);
    }
  }

  lemma OneMore(t: Text, q: Query, l: seq<Match>, d: nat)
    requires l != [] && q.cursor.valid && !IsAfterCursor(t, l[0], q.sort, q.cursor) && StartsAt(t, q, l[1..], d)
    ensures StartsAt(t, q, l, d + 1)
  {
    forall i | 0 <= i < d + 1 ensures !IsAfterCursor(t, l[i], q.sort, q.cursor) { if i > 0 { assert l[i] == l[1..][i - 1]; } }
  }

  lemma CursorMeans(t: Text, q: Query, x: Reading, r: Reading, c: Cursor)
    requires CursorAt(t, q, x, c) && Passes(t, q, r)
    ensures IsAfterCursor(t, MatchOf(t, r, q), q.sort, c) <==> Precedes(t, q, x, r)
  {
    MatchesMeans(t, q, r);
    OrderMeans(t, q, x, r);
    assert c == CursorOf(MatchOf(t, x, q));
    CursorAgrees(t, q.sort, Ranked(t, q), MatchOf(t, x, q), MatchOf(t, r, q));
  }

  lemma PrecedesChains(t: Text, q: Query, a: Reading, b: Reading, c: Reading)
    requires Precedes(t, q, a, b) && Precedes(t, q, b, c)
    ensures Precedes(t, q, a, c)
  {
    OrderMeans(t, q, a, b);
    OrderMeans(t, q, b, c);
    OrderMeans(t, q, a, c);
    OrderChains(t, q.sort, Ranked(t, q), MatchOf(t, a, q), MatchOf(t, b, q), MatchOf(t, c, q));
  }

  /** The listing, said of its readings. */
  ghost predicate Lists(t: Text, rows: Rows, q: Query, l: seq<Match>) {
    (forall i :: 0 <= i < |l| ==>
       var r := l[i].reading; l[i] == MatchOf(t, r, q) && r.id in rows && rows[r.id] == r && Passes(t, q, r))
    && (forall i, k :: 0 <= i < k < |l| ==> Precedes(t, q, l[i].reading, l[k].reading))
    && (forall id :: id in rows && Passes(t, q, rows[id]) ==> MatchOf(t, rows[id], q) in l)
  }

  lemma ListingLists(t: Text, rows: Rows, q: Query)
    requires KeyedRows(rows)
    ensures Lists(t, rows, q, Listing(t, rows, q))
  {
    var l := Listing(t, rows, q);
    forall i | 0 <= i < |l| ensures IsMatch(t, rows, q, l[i]) && Passes(t, q, l[i].reading) {
      assert IsMatch(t, rows, q, l[i]);
      MatchesMeans(t, q, l[i].reading);
    }
    forall i, k | 0 <= i < k < |l| ensures Precedes(t, q, l[i].reading, l[k].reading) {
      assert Comparator(t, q)(l[i], l[k]) < 0;
      OrderMeans(t, q, l[i].reading, l[k].reading);
    }
    forall id | id in rows && Passes(t, q, rows[id]) ensures MatchOf(t, rows[id], q) in l { MatchesMeans(t, q, rows[id]); }
  }

  lemma FromStartIsDue(t: Text, rows: Rows, q: Query, l: seq<Match>, d: nat, i: nat)
    requires Lists(t, rows, q, l) && StartsAt(t, q, l, d) && d <= i < |l|
    ensures Due(t, q, l[i].reading)
  {
    if q.cursor.valid {
      forall x | CursorAt(t, q, x, q.cursor) ensures Precedes(t, q, x, l[i].reading) {
        CursorMeans(t, q, x, l[d].reading, q.cursor);
        if d < i { PrecedesChains(t, q, x, l[d].reading, l[i].reading); }
      }
    }
  }

  lemma DueIsFromStart(t: Text, rows: Rows, q: Query, l: seq<Match>, d: nat, i: nat)
    requires Lists(t, rows, q, l) && StartsAt(t, q, l, d) && i < |l| && Due(t, q, l[i].reading)
    requires q.cursor.valid ==> exists x :: CursorAt(t, q, x, q.cursor)
    ensures d <= i
  {
    if q.cursor.valid {
      var x :| CursorAt(t, q, x, q.cursor);
      CursorMeans(t, q, x, l[i].reading, q.cursor);
    }
  }

  // ------------------------------------------------------------------
  // The page

  /** The page is as much of the list from place d on as the limit allows. */
  predicate Slices(q: Query, l: seq<Match>, d: nat, p: Page) {
    var n := |p.readings|;
    && d <= |l| && n == Min(Limit(q), |l| - d) && (forall i :: 0 <= i < n ==> p.readings[i] == l[d + i].reading)
    && p.total == |l| && (p.next.valid <==> |l| - d > n)
    && (p.next.valid ==> p.next == CursorOf(l[d + n - 1]))
  }

  lemma CutSlices(q: Query, l: seq<Match>, rest: seq<Match>, p: Page)
    requires |rest| <= |l| && rest == l[|l| - |rest|..] && p == Cut(l, rest, LimitOf(q.limit))
    ensures Slices(q, l, |l| - |rest|, p)
  {
  }

  lemma PageShows(t: Text, rows: Rows, q: Query, l: seq<Match>, d: nat, p: Page)
    requires Lists(t, rows, q, l) && StartsAt(t, q, l, d) && Slices(q, l, d, p)
    ensures Shows(t, rows, q, p.readings)
  {
    forall i | 0 <= i < |p.readings| ensures Due(t, q, p.readings[i]) { FromStartIsDue(t, rows, q, l, d, d + i); }
  }

  lemma OnSlice(q: Query, l: seq<Match>, d: nat, p: Page, k: nat)
    requires Slices(q, l, d, p) && d <= k < d + |p.readings|
    ensures l[k].reading in p.readings
  {
    assert p.readings[k - d] == l[k].reading;
  }

  lemma PageSkips(t: Text, rows: Rows, q: Query, l: seq<Match>, d: nat, p: Page)
    requires KeyedRows(rows) && Lists(t, rows, q, l) && StartsAt(t, q, l, d) && Slices(q, l, d, p)
    ensures Skips(t, rows, q, p)
  {
    if q.cursor.valid ==> exists x :: CursorAt(t, q, x, q.cursor) {
      forall id | id in rows && Due(t, q, rows[id]) && rows[id] !in p.readings
        ensures p.next.valid && forall i :: 0 <= i < |p.readings| ==> Precedes(t, q, p.readings[i], rows[id])
      {
        var k :| 0 <= k < |l| && l[k] == MatchOf(t, rows[id], q);
        DueIsFromStart(t, rows, q, l, d, k);
        if k < d + |p.readings| { OnSlice(q, l, d, p, k); assert false; }
      }
    }
  }

  lemma {:induction false} IdsOfList(t: Text, rows: Rows, q: Query, l: seq<Match>)
    requires KeyedRows(rows) && Gathered(t, rows, q, l)
    ensures |set id | id in rows && Passes(t, q, rows[id])| == |l|
  {
    var ids := set i | 0 <= i < |l| :: l[i].reading.id;
    CountIds(l);
    forall id ensures id in ids <==> id in rows && Passes(t, q, rows[id]) {
      if id in rows { MatchesMeans(t, q, rows[id]); }
      if id in ids { var i :| 0 <= i < |l| && l[i].reading.id == id; assert IsMatch(t, rows, q, l[i]); }
      if id in rows && Passes(t, q, rows[id]) {
        var i :| 0 <= i < |l| && l[i] == MatchOf(t, rows[id], q);
        assert l[i].reading.id == id;
      }
    }
    assert ids == set id | id in rows && Passes(t, q, rows[id]);
  }

  lemma {:induction false} CountIds(l: seq<Match>)
    requires forall i, k :: 0 <= i < k < |l| ==> l[i].reading.id != l[k].reading.id
    ensures |set i | 0 <= i < |l| :: l[i].reading.id| == |l|
  {
    if l != [] {
      var n := |l| - 1;
      CountIds(l[..n]);
      assert (set i | 0 <= i < |l| :: l[i].reading.id) == (set i | 0 <= i < n :: l[..n][i].reading.id) + {l[n].reading.id};
    }
  }

  /** The page that a search answers means what it should. */
  lemma SearchMeans(t: Text, rows: Rows, q: Query)
    requires KeyedRows(rows)
    ensures PageMeans(t, rows, q, SearchPage(t, rows, q))
    ensures t.tokenize(q.q) == [] ==> ByCreation(q.sort, SearchPage(t, rows, q).readings)
  {
    SearchPageMeans(t, rows, q);
    if t.tokenize(q.q) == [] { PageByCreation(t, rows, q, SearchPage(t, rows, q)); }
  }

  /** Newest begins with the row created last, Oldest with the one created first. */
  predicate ByCreation(sort: SortMode, rs: seq<Reading>) {
    && (sort.Newest? ==> forall i, k :: 0 <= i < k < |rs| ==> rs[i].createdAt >= rs[k].createdAt)
    && (sort.Oldest? ==> forall i, k :: 0 <= i < k < |rs| ==> rs[i].createdAt <= rs[k].createdAt)
  }

  lemma PageByCreation(t: Text, rows: Rows, q: Query, p: Page)
    requires Shows(t, rows, q, p.readings) && t.tokenize(q.q) == []
    ensures ByCreation(q.sort, p.readings)
  {
  }

  lemma SearchPageMeans(t: Text, rows: Rows, q: Query)
    requires KeyedRows(rows)
    ensures PageMeans(t, rows, q, SearchPage(t, rows, q))
  {
    var l := Listing(t, rows, q);
    ListingLists(t, rows, q);
    IdsOfList(t, rows, q, l);
    ListMeans(t, rows, q, l);
  }

  lemma ListMeans(t: Text, rows: Rows, q: Query, l: seq<Match>)
    requires KeyedRows(rows) && Lists(t, rows, q, l) && |set id | id in rows && Passes(t, q, rows[id])| == |l|
    ensures PageMeans(t, rows, q, PageOf(t, l, q))
  {
    AfterCursorStarts(t, q, l);
    CutMeans(t, rows, q, l, AfterCursor(t, l, q.sort, q.cursor), PageOf(t, l, q));
  }

  lemma CutMeans(t: Text, rows: Rows, q: Query, l: seq<Match>, rest: seq<Match>, p: Page)
    requires KeyedRows(rows) && Lists(t, rows, q, l) && |set id | id in rows && Passes(t, q, rows[id])| == |l|
    requires |rest| <= |l| && rest == l[|l| - |rest|..] && StartsAt(t, q, l, |l| - |rest|)
    requires p == Cut(l, rest, LimitOf(q.limit))
    ensures PageMeans(t, rows, q, p)
  {
    CutSlices(q, l, rest, p);
    SliceMeans(t, rows, q, l, |l| - |rest|, p);
  }

  lemma SliceMeans(t: Text, rows: Rows, q: Query, l: seq<Match>, d: nat, p: Page)
    requires KeyedRows(rows) && Lists(t, rows, q, l) && StartsAt(t, q, l, d) && Slices(q, l, d, p)
    requires |set id | id in rows && Passes(t, q, rows[id])| == |l|
    ensures PageMeans(t, rows, q, p)
  {
    PageShows(t, rows, q, l, d, p);
    PageSkips(t, rows, q, l, d, p);
    if p.next.valid { NextFits(t, rows, q, l, d, p); }
  }

  lemma NextFits(t: Text, rows: Rows, q: Query, l: seq<Match>, d: nat, p: Page)
    requires Lists(t, rows, q, l) && Slices(q, l, d, p) && p.next.valid
    ensures |p.readings| == Limit(q) && CursorAt(t, q, p.readings[|p.readings| - 1], p.next)
  {
    LastFits(t, rows, q, l, d + |p.readings| - 1);
  }

  lemma LastFits(t: Text, rows: Rows, q: Query, l: seq<Match>, i: nat)
    requires Lists(t, rows, q, l) && i < |l|
    ensures CursorAt(t, q, l[i].reading, CursorOf(l[i]))
  {
    MatchesMeans(t, q, l[i].reading);
  }
}
