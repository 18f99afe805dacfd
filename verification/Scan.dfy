/** scanReadings of internal/readerctl/readerctl.go: all readings of a store that other
    processes go on changing, newest first, a hundred a page. */
module Scan {
  import opened Basics
  import opened Readings
  import opened Keyset
  import opened Listings
  import opened Pagination
  import O = PageOrder
  import T = ReadingTable

  const PAGE_LIMIT := 100

  const SCAN := Query("", [], None, SortMode.Newest, NO_CURSOR, PAGE_LIMIT)

  /** What one call of Search answers: the page of the store as it is then, or an error. */
  datatype Answer = Answered(page: Page) | Refused

  /** Waiting: the calls allowed for are used up and the scan goes on. */
  datatype Outcome = Scanned(readings: seq<Reading>) | Failed | Waiting

  predicate Ids(rs: seq<Reading>, ids: set<string>) {
    (forall i :: 0 <= i < |rs| ==> rs[i].id in ids) && (forall id :: id in ids ==> HasId(rs, id))
  }

  predicate HasId(rs: seq<Reading>, id: string) {
    exists i :: 0 <= i < |rs| && rs[i].id == id
  }

  predicate DistinctIds(rs: seq<Reading>) {
    forall i, k :: 0 <= i < k < |rs| ==> rs[i].id != rs[k].id
  }

  predicate OnPages(pages: seq<Page>, r: Reading) {
    exists i :: 0 <= i < |pages| && r in pages[i].readings
  }

  /** What the scan holds after some pages: each id they returned, once. */
  predicate Holds(out: seq<Reading>, pages: seq<Page>) {
    DistinctIds(out)
    && (forall i, a :: 0 <= i < |pages| && 0 <= a < |pages[i].readings| ==> HasId(out, pages[i].readings[a].id))
    && (forall k :: 0 <= k < |out| ==> OnPages(pages, out[k]))
  }

  /** out, and then the readings of rs whose id has not come up before, in order. */
  function Keep(out: seq<Reading>, rs: seq<Reading>): seq<Reading>
    decreases |rs|
  {
    if rs == [] then out
    else
      var kept, r := Keep(out, rs[..|rs| - 1]), rs[|rs| - 1];
      if HasId(kept, r.id) then kept else kept + [r]
  }

  /** The first occurrence of every id on these pages, in order. */
  function Firsts(pages: seq<Page>): seq<Reading> {
    if pages == [] then [] else Keep(Firsts(pages[..|pages| - 1]), pages[|pages| - 1].readings)
  }

  lemma HasIdMore(out: seq<Reading>, r: Reading)
    ensures HasId(out + [r], r.id) && forall id :: HasId(out, id) ==> HasId(out + [r], id)
  {
    assert (out + [r])[|out|] == r;
    forall id | HasId(out, id) ensures HasId(out + [r], id) {
      var i :| 0 <= i < |out| && out[i].id == id;
      assert (out + [r])[i] == out[i];
    }
  }

  lemma {:induction false} KeepShape(out: seq<Reading>, rs: seq<Reading>)
    requires DistinctIds(out)
    ensures DistinctIds(Keep(out, rs)) && out <= Keep(out, rs)
    ensures forall k :: |out| <= k < |Keep(out, rs)| ==> Keep(out, rs)[k] in rs
    decreases |rs|
  {
    if rs != [] { KeepShape(out, rs[..|rs| - 1]); }
  }

  lemma {:induction false} KeepHasIds(out: seq<Reading>, rs: seq<Reading>)
    ensures forall a :: 0 <= a < |rs| ==> HasId(Keep(out, rs), rs[a].id)
    decreases |rs|
  {
    if rs != [] {
      var n := |rs| - 1;
      KeepHasIds(out, rs[..n]);
      HasIdMore(Keep(out, rs[..n]), rs[n]);
      forall a | 0 <= a < |rs| ensures HasId(Keep(out, rs), rs[a].id) {
        if a < n { assert rs[..n][a] == rs[a]; }
      }
    }
  }

  lemma FirstsMore(pages: seq<Page>, page: Page)
    ensures Firsts(pages + [page]) == Keep(Firsts(pages), page.readings)
    ensures !page.next.valid <==> Complete(pages + [page])
  {
    assert (pages + [page])[..|pages|] == pages;
  }

  lemma {:induction false} FirstsHold(pages: seq<Page>)
    ensures Holds(Firsts(pages), pages)
  {
    if pages != [] {
      var n := |pages| - 1;
      FirstsHold(pages[..n]);
      KeepShape(Firsts(pages[..n]), pages[n].readings);
      KeepHasIds(Firsts(pages[..n]), pages[n].readings);
      HoldsMore(Firsts(pages[..n]), Firsts(pages), pages[..n], pages[n]);
      assert pages[..n] + [pages[n]] == pages;
    }
  }

  /** The inner loop: the readings of one page whose id has not been seen. */
  method AddPage(out0: seq<Reading>, seen0: set<string>, rs: seq<Reading>) returns (out: seq<Reading>, seen: set<string>)
    requires Ids(out0, seen0)
    ensures out == Keep(out0, rs) && Ids(out, seen)
  {
    out, seen := out0, seen0;
    for a := 0 to |rs|
      invariant out == Keep(out0, rs[..a]) && Ids(out, seen)
    {
      assert rs[..a + 1][..a] == rs[..a];
      if rs[a].id !in seen {
        HasIdMore(out, rs[a]);
        out, seen := out + [rs[a]], seen + {rs[a].id};
      }
    }
    assert rs[..|rs|] == rs;
  }

  lemma HoldsMore(out: seq<Reading>, out': seq<Reading>, pages: seq<Page>, page: Page)
    requires Holds(out, pages) && out <= out' && DistinctIds(out')
    requires forall a :: 0 <= a < |page.readings| ==> HasId(out', page.readings[a].id)
    requires forall k :: |out| <= k < |out'| ==> out'[k] in page.readings
    ensures Holds(out', pages + [page])
  {
    var pages' := pages + [page];
    forall i, a | 0 <= i < |pages'| && 0 <= a < |pages'[i].readings| ensures HasId(out', pages'[i].readings[a].id) {
      if i < |pages| {
        assert HasId(out, pages[i].readings[a].id);
        var k :| 0 <= k < |out| && out[k].id == pages[i].readings[a].id;
        assert out'[k] == out[k];
      }
    }
    forall k | 0 <= k < |out'| ensures OnPages(pages', out'[k]) {
      if k < |out| {
        assert OnPages(pages, out[k]);
        var i :| 0 <= i < |pages| && out[k] in pages[i].readings;
        assert out'[k] in pages'[i].readings;
      } else {
        assert out'[k] in pages'[|pages|].readings;
      }
    }
  }

  /** The answer to call i, asked at the cursor of the page before. */
  function Asking(search: (nat, Query) -> Answer, pages: seq<Page>, i: nat): Answer
    requires i <= |pages|
  {
    search(i, At(SCAN, CursorAt(SCAN, pages, i)))
  }

  /** These pages are what search answered, and all of them but perhaps the last point on. */
  ghost predicate Asked(search: (nat, Query) -> Answer, pages: seq<Page>) {
    (forall i {:trigger Asking(search, pages, i)} :: 0 <= i < |pages| ==> Asking(search, pages, i) == Answered(pages[i]))
    && (forall i :: 0 <= i < |pages| - 1 ==> pages[i].next.valid)
  }

  lemma AskingSame(search: (nat, Query) -> Answer, pages: seq<Page>, page: Page, i: nat)
    requires i <= |pages|
    ensures Asking(search, pages + [page], i) == Asking(search, pages, i)
  {
    assert CursorAt(SCAN, pages + [page], i) == CursorAt(SCAN, pages, i);
  }

  lemma AskedMore(search: (nat, Query) -> Answer, pages: seq<Page>, page: Page)
    requires Asked(search, pages) && (pages != [] ==> pages[|pages| - 1].next.valid)
    requires Asking(search, pages, |pages|) == Answered(page)
    ensures Asked(search, pages + [page])
  {
    forall i | 0 <= i <= |pages| ensures Asking(search, pages + [page], i) == Answered((pages + [page])[i]) {
      AskingSame(search, pages, page, i);
    }
  }

  /** What a scan that has these pages answers. */
  ghost predicate Ends(search: (nat, Query) -> Answer, calls: nat, pages: seq<Page>, r: Outcome) {
    match r
    case Scanned(out) => Complete(pages) && out == Firsts(pages)
    case Failed => (pages != [] ==> !Complete(pages)) && Asking(search, pages, |pages|).Refused?
    case Waiting => (pages != [] ==> !Complete(pages)) && |pages| == calls
  }

  /** The state of a scan that has these pages and is to go on. */
  ghost predicate Going(search: (nat, Query) -> Answer, pages: seq<Page>, cursor: Cursor, out: seq<Reading>, seen: set<string>) {
    Asked(search, pages) && (pages != [] ==> !Complete(pages)) && cursor == CursorAt(SCAN, pages, |pages|)
    && Ids(out, seen) && out == Firsts(pages)
  }

  lemma PageTaken(search: (nat, Query) -> Answer, calls: nat, pages: seq<Page>, page: Page, cursor: Cursor,
                  out: seq<Reading>, seen: set<string>, out': seq<Reading>, seen': set<string>)
    requires Going(search, pages, cursor, out, seen) && search(|pages|, At(SCAN, cursor)) == Answered(page)
    requires out' == Keep(out, page.readings) && Ids(out', seen')
    ensures page.next.valid ==> Going(search, pages + [page], page.next, out', seen')
    ensures !page.next.valid ==>
              Asked(search, pages + [page]) && Ends(search, calls, pages + [page], Scanned(out'))
  {
    AskedMore(search, pages, page);
    FirstsMore(pages, page);
  }

  /** The scan. search(k, q) is what the k-th call of Search answers to q; the scan may
      make as many as calls of them. It follows the cursor until a page has none,
      keeping the first occurrence of every id. An error ends it without a result. */
  method ScanReadings(search: (nat, Query) -> Answer, calls: nat) returns (r: Outcome)
    ensures exists pages :: Asked(search, pages) && |pages| <= calls && Ends(search, calls, pages, r)
  {
    var out: seq<Reading>, seen: set<string>, cursor := [], {}, NO_CURSOR;
    ghost var pages: seq<Page> := [];
    for n := 0 to calls
      invariant |pages| == n && Going(search, pages, cursor, out, seen)
    {
      var answer := search(n, Query("", [], None, SortMode.Newest, cursor, PAGE_LIMIT));
      if answer.Refused? { assert Ends(search, calls, pages, Outcome.Failed); return Outcome.Failed; }
      var page := answer.page;
      var out', seen' := AddPage(out, seen, page.readings);
      PageTaken(search, calls, pages, page, cursor, out, seen, out', seen');
      out, seen, cursor, pages := out', seen', page.next, pages + [page];
      if !cursor.valid { return Scanned(out); }
    }
    assert Ends(search, calls, pages, Waiting);
    return Waiting;
  }

  // ------------------------------------------------------------------
  // What a finished scan holds

  predicate Tokenizes(t: Text) { t.tokenize("") == [] }

  /** The store states the searches saw: between two of them any operations ran, but
      none deleted the reading. */
  ghost predicate Evolves(tables: seq<T.Table>, id: string) {
    |tables| > 0 && T.Valid(tables[0]) && id in tables[0].byID
    && forall i :: 0 <= i < |tables| - 1 ==>
         exists ops :: T.Delete(id) !in ops && tables[i + 1] == T.Run(tables[i], ops)
  }

  lemma {:induction false} EvolvesKeeps(tables: seq<T.Table>, id: string, i: nat)
    requires Evolves(tables, id) && i < |tables|
    ensures T.Valid(tables[i]) && id in tables[i].byID && tables[i].byID[id].createdAt == tables[0].byID[id].createdAt
  {
    if i > 0 {
      EvolvesKeeps(tables, id, i - 1);
      var ops :| T.Delete(id) !in ops && tables[i - 1 + 1] == T.Run(tables[i - 1], ops);
      RunEvolves(tables[i - 1], ops, id);
    }
  }

  lemma RunEvolves(t: T.Table, ops: seq<T.Op>, id: string)
    requires T.Valid(t) && id in t.byID && T.Delete(id) !in ops
    ensures var t' := T.Run(t, ops); T.Valid(t') && id in t'.byID && t'.byID[id].createdAt == t.byID[id].createdAt
  {
    T.RunKeeps(t, ops);
    T.RunKeepsIdentity(t, ops, id);
  }

  function RowsOf(tables: seq<T.Table>): (states: seq<Rows>)
    ensures |states| == |tables| && forall i :: 0 <= i < |states| ==> states[i] == tables[i].byID
  {
    seq(|tables|, i requires 0 <= i < |tables| => tables[i].byID)
  }

  /** When every call is answered from the store as it is by then, the pages of a scan
      are a walk. */
  lemma ScanIsWalk(t: Text, states: seq<Rows>, search: (nat, Query) -> Answer, pages: seq<Page>)
    requires Asked(search, pages) && |pages| == |states| > 0 && forall i :: 0 <= i < |states| ==> KeyedRows(states[i])
    requires forall i, q :: 0 <= i < |states| ==> search(i, q) == Answered(SearchPage(t, states[i], q))
    ensures IsWalk(t, states, SCAN, pages)
  {
    forall i | 0 <= i < |pages| ensures PageFrom(t, states[i], SCAN, pages, i) {
      assert Asking(search, pages, i) == Answered(pages[i]);
    }
  }

  lemma WalkReturns(t: Text, tables: seq<T.Table>, pages: seq<Page>, id: string)
    requires Tokenizes(t) && Evolves(tables, id)
    requires IsWalk(t, RowsOf(tables), SCAN, pages) && Complete(pages)
    ensures exists i, a :: 0 <= i && 0 <= a && ReturnedAt(pages, id, i, a)
  {
    var states, m := RowsOf(tables), MatchOf(t, tables[0].byID[id], SCAN);
    EvolvesKeeps(tables, id, 0);
    forall i | 0 <= i < |states| ensures StableIn(t, states[i], SCAN, id, m) { EvolvesKeeps(tables, id, i); }
    StableReturned(t, states, SCAN, pages, id, m);
  }

  predicate Once(rs: seq<Reading>, id: string) {
    exists k :: 0 <= k < |rs| && rs[k].id == id && forall j :: 0 <= j < |rs| && rs[j].id == id ==> j == k
  }

  /** Whatever else is saved, updated or deleted meanwhile, a finished scan holds every
      reading that was there throughout exactly once. */
  lemma ScanComplete(t: Text, tables: seq<T.Table>, pages: seq<Page>, id: string)
    requires Tokenizes(t) && Evolves(tables, id)
    requires IsWalk(t, RowsOf(tables), SCAN, pages) && Complete(pages)
    ensures Once(Firsts(pages), id)
  {
    WalkReturns(t, tables, pages, id);
    var i, a :| 0 <= i && 0 <= a && ReturnedAt(pages, id, i, a);
    FirstsHold(pages);
    FoundOnce(Firsts(pages), pages, i, a);
  }

  lemma FoundOnce(out: seq<Reading>, pages: seq<Page>, i: nat, a: nat)
    requires Holds(out, pages) && i < |pages| && a < |pages[i].readings|
    ensures Once(out, pages[i].readings[a].id)
  {
    assert HasId(out, pages[i].readings[a].id);
    var k :| 0 <= k < |out| && out[k].id == pages[i].readings[a].id;
  }

  // ------------------------------------------------------------------
  // A store that stands still

  lemma {:induction false} KeepAll(out: seq<Reading>, rs: seq<Reading>)
    requires DistinctIds(out + rs)
    ensures Keep(out, rs) == out + rs
    decreases |rs|
  {
    if rs != [] {
      var n := |rs| - 1;
      var front := out + rs[..n];
      assert front + [rs[n]] == out + rs;
      assert forall i :: 0 <= i < |front| ==> front[i] == (out + rs)[i];
      KeepAll(out, rs[..n]);
      assert (out + rs)[|front|] == rs[n];
      assert forall i :: 0 <= i < |front| ==> front[i].id != rs[n].id;
    }
  }

  lemma {:induction false} FirstsAre(pages: seq<Page>, n: nat)
    requires n <= |pages| && DistinctIds(AllReadings(pages, n))
    ensures Firsts(pages[..n]) == AllReadings(pages, n)
  {
    if n > 0 {
      var front := AllReadings(pages, n - 1);
      assert forall i :: 0 <= i < |front| ==> front[i] == AllReadings(pages, n)[i];
      FirstsAre(pages, n - 1);
      FirstsMore(pages[..n - 1], pages[n - 1]);
      assert pages[..n - 1] + [pages[n - 1]] == pages[..n];
      KeepAll(front, pages[n - 1].readings);
    }
  }

  /** Every call is answered from these rows. */
  ghost predicate Serves(t: Text, rows: Rows, search: (nat, Query) -> Answer)
    requires KeyedRows(rows)
  {
    forall i: nat, q :: search(i, q) == Answered(SearchPage(t, rows, q))
  }

  lemma FixedPages(t: Text, rows: Rows, search: (nat, Query) -> Answer, pages: seq<Page>)
    requires KeyedRows(rows) && Serves(t, rows, search) && Asked(search, pages)
    ensures forall i :: 0 <= i < |pages| ==> PageFrom(t, rows, SCAN, pages, i)
  {
    forall i | 0 <= i < |pages| ensures PageFrom(t, rows, SCAN, pages, i) {
      assert Asking(search, pages, i) == Answered(pages[i]);
    }
  }

  lemma ListingDistinct(t: Text, rows: Rows)
    requires KeyedRows(rows)
    ensures DistinctIds(ReadingsOf(Listing(t, rows, SCAN)))
  {
    assert Gathered(t, rows, SCAN, Listing(t, rows, SCAN));
  }

  /** The listing of the scan's query is every reading, newest first. */
  lemma ListingIsNewestFirst(t: Text, rows: Rows)
    requires KeyedRows(rows) && Tokenizes(t)
    ensures var rs := ReadingsOf(Listing(t, rows, SCAN));
            && (forall i, k :: 0 <= i < k < |rs| ==> O.Newer(rs[i], rs[k]))
            && (forall i :: 0 <= i < |rs| ==> rs[i].id in rows && rows[rs[i].id] == rs[i])
            && (forall id :: id in rows ==> rows[id] in rs)
  {
    O.ListingLists(t, rows, SCAN);
    ListsNewestFirst(t, rows, Listing(t, rows, SCAN));
  }

  lemma ListsNewestFirst(t: Text, rows: Rows, l: seq<Match>)
    requires Tokenizes(t) && O.Lists(t, rows, SCAN, l)
    ensures var rs := ReadingsOf(l);
            && (forall i, k :: 0 <= i < k < |rs| ==> O.Newer(rs[i], rs[k]))
            && (forall i :: 0 <= i < |rs| ==> rs[i].id in rows && rows[rs[i].id] == rs[i])
            && (forall id :: id in rows ==> rows[id] in rs)
  {
    var rs := ReadingsOf(l);
    forall i, k | 0 <= i < k < |rs| ensures O.Newer(rs[i], rs[k]) {
      assert O.Precedes(t, SCAN, l[i].reading, l[k].reading);
    }
    forall id | id in rows ensures rows[id] in rs {
      assert O.Passes(t, SCAN, rows[id]);
      var i :| 0 <= i < |l| && l[i] == MatchOf(t, rows[id], SCAN);
      assert rs[i] == rows[id];
    }
  }

  /** On a store that stands still the scan, given a call for every hundred readings and
      at least one, always ends and returns the sorted list of them all. */
  lemma FixedScan(t: Text, rows: Rows, search: (nat, Query) -> Answer, calls: nat, pages: seq<Page>, r: Outcome)
    requires KeyedRows(rows) && Serves(t, rows, search) && Asked(search, pages) && Ends(search, calls, pages, r)
    requires calls > 0 && calls * PAGE_LIMIT >= |Listing(t, rows, SCAN)|
    ensures r == Scanned(ReadingsOf(Listing(t, rows, SCAN)))
  {
    FixedPages(t, rows, search, pages);
    if r.Scanned? {
      FixedStore(t, rows, SCAN, pages);
      ListingDistinct(t, rows);
      FirstsAre(pages, |pages|);
      assert pages[..|pages|] == pages;
    } else {
      if r.Waiting? { FixedUnfinished(t, rows, SCAN, pages); }
      assert false;
    }
  }
}
