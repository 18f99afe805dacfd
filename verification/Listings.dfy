/** The sorted list that a search pages through: it exists, it is unique, and one page
    of it is what lies after the cursor, up to the limit. */
module Listings {
  import opened Basics
  import opened Readings
  import opened Keyset
  import S = Sorting

  /** byID is keyed by the reading's own id. */
  predicate KeyedRows(rows: Rows) {
    forall id :: id in rows ==> rows[id].id == id
  }

  function Comparator(t: Text, q: Query): (Match, Match) -> int {
    (a, b) => Order(t, q.sort, Ranked(t, q), a, b)
  }

  /** m is the match of a row that passes the filters. */
  predicate IsMatch(t: Text, rows: Rows, q: Query, m: Match) {
    m.reading.id in rows && rows[m.reading.id] == m.reading && Matches(t, m.reading, q) && m == MatchOf(t, m.reading, q)
  }

  /** Every matching row once, in any order. */
  predicate Gathered(t: Text, rows: Rows, q: Query, ms: seq<Match>) {
    (forall i :: 0 <= i < |ms| ==> IsMatch(t, rows, q, ms[i]))
    && (forall i, k :: 0 <= i < k < |ms| ==> ms[i].reading.id != ms[k].reading.id)
    && (forall id :: id in rows && Matches(t, rows[id], q) ==> MatchOf(t, rows[id], q) in ms)
  }

  ghost predicate IsListing(t: Text, rows: Rows, q: Query, l: seq<Match>) {
    Gathered(t, rows, q, l) && S.SortedBy(Comparator(t, q), l)
  }

  lemma ComparatorOrders(t: Text, q: Query)
    ensures S.Orders(Comparator(t, q))
  {
    var cmp := Comparator(t, q);
    forall a, b ensures cmp(a, b) < 0 <==> cmp(b, a) > 0 { OrderFlips(t, q.sort, Ranked(t, q), a, b); }
    forall a, b, c | cmp(a, b) < 0 && cmp(b, c) < 0 ensures cmp(a, c) < 0 {
      OrderChains(t, q.sort, Ranked(t, q), a, b, c);
    }
  }

  lemma GatheredApart(t: Text, rows: Rows, q: Query, ms: seq<Match>)
    requires Gathered(t, rows, q, ms)
    ensures S.Apart(Comparator(t, q), ms)
  {
    forall i, k | 0 <= i < k < |ms| ensures Comparator(t, q)(ms[i], ms[k]) != 0 {
      OrderFlips(t, q.sort, Ranked(t, q), ms[i], ms[k]);
    }
  }

  /** Sorting what was gathered, in whatever order the map was walked, gives a listing. */
  lemma SortLists(t: Text, rows: Rows, q: Query, ms: seq<Match>)
    requires Gathered(t, rows, q, ms)
    ensures IsListing(t, rows, q, S.Sort(Comparator(t, q), ms))
  {
    var cmp := Comparator(t, q);
    ComparatorOrders(t, q);
    GatheredApart(t, rows, q, ms);
    S.SortSorts(cmp, ms);
    var l := S.Sort(cmp, ms);
    S.SameElements(l, ms);
    SameMatches(t, rows, q, ms, l);
    forall i, k | 0 <= i < k < |l| ensures l[i].reading.id != l[k].reading.id { SortedIdsDiffer(t, rows, q, l, i, k); }
  }

  lemma SameMatches(t: Text, rows: Rows, q: Query, ms: seq<Match>, l: seq<Match>)
    requires Gathered(t, rows, q, ms) && forall m :: m in l <==> m in ms
    ensures forall id :: id in rows && Matches(t, rows[id], q) ==> MatchOf(t, rows[id], q) in l
    ensures forall i :: 0 <= i < |l| ==> IsMatch(t, rows, q, l[i])
  {
    forall i | 0 <= i < |l| ensures IsMatch(t, rows, q, l[i]) {
      assert l[i] in ms;
      var k :| 0 <= k < |ms| && ms[k] == l[i];
      assert IsMatch(t, rows, q, ms[k]);
    }
  }

  lemma SortedIdsDiffer(t: Text, rows: Rows, q: Query, l: seq<Match>, i: nat, k: nat)
    requires S.SortedBy(Comparator(t, q), l) && i < k < |l|
    requires IsMatch(t, rows, q, l[i]) && IsMatch(t, rows, q, l[k])
    ensures l[i].reading.id != l[k].reading.id
  {
    assert Comparator(t, q)(l[i], l[k]) < 0;
    OrderFlips(t, q.sort, Ranked(t, q), l[i], l[i]);
  }

  lemma ListingUnique(t: Text, rows: Rows, q: Query, l: seq<Match>, l': seq<Match>)
    requires IsListing(t, rows, q, l) && IsListing(t, rows, q, l')
    ensures l == l'
  {
    ComparatorOrders(t, q);
    forall m ensures m in l <==> m in l' {
      if m in l { assert IsMatch(t, rows, q, m); }
      if m in l' { assert IsMatch(t, rows, q, m); }
    }
    S.SortedUnique(Comparator(t, q), l, l');
  }

  /** The matches once one more row has been looked at. */
  lemma GatherOne(t: Text, rows: Rows, q: Query, id: string, found: seq<Match>)
    requires KeyedRows(rows) && id in rows && Gathered(t, rows - {id}, q, found)
    ensures Gathered(t, rows, q, if Matches(t, rows[id], q) then found + [MatchOf(t, rows[id], q)] else found)
  {
    assert forall i :: 0 <= i < |found| ==> IsMatch(t, rows - {id}, q, found[i]);
    var ms := if Matches(t, rows[id], q) then found + [MatchOf(t, rows[id], q)] else found;
    forall x | x in rows && Matches(t, rows[x], q) ensures MatchOf(t, rows[x], q) in ms {
      if x != id { assert x in rows - {id} && (rows - {id})[x] == rows[x]; }
    }
  }

  lemma Gather(t: Text, rows: Rows, q: Query) returns (ms: seq<Match>)
    requires KeyedRows(rows)
    ensures Gathered(t, rows, q, ms)
    decreases |rows|
  {
    if rows == map[] { return []; }
    var id :| id in rows;
    var found := Gather(t, rows - {id}, q);
    ms := if Matches(t, rows[id], q) then found + [MatchOf(t, rows[id], q)] else found;
    GatherOne(t, rows, q, id, found);
  }

  ghost function Listing(t: Text, rows: Rows, q: Query): (l: seq<Match>)
    requires KeyedRows(rows)
    ensures IsListing(t, rows, q, l)
  {
    assert exists l :: IsListing(t, rows, q, l) by {
      var ms := Gather(t, rows, q);
      SortLists(t, rows, q, ms);
    }
    var l :| IsListing(t, rows, q, l);
    l
  }

  lemma SortIsListing(t: Text, rows: Rows, q: Query, ms: seq<Match>)
    requires KeyedRows(rows) && Gathered(t, rows, q, ms)
    ensures S.Sort(Comparator(t, q), ms) == Listing(t, rows, q)
  {
    SortLists(t, rows, q, ms);
    ListingUnique(t, rows, q, S.Sort(Comparator(t, q), ms), Listing(t, rows, q));
  }

  /** The page a search returns from these rows. */
  ghost function SearchPage(t: Text, rows: Rows, q: Query): Page
    requires KeyedRows(rows)
  {
    PageOf(t, Listing(t, rows, q), q)
  }

  // ------------------------------------------------------------------
  // Scores

  predicate Fits(t: Text, q: Query, m: Match) { ScoreFits(Ranked(t, q), m) }

  lemma MatchFits(t: Text, rows: Rows, q: Query, m: Match)
    requires IsMatch(t, rows, q, m)
    ensures Fits(t, q, m)
  {
  }
}
