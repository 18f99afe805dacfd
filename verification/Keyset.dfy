/** Search of internal/store/memory.go: the sort order of its three modes, its cursor
    and its pages, as functions of the rows it saw. */
module Keyset {
  import opened Basics
  import opened Readings
  import opened Lexical

  type Rows = map<string, Reading>

  // An open string type in the source; every other name sorts as newest.
  datatype SortMode = Newest | Oldest | Title | Other(name: string)

  /** Rank is the float64 of a score; scores this small convert exactly. */
  datatype Cursor = Cursor(createdAt: int, id: string, title: string, rank: real, valid: bool)

  const NO_CURSOR := Cursor(0, "", "", 0.0, false)

  /** None for no status filter. */
  datatype Query = Query(q: string, tags: seq<string>, status: Option<Status>, sort: SortMode, cursor: Cursor, limit: int)

  datatype Page = Page(readings: seq<Reading>, total: nat, next: Cursor)

  datatype Match = Match(reading: Reading, score: nat)

  /** strings.ToLower, tokenize, and the counting of one term in a reading's text. */
  datatype Text = Text(lower: string -> string, tokenize: string -> seq<string>, count: (Reading, string) -> nat)

  function Score(t: Text, r: Reading, terms: seq<string>): nat {
    if terms == [] then 0 else Score(t, r, terms[..|terms| - 1]) + t.count(r, terms[|terms| - 1])
  }

  predicate HasAllTags(have: seq<string>, want: seq<string>) {
    forall tag :: tag in want ==> tag in have
  }

  predicate Ranked(t: Text, q: Query) { t.tokenize(q.q) != [] }

  function MatchOf(t: Text, r: Reading, q: Query): Match { Match(r, Score(t, r, t.tokenize(q.q))) }

  predicate Matches(t: Text, r: Reading, q: Query) {
    (q.status.Some? ==> r.status == q.status.value)
    && HasAllTags(r.tags, q.tags)
    && (Ranked(t, q) ==> Score(t, r, t.tokenize(q.q)) != 0)
  }

  // ------------------------------------------------------------------
  // The comparator and the cursor test

  function CompareCreatedDesc(a: Reading, b: Reading): int {
    if a.createdAt != b.createdAt then CompareInt(b.createdAt, a.createdAt) else Compare(b.id, a.id)
  }

  function CompareCreatedAsc(a: Reading, b: Reading): int {
    if a.createdAt != b.createdAt then CompareInt(a.createdAt, b.createdAt) else Compare(a.id, b.id)
  }

  function CompareTitleAsc(t: Text, a: Reading, b: Reading): int {
    var c := Compare(t.lower(a.title), t.lower(b.title));
    if c != 0 then c else Compare(a.id, b.id)
  }

  function Order(t: Text, mode: SortMode, ranked: bool, a: Match, b: Match): int {
    if ranked && a.score != b.score then CompareInt(b.score, a.score)
    else match mode
         case Oldest => CompareCreatedAsc(a.reading, b.reading)
         case Title => CompareTitleAsc(t, a.reading, b.reading)
         case _ => CompareCreatedDesc(a.reading, b.reading)
  }

  predicate IsAfterCursor(t: Text, m: Match, mode: SortMode, c: Cursor) {
    var r := m.reading;
    if (c.rank > 0.0 || m.score > 0) && m.score as real != c.rank then m.score as real < c.rank
    else match mode
         case Title =>
           var n := Compare(t.lower(r.title), t.lower(c.title));
           if n != 0 then n > 0 else Compare(r.id, c.id) > 0
         case Oldest => if r.createdAt == c.createdAt then Compare(r.id, c.id) > 0 else r.createdAt > c.createdAt
         case _ => if r.createdAt == c.createdAt then Compare(r.id, c.id) < 0 else r.createdAt < c.createdAt
  }

  function CursorOf(m: Match): Cursor {
    Cursor(m.reading.createdAt, m.reading.id, m.reading.title, m.score as real, true)
  }

  /** Scores are positive in a ranked search and zero in any other. */
  predicate ScoreFits(ranked: bool, m: Match) { ranked <==> m.score > 0 }

  /** The cursor test on a row agrees with the comparator, in every mode, ranked or not. */
  lemma CursorAgrees(t: Text, mode: SortMode, ranked: bool, last: Match, m: Match)
    requires ScoreFits(ranked, last) && ScoreFits(ranked, m)
    ensures IsAfterCursor(t, m, mode, CursorOf(last)) <==> Order(t, mode, ranked, last, m) < 0
  {
    CompareFlips(last.reading.id, m.reading.id);
    CompareFlips(t.lower(last.reading.title), t.lower(m.reading.title));
  }

  lemma OrderFlips(t: Text, mode: SortMode, ranked: bool, a: Match, b: Match)
    ensures Order(t, mode, ranked, a, b) == -Order(t, mode, ranked, b, a)
    ensures Order(t, mode, ranked, a, b) == 0 ==> a.reading.id == b.reading.id
  {
    CompareFlips(a.reading.id, b.reading.id);
    CompareFlips(t.lower(a.reading.title), t.lower(b.reading.title));
    CompareZero(a.reading.id, b.reading.id);
    CompareZero(b.reading.id, a.reading.id);
  }

  lemma OrderChains(t: Text, mode: SortMode, ranked: bool, a: Match, b: Match, c: Match)
    requires Order(t, mode, ranked, a, b) < 0 && Order(t, mode, ranked, b, c) < 0
    ensures Order(t, mode, ranked, a, c) < 0
  {
    match mode {
      case Title => TitleChains(t, a.reading, b.reading, c.reading);
      case Oldest => IdsChain(a.reading.id, b.reading.id, c.reading.id);
      case _ => IdsChain(c.reading.id, b.reading.id, a.reading.id);
    }
  }

  lemma IdsChain(a: string, b: string, c: string)
    ensures Compare(a, b) < 0 && Compare(b, c) < 0 ==> Compare(a, c) < 0
  {
    if Compare(a, b) < 0 && Compare(b, c) < 0 { CompareChains(a, b, c); }
  }

  lemma TitleChains(t: Text, a: Reading, b: Reading, c: Reading)
    ensures CompareTitleAsc(t, a, b) < 0 && CompareTitleAsc(t, b, c) < 0 ==> CompareTitleAsc(t, a, c) < 0
  {
    IdsChain(a.id, b.id, c.id);
    IdsChain(t.lower(a.title), t.lower(b.title), t.lower(c.title));
    CompareZero(t.lower(a.title), t.lower(b.title));
    CompareZero(t.lower(b.title), t.lower(c.title));
    CompareZero(t.lower(a.title), t.lower(c.title));
  }

  // ------------------------------------------------------------------
  // Pages

  /** The part of a sorted list that applyCursor keeps. */
  function AfterCursor(t: Text, l: seq<Match>, mode: SortMode, c: Cursor): (r: seq<Match>)
    ensures |r| <= |l| && r == l[|l| - |r|..]
  {
    if l == [] || !c.valid || IsAfterCursor(t, l[0], mode, c) then l else AfterCursor(t, l[1..], mode, c)
  }

  function LimitOf(limit: int): (n: nat)
    ensures n > 0
  {
    if limit <= 0 then 50 else limit
  }

  function ReadingsOf(l: seq<Match>): (r: seq<Reading>)
    ensures |r| == |l| && forall i :: 0 <= i < |l| ==> r[i] == l[i].reading
  {
    seq(|l|, i requires 0 <= i < |l| => l[i].reading)
  }

  /** At most n of the rows that are left of l, and a cursor if there are more. */
  function Cut(l: seq<Match>, rest: seq<Match>, n: nat): Page
    requires n > 0
  {
    if |rest| > n then Page(ReadingsOf(rest[..n]), |l|, CursorOf(rest[n - 1])) else Page(ReadingsOf(rest), |l|, NO_CURSOR)
  }

  /** One page of a sorted list. */
  function PageOf(t: Text, l: seq<Match>, q: Query): Page {
    Cut(l, AfterCursor(t, l, q.sort, q.cursor), LimitOf(q.limit))
  }
}
