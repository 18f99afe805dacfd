/** The class vector.Memory of internal/vector/vector.go. */
module VectorIndex {
  import opened Basics
  import opened Lexical
  import opened Vectors
  import S = Sorting

  datatype Match = Match(id: string, score: real)

  /** The comparator of Query: score descending, then id ascending. */
  function Order(a: Match, b: Match): int {
    if a.score > b.score then -1 else if a.score < b.score then 1 else Compare(a.id, b.id)
  }

  /** a is reported before b. */
  predicate Better(a: Match, b: Match) {
    a.score > b.score || (a.score == b.score && Below(a.id, b.id))
  }

  function ByRank(): (Match, Match) -> int { (a, b) => Order(a, b) }

  lemma OrderOrders()
    ensures S.Orders(ByRank())
  {
    var cmp := ByRank();
    forall a, b ensures cmp(a, b) < 0 <==> cmp(b, a) > 0 { CompareFlips(a.id, b.id); }
    forall a, b, c | cmp(a, b) < 0 && cmp(b, c) < 0 ensures cmp(a, c) < 0 {
      if Compare(a.id, b.id) < 0 && Compare(b.id, c.id) < 0 { CompareChains(a.id, b.id, c.id); }
    }
  }

  function Candidates(vecs: Vecs, excludeID: string): set<string> {
    set id | id in vecs && (excludeID != "" ==> id != excludeID)
  }

  predicate Sized(vecs: Vecs) {
    forall id :: id in vecs ==> |vecs[id].vec| == DIM
  }

  ghost function Scored(root: real -> real, vecs: Vecs, vec: seq<real>, id: string): Match
    requires IsRoot(root) && |vec| == DIM && Sized(vecs) && id in vecs
  {
    Match(id, Cosine(root, vec, vecs[id].vec))
  }

  /** Every one of the ids once, with its score, in any order. */
  ghost predicate AllScored(root: real -> real, vecs: Vecs, vec: seq<real>, ids: set<string>, ms: seq<Match>)
    requires IsRoot(root) && |vec| == DIM && Sized(vecs)
  {
    (forall i :: 0 <= i < |ms| ==> ms[i].id in ids && ms[i].id in vecs && ms[i] == Scored(root, vecs, vec, ms[i].id))
    && (forall i, k :: 0 <= i < k < |ms| ==> ms[i].id != ms[k].id)
    && (forall id :: id in ids ==> id in vecs && Scored(root, vecs, vec, id) in ms)
    && |ms| == |ids|
  }

  lemma Ranks(ms: seq<Match>)
    requires forall i, k :: 0 <= i < k < |ms| ==> ms[i].id != ms[k].id
    ensures S.SortedBy(ByRank(), S.Sort(ByRank(), ms))
  {
    var cmp := ByRank();
    OrderOrders();
    forall i, k | 0 <= i < k < |ms| ensures cmp(ms[i], ms[k]) != 0 { CompareZero(ms[i].id, ms[k].id); }
    S.SortSorts(cmp, ms);
  }

  lemma BetterDiffers(a: Match, b: Match)
    requires Order(a, b) < 0
    ensures Better(a, b)
    ensures a.id == b.id ==> a.score != b.score
  {
    CompareZero(a.id, b.id);
    CompareBelow(a.id, b.id);
  }

  /** Sorting the scored candidates ranks them. */
  lemma SortRanks(root: real -> real, vecs: Vecs, vec: seq<real>, ids: set<string>, ms: seq<Match>)
    requires IsRoot(root) && |vec| == DIM && Sized(vecs) && AllScored(root, vecs, vec, ids, ms)
    ensures var l := S.Sort(ByRank(), ms);
            AllScored(root, vecs, vec, ids, l) && forall i, k :: 0 <= i < k < |l| ==> Better(l[i], l[k])
  {
    var l := S.Sort(ByRank(), ms);
    Ranks(ms);
    S.SameElements(l, ms);
    forall i | 0 <= i < |l| ensures l[i].id in ids && l[i].id in vecs && l[i] == Scored(root, vecs, vec, l[i].id) {
      assert l[i] in ms;
    }
    forall i, k | 0 <= i < k < |l| ensures Better(l[i], l[k]) && l[i].id != l[k].id {
      assert ByRank()(l[i], l[k]) < 0;
      BetterDiffers(l[i], l[k]);
    }
  }

  /** out is the best topK candidates, in rank order: no candidate that was left out
      ranks before one that was reported. */
  ghost predicate TopK(root: real -> real, vecs: Vecs, vec: seq<real>, topK: int, excludeID: string, out: seq<Match>)
    requires IsRoot(root) && |vec| == DIM && Sized(vecs)
  {
    |out| == Min(Max(topK, 0), |Candidates(vecs, excludeID)|)
    && (forall i :: 0 <= i < |out| ==>
          out[i].id in Candidates(vecs, excludeID) && (excludeID == "" || out[i].id != excludeID)
          && out[i] == Scored(root, vecs, vec, out[i].id)
          && ScoreIs(root, vec, vecs[out[i].id].vec, out[i].score) && -1.0 <= out[i].score <= 1.0)
    && (forall i, k :: 0 <= i < k < |out| ==> Better(out[i], out[k]))
    && (forall id, i :: id in Candidates(vecs, excludeID) && 0 <= i < |out| ==>
          Scored(root, vecs, vec, id) in out || Better(out[i], Scored(root, vecs, vec, id)))
  }

  lemma PrefixIsTopK(root: real -> real, vecs: Vecs, vec: seq<real>, topK: int, excludeID: string, l: seq<Match>, n: nat)
    requires IsRoot(root) && |vec| == DIM && Sized(vecs)
    requires AllScored(root, vecs, vec, Candidates(vecs, excludeID), l)
    requires forall i, k :: 0 <= i < k < |l| ==> Better(l[i], l[k])
    requires n == Min(Max(topK, 0), |l|)
    ensures TopK(root, vecs, vec, topK, excludeID, l[..n])
  {
    var out := l[..n];
    forall i | 0 <= i < n ensures ScoreIs(root, vec, vecs[out[i].id].vec, out[i].score) && -1.0 <= out[i].score <= 1.0 {
      CosineBounded(root, vec, vecs[l[i].id].vec);
      CosineScores(root, vec, vecs[l[i].id].vec);
    }
    forall id, i | id in Candidates(vecs, excludeID) && 0 <= i < n
      ensures Scored(root, vecs, vec, id) in out || Better(out[i], Scored(root, vecs, vec, id))
    {
      var k :| 0 <= k < |l| && l[k] == Scored(root, vecs, vec, id);
      if k < n { assert out[k] == l[k]; }
    }
  }

  class Index {
    const root: real -> real
    var vecs: Vecs

    ghost predicate Valid()
      reads this
    {
      IsRoot(root) && Sized(vecs)
    }

    constructor (root: real -> real)
      requires IsRoot(root)
      ensures Valid() && vecs == map[] && this.root == root
    {
      this.root, vecs := root, map[];
    }

    method Upsert(ctxDone: bool, id: string, vec: seq<real>, generation: Option<int>) returns (res: Result)
      requires Valid()
      modifies this`vecs
      ensures Valid()
      ensures res == if ctxDone then CtxDone else if |vec| != DIM then BadDimension else Ok
      ensures vecs == if res.Ok? then Upserted(old(vecs), Write(id, vec, generation)) else old(vecs)
    {
      if ctxDone { return CtxDone; }
      if |vec| != DIM { return BadDimension; }
      if id in vecs && Outranks(vecs[id].generation, generation) {
        return Ok;
      }
      vecs := vecs[id := Entry(vec, generation)];
      return Ok;
    }

    method Delete(ctxDone: bool, id: string) returns (res: Result)
      requires Valid()
      modifies this`vecs
      ensures Valid()
      ensures res == if ctxDone then CtxDone else Ok
      ensures vecs == if ctxDone then old(vecs) else old(vecs) - {id}
    {
      if ctxDone { return CtxDone; }
      vecs := vecs - {id};
      return Ok;
    }

    /** cosine: one pass that accumulates the dot product and both squared norms. */
    method Similarity(a: seq<real>, b: seq<real>) returns (score: real)
      requires Valid() && |a| == |b|
      ensures score == Cosine(root, a, b) && ScoreIs(root, a, b, score)
    {
      CosineScores(root, a, b);
      var dot, na, nb := 0.0, 0.0, 0.0;
      for i := 0 to |a|
        invariant dot == Dot(a, b, i) && na == Dot(a, a, i) && nb == Dot(b, b, i)
      {
        var x, y := a[i], b[i];
        dot := dot + x * y;
        na := na + x * x;
        nb := nb + y * y;
      }
      if na == 0.0 || nb == 0.0 { return 0.0; }
      RootsPositive(root, a, b);
      return Ratio(root, dot, na, nb);
    }

    method Score(vec: seq<real>, excludeID: string) returns (matches: seq<Match>)
      requires Valid() && |vec| == DIM
      ensures AllScored(root, vecs, vec, Candidates(vecs, excludeID), matches)
    {
      matches := [];
      var rest := vecs.Keys;
      while rest != {}
        invariant rest <= vecs.Keys && AllScored(root, vecs, vec, Candidates(vecs, excludeID) - rest, matches)
        decreases |rest|
      {
        var id :| id in rest;
        OneLess(vecs, excludeID, rest, id);
        if excludeID == "" || id != excludeID {
          var score := Similarity(vec, vecs[id].vec);
          OneMore(root, vecs, vec, Candidates(vecs, excludeID) - rest, matches, id);
          matches := matches + [Match(id, score)];
        }
        rest := rest - {id};
      }
      assert Candidates(vecs, excludeID) - rest == Candidates(vecs, excludeID);
    }

    /** Query reports exactly the best min(topK, candidates) entries, by score and then
        id, without the excluded id. */
    method Query(ctxDone: bool, vec: seq<real>, topK: int, excludeID: string) returns (res: Result, out: seq<Match>)
      requires Valid()
      ensures res == if ctxDone then CtxDone else if |vec| != DIM then BadDimension else Ok
      ensures !res.Ok? ==> out == []
      ensures res.Ok? ==> TopK(root, vecs, vec, topK, excludeID, out)
    {
      if ctxDone { return CtxDone, []; }
      if |vec| != DIM { return BadDimension, []; }
      var wanted := topK;
      if wanted < 0 { wanted := 0; }
      var matches := Score(vec, excludeID);
      SortRanks(root, vecs, vec, Candidates(vecs, excludeID), matches);
      out := S.Sort(ByRank(), matches);
      PrefixIsTopK(root, vecs, vec, topK, excludeID, out, Min(wanted, |out|));
      assert out[..|out|] == out;
      if wanted < |out| { out := out[..wanted]; }
      return Ok, out;
    }
  }

  lemma OneLess(vecs: Vecs, excludeID: string, rest: set<string>, id: string)
    requires id in rest && rest <= vecs.Keys
    ensures var c := Candidates(vecs, excludeID);
            c - (rest - {id}) == if excludeID != "" && id == excludeID then c - rest else (c - rest) + {id}
  {
  }

  lemma OneMore(root: real -> real, vecs: Vecs, vec: seq<real>, ids: set<string>, ms: seq<Match>, id: string)
    requires IsRoot(root) && |vec| == DIM && Sized(vecs) && AllScored(root, vecs, vec, ids, ms)
    requires id in vecs && id !in ids
    ensures AllScored(root, vecs, vec, ids + {id}, ms + [Scored(root, vecs, vec, id)])
  {
    var ms' := ms + [Scored(root, vecs, vec, id)];
    forall x | x in ids + {id} ensures x in vecs && Scored(root, vecs, vec, x) in ms' {
      if x == id { assert ms'[|ms|] == Scored(root, vecs, vec, id); }
    }
  }
}
