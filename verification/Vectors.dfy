/** The in-memory vector index of internal/vector/vector.go, over the reals: the
    generation fence, cosine similarity and the exact top-k query. */
module Vectors {
  import opened Basics
  import opened Lexical

  const DIM := 1536

  datatype Entry = Entry(vec: seq<real>, generation: Option<int>)

  type Vecs = map<string, Entry>

  datatype Result = Ok | CtxDone | BadDimension

  // ------------------------------------------------------------------
  // The generation fence

  datatype Write = Write(id: string, vec: seq<real>, generation: Option<int>)

  /** A stored generation that a write with the given one must not replace. */
  predicate Outranks(stored: Option<int>, generation: Option<int>) {
    stored.Some? && generation.Some? && stored.value > generation.value
  }

  /** The index holds a later generation than the write carries. */
  predicate Fenced(vecs: Vecs, w: Write) {
    w.id in vecs && Outranks(vecs[w.id].generation, w.generation)
  }

  function Upserted(vecs: Vecs, w: Write): Vecs {
    if Fenced(vecs, w) then vecs else vecs[w.id := Entry(w.vec, w.generation)]
  }

  function Run(vecs: Vecs, ws: seq<Write>): Vecs {
    if ws == [] then vecs else Upserted(Run(vecs, ws[..|ws| - 1]), ws[|ws| - 1])
  }

  predicate Generational(vecs: Vecs, ws: seq<Write>, id: string) {
    (id in vecs ==> vecs[id].generation.Some?) && forall w :: w in ws && w.id == id ==> w.generation.Some?
  }

  /** Write k is the last one for id among those of the highest generation. */
  predicate Wins(ws: seq<Write>, id: string, k: nat) {
    k < |ws| && ws[k].id == id && ws[k].generation.Some?
    && forall j :: 0 <= j < |ws| && ws[j].id == id && ws[j].generation.Some? ==>
         ws[j].generation.value <= ws[k].generation.value
         && (j > k ==> ws[j].generation.value < ws[k].generation.value)
  }

  /** Every write for id is older than what was there. */
  predicate AllOlder(e: Entry, ws: seq<Write>, id: string) {
    e.generation.Some?
    && forall j :: 0 <= j < |ws| && ws[j].id == id && ws[j].generation.Some? ==> ws[j].generation.value < e.generation.value
  }

  predicate Touches(ws: seq<Write>, id: string) {
    exists j :: 0 <= j < |ws| && ws[j].id == id
  }

  /** What is stored for id is the winning write k, and no older than what was there. */
  predicate FromWrite(vecs: Vecs, ws: seq<Write>, id: string, after: Vecs, k: nat) {
    Wins(ws, id, k) && id in after && after[id] == Entry(ws[k].vec, ws[k].generation)
    && (id in vecs ==> vecs[id].generation.Some? && vecs[id].generation.value <= ws[k].generation.value)
  }

  /** Where the stored vector of id comes from. */
  ghost predicate Settled(vecs: Vecs, ws: seq<Write>, id: string, after: Vecs) {
    (exists k :: 0 <= k && FromWrite(vecs, ws, id, after, k))
    || (id in vecs && id in after && after[id] == vecs[id] && AllOlder(vecs[id], ws, id))
    || (!Touches(ws, id) && (id in after <==> id in vecs) && (id in vecs ==> after[id] == vecs[id]))
  }

  /** However stale writes interleave, with writes for other ids among them: the stored
      vector is that of the last upsert of the highest generation, unless what was
      there before is newer than all of them. So the stored generation never falls. */
  lemma {:induction false} LatestGenerationWins(vecs: Vecs, ws: seq<Write>, id: string)
    requires Generational(vecs, ws, id)
    ensures Settled(vecs, ws, id, Run(vecs, ws))
    ensures id in vecs ==> id in Run(vecs, ws) && Run(vecs, ws)[id].generation.Some?
                           && Run(vecs, ws)[id].generation.value >= vecs[id].generation.value
    decreases |ws|
  {
    if ws != [] {
      var front, w := ws[..|ws| - 1], ws[|ws| - 1];
      assert w in ws && forall x :: x in front ==> x in ws;
      LatestGenerationWins(vecs, front, id);
      var was, after := Run(vecs, front), Run(vecs, ws);
      if w.id != id {
        OtherWrite(vecs, ws, id, was, after);
      } else if Touches(front, id) {
        LaterWrite(vecs, ws, id, was, after);
      } else {
        FirstWrite(vecs, ws, id, was, after);
      }
    }
  }

  lemma OtherWrite(vecs: Vecs, ws: seq<Write>, id: string, was: Vecs, after: Vecs)
    requires ws != [] && ws[|ws| - 1].id != id && after == Upserted(was, ws[|ws| - 1])
    requires Settled(vecs, ws[..|ws| - 1], id, was)
    ensures Settled(vecs, ws, id, after)
  {
    var front := ws[..|ws| - 1];
    if k :| 0 <= k && FromWrite(vecs, front, id, was, k) {
      assert FromWrite(vecs, ws, id, after, k);
    }
  }

  lemma FirstWrite(vecs: Vecs, ws: seq<Write>, id: string, was: Vecs, after: Vecs)
    requires ws != [] && ws[|ws| - 1].id == id && after == Upserted(was, ws[|ws| - 1])
    requires Generational(vecs, ws, id) && !Touches(ws[..|ws| - 1], id) && Settled(vecs, ws[..|ws| - 1], id, was)
    ensures Settled(vecs, ws, id, after)
  {
    var k := |ws| - 1;
    assert ws[k] in ws;
    assert forall j :: 0 <= j < k ==> ws[..k][j] == ws[j] && ws[j].id != id;
    if !Fenced(was, ws[k]) { assert FromWrite(vecs, ws, id, after, k); }
  }

  lemma LaterWrite(vecs: Vecs, ws: seq<Write>, id: string, was: Vecs, after: Vecs)
    requires ws != [] && ws[|ws| - 1].id == id && after == Upserted(was, ws[|ws| - 1])
    requires Generational(vecs, ws, id) && Touches(ws[..|ws| - 1], id) && Settled(vecs, ws[..|ws| - 1], id, was)
    ensures Settled(vecs, ws, id, after)
  {
    var front, z := ws[..|ws| - 1], |ws| - 1;
    assert ws[z] in ws;
    if k :| 0 <= k && FromWrite(vecs, front, id, was, k) {
      Contest(vecs, ws, id, was, after, k);
    } else if !Fenced(was, ws[z]) {
      assert forall j :: 0 <= j < z ==> front[j] == ws[j];
      assert FromWrite(vecs, ws, id, after, z);
    }
  }

  /** The last write against the winner so far. */
  lemma Contest(vecs: Vecs, ws: seq<Write>, id: string, was: Vecs, after: Vecs, k: nat)
    requires ws != [] && ws[|ws| - 1].id == id && ws[|ws| - 1].generation.Some? && after == Upserted(was, ws[|ws| - 1])
    requires FromWrite(vecs, ws[..|ws| - 1], id, was, k)
    ensures FromWrite(vecs, ws, id, after, if Fenced(was, ws[|ws| - 1]) then k else |ws| - 1)
  {
    var front := ws[..|ws| - 1];
    assert forall j :: 0 <= j < |front| ==> front[j] == ws[j];
  }

  /** A write without a generation lands whatever is stored, and the contest for its id
      starts over: what the later writes leave does not depend on what came before. */
  lemma {:induction false} UnfencedRestarts(vecs: Vecs, front: seq<Write>, w: Write, rest: seq<Write>)
    requires w.generation.None?
    ensures var after := Run(vecs, front + [w] + rest);
            && w.id in after
            && (Touches(rest, w.id) <==> w.id in Run(map[], rest))
            && after[w.id] == if w.id in Run(map[], rest) then Run(map[], rest)[w.id] else Entry(w.vec, None)
    decreases |rest|
  {
    var ws := front + [w] + rest;
    if rest == [] {
      assert ws[..|ws| - 1] == front;
    } else {
      var init, z := rest[..|rest| - 1], rest[|rest| - 1];
      assert ws[..|ws| - 1] == front + [w] + init;
      UnfencedRestarts(vecs, front, w, init);
      TouchesMore(init, z, w.id);
      assert rest == init + [z];
    }
  }

  lemma TouchesMore(ws: seq<Write>, z: Write, id: string)
    ensures Touches(ws + [z], id) <==> Touches(ws, id) || z.id == id
  {
    assert (ws + [z])[|ws|] == z;
    if j :| 0 <= j < |ws| && ws[j].id == id { assert (ws + [z])[j] == ws[j]; }
  }

  // ------------------------------------------------------------------
  // Cosine similarity

  function Dot(a: seq<real>, b: seq<real>, n: nat): real
    requires n <= |a| && n <= |b|
  {
    if n == 0 then 0.0 else Dot(a, b, n - 1) + a[n - 1] * b[n - 1]
  }

  lemma SquareNonNegative(x: real)
    ensures x * x >= 0.0
  {
  }

  lemma {:induction false} NormNonNegative(a: seq<real>, n: nat)
    requires n <= |a|
    ensures Dot(a, a, n) >= 0.0
  {
    if n > 0 {
      NormNonNegative(a, n - 1);
      SquareNonNegative(a[n - 1]);
    }
  }

  /** The quadratic form that the induction step of Cauchy-Schwarz needs: the sum of the
      squares of a[i] * y - b[i] * x. */
  function Form(na: real, nb: real, dot: real, x: real, y: real): real {
    na * (y * y) + nb * (x * x) - 2.0 * (dot * (x * y))
  }

  lemma FormGrows(na: real, nb: real, dot: real, p: real, q: real, x: real, y: real)
    ensures Form(na + p * p, nb + q * q, dot + p * q, x, y)
         == Form(na, nb, dot, x, y) + (p * y - q * x) * (p * y - q * x)
  {
    assert (p * y - q * x) * (p * y - q * x) == (p * p) * (y * y) + (q * q) * (x * x) - 2.0 * ((p * q) * (x * y));
  }

  lemma {:induction false} FormNonNegative(a: seq<real>, b: seq<real>, n: nat, x: real, y: real)
    requires n <= |a| && n <= |b|
    ensures Form(Dot(a, a, n), Dot(b, b, n), Dot(a, b, n), x, y) >= 0.0
  {
    if n > 0 {
      var p, q := a[n - 1], b[n - 1];
      FormNonNegative(a, b, n - 1, x, y);
      FormGrows(Dot(a, a, n - 1), Dot(b, b, n - 1), Dot(a, b, n - 1), p, q, x, y);
      SquareNonNegative(p * y - q * x);
    }
  }

  lemma GapGrows(na: real, nb: real, dot: real, x: real, y: real)
    ensures (na + x * x) * (nb + y * y) - (dot + x * y) * (dot + x * y) == (na * nb - dot * dot) + Form(na, nb, dot, x, y)
  {
    assert (na + x * x) * (nb + y * y) == na * nb + na * (y * y) + nb * (x * x) + (x * x) * (y * y);
    assert (dot + x * y) * (dot + x * y) == dot * dot + 2.0 * (dot * (x * y)) + (x * y) * (x * y);
    assert (x * x) * (y * y) == (x * y) * (x * y);
  }

  /** Cauchy-Schwarz, along the accumulation loop. */
  lemma {:induction false} CauchySchwarz(a: seq<real>, b: seq<real>, n: nat)
    requires n <= |a| && n <= |b|
    ensures Dot(a, b, n) * Dot(a, b, n) <= Dot(a, a, n) * Dot(b, b, n)
  {
    if n > 0 {
      CauchySchwarz(a, b, n - 1);
      GapGrows(Dot(a, a, n - 1), Dot(b, b, n - 1), Dot(a, b, n - 1), a[n - 1], b[n - 1]);
      FormNonNegative(a, b, n - 1, a[n - 1], b[n - 1]);
    }
  }

  /** root is the square root. */
  ghost predicate IsRoot(root: real -> real) {
    forall x :: x >= 0.0 ==> root(x) >= 0.0 && root(x) * root(x) == x
  }

  function Cosine(root: real -> real, a: seq<real>, b: seq<real>): real
    requires IsRoot(root) && |a| == |b|
  {
    var na, nb := Dot(a, a, |a|), Dot(b, b, |a|);
    if na == 0.0 || nb == 0.0 then 0.0
    else
      assert root(na) * root(nb) != 0.0 by { RootsPositive(root, a, b); }
      Ratio(root, Dot(a, b, |a|), na, nb)
  }

  function Ratio(root: real -> real, dot: real, na: real, nb: real): real
    requires root(na) * root(nb) != 0.0
  {
    dot / (root(na) * root(nb))
  }

  lemma RootsPositive(root: real -> real, a: seq<real>, b: seq<real>)
    requires IsRoot(root) && |a| == |b| && Dot(a, a, |a|) != 0.0 && Dot(b, b, |a|) != 0.0
    ensures root(Dot(a, a, |a|)) * root(Dot(b, b, |a|)) > 0.0
  {
    NormNonNegative(a, |a|);
    NormNonNegative(b, |a|);
    var x, y := root(Dot(a, a, |a|)), root(Dot(b, b, |a|));
    assert x != 0.0 by { assert x == 0.0 ==> x * x == 0.0; }
    assert y != 0.0 by { assert y == 0.0 ==> y * y == 0.0; }
  }

  lemma SquareGrows(d: real, m: real)
    requires 0.0 < m < d
    ensures d * d > m * m
  {
    assert d * d > d * m;
    assert d * m > m * m;
  }

  lemma BoundedBySquare(d: real, m: real)
    requires m > 0.0 && d * d <= m * m
    ensures -m <= d <= m
  {
    if d > m { SquareGrows(d, m); }
    if -d > m { SquareGrows(-d, m); }
  }

  lemma QuotientBound(d: real, m: real)
    requires m > 0.0 && -m <= d <= m
    ensures -1.0 <= d / m <= 1.0
  {
    assert d / m <= m / m;
    assert d / m >= -m / m;
  }

  lemma ScoreBound(na: real, nb: real, dot: real, x: real, y: real)
    requires x * x == na && y * y == nb && x * y > 0.0 && dot * dot <= na * nb
    ensures -1.0 <= dot / (x * y) <= 1.0
  {
    assert (x * y) * (x * y) == (x * x) * (y * y);
    BoundedBySquare(dot, x * y);
    QuotientBound(dot, x * y);
  }

  lemma ScoreInRange(root: real -> real, a: seq<real>, b: seq<real>)
    requires IsRoot(root) && |a| == |b| && Dot(a, a, |a|) != 0.0 && Dot(b, b, |a|) != 0.0
    ensures -1.0 <= Cosine(root, a, b) <= 1.0
  {
    var na, nb, dot := Dot(a, a, |a|), Dot(b, b, |a|), Dot(a, b, |a|);
    assert na >= 0.0 && nb >= 0.0 && dot * dot <= na * nb by {
      NormNonNegative(a, |a|);
      NormNonNegative(b, |a|);
      CauchySchwarz(a, b, |a|);
    }
    var x, y := root(na), root(nb);
    assert x * y > 0.0 by { RootsPositive(root, a, b); }
    ScoreBound(na, nb, dot, x, y);
  }

  /** Every score lies between -1 and 1, and a vector without direction scores 0. */
  lemma CosineBounded(root: real -> real, a: seq<real>, b: seq<real>)
    requires IsRoot(root) && |a| == |b|
    ensures -1.0 <= Cosine(root, a, b) <= 1.0
    ensures Zero(a) || Zero(b) ==> Cosine(root, a, b) == 0.0
  {
    if Dot(a, a, |a|) != 0.0 && Dot(b, b, |a|) != 0.0 { ScoreInRange(root, a, b); }
    ZeroNorm(a, |a|);
    ZeroNorm(b, |a|);
  }

  lemma {:induction false} ZeroNorm(a: seq<real>, n: nat)
    requires n <= |a|
    ensures (forall i :: 0 <= i < n ==> a[i] == 0.0) ==> Dot(a, a, n) == 0.0
  {
    if n > 0 { ZeroNorm(a, n - 1); }
  }

  /** A vector compared with itself scores 1. */
  lemma CosineSelf(root: real -> real, a: seq<real>)
    requires IsRoot(root) && !Zero(a)
    ensures Cosine(root, a, a) == 1.0
  {
    NormZero(a);
    RootsPositive(root, a, a);
    NormNonNegative(a, |a|);
    var n := Dot(a, a, |a|);
    assert root(n) * root(n) == n;
    assert n / n == 1.0;
  }

  // ------------------------------------------------------------------
  // Which product it is

  /** Raising one coordinate by t raises the product by t times the other vector there:
      every coordinate counts, and counts once. */
  lemma {:induction false} DotRaises(a: seq<real>, b: seq<real>, n: nat, i: nat, t: real)
    requires i < |a| && n <= |a| && n <= |b|
    ensures Dot(a[i := a[i] + t], b, n) == Dot(a, b, n) + (if i < n then t * b[i] else 0.0)
  {
    if n > 0 {
      DotRaises(a, b, n - 1, i, t);
      if i == n - 1 { assert (a[i] + t) * b[i] == a[i] * b[i] + t * b[i]; }
    }
  }

  lemma {:induction false} DotSymmetric(a: seq<real>, b: seq<real>, n: nat)
    requires n <= |a| && n <= |b|
    ensures Dot(a, b, n) == Dot(b, a, n)
  {
    if n > 0 { DotSymmetric(a, b, n - 1); }
  }

  /** Vectors that share no coordinate have product 0, a zero vector with any. */
  lemma {:induction false} DotApart(a: seq<real>, b: seq<real>, n: nat)
    requires n <= |a| && n <= |b| && forall i :: 0 <= i < n ==> a[i] == 0.0 || b[i] == 0.0
    ensures Dot(a, b, n) == 0.0
  {
    if n > 0 { DotApart(a, b, n - 1); }
  }

  lemma {:induction false} DotOpposite(a: seq<real>, b: seq<real>, n: nat)
    requires n <= |a| && n <= |b| && forall i :: 0 <= i < n ==> b[i] == -a[i]
    ensures Dot(a, b, n) == -Dot(a, a, n) && Dot(b, b, n) == Dot(a, a, n)
  {
    if n > 0 { DotOpposite(a, b, n - 1); }
  }

  predicate Zero(a: seq<real>) { forall i :: 0 <= i < |a| ==> a[i] == 0.0 }

  lemma SumAndProduct(sum: real, x: real, y: real)
    requires sum >= 0.0 && x > 0.0 && y > 0.0
    ensures sum + x * y > 0.0
  {
    assert x * y > 0.0;
  }

  lemma SumPositive(sum: real, x: real)
    requires sum >= 0.0 && (sum > 0.0 || x != 0.0)
    ensures sum + x * x > 0.0
  {
    if x > 0.0 {
      SumAndProduct(sum, x, x);
    } else if x < 0.0 {
      SumAndProduct(sum, -x, -x);
      assert x * x == (-x) * (-x);
    } else {
      assert x * x == 0.0;
    }
  }

  lemma {:induction false} PositiveNorm(a: seq<real>, n: nat, i: nat)
    requires i < n <= |a| && a[i] != 0.0
    ensures Dot(a, a, n) > 0.0
  {
    NormNonNegative(a, n - 1);
    if i < n - 1 { PositiveNorm(a, n - 1, i); }
    SumPositive(Dot(a, a, n - 1), a[n - 1]);
  }

  lemma NormZero(a: seq<real>)
    ensures Dot(a, a, |a|) == 0.0 <==> Zero(a)
  {
    ZeroNorm(a, |a|);
    if i :| 0 <= i < |a| && a[i] != 0.0 { PositiveNorm(a, |a|, i); }
  }

  function Length(root: real -> real, a: seq<real>): real { root(Dot(a, a, |a|)) }

  /** The score is the product over the lengths, or 0 where a vector has no direction. */
  predicate ScoreIs(root: real -> real, a: seq<real>, b: seq<real>, score: real)
    requires |a| == |b|
  {
    score * (Length(root, a) * Length(root, b)) == Dot(a, b, |a|) && (Zero(a) || Zero(b) ==> score == 0.0)
  }

  lemma CosineScores(root: real -> real, a: seq<real>, b: seq<real>)
    requires IsRoot(root) && |a| == |b|
    ensures ScoreIs(root, a, b, Cosine(root, a, b))
  {
    NormZero(a);
    NormZero(b);
    if Zero(a) || Zero(b) {
      DotApart(a, b, |a|);
    } else {
      RootsPositive(root, a, b);
      Quotient(Dot(a, b, |a|), Length(root, a) * Length(root, b));
    }
  }

  lemma Quotient(d: real, m: real)
    requires m != 0.0
    ensures (d / m) * m == d
  {
  }

  /** A vector and its opposite score -1. */
  lemma CosineOpposite(root: real -> real, a: seq<real>, b: seq<real>)
    requires IsRoot(root) && |a| == |b| && !Zero(a) && forall i :: 0 <= i < |a| ==> b[i] == -a[i]
    ensures Cosine(root, a, b) == -1.0
  {
    DotOpposite(a, b, |a|);
    NormZero(a);
    NormNonNegative(a, |a|);
    var n := Dot(a, a, |a|);
    assert root(n) * root(n) == n;
    assert (-n) / n == -1.0;
  }

  /** Vectors that share no coordinate score 0. */
  lemma CosineApart(root: real -> real, a: seq<real>, b: seq<real>)
    requires IsRoot(root) && |a| == |b| && forall i :: 0 <= i < |a| ==> a[i] == 0.0 || b[i] == 0.0
    ensures Cosine(root, a, b) == 0.0
  {
    DotApart(a, b, |a|);
    if Dot(a, a, |a|) != 0.0 && Dot(b, b, |a|) != 0.0 { RootsPositive(root, a, b); }
  }
}
