/** The blob keys that pipeline.go and readingops/service.go build, as strings. */
module BlobKeys {
  import opened Basics

  predicate NoSlash(s: string) { '/' !in s }

  function Home(id: string): string { "readings/" + id + "/" }

  /** The key lies under the reading's own prefix. */
  predicate Owns(id: string, key: string) { Home(id) <= key }

  /** Ids carry no slash, so a key belongs to at most one reading. */
  lemma OwnerUnique(a: string, b: string, key: string)
    requires NoSlash(a) && NoSlash(b) && Owns(a, key) && Owns(b, key)
    ensures a == b
  {
    NotShorter(a, b, key);
    NotShorter(b, a, key);
    var n := |"readings/"|;
    forall i | 0 <= i < |a| ensures a[i] == b[i] {
      assert a[i] == Home(a)[n + i] == key[n + i];
      assert b[i] == Home(b)[n + i] == key[n + i];
    }
  }

  /** The slash that ends a's prefix would lie inside a longer b. */
  lemma NotShorter(a: string, b: string, key: string)
    requires NoSlash(b) && Owns(a, key) && Owns(b, key)
    ensures |b| <= |a|
  {
    var n := |"readings/"|;
    assert key[n + |a|] == Home(a)[n + |a|] == '/';
    forall i | n <= i < n + |b| ensures key[i] != '/' {
      assert key[i] == Home(b)[i] == b[i - n];
    }
  }

  // ------------------------------------------------------------------
  // Decimal rendering of %d

  function Digit(d: int): char
    requires 0 <= d < 10
  {
    "0123456789"[d]
  }

  function Nat(n: nat): string {
    if n < 10 then [Digit(n)] else Nat(n / 10) + [Digit(n % 10)]
  }

  function Decimal(n: int): string {
    if n < 0 then "-" + Nat(-n) else Nat(n)
  }

  lemma {:induction false} NatShape(n: nat)
    ensures |Nat(n)| > 0 && forall i :: 0 <= i < |Nat(n)| ==> Nat(n)[i] in "0123456789"
  {
    if n >= 10 { NatShape(n / 10); }
  }

  lemma DigitInjective(a: int, b: int)
    requires 0 <= a < 10 && 0 <= b < 10 && Digit(a) == Digit(b)
    ensures a == b
  {
  }

  lemma {:induction false} NatInjective(a: nat, b: nat)
    requires Nat(a) == Nat(b)
    ensures a == b
  {
    var s := Nat(a);
    if a < 10 && b < 10 {
      assert s[0] == Digit(a) == Digit(b);
      DigitInjective(a, b);
    } else if a < 10 {
      NatShape(b / 10);
    } else if b < 10 {
      NatShape(a / 10);
    } else {
      assert s[|s| - 1] == Digit(a % 10) == Digit(b % 10);
      DigitInjective(a % 10, b % 10);
      assert s[..|s| - 1] == Nat(a / 10) == Nat(b / 10);
      NatInjective(a / 10, b / 10);
    }
  }

  lemma DecimalInjective(a: int, b: int)
    requires Decimal(a) == Decimal(b)
    ensures a == b
  {
    if (a < 0) == (b < 0) {
      var m, n := if a < 0 then -a else a, if b < 0 then -b else b;
      if a < 0 { assert Decimal(a)[1..] == Nat(m) && Decimal(b)[1..] == Nat(n); }
      NatInjective(m, n);
    } else {
      var m := if a < 0 then b else a;
      NatShape(m);
      assert Nat(m)[0] != '-';
    }
  }

  // ------------------------------------------------------------------
  // Keys of pipeline runs

  function RunKey(startedAt: Option<int>): string {
    match startedAt
    case None => "run"
    case Some(t) => "run-" + Decimal(t)
  }

  function RawKey(id: string, startedAt: Option<int>): (k: string)
    ensures Owns(id, k) && k != ""
  {
    Home(id) + RunKey(startedAt) + "/raw"
  }

  function ContentKey(id: string, startedAt: Option<int>): (k: string)
    ensures Owns(id, k) && k != ""
  {
    Home(id) + RunKey(startedAt) + "/content.md"
  }

  /** Runs with different leases never write the same blob: neither the raw body nor
      the content of one can be a blob of the other. */
  lemma RunsWriteApart(id: string, t: int, u: int)
    requires t != u
    ensures RawKey(id, Some(t)) != RawKey(id, Some(u))
    ensures ContentKey(id, Some(t)) != ContentKey(id, Some(u))
    ensures RawKey(id, Some(t)) != ContentKey(id, Some(u))
  {
    RunKeysDiffer(t, u);
    SameTail(Home(id), RunKey(Some(t)), RunKey(Some(u)), "/raw");
    SameTail(Home(id), RunKey(Some(t)), RunKey(Some(u)), "/content.md");
    RawIsNotContent(id, Some(t), Some(u));
  }

  /** Nor does a run write its content over its raw body. */
  lemma RawIsNotContent(id: string, t: Option<int>, u: Option<int>)
    ensures RawKey(id, t) != ContentKey(id, u)
  {
    var a, b := RawKey(id, t), ContentKey(id, u);
    assert a[|a| - 1] == 'w' && b[|b| - 1] == 'd';
  }

  lemma RunKeysDiffer(t: int, u: int)
    requires t != u
    ensures RunKey(Some(t)) != RunKey(Some(u))
  {
    assert RunKey(Some(t))[4..] == Decimal(t) && RunKey(Some(u))[4..] == Decimal(u);
    if Decimal(t) == Decimal(u) { DecimalInjective(t, u); }
  }

  lemma SameTail(p: string, a: string, b: string, z: string)
    requires a != b
    ensures p + a + z != p + b + z
  {
    assert |a| == |b| ==> (p + a + z)[|p|..|p| + |a|] == a && (p + b + z)[|p|..|p| + |a|] == b;
  }

  // ------------------------------------------------------------------
  // Keys of imported bodies

  function ImportKey(id: string): (k: string)
    ensures Owns(id, k) && k != ""
  {
    Home(id) + "raw.md"
  }

  /** The candidate of one iteration of replacementRawKey. */
  function Candidate(id: string, base: string, i: nat): (k: string)
    ensures Owns(id, k) && k != ""
  {
    Home(id) + "raw-" + (if i > 0 then base + "-" + Decimal(i) else base) + ".md"
  }

  lemma CandidatesDiffer(id: string, base: string, i: nat, j: nat)
    requires i < j
    ensures Candidate(id, base, i) != Candidate(id, base, j)
  {
    var si := if i > 0 then base + "-" + Decimal(i) else base;
    var sj := base + "-" + Decimal(j);
    assert sj[|base| + 1..] == Decimal(j);
    if i > 0 {
      assert si[|base| + 1..] == Decimal(i);
      if Decimal(i) == Decimal(j) { DecimalInjective(i, j); }
    }
    SameTail(Home(id) + "raw-", si, sj, ".md");
  }

  /** What replacementRawKey answers: the first candidate that is neither of the two
      old keys. */
  function ReplacementKey(id: string, base: string, raw: string, content: string): (k: string)
    ensures Owns(id, k) && k != ""
  {
    if Candidate(id, base, 0) != raw && Candidate(id, base, 0) != content then Candidate(id, base, 0)
    else if Candidate(id, base, 1) != raw && Candidate(id, base, 1) != content then Candidate(id, base, 1)
    else Candidate(id, base, 2)
  }

  /** Three distinct candidates and two old keys: one candidate is always free. */
  lemma ReplacementKeyIsNew(id: string, base: string, raw: string, content: string)
    ensures ReplacementKey(id, base, raw, content) != raw
    ensures ReplacementKey(id, base, raw, content) != content
  {
    CandidatesDiffer(id, base, 0, 1);
    CandidatesDiffer(id, base, 0, 2);
    CandidatesDiffer(id, base, 1, 2);
  }

  /** The loop of replacementRawKey, with its clock-based fallback. The answer comes
      from the loop: fellBack is never true. */
  method ReplacementRawKey(id: string, base: string, raw: string, content: string, nanos: int)
    returns (key: string, fellBack: bool)
    ensures !fellBack
    ensures key == ReplacementKey(id, base, raw, content)
    ensures key != raw && key != content
  {
    ReplacementKeyIsNew(id, base, raw, content);
    for i := 0 to 3
      invariant forall j :: 0 <= j < i ==> Candidate(id, base, j) == raw || Candidate(id, base, j) == content
    {
      var suffix := base;
      if i > 0 { suffix := base + "-" + Decimal(i); }
      key := Home(id) + "raw-" + suffix + ".md";
      if key != raw && key != content {
        assert key == Candidate(id, base, i);
        return key, false;
      }
      assert key == Candidate(id, base, i);
    }
    key := Home(id) + "raw-" + base + "-" + Decimal(nanos) + ".md";
    fellBack := true;
  }
}
