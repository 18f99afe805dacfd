/** The order of Go strings, as strings.Compare and cmp.Compare see it. */
module Lexical {

  function CompareInt(a: int, b: int): int {
    if a < b then -1 else if a > b then 1 else 0
  }

  function Compare(a: string, b: string): int {
    if a == "" && b == "" then 0
    else if a == "" then -1
    else if b == "" then 1
    else if a[0] < b[0] then -1
    else if b[0] < a[0] then 1
    else Compare(a[1..], b[1..])
  }

  lemma {:induction false} CompareZero(a: string, b: string)
    ensures Compare(a, b) == 0 <==> a == b
    ensures -1 <= Compare(a, b) <= 1
  {
    if a != "" && b != "" {
      CompareZero(a[1..], b[1..]);
      assert a == [a[0]] + a[1..] && b == [b[0]] + b[1..];
    }
  }

  lemma {:induction false} CompareFlips(a: string, b: string)
    ensures Compare(a, b) == -Compare(b, a)
  {
    if a != "" && b != "" { CompareFlips(a[1..], b[1..]); }
  }

  lemma {:induction false} CompareChains(a: string, b: string, c: string)
    requires Compare(a, b) < 0 && Compare(b, c) < 0
    ensures Compare(a, c) < 0
  {
    if a != "" && b != "" && c != "" && a[0] == b[0] == c[0] { CompareChains(a[1..], b[1..], c[1..]); }
  }

  /** The order of a dictionary: a comes before b where they first differ, or a ends first. */
  predicate Below(a: string, b: string) {
    exists k :: 0 <= k <= |a| && DiffersAt(a, b, k)
  }

  predicate DiffersAt(a: string, b: string, k: nat) {
    k <= |a| && k < |b| && a[..k] == b[..k] && (k < |a| ==> a[k] < b[k])
  }

  lemma {:induction false} CompareBelow(a: string, b: string)
    ensures Compare(a, b) < 0 <==> Below(a, b)
  {
    if a == "" {
      if b != "" { assert DiffersAt(a, b, 0); }
    } else if b != "" && a[0] == b[0] {
      CompareBelow(a[1..], b[1..]);
      if k :| 0 <= k <= |a[1..]| && DiffersAt(a[1..], b[1..], k) { TailDiffers(a, b, k); }
      if k :| 0 <= k <= |a| && DiffersAt(a, b, k) { HeadSame(a, b, k); }
    } else if b != "" && a[0] < b[0] {
      assert DiffersAt(a, b, 0);
    } else if k :| 0 <= k <= |a| && DiffersAt(a, b, k) {
      assert k > 0 ==> a[..k][0] == b[..k][0];
    }
  }

  lemma TailDiffers(a: string, b: string, k: nat)
    requires a != "" && b != "" && a[0] == b[0] && DiffersAt(a[1..], b[1..], k)
    ensures Below(a, b)
  {
    assert a[..k + 1] == [a[0]] + a[1..][..k] && b[..k + 1] == [b[0]] + b[1..][..k];
    assert DiffersAt(a, b, k + 1);
  }

  lemma HeadSame(a: string, b: string, k: nat)
    requires a != "" && b != "" && a[0] == b[0] && DiffersAt(a, b, k)
    ensures Below(a[1..], b[1..])
  {
    assert k > 0;
    assert a[1..][..k - 1] == a[..k][1..] && b[1..][..k - 1] == b[..k][1..];
    assert DiffersAt(a[1..], b[1..], k - 1);
  }
}
