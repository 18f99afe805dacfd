/** The pure retry semantics of internal/dispatch/dispatch.go: the error
    classifier, the int64 backoff and the decision taken after one pipeline run.
    Durations are nanoseconds. */
module Retry {
  import opened Basics

  datatype Outcome = Done | Retrying | Requeue | Failing

  datatype Result = Result(outcome: Outcome, after: int)

  datatype Action = Action(redispatch: bool, delay: int, nextAttempt: int, markFailed: bool)

  // ------------------------------------------------------------------
  // Classification

  /** One layer of a wrapped error chain, outermost first. */
  datatype Layer = RateLimit(retryAfter: int) | Permanent | Plain

  /** The first rate-limit layer of the chain, as errors.As finds it. */
  function FirstRateLimit(chain: seq<Layer>): (r: Option<int>)
    ensures r.Some? <==> exists i :: 0 <= i < |chain| && chain[i].RateLimit?
    ensures r.Some? ==> exists i :: 0 <= i < |chain| && chain[i] == RateLimit(r.value)
                                    && forall j :: 0 <= j < i ==> !chain[j].RateLimit?
  {
    if chain == [] then None
    else if chain[0].RateLimit? then assert chain[0] == RateLimit(chain[0].retryAfter); Some(chain[0].retryAfter)
    else
      var rest := FirstRateLimit(chain[1..]);
      assert rest.Some? ==> exists i :: 0 <= i < |chain[1..]| && chain[1..][i] == RateLimit(rest.value)
                                        && forall j :: 0 <= j < i ==> !chain[1..][j].RateLimit?;
      assert forall i :: 0 <= i < |chain[1..]| ==> chain[1..][i] == chain[i + 1];
      assert forall i :: 1 <= i < |chain| ==> chain[i] == chain[1..][i - 1];
      rest
  }

  /** A rate limit anywhere in the chain outranks a permanent mark; the empty
      chain is the nil error. */
  function Classify(chain: seq<Layer>): (r: Result)
    ensures r.outcome == Done <==> chain == []
    ensures r.outcome == Requeue <==> exists i :: 0 <= i < |chain| && chain[i].RateLimit?
    ensures r.outcome == Failing <==> Permanent in chain && forall i :: 0 <= i < |chain| ==> !chain[i].RateLimit?
    ensures r.outcome == Requeue ==> exists i :: 0 <= i < |chain| && chain[i] == RateLimit(r.after)
                                                 && forall j :: 0 <= j < i ==> !chain[j].RateLimit?
  {
    if chain == [] then Result(Done, 0)
    else
      match FirstRateLimit(chain)
      case Some(d) => Result(Requeue, d)
      case None => if Permanent in chain then Result(Failing, 0) else Result(Retrying, 0)
  }

  // ------------------------------------------------------------------
  // Backoff

  const SECOND := 1_000_000_000
  const BACKOFF_CAP := 30 * SECOND
  const TWO_43 := 0x800_0000_0000
  const TWO_63 := 0x8000_0000_0000_0000
  const TWO_64 := 0x1_0000_0000_0000_0000

  function Pow2(n: nat): (p: nat)
    ensures p >= 1
  {
    if n == 0 then 1 else 2 * Pow2(n - 1)
  }

  /** The two's-complement int64 that keeps the low 64 bits of v. */
  function Wrap64(v: int): int {
    var low := v % TWO_64;
    if low < TWO_63 then low else low - TWO_64
  }

  /** Go's `x << n` on an int64: bits shifted out are lost, so a long shift wraps
      to a negative number or clears the word. */
  function Shl64(x: int, n: nat): int {
    Wrap64(x * Pow2(n))
  }

  function Backoff(attempt: int): int {
    var n := if attempt < 0 then 0 else attempt;
    var d := Shl64(SECOND, n);
    if d <= 0 || d > BACKOFF_CAP then BACKOFF_CAP else d
  }

  lemma {:induction false} Pow2Add(a: nat, b: nat)
    ensures Pow2(a + b) == Pow2(a) * Pow2(b)
  {
    if a > 0 {
      Pow2Add(a - 1, b);
      assert Pow2(a + b) == 2 * Pow2(a + b - 1);
      assert 2 * (Pow2(a - 1) * Pow2(b)) == (2 * Pow2(a - 1)) * Pow2(b);
    }
  }

  lemma Pow2Thirty()
    ensures Pow2(5) == 32 && Pow2(30) == 0x4000_0000 && Pow2(34) == 0x4_0000_0000
  {
    assert Pow2(5) == 32;
    Pow2Add(5, 5);
    Pow2Add(10, 10);
    Pow2Add(20, 10);
    Pow2Add(30, 2);
    Pow2Add(32, 2);
    assert Pow2(2) == 4;
  }

  lemma {:induction false} Pow2Monotone(a: nat, b: nat)
    requires a <= b
    ensures Pow2(a) <= Pow2(b)
    decreases b
  {
    if a < b { Pow2Monotone(a, b - 1); }
  }

  /** A multiple of 2^43 keeps being one after wrapping, so its wrapped value is
      either not positive or at least 2^43. */
  lemma WrapOfHighMultiple(q: nat)
    ensures Wrap64(TWO_43 * q) <= 0 || Wrap64(TWO_43 * q) >= TWO_43
  {
    var a, b := q / 0x20_0000, q % 0x20_0000;
    assert TWO_43 * q == TWO_64 * a + TWO_43 * b;
    assert (TWO_64 * a + TWO_43 * b) % TWO_64 == TWO_43 * b;
  }

  lemma SmallShift(n: nat)
    requires n <= 33
    ensures Shl64(SECOND, n) == SECOND * Pow2(n)
  {
    Pow2Thirty();
    Pow2Monotone(n, 33);
    assert Pow2(34) == 2 * Pow2(33);
  }

  /** The shift count at which int64 starts to overflow and everything past it. */
  lemma LongShift(n: nat)
    requires n >= 34
    ensures Shl64(SECOND, n) <= 0 || Shl64(SECOND, n) > BACKOFF_CAP
  {
    Pow2Thirty();
    Pow2Add(34, n - 34);
    var q := 1_953_125 * Pow2(n - 34);
    assert SECOND * Pow2(n) == TWO_43 * q;
    WrapOfHighMultiple(q);
  }

  /** For every attempt, overflow included, the delay is min(2^n, 30) seconds. */
  lemma BackoffExact(n: nat)
    ensures Backoff(n) == SECOND * Min(Pow2(n), 30)
    ensures n >= 5 ==> Backoff(n) == BACKOFF_CAP
    ensures forall m: int :: m < 0 ==> Backoff(m) == SECOND
  {
    Pow2Thirty();
    if n <= 33 {
      SmallShift(n);
      if n >= 5 { Pow2Monotone(5, n); }
    } else {
      LongShift(n);
      Pow2Monotone(5, n);
    }
    if n <= 4 { Pow2Monotone(n, 4); assert Pow2(4) == 16; }
    SmallShift(0);
  }

  /** Time scheduled by the first n retries of a claim that starts at attempt 0. */
  function TotalBackoff(n: nat): int {
    if n == 0 then 0 else TotalBackoff(n - 1) + Backoff(n - 1)
  }

  lemma {:induction false} TotalBackoffExact(n: nat)
    ensures n <= 5 ==> TotalBackoff(n) == SECOND * (Pow2(n) - 1)
    ensures n >= 5 ==> TotalBackoff(n) == SECOND * (31 + 30 * (n - 5))
  {
    if n > 0 {
      TotalBackoffExact(n - 1);
      BackoffExact(n - 1);
      if n <= 5 {
        Pow2Monotone(n - 1, 4);
        assert Pow2(4) == 16;
      }
      assert Pow2(5) == 32;
    }
  }

  // ------------------------------------------------------------------
  // The decision and the retry budget

  function Decide(r: Result, attempt: int, maxAttempts: int): Action {
    match r.outcome
    case Requeue => Action(true, r.after, attempt, false)
    case Retrying =>
      if attempt + 1 >= maxAttempts then Action(false, 0, 0, true)
      else Action(true, Backoff(attempt), attempt + 1, false)
    case Failing => Action(false, 0, 0, true)
    case Done => Action(false, 0, 0, false)
  }

  /** What became of one claim after the given run results. */
  datatype Fate = Alive(attempt: int) | Failed(at: int) | Succeeded

  function Follow(attempt: int, maxAttempts: int, results: seq<Result>): Fate
    decreases |results|
  {
    if results == [] then Alive(attempt)
    else
      var act := Decide(results[0], attempt, maxAttempts);
      if act.markFailed then Failed(attempt)
      else if act.redispatch then Follow(act.nextAttempt, maxAttempts, results[1..])
      else Succeeded
  }

  function Retries(results: seq<Result>): nat {
    if results == [] then 0
    else (if results[0].outcome == Retrying then 1 else 0) + Retries(results[1..])
  }

  /** Time scheduled between the runs of one claim. */
  function Scheduled(attempt: int, maxAttempts: int, results: seq<Result>): int
    decreases |results|
  {
    if results == [] then 0
    else
      var act := Decide(results[0], attempt, maxAttempts);
      if act.redispatch then act.delay + Scheduled(act.nextAttempt, maxAttempts, results[1..]) else 0
  }

  /** What the upstreams asked for in the requeues among these results. */
  function Asked(results: seq<Result>): int {
    if results == [] then 0
    else (if results[0].outcome == Requeue then results[0].after else 0) + Asked(results[1..])
  }

  predicate OnlyTransient(results: seq<Result>) {
    forall r :: r in results ==> r.outcome == Retrying || r.outcome == Requeue
  }

  /** The budget, exactly: with only transient outcomes a claim that starts at s is
      alive while fewer than max(1, Max-s) of them were retries, however many
      requeues are interleaved, and its attempt has risen once per retry. */
  lemma {:induction false} RetryBudgetExact(s: int, maxAttempts: int, results: seq<Result>)
    requires OnlyTransient(results)
    ensures Follow(s, maxAttempts, results)
         == if Retries(results) < Max(1, maxAttempts - s) then Alive(s + Retries(results))
            else Failed(s + Max(1, maxAttempts - s) - 1)
    decreases |results|
  {
    if results != [] {
      var act := Decide(results[0], s, maxAttempts);
      assert results[0] in results;
      assert forall r :: r in results[1..] ==> r in results;
      if act.redispatch {
        RetryBudgetExact(act.nextAttempt, maxAttempts, results[1..]);
      }
    }
  }

  /** While the budget lasts, a claim that starts at s waits exactly what its requeues
      asked for and the backoff of the attempts it went through. */
  lemma {:induction false} ScheduledExact(s: nat, maxAttempts: int, results: seq<Result>)
    requires OnlyTransient(results) && Retries(results) < Max(1, maxAttempts - s)
    ensures Scheduled(s, maxAttempts, results) == Asked(results) + TotalBackoff(s + Retries(results)) - TotalBackoff(s)
    decreases |results|
  {
    if results != [] {
      assert results[0] in results;
      assert forall r :: r in results[1..] ==> r in results;
      ScheduledExact(if results[0].outcome == Retrying then s + 1 else s, maxAttempts, results[1..]);
    }
  }

  /** Whatever the outcomes, a claim never lasts past its retry budget and its
      attempt never falls. */
  lemma {:induction false} AttemptNeverFalls(s: int, maxAttempts: int, results: seq<Result>)
    ensures var f := Follow(s, maxAttempts, results);
            && (f.Alive? ==> s <= f.attempt == s + Retries(results) && Retries(results) < Max(1, maxAttempts - s))
            && (f.Failed? ==> s <= f.at <= s + Max(1, maxAttempts - s) - 1)
    decreases |results|
  {
    if results != [] {
      var act := Decide(results[0], s, maxAttempts);
      if act.redispatch {
        AttemptNeverFalls(act.nextAttempt, maxAttempts, results[1..]);
      }
    }
  }
}
