/** What one token can live to see: in every run of the dispatcher in which the process
    stays alive, a token that was lost stays lost, and a token that is carried pays for
    each retry of its item out of one budget. */
module ProtocolRuns {
  import opened Basics
  import opened Claims
  import opened Protocol
  import opened ProtocolInvariant
  import Retry

  /** The process does not die in this run. */
  predicate Survives(run: seq<Label>) { forall i :: 0 <= i < |run| ==> !Dies(run[i]) }

  // ------------------------------------------------------------------
  // Lost tokens

  /** A task that lost its token, or an item in the channel that did, never gets it
      back as long as the process lives. */
  lemma {:induction false} StaleForever(c: Config, s: State, run: seq<Label>, it: Item)
    requires Reachable(c, s) && 1 <= it.token <= s.table.nextToken && !Holds(s.table, it)
    requires Exec(c, s, run).Some? && Survives(run)
    ensures !Holds(Exec(c, s, run).value.table, it)
  {
    ReachableInv(c, s);
    StaleOn(c, s, run, it);
  }

  lemma {:induction false} StaleOn(c: Config, s: State, run: seq<Label>, it: Item)
    requires Inv(s) && 1 <= it.token <= s.table.nextToken && !Holds(s.table, it)
    requires Exec(c, s, run).Some? && Survives(run)
    ensures !Holds(Exec(c, s, run).value.table, it)
    decreases |run|
  {
    if run != [] {
      assert !Dies(run[0]);
      StaleStaysStale(c, s, run[0], it);
      StepKeeps(c, s, run[0]);
      assert forall i :: 0 <= i < |run[1..]| ==> run[1..][i] == run[i + 1];
      StaleOn(c, Do(c, s, run[0]), run[1..], it);
    }
  }

  // ------------------------------------------------------------------
  // Carried tokens

  /** Whoever carries the token, in a task or in the channel, carries it at attempt a. */
  ghost predicate AttemptIs(s: State, token: nat, a: int) {
    && (forall k :: k in s.tasks && Carries(s.tasks[k]) && s.tasks[k].item.token == token ==> s.tasks[k].item.attempt == a)
    && (forall i :: 0 <= i < |s.ch| && s.ch[i].token == token ==> s.ch[i].attempt == a)
  }

  /** The holder of the token hands its item to a delayed continuation. */
  predicate HandsOn(s: State, l: Label, token: nat) {
    l.Redispatch? && l.k in s.tasks && s.tasks[l.k].phase.Deciding? && s.tasks[l.k].item.token == token
    && Holds(s.table, s.tasks[l.k].item)
  }

  /** The results after which the token was handed on, in order. */
  function HandedOn(c: Config, s: State, run: seq<Label>, token: nat): seq<Retry.Result>
    requires Exec(c, s, run).Some?
    decreases |run|
  {
    if run == [] then []
    else
      var rest := HandedOn(c, Do(c, s, run[0]), run[1..], token);
      if HandsOn(s, run[0], token) then [s.tasks[run[0].k].phase.res] + rest else rest
  }

  lemma QuietAttempt(c: Config, s: State, l: Label, token: nat, a: int)
    requires token <= s.table.nextToken && AttemptIs(s, token, a) && Can(c, s, l) && !Dies(l) && !l.Redispatch?
    ensures AttemptIs(Do(c, s, l), token, a)
  {
    if IsForce(l) { ForceAttempt(c, s, l, token, a); }
    else if IsRun(l) { RunAttempt(c, s, l, token, a); }
    else { QueueAttempt(c, s, l, token, a); }
  }

  lemma ForceAttempt(c: Config, s: State, l: Label, token: nat, a: int)
    requires token <= s.table.nextToken && AttemptIs(s, token, a) && Can(c, s, l) && IsForce(l)
    ensures AttemptIs(Do(c, s, l), token, a)
  {
  }

  lemma RunAttempt(c: Config, s: State, l: Label, token: nat, a: int)
    requires token <= s.table.nextToken && AttemptIs(s, token, a) && Can(c, s, l) && IsRun(l) && !l.Redispatch?
    ensures AttemptIs(Do(c, s, l), token, a)
  {
  }

  lemma QueueAttempt(c: Config, s: State, l: Label, token: nat, a: int)
    requires token <= s.table.nextToken && AttemptIs(s, token, a) && Can(c, s, l) && !IsForce(l) && !IsRun(l) && !Dies(l)
    ensures AttemptIs(Do(c, s, l), token, a)
  {
  }

  lemma HandedAttempt(c: Config, s: State, l: Label, token: nat, a: int)
    requires Distinct(s) && AttemptIs(s, token, a) && Can(c, s, l) && l.Redispatch?
    ensures if HandsOn(s, l, token)
            then s.tasks[l.k].item.attempt == a && AttemptIs(Do(c, s, l), token, Action(c, s.tasks[l.k]).nextAttempt)
            else AttemptIs(Do(c, s, l), token, a)
  {
  }

  /** The carried attempt is what Retry.Follow computes from the results the token was
      handed on with. */
  lemma {:induction false} TokenFollows(c: Config, s: State, run: seq<Label>, token: nat, a: int)
    requires Inv(s) && token <= s.table.nextToken && AttemptIs(s, token, a)
    requires Exec(c, s, run).Some? && Survives(run)
    ensures var f := Retry.Follow(a, MaxAttempts(c), HandedOn(c, s, run, token));
            f.Alive? && AttemptIs(Exec(c, s, run).value, token, f.attempt)
    decreases |run|
  {
    if run != [] {
      var l, s1 := run[0], Do(c, s, run[0]);
      assert !Dies(l);
      StepKeeps(c, s, l);
      TokensRise(c, s, l);
      assert forall i :: 0 <= i < |run[1..]| ==> run[1..][i] == run[i + 1];
      if l.Redispatch? { HandedAttempt(c, s, l, token, a); } else { QuietAttempt(c, s, l, token, a); }
      if HandsOn(s, l, token) {
        HandedFollows(c, s, run, token, a);
        TokenFollows(c, s1, run[1..], token, Action(c, s.tasks[l.k]).nextAttempt);
      } else {
        TokenFollows(c, s1, run[1..], token, a);
      }
    }
  }

  lemma HandedFollows(c: Config, s: State, run: seq<Label>, token: nat, a: int)
    requires run != [] && Exec(c, s, run).Some? && HandsOn(s, run[0], token) && s.tasks[run[0].k].item.attempt == a
    ensures Retry.Follow(a, MaxAttempts(c), HandedOn(c, s, run, token))
         == Retry.Follow(Action(c, s.tasks[run[0].k]).nextAttempt, MaxAttempts(c),
                         HandedOn(c, Do(c, s, run[0]), run[1..], token))
  {
    var rest := HandedOn(c, Do(c, s, run[0]), run[1..], token);
    var all := HandedOn(c, s, run, token);
    assert all == [s.tasks[run[0].k].phase.res] + rest;
    assert all[1..] == rest;
  }

  lemma TokensRise(c: Config, s: State, l: Label)
    requires Can(c, s, l) && !Dies(l)
    ensures Do(c, s, l).table.nextToken >= s.table.nextToken
  {
  }

  /** The attempt a claim or a forced claim hands out. */
  function FirstAttempt(l: Label): int
    requires l.Claim? || l.Force?
  {
    if l.Claim? then l.attempt else 0
  }

  /** The life of a token, from the claim that made it: while the process lives, whoever
      carries it does so at the first attempt plus one for each retry it was handed on
      with, requeues not counted, and those retries are fewer than the budget. */
  lemma TokenLife(c: Config, s: State, l: Label, run: seq<Label>)
    requires Reachable(c, s) && (l.Claim? || l.Force?) && Can(c, s, l)
    requires Exec(c, Do(c, s, l), run).Some? && Survives(run)
    ensures var s1, token := Do(c, s, l), s.table.nextToken + 1;
            var retries := Retry.Retries(HandedOn(c, s1, run, token));
            && AttemptIs(Exec(c, s1, run).value, token, FirstAttempt(l) + retries)
            && retries < Max(1, MaxAttempts(c) - FirstAttempt(l))
  {
    var s1, token := Do(c, s, l), s.table.nextToken + 1;
    ReachableInv(c, s);
    StepKeeps(c, s, l);
    NewToken(c, s, l);
    TokenFollows(c, s1, run, token, FirstAttempt(l));
    Retry.AttemptNeverFalls(FirstAttempt(l), MaxAttempts(c), HandedOn(c, s1, run, token));
  }

  lemma NewToken(c: Config, s: State, l: Label)
    requires ItemsOK(s) && (l.Claim? || l.Force?) && Can(c, s, l)
    ensures Do(c, s, l).table.nextToken == s.table.nextToken + 1
    ensures AttemptIs(Do(c, s, l), s.table.nextToken + 1, FirstAttempt(l))
  {
  }
}
