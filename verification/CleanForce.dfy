/** When every forced wait ends because the stale handler exits, at most one handler
    per id runs at all. The wait may be chained over several forced submits: the
    claim keeps the done channel of the last run, whoever owns the claim. */
module CleanForce {
  import opened Basics
  import opened Claims
  import opened Protocol
  import opened ProtocolInvariant

  /** No forced wait times out and none is aborted. */
  predicate CleanLabel(l: Label) { !l.WaitTimeout? && !l.WaitAbort? }

  predicate Clean(c: Config, run: seq<Label>) {
    c.delaySet && forall i :: 0 <= i < |run| ==> CleanLabel(run[i])
  }

  ghost predicate Awaited(s: State, id: string, run: nat) {
    s.force.Some? && s.force.value in s.tasks && s.tasks[s.force.value].item.id == id
    && s.tasks[s.force.value].phase.Waiting? && s.tasks[s.force.value].phase.wait == run
  }

  /** The claim of the handler's id names its run, and is either the handler's own or
      that of a forced submit waiting for it. */
  ghost predicate Lone(s: State, t: Task) {
    InHandler(t.phase) ==>
      && t.item.id in s.table.inflight
      && s.table.inflight[t.item.id].done == Some(t.phase.run)
      && (Holds(s.table, t.item) || Awaited(s, t.item.id, t.phase.run))
  }

  ghost predicate AllLone(s: State) { forall k :: k in s.tasks ==> Lone(s, s.tasks[k]) }

  // ------------------------------------------------------------------

  lemma MoveLone(s: State, k: nat, p: Phase)
    requires Inv(s) && AllLone(s) && k in s.tasks
    requires InHandler(p) ==> InHandler(s.tasks[k].phase) && p.run == s.tasks[k].phase.run
    requires s.force == Some(k) ==> p.Waiting? && p == s.tasks[k].phase
    ensures AllLone(Move(s, k, p))
  {
    var s' := Move(s, k, p);
    forall j | j in s'.tasks ensures Lone(s', s'.tasks[j]) { assert Lone(s, s.tasks[j]); }
  }

  /** A waiting thread leaves its wait once the run it waits for has closed: no
      handler of the id is left. */
  lemma WaitCleanLone(s: State, k: nat)
    requires Inv(s) && AllLone(s) && CanWaitClean(s, k)
    ensures AllLone(Move(s, k, Resuming))
  {
    var s' := Move(s, k, Resuming);
    forall j | j in s'.tasks ensures Lone(s', s'.tasks[j]) {
      assert Lone(s, s.tasks[j]);
      assert GoodRun(s, s.tasks[j]);
    }
  }

  /** Past its wait, the force holder is the only thread of its id that could run. */
  lemma NoHandlerBeside(s: State, k: nat, j: nat)
    requires Inv(s) && AllLone(s) && k in s.tasks && j in s.tasks && j != k
    requires Carries(s.tasks[k]) && Holds(s.table, s.tasks[k].item) && !s.tasks[k].phase.Waiting?
    requires InHandler(s.tasks[j].phase)
    ensures s.tasks[j].item.id != s.tasks[k].item.id
  {
    assert Lone(s, s.tasks[j]);
  }

  /** Giving up the claim of a thread past its wait, and forgetting it. */
  lemma QuitLone(s: State, k: nat, force: Option<nat>)
    requires Inv(s) && AllLone(s) && k in s.tasks && Carries(s.tasks[k]) && !s.tasks[k].phase.Waiting?
    requires force == s.force || (s.force == Some(k) && force == None)
    ensures AllLone(Quit(s, k).(force := force))
  {
    var s' := Quit(s, k).(force := force);
    forall j | j in s'.tasks ensures Lone(s', s'.tasks[j]) {
      assert Lone(s, s.tasks[j]);
      if InHandler(s.tasks[j].phase) && Holds(s.table, s.tasks[k].item) { NoHandlerBeside(s, k, j); }
    }
  }

  lemma RetireLone(s: State, k: nat)
    requires Inv(s) && AllLone(s) && k in s.tasks && InHandler(s.tasks[k].phase)
    ensures AllLone(Move(s, k, Exiting(s.tasks[k].phase.run)).(table := Release(s.table, s.tasks[k].item)))
  {
    var s' := Move(s, k, Exiting(s.tasks[k].phase.run)).(table := Release(s.table, s.tasks[k].item));
    forall j | j in s'.tasks ensures Lone(s', s'.tasks[j]) {
      assert Lone(s, s.tasks[j]);
      if j != k && InHandler(s.tasks[j].phase) && Holds(s.table, s.tasks[k].item) { NoHandlerBeside(s, k, j); }
    }
  }

  lemma UnlockLone(s: State, k: nat)
    requires Inv(s) && AllLone(s) && CanCallback(s, k)
    ensures AllLone(Unlock(Move(s, k, Queueing)))
  {
    var s' := Unlock(Move(s, k, Queueing));
    forall j | j in s'.tasks ensures Lone(s', s'.tasks[j]) { assert Lone(s, s.tasks[j]); }
  }

  lemma EndLone(s: State, k: nat)
    requires AllLone(s) && s.force != Some(k)
    ensures AllLone(End(s, k))
  {
    var s' := End(s, k);
    forall j | j in s'.tasks ensures Lone(s', s'.tasks[j]) { assert Lone(s, s.tasks[j]); }
  }

  lemma ClaimLone(s: State, k: nat, id: string, attempt: int, sweep: bool)
    requires Inv(s) && AllLone(s) && CanClaim(s, k, id)
    ensures AllLone(DoClaim(s, k, id, attempt, sweep))
  {
    var s' := DoClaim(s, k, id, attempt, sweep);
    forall j | j in s'.tasks ensures Lone(s', s'.tasks[j]) {
      if j != k { assert Lone(s, s.tasks[j]); }
    }
  }

  /** The forced claim takes over the done channel and waits on it. */
  lemma ForceClaimLone(c: Config, s: State, k: nat, id: string)
    requires c.delaySet && Inv(s) && AllLone(s) && CanForceClaim(s, k)
    ensures AllLone(DoForceClaim(c, s, k, id))
  {
    var s' := DoForceClaim(c, s, k, id);
    forall j | j in s'.tasks ensures Lone(s', s'.tasks[j]) {
      if j != k { assert Lone(s, s.tasks[j]); }
    }
  }

  lemma SendLone(c: Config, s: State, k: nat)
    requires Inv(s) && AllLone(s) && CanSend(c, s, k)
    ensures AllLone(DoSend(c, s, k))
  {
    if |s.ch| < Capacity(c) {
      var s' := DoSend(c, s, k);
      forall j | j in s'.tasks ensures Lone(s', s'.tasks[j]) { assert Lone(s, s.tasks[j]); }
    } else {
      QuitLone(s, k, s.force);
    }
  }

  lemma ReceiveLone(s: State, k: nat)
    requires Inv(s) && AllLone(s) && CanReceive(s, k)
    ensures AllLone(DoReceive(s, k))
  {
    var s' := DoReceive(s, k);
    forall j | j in s'.tasks ensures Lone(s', s'.tasks[j]) {
      if j != k { assert Lone(s, s.tasks[j]); }
    }
  }

  lemma BeginLone(s: State, k: nat)
    requires Inv(s) && AllLone(s) && CanBeginRun(s, k)
    ensures AllLone(DoBeginRun(s, k))
  {
    var s' := DoBeginRun(s, k);
    if Holds(s.table, s.tasks[k].item) {
      forall j | j in s'.tasks ensures Lone(s', s'.tasks[j]) {
        if j != k {
          assert Lone(s, s.tasks[j]);
          if InHandler(s.tasks[j].phase) { NoHandlerBeside(s, k, j); }
        }
      }
    } else {
      EndLone(s, k);
    }
  }

  lemma RedispatchLone(c: Config, s: State, k: nat, k2: nat)
    requires Inv(s) && AllLone(s) && CanRedispatch(c, s, k, k2)
    ensures AllLone(DoRedispatch(c, s, k, k2))
  {
    var s' := DoRedispatch(c, s, k, k2);
    forall j | j in s'.tasks ensures Lone(s', s'.tasks[j]) {
      if j != k && j != k2 { assert Lone(s, s.tasks[j]); }
    }
  }

  lemma ExitLone(s: State, k: nat)
    requires Inv(s) && AllLone(s) && CanExit(s, k)
    ensures AllLone(DoExit(s, k))
  {
    var s' := DoExit(s, k);
    forall j | j in s'.tasks ensures Lone(s', s'.tasks[j]) { assert Lone(s, s.tasks[j]); }
  }

  lemma TickLone(s: State, dt: nat)
    requires AllLone(s)
    ensures AllLone(DoTick(s, dt))
  {
    var s' := DoTick(s, dt);
    forall j | j in s'.tasks ensures Lone(s', s'.tasks[j]) { assert Lone(s, s.tasks[j]); }
  }

  lemma StepLone(c: Config, s: State, l: Label)
    requires c.delaySet && CleanLabel(l) && Inv(s) && AllLone(s) && Can(c, s, l)
    ensures AllLone(Do(c, s, l))
  {
    if IsForce(l) { ForceStepLone(c, s, l); }
    else if IsRun(l) { RunStepLone(c, s, l); }
    else { QueueStepLone(c, s, l); }
  }

  lemma QueueStepLone(c: Config, s: State, l: Label)
    requires Inv(s) && AllLone(s) && Can(c, s, l) && !IsForce(l) && !IsRun(l)
    ensures AllLone(Do(c, s, l))
  {
    match l
    case Claim(k, id, attempt, sweep) => ClaimLone(s, k, id, attempt, sweep);
    case QueueCheck(k) => if Holds(s.table, s.tasks[k].item) { MoveLone(s, k, Sending); } else { EndLone(s, k); }
    case Send(k) => SendLone(c, s, k);
    case RunInline(k) => MoveLone(s, k, Received);
    case Drain(k) => QuitLone(s, k, s.force);
    case Receive(k) => ReceiveLone(s, k);
    case Fire(k) => MoveLone(s, k, Queueing);
    case Exit(k) => ExitLone(s, k);
    case Tick(dt) => TickLone(s, dt);
    case Panic(_) =>
    case Crash =>
  }

  lemma ForceStepLone(c: Config, s: State, l: Label)
    requires c.delaySet && CleanLabel(l) && Inv(s) && AllLone(s) && Can(c, s, l) && IsForce(l)
    ensures AllLone(Do(c, s, l))
  {
    match l
    case Force(k, id) => ForceClaimLone(c, s, k, id);
    case WaitClean(k) => WaitCleanLone(s, k);
    case Resume(k) => ResumeLone(s, k);
    case CallbackOk(k) => UnlockLone(s, k);
    case CallbackFails(k) => QuitLone(s, k, None);
  }

  lemma ResumeLone(s: State, k: nat)
    requires Inv(s) && AllLone(s) && CanResume(s, k)
    ensures AllLone(DoResume(s, k))
  {
    ForceHolds(s, k);
    var s' := DoResume(s, k);
    forall j | j in s'.tasks ensures Lone(s', s'.tasks[j]) { assert Lone(s, s.tasks[j]); }
  }

  lemma RunStepLone(c: Config, s: State, l: Label)
    requires Inv(s) && AllLone(s) && Can(c, s, l) && IsRun(l)
    ensures AllLone(Do(c, s, l))
  {
    match l
    case Begin(k) => BeginLone(s, k);
    case StartOk(k, start) => MoveLone(s, k, Handling(s.tasks[k].phase.run, start));
    case StartFails(k) => RetireLone(s, k);
    case Return(k, res) => MoveLone(s, k, Returned(s.tasks[k].phase.run, s.tasks[k].phase.start, res));
    case Check(k) => CheckLone(s, k);
    case Settle(k) => RetireLone(s, k);
    case Redispatch(k, k2) => RedispatchLone(c, s, k, k2);
  }

  lemma CheckLone(s: State, k: nat)
    requires Inv(s) && AllLone(s) && CanCheck(s, k)
    ensures AllLone(DoCheck(s, k))
  {
    var p := s.tasks[k].phase;
    MoveLone(s, k, if Holds(s.table, s.tasks[k].item) then Deciding(p.run, p.start, p.res) else Exiting(p.run));
  }

  lemma {:induction false} ExecLone(c: Config, s: State, run: seq<Label>)
    requires Clean(c, run) && Inv(s) && AllLone(s) && Exec(c, s, run).Some?
    ensures AllLone(Exec(c, s, run).value) && Inv(Exec(c, s, run).value)
    decreases |run|
  {
    if run != [] {
      assert CleanLabel(run[0]);
      StepKeeps(c, s, run[0]);
      StepLone(c, s, run[0]);
      ExecLone(c, Do(c, s, run[0]), run[1..]);
    }
  }

  /** In a run whose forced waits all end cleanly, no two handlers of one id are ever
      in progress together, whether or not they still hold their tokens. */
  lemma OneHandlerRuns(c: Config, now: int, run: seq<Label>, j: nat, k: nat)
    requires Clean(c, run) && Exec(c, Initial(now), run).Some?
    requires var s := Exec(c, Initial(now), run).value;
             && j in s.tasks && k in s.tasks && InHandler(s.tasks[j].phase) && InHandler(s.tasks[k].phase)
             && s.tasks[j].item.id == s.tasks[k].item.id
    ensures j == k
  {
    var s := Exec(c, Initial(now), run).value;
    ExecLone(c, Initial(now), run);
    assert Lone(s, s.tasks[j]) && Lone(s, s.tasks[k]);
  }
}
