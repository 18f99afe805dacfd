/** Dispatcher steps that touch no row, blob or command keep the joined invariant. */
module QuietSteps {
  import opened Basics
  import opened Claims
  import opened Readings
  import opened System
  import opened SystemInvariant
  import P = Protocol
  import PI = ProtocolInvariant

  // ------------------------------------------------------------------
  // What such a step may do

  /** The run of a handler after the step is the one it was, unless it began now. */
  ghost predicate RunKept(d: P.State, d': P.State, k: nat)
    requires k in d'.tasks
  {
    && k in d.tasks && d.tasks[k].item == d'.tasks[k].item
    && Holds(d.table, d.tasks[k].item) == Holds(d'.table, d.tasks[k].item)
    && (|| d'.tasks[k].phase == d.tasks[k].phase
        || (d.tasks[k].phase.Returned?
            && d'.tasks[k].phase == P.Deciding(d.tasks[k].phase.run, d.tasks[k].phase.start, d.tasks[k].phase.res))
        || (d.tasks[k].phase.Received? && Holds(d.table, d.tasks[k].item)
            && d'.tasks[k].phase == P.Begun(d.nextRun, d.now)))
  }

  /** The item continues an earlier one: same id and token, attempt no lower. */
  ghost predicate Continues(it: Item, was: Item) {
    it.id == was.id && it.token == was.token && it.attempt >= was.attempt
  }

  ghost predicate ItemKept(d: P.State, it: Item) {
    (exists i :: 0 <= i < |d.ch| && Continues(it, d.ch[i])) || (exists k :: Queued(d, k) && Continues(it, d.tasks[k].item))
  }

  /** A force holder may only finish its wait or pass its active check. */
  ghost predicate ForceKept(d: P.State, d': P.State) {
    && d'.force == d.force
    && (d.force.Some? && d.force.value in d.tasks ==>
          && d.force.value in d'.tasks
          && d'.tasks[d.force.value].item == d.tasks[d.force.value].item
          && (|| d'.tasks[d.force.value].phase == d.tasks[d.force.value].phase
              || (d.tasks[d.force.value].phase.Resuming? && d'.tasks[d.force.value].phase.Callback?)
              || (d.tasks[d.force.value].phase.Waiting? && d'.tasks[d.force.value].phase.Resuming?)))
  }

  /** A wait ends when its run has left, or after the clock has moved on. */
  ghost predicate Waited(d: P.State, d': P.State) {
    (&& d.force.Some? && d.force.value in d.tasks && d.tasks[d.force.value].phase.Waiting?
     && d.force.value in d'.tasks && d'.tasks[d.force.value].phase.Resuming?)
    ==> d.tasks[d.force.value].phase.wait in d.closed || d.tasks[d.force.value].phase.since < d.now
  }

  ghost predicate QuietRel(d: P.State, d': P.State) {
    && d.now <= d'.now && d.nextRun <= d'.nextRun
    && (forall k :: k in d'.tasks && P.InHandler(d'.tasks[k].phase) ==> RunKept(d, d', k))
    && (forall id :: id in d'.table.inflight ==> id in d.table.inflight)
    && (forall k :: Queued(d', k) && Holds(d'.table, d'.tasks[k].item) ==>
          Holds(d.table, d'.tasks[k].item) && ItemKept(d, d'.tasks[k].item))
    && (forall i :: 0 <= i < |d'.ch| && Holds(d'.table, d'.ch[i]) ==>
          Holds(d.table, d'.ch[i]) && ItemKept(d, d'.ch[i]))
    && ForceKept(d, d')
  }

  // ------------------------------------------------------------------
  // Each step is of this kind

  lemma MoveQuiet(d: P.State, k: nat, p: P.Phase)
    requires k in d.tasks && P.Carries(d.tasks[k]) && !P.HasRun(p) && !P.InForce(p) && !P.InForce(d.tasks[k].phase)
    requires PI.ForceOK(d)
    ensures QuietRel(d, P.Move(d, k, p))
  {
    Kept(d);
  }

  lemma Kept(d: P.State)
    ensures forall k :: Queued(d, k) ==> ItemKept(d, d.tasks[k].item)
    ensures forall i :: 0 <= i < |d.ch| ==> ItemKept(d, d.ch[i])
  {
    forall k | Queued(d, k) ensures ItemKept(d, d.tasks[k].item) { assert Continues(d.tasks[k].item, d.tasks[k].item); }
    forall i | 0 <= i < |d.ch| ensures ItemKept(d, d.ch[i]) { assert Continues(d.ch[i], d.ch[i]); }
  }

  lemma ForceMoveQuiet(d: P.State, k: nat, p: P.Phase)
    requires k in d.tasks && PI.ForceOK(d)
    requires || (d.tasks[k].phase.Resuming? && p.Callback?)
             || (d.tasks[k].phase.Waiting? && p.Resuming?)
    ensures QuietRel(d, P.Move(d, k, p))
  {
    Kept(d);
  }

  lemma EndQuiet(d: P.State, k: nat)
    requires d.force != Some(k)
    ensures QuietRel(d, P.End(d, k))
  {
    Kept(d);
  }

  lemma QuitQuiet(d: P.State, k: nat)
    requires PI.Distinct(d) && k in d.tasks && P.Carries(d.tasks[k]) && d.force != Some(k)
    ensures QuietRel(d, P.Quit(d, k))
  {
    Kept(d);
  }

  lemma RetireQuiet(d: P.State, k: nat)
    requires PI.Distinct(d) && PI.ForceOK(d) && k in d.tasks && P.InHandler(d.tasks[k].phase)
    ensures QuietRel(d, P.Move(d, k, P.Exiting(d.tasks[k].phase.run)).(table := Release(d.table, d.tasks[k].item)))
  {
    Kept(d);
  }

  lemma SendQuiet(c: P.Config, d: P.State, k: nat)
    requires PI.Distinct(d) && PI.ForceOK(d) && P.CanSend(c, d, k)
    ensures QuietRel(d, P.DoSend(c, d, k))
  {
    if |d.ch| < P.Capacity(c) {
      Kept(d);
      assert Queued(d, k);
      var d' := P.DoSend(c, d, k);
      forall i | 0 <= i < |d'.ch| ensures ItemKept(d, d'.ch[i]) {
        if i < |d.ch| { assert d'.ch[i] == d.ch[i]; } else { assert d'.ch[i] == d.tasks[k].item; }
      }
    } else {
      QuitQuiet(d, k);
    }
  }

  lemma ReceiveQuiet(d: P.State, k: nat)
    requires P.CanReceive(d, k) && PI.ForceOK(d)
    ensures QuietRel(d, P.DoReceive(d, k))
  {
    Kept(d);
    var d' := P.DoReceive(d, k);
    forall i | 0 <= i < |d'.ch| ensures ItemKept(d, d'.ch[i]) { assert d'.ch[i] == d.ch[i + 1]; }
    assert ItemKept(d, d.ch[0]);
  }

  lemma BeginQuiet(d: P.State, k: nat)
    requires P.CanBeginRun(d, k) && PI.ForceOK(d)
    ensures QuietRel(d, P.DoBeginRun(d, k))
  {
    Kept(d);
  }

  lemma CheckQuiet(d: P.State, k: nat)
    requires P.CanCheck(d, k) && PI.ForceOK(d)
    ensures QuietRel(d, P.DoCheck(d, k))
  {
    Kept(d);
  }

  lemma ExitQuiet(d: P.State, k: nat)
    requires P.CanExit(d, k) && PI.ForceOK(d)
    ensures QuietRel(d, P.DoExit(d, k))
  {
    Kept(d);
  }

  lemma TickQuiet(d: P.State, dt: nat)
    ensures QuietRel(d, P.DoTick(d, dt))
  {
    Kept(d);
  }

  /** redispatch hands the item on with an attempt that is no lower. */
  lemma RedispatchQuiet(c: P.Config, d: P.State, k: nat, k2: nat)
    requires P.CanRedispatch(c, d, k, k2) && PI.ForceOK(d)
    ensures QuietRel(d, P.DoRedispatch(c, d, k, k2))
  {
    Kept(d);
    var d' := P.DoRedispatch(c, d, k, k2);
    if Holds(d.table, d.tasks[k].item) {
      assert Queued(d, k) && Continues(d'.tasks[k2].item, d.tasks[k].item);
      assert ItemKept(d, d'.tasks[k2].item);
    }
  }

  lemma StepQuiet(c: P.Config, d: P.State, l: P.Label)
    requires PI.Inv(d) && Quiet(l) && P.Can(c, d, l)
    ensures QuietRel(d, P.Do(c, d, l))
  {
    if PI.IsForce(l) { ForceStepQuiet(c, d, l); }
    else if PI.IsRun(l) { RunStepQuiet(c, d, l); }
    else { QueueStepQuiet(c, d, l); }
  }

  lemma ForceStepQuiet(c: P.Config, d: P.State, l: P.Label)
    requires PI.Inv(d) && Quiet(l) && P.Can(c, d, l) && PI.IsForce(l)
    ensures QuietRel(d, P.Do(c, d, l))
  {
    match l
    case WaitClean(k) => ForceMoveQuiet(d, k, P.Resuming);
    case WaitTimeout(k) => ForceMoveQuiet(d, k, P.Resuming);
    case Resume(k) => PI.ForceHolds(d, k); ForceMoveQuiet(d, k, P.Callback);
  }

  /** A forced wait that times out has seen the clock advance. */
  predicate Timely(c: P.Config, l: P.Label) { l.WaitTimeout? ==> c.waitAdvance > 0 }

  lemma StepWaited(c: P.Config, d: P.State, l: P.Label)
    requires PI.ForceOK(d) && Quiet(l) && P.Can(c, d, l) && Timely(c, l)
    ensures Waited(d, P.Do(c, d, l))
  {
    if PI.IsForce(l) { ForceStepWaited(c, d, l); }
    else if PI.IsRun(l) { RunStepWaited(c, d, l); }
    else { QueueStepWaited(c, d, l); }
  }

  lemma ForceStepWaited(c: P.Config, d: P.State, l: P.Label)
    requires PI.ForceOK(d) && Quiet(l) && P.Can(c, d, l) && Timely(c, l) && PI.IsForce(l)
    ensures Waited(d, P.Do(c, d, l))
  {
  }

  lemma RunStepWaited(c: P.Config, d: P.State, l: P.Label)
    requires PI.ForceOK(d) && Quiet(l) && P.Can(c, d, l) && PI.IsRun(l)
    ensures Waited(d, P.Do(c, d, l))
  {
  }

  lemma QueueStepWaited(c: P.Config, d: P.State, l: P.Label)
    requires PI.ForceOK(d) && Quiet(l) && P.Can(c, d, l) && !PI.IsForce(l) && !PI.IsRun(l)
    ensures Waited(d, P.Do(c, d, l))
  {
  }

  lemma RunStepQuiet(c: P.Config, d: P.State, l: P.Label)
    requires PI.Inv(d) && Quiet(l) && P.Can(c, d, l) && PI.IsRun(l)
    ensures QuietRel(d, P.Do(c, d, l))
  {
    match l
    case Begin(k) => BeginQuiet(d, k);
    case StartFails(k) => RetireQuiet(d, k);
    case Check(k) => CheckQuiet(d, k);
  }

  lemma QueueStepQuiet(c: P.Config, d: P.State, l: P.Label)
    requires PI.Inv(d) && Quiet(l) && P.Can(c, d, l) && !PI.IsForce(l) && !PI.IsRun(l)
    ensures QuietRel(d, P.Do(c, d, l))
  {
    match l
    case QueueCheck(k) => QueueCheckQuiet(d, k);
    case Send(k) => SendQuiet(c, d, k);
    case RunInline(k) => MoveQuiet(d, k, P.Received);
    case Drain(k) => DrainQuiet(d, k);
    case Receive(k) => ReceiveQuiet(d, k);
    case Fire(k) => MoveQuiet(d, k, P.Queueing);
    case Exit(k) => ExitQuiet(d, k);
    case Tick(dt) => TickQuiet(d, dt);
  }

  lemma QueueCheckQuiet(d: P.State, k: nat)
    requires PI.ForceOK(d) && P.CanQueueCheck(d, k)
    ensures QuietRel(d, P.DoQueueCheck(d, k))
  {
    if Holds(d.table, d.tasks[k].item) { MoveQuiet(d, k, P.Sending); } else { EndQuiet(d, k); }
  }

  lemma DrainQuiet(d: P.State, k: nat)
    requires PI.Inv(d) && P.CanDrain(d, k)
    ensures QuietRel(d, P.Quit(d, k))
  {
    QuitQuiet(d, k);
  }

  // ------------------------------------------------------------------
  // Such steps keep each part of the invariant

  lemma QuietEntries(s: Sys, d': P.State)
    requires Entries(s) && s.d.now <= d'.now && s.d.nextRun <= d'.nextRun
    ensures Entries(s.(d := d'))
  {
    var s' := s.(d := d');
    forall id | id in s'.rows ensures EntryOK(s', id) { assert EntryOK(s, id); }
  }

  lemma QuietPreForce(s: Sys, d': P.State, id: string)
    requires PI.ForceOK(s.d) && ForceKept(s.d, d')
    ensures PreForce(s.(d := d'), id) == PreForce(s, id)
  {
  }

  lemma QuietOwnership(s: Sys, d': P.State)
    requires PI.ForceOK(s.d) && QuietRel(s.d, d') && Ownership(s)
    ensures Ownership(s.(d := d'))
  {
    var s' := s.(d := d');
    forall id | id in d'.table.inflight ensures OwnOK(s', id) {
      assert OwnOK(s, id);
      QuietPreForce(s, d', id);
    }
    forall k | Queued(d', k) ensures AttemptOK(s', d'.tasks[k].item) { QuietAttempt(s, d', d'.tasks[k].item); }
    forall i | 0 <= i < |d'.ch| ensures AttemptOK(s', d'.ch[i]) { QuietAttempt(s, d', d'.ch[i]); }
  }

  lemma QuietAttempt(s: Sys, d': P.State, it: Item)
    requires Ownership(s)
    requires Holds(d'.table, it) ==> Holds(s.d.table, it) && ItemKept(s.d, it)
    ensures AttemptOK(s.(d := d'), it)
  {
    if Holds(d'.table, it) {
      if i :| 0 <= i < |s.d.ch| && Continues(it, s.d.ch[i]) {
        assert AttemptOK(s, s.d.ch[i]);
      } else {
        var k :| Queued(s.d, k) && Continues(it, s.d.tasks[k].item);
        assert AttemptOK(s, s.d.tasks[k].item);
      }
    }
  }

  lemma QuietHandlers(s: Sys, d': P.State)
    requires PI.ForceOK(s.d) && PI.RunsOK(s.d) && QuietRel(s.d, d') && Waited(s.d, d')
    requires Handlers(s) && Ownership(s) && Entries(s)
    ensures Handlers(s.(d := d'))
  {
    var s' := s.(d := d');
    forall k | k in d'.tasks ensures HandlerOK(s', k) {
      if P.InHandler(d'.tasks[k].phase) { QuietHandler(s, d', k); }
    }
  }

  lemma QuietHandler(s: Sys, d': P.State, k: nat)
    requires PI.ForceOK(s.d) && PI.RunsOK(s.d) && QuietRel(s.d, d') && Waited(s.d, d')
    requires Handlers(s) && Ownership(s) && Entries(s)
    requires k in d'.tasks && P.InHandler(d'.tasks[k].phase)
    ensures HandlerOK(s.(d := d'), k)
  {
    var id := d'.tasks[k].item.id;
    assert RunKept(s.d, d', k);
    assert HandlerOK(s, k);
    QuietPreForce(s, d', id);
    if Started(d'.tasks[k].phase) {
      var p := s.d.tasks[k].phase;
      QuietTimed(s, d', k);
    } else if Holds(s.d.table, d'.tasks[k].item) {
      assert OwnOK(s, id) && EntryOK(s, id);
    }
  }

  /** A wait that ends cleanly leaves no run to wait for; one that ends by its timer
      leaves one that started strictly earlier. */
  lemma QuietTimed(s: Sys, d': P.State, k: nat)
    requires PI.ForceOK(s.d) && PI.RunsOK(s.d) && ForceKept(s.d, d') && Waited(s.d, d') && s.d.now <= d'.now
    requires StartedTask(s, k)
    ensures Timed(s, s.d.tasks[k].item.id, s.d.tasks[k].phase)
        ==> Timed(s.(d := d'), s.d.tasks[k].item.id, s.d.tasks[k].phase)
  {
    assert PI.GoodRun(s.d, s.d.tasks[k]);
    QuietPreForce(s, d', s.d.tasks[k].item.id);
  }

  lemma QuietLive(s: Sys, d': P.State, k: nat)
    requires QuietRel(s.d, d') && Live(s.(d := d'), k)
    ensures Live(s, k) && s.d.tasks[k].item == d'.tasks[k].item
  {
    assert RunKept(s.d, d', k);
  }

  lemma QuietOneLive(s: Sys, d': P.State)
    requires QuietRel(s.d, d') && OneLive(s)
    ensures OneLive(s.(d := d'))
  {
    var s' := s.(d := d');
    forall j, k | Live(s', j) && Live(s', k) && d'.tasks[j].item.id == d'.tasks[k].item.id ensures j == k {
      QuietLive(s, d', j);
      QuietLive(s, d', k);
    }
  }

  lemma QuietProcs(s: Sys, d': P.State)
    requires QuietRel(s.d, d') && Procs(s)
    ensures Procs(s.(d := d'))
  {
    var s' := s.(d := d');
    forall k | k in d'.tasks ensures ProcOK(s', k) {
      if Started(d'.tasks[k].phase) {
        assert RunKept(s.d, d', k);
        assert ProcOK(s, k);
      }
    }
  }

  lemma QuietCmds(s: Sys, d': P.State)
    requires PI.ForceOK(s.d) && QuietRel(s.d, d') && Cmds(s)
    ensures Cmds(s.(d := d'))
  {
    var s' := s.(d := d');
    forall id | id in s'.cmds ensures CmdOK(s', id) { assert CmdOK(s, id); }
  }

  lemma QuietBooting(s: Sys, d': P.State)
    requires QuietRel(s.d, d') && Booting(s)
    ensures Booting(s.(d := d'))
  {
    var s' := s.(d := d');
    if !s.boot.Serving? {
      forall k | k in d'.tasks && P.InHandler(d'.tasks[k].phase) ensures Holds(d'.table, d'.tasks[k].item) {
        assert RunKept(s.d, d', k);
      }
      if s.boot.Sweeping? {
        forall i | 0 <= i < |s.boot.list| ensures ToSweep(s', s.boot.list[i]) { assert ToSweep(s, s.boot.list[i]); }
      }
    }
  }

  lemma QuietKeeps(c: Config, s: Sys, l: P.Label)
    requires Inv(s) && Quiet(l) && P.Can(c.d, s.d, l) && Timely(c.d, l)
    ensures Inv(DoInternal(c, s, l))
  {
    var d' := P.Do(c.d, s.d, l);
    PI.StepKeeps(c.d, s.d, l);
    StepQuiet(c.d, s.d, l);
    StepWaited(c.d, s.d, l);
    QuietParts(s, d');
  }

  lemma QuietParts(s: Sys, d': P.State)
    requires Inv(s) && PI.Inv(d') && QuietRel(s.d, d') && Waited(s.d, d')
    ensures Inv(s.(d := d'))
  {
    QuietEntries(s, d');
    QuietOwnership(s, d');
    QuietHandlers(s, d');
    QuietOneLive(s, d');
    QuietProcs(s, d');
    QuietCmds(s, d');
    QuietBooting(s, d');
  }
}
