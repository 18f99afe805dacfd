/** Dispatcher steps that write a row: the running, terminal and pending status
    writes. */
module DispatchSteps {
  import opened Basics
  import opened Claims
  import opened Readings
  import opened System
  import opened SystemInvariant
  import opened QuietSteps
  import P = Protocol
  import PI = ProtocolInvariant

  // ------------------------------------------------------------------
  // Writing a row no live run is working on

  ghost predicate NoLive(s: Sys, id: string) {
    forall k :: Live(s, k) ==> s.d.tasks[k].item.id != id
  }

  ghost predicate AttemptsBelow(s: Sys, id: string, attempts: int) {
    && (forall k :: Queued(s.d, k) && Holds(s.d.table, s.d.tasks[k].item) && s.d.tasks[k].item.id == id ==>
          s.d.tasks[k].item.attempt >= attempts)
    && (forall i :: 0 <= i < |s.d.ch| && Holds(s.d.table, s.d.ch[i]) && s.d.ch[i].id == id ==>
          s.d.ch[i].attempt >= attempts)
  }

  ghost predicate Unlisted(s: Sys, id: string) {
    s.boot.Sweeping? ==> forall i :: 0 <= i < |s.boot.list| ==> s.boot.list[i].id != id
  }

  /** Nothing but its owner depends on the row's status and attempts. */
  ghost predicate Settable(s: Sys, id: string, e: Entry) {
    && id in s.rows
    && (id in s.d.table.inflight ==> PreForce(s, id) || e.r.status.Pending? || e.r.status.Running?)
    && AttemptsBelow(s, id, e.r.attempts)
    && (id in s.cmds ==> s.cmds[id] == Forcing(None))
    && Unlisted(s, id)
  }

  ghost predicate Writable(s: Sys, id: string, e: Entry) {
    && Settable(s, id, e) && NoLive(s, id)
    && EntryOK(SetRow(s, id, e), id)
    && e.resetAt == s.rows[id].resetAt && e.resetRun == s.rows[id].resetRun && e.vec == s.rows[id].vec
  }

  lemma WriteEntries(s: Sys, id: string, e: Entry)
    requires Entries(s) && Writable(s, id, e)
    ensures Entries(SetRow(s, id, e))
  {
    var s' := SetRow(s, id, e);
    forall x | x in s'.rows ensures EntryOK(s', x) { if x != id { assert EntryOK(s, x); } }
  }

  lemma WriteOwnership(s: Sys, id: string, e: Entry)
    requires Ownership(s) && Settable(s, id, e)
    ensures Ownership(SetRow(s, id, e))
  {
    var s' := SetRow(s, id, e);
    forall x | x in s'.d.table.inflight ensures OwnOK(s', x) { assert OwnOK(s, x); }
    forall k | Queued(s'.d, k) ensures AttemptOK(s', s'.d.tasks[k].item) { assert AttemptOK(s, s.d.tasks[k].item); }
    forall i | 0 <= i < |s'.d.ch| ensures AttemptOK(s', s'.d.ch[i]) { assert AttemptOK(s, s.d.ch[i]); }
  }

  lemma WriteHandlers(s: Sys, id: string, e: Entry)
    requires Handlers(s) && Writable(s, id, e)
    ensures Handlers(SetRow(s, id, e))
  {
    var s' := SetRow(s, id, e);
    forall k | k in s'.d.tasks ensures HandlerOK(s', k) {
      assert HandlerOK(s, k);
      assert s.d.tasks[k].item.id == id ==> !Live(s, k);
    }
  }

  lemma WriteProcs(s: Sys, id: string, e: Entry)
    requires Procs(s) && OneLive(s) && Writable(s, id, e)
    ensures Procs(SetRow(s, id, e)) && OneLive(SetRow(s, id, e))
  {
    var s' := SetRow(s, id, e);
    forall k | k in s'.d.tasks ensures ProcOK(s', k) && Live(s', k) == Live(s, k) {
      assert ProcOK(s, k);
      assert s.d.tasks[k].item.id == id ==> !Live(s, k);
    }
  }

  lemma WriteCmds(s: Sys, id: string, e: Entry)
    requires Cmds(s) && Writable(s, id, e)
    ensures Cmds(SetRow(s, id, e))
  {
    var s' := SetRow(s, id, e);
    forall x | x in s'.cmds ensures CmdOK(s', x) { assert CmdOK(s, x); }
  }

  lemma WriteBooting(s: Sys, id: string, e: Entry)
    requires Booting(s) && Settable(s, id, e)
    ensures Booting(SetRow(s, id, e))
  {
    var s' := SetRow(s, id, e);
    if s.boot.Sweeping? {
      forall i | 0 <= i < |s.boot.list| ensures ToSweep(s', s.boot.list[i]) { assert ToSweep(s, s.boot.list[i]); }
    }
  }

  lemma WriteKeeps(s: Sys, id: string, e: Entry)
    requires Inv(s) && Writable(s, id, e)
    ensures Inv(SetRow(s, id, e))
  {
    WriteEntries(s, id, e);
    WriteOwnership(s, id, e);
    WriteHandlers(s, id, e);
    WriteProcs(s, id, e);
    WriteCmds(s, id, e);
    WriteBooting(s, id, e);
  }

  // ------------------------------------------------------------------
  // What the holder knows

  /** The command on a reading whose work is owned can only be about to force it. */
  lemma OwnedCmd(s: Sys, id: string)
    requires Ownership(s) && Places(s) && Owned(s, id)
    ensures id in s.cmds ==> s.cmds[id] == Forcing(None)
  {
    assert OwnOK(s, id);
    assert id in s.cmds ==> PlaceOK(s, id);
  }

  lemma HolderOwns(s: Sys, k: nat)
    requires PI.ForceOK(s.d) && PI.TasksDistinct(s.d)
    requires k in s.d.tasks && P.InHandler(s.d.tasks[k].phase) && Holds(s.d.table, s.d.tasks[k].item)
    ensures Owned(s, s.d.tasks[k].item.id)
  {
  }

  lemma OwnedUnlisted(s: Sys, id: string)
    requires Booting(s) && Owned(s, id)
    ensures Unlisted(s, id)
  {
    if s.boot.Sweeping? {
      forall i | 0 <= i < |s.boot.list| ensures s.boot.list[i].id != id { assert ToSweep(s, s.boot.list[i]); }
    }
  }

  /** No other carrier holds the id's token. */
  lemma HolderAlone(s: Sys, k: nat, attempts: int)
    requires PI.Distinct(s.d) && k in s.d.tasks && P.Carries(s.d.tasks[k]) && Holds(s.d.table, s.d.tasks[k].item)
    requires s.d.tasks[k].item.attempt >= attempts
    ensures AttemptsBelow(s, s.d.tasks[k].item.id, attempts)
  {
  }

  /** While the holder has not started, no run of its reading can write. */
  lemma OthersFenced(s: Sys, k: nat)
    requires PI.TasksDistinct(s.d) && Handlers(s) && k in s.d.tasks && P.Carries(s.d.tasks[k])
    requires Holds(s.d.table, s.d.tasks[k].item) && !Started(s.d.tasks[k].phase) && Owned(s, s.d.tasks[k].item.id)
    ensures NoLive(s, s.d.tasks[k].item.id)
  {
    forall j | Live(s, j) ensures s.d.tasks[j].item.id != s.d.tasks[k].item.id { assert HandlerOK(s, j); }
  }

  // ------------------------------------------------------------------
  // The running write

  function StartEntry(s: Sys, k: nat, start: int): Entry
    requires CanStart(s, k, start)
  {
    EntryOf(s, k).(r := RunningRow(EntryOf(s, k).r, start, s.d.tasks[k].item.attempt))
  }

  lemma StartKeeps(s: Sys, k: nat, start: int)
    requires Inv(s) && CanStart(s, k, start)
    ensures Inv(DoStart(s, k, start))
  {
    StartPrepared(s, k, start);
    WriteKeeps(s, IdOf(s, k), StartEntry(s, k, start));
    EnterKeeps(SetRow(s, IdOf(s, k), StartEntry(s, k, start)), k, start);
  }

  lemma StartPrepared(s: Sys, k: nat, start: int)
    requires Inv(s) && CanStart(s, k, start)
    ensures Writable(s, IdOf(s, k), StartEntry(s, k, start))
    ensures Entering(SetRow(s, IdOf(s, k), StartEntry(s, k, start)), k, start)
  {
    StartHolds(s, k, start);
    HolderOwns(s, k);
    OthersFenced(s, k);
    StartWritable(s, k, start);
    StartEnters(s, k, start);
  }

  lemma StartHolds(s: Sys, k: nat, start: int)
    requires PI.RunsOK(s.d) && CanStart(s, k, start)
    ensures Holds(s.d.table, s.d.tasks[k].item)
  {
    assert PI.GoodRun(s.d, s.d.tasks[k]);
  }

  lemma StartWritable(s: Sys, k: nat, start: int)
    requires Inv(s) && CanStart(s, k, start) && Holds(s.d.table, s.d.tasks[k].item)
    requires Owned(s, IdOf(s, k)) && NoLive(s, IdOf(s, k))
    ensures Writable(s, IdOf(s, k), StartEntry(s, k, start))
  {
    OwnedCmd(s, IdOf(s, k));
    OwnedUnlisted(s, IdOf(s, k));
    HolderAlone(s, k, s.d.tasks[k].item.attempt);
    StartedEntry(s, k, start);
  }

  lemma StartedEntry(s: Sys, k: nat, start: int)
    requires Entries(s) && Handlers(s) && CanStart(s, k, start) && Holds(s.d.table, s.d.tasks[k].item)
    ensures EntryOK(SetRow(s, IdOf(s, k), StartEntry(s, k, start)), IdOf(s, k))
  {
    assert HandlerOK(s, k) && EntryOK(s, IdOf(s, k));
  }

  lemma StartEnters(s: Sys, k: nat, start: int)
    requires Handlers(s) && CanStart(s, k, start) && Holds(s.d.table, s.d.tasks[k].item) && NoLive(s, IdOf(s, k))
    ensures Entering(SetRow(s, IdOf(s, k), StartEntry(s, k, start)), k, start)
  {
    var s' := SetRow(s, IdOf(s, k), StartEntry(s, k, start));
    assert HandlerOK(s, k);
    forall j | Live(s', j) ensures s.d.tasks[j].item.id != IdOf(s, k) { assert Live(s, j); }
  }

  /** The holder whose running write has landed becomes the one live run. */
  ghost predicate Entering(s: Sys, k: nat, start: int) {
    && CanStart(s, k, start) && Holds(s.d.table, s.d.tasks[k].item) && NoLive(s, IdOf(s, k))
    && EntryOf(s, k).r.status.Running? && EntryOf(s, k).r.startedAt == Some(start)
    && EntryOf(s, k).resetAt <= start && EntryOf(s, k).resetRun <= s.d.tasks[k].phase.run
  }

  function Enter(s: Sys, k: nat, start: int): Sys
    requires CanStart(s, k, start)
  {
    s.(d := P.DoStartOk(s.d, k, start), procs := s.procs[s.d.tasks[k].phase.run := Loading])
  }

  lemma EnterKeeps(s: Sys, k: nat, start: int)
    requires Inv(s) && Entering(s, k, start)
    ensures Inv(Enter(s, k, start))
  {
    var s' := Enter(s, k, start);
    PI.StartOkKeeps(s.d, k, start);
    EnterHandlers(s, k, start);
    EnterProcs(s, k, start);
    EnterRest(s, k, start);
  }

  lemma EnterHandlers(s: Sys, k: nat, start: int)
    requires PI.ForceOK(s.d) && Handlers(s) && OneLive(s) && Entering(s, k, start)
    ensures Handlers(Enter(s, k, start)) && OneLive(Enter(s, k, start))
  {
    var s' := Enter(s, k, start);
    forall j | j in s'.d.tasks ensures HandlerOK(s', j) && (j != k ==> Live(s', j) == Live(s, j)) {
      EnterHandler(s, k, start, j);
    }
  }

  lemma EnterHandler(s: Sys, k: nat, start: int, j: nat)
    requires j in s.d.tasks && PI.ForceOK(s.d) && HandlerOK(s, j) && Entering(s, k, start)
    ensures HandlerOK(Enter(s, k, start), j) && (j != k ==> Live(Enter(s, k, start), j) == Live(s, j))
  {
    var id := s.d.tasks[j].item.id;
    assert PreForce(Enter(s, k, start), id) == PreForce(s, id);
  }

  lemma EnterProcs(s: Sys, k: nat, start: int)
    requires PI.RunsOK(s.d) && Procs(s) && Entering(s, k, start)
    ensures Procs(Enter(s, k, start))
  {
    var s' := Enter(s, k, start);
    forall j | j in s'.d.tasks ensures ProcOK(s', j) {
      if j != k { assert ProcOK(s, j); }
    }
  }

  lemma EnterRest(s: Sys, k: nat, start: int)
    requires Inv(s) && Entering(s, k, start)
    ensures var s' := Enter(s, k, start); Entries(s') && Ownership(s') && Cmds(s') && Booting(s')
  {
    EnterEntries(s, k, start);
    EnterOwnership(s, k, start);
    EnterCmds(s, k, start);
    EnterBooting(s, k, start);
  }

  lemma EnterEntries(s: Sys, k: nat, start: int)
    requires Entries(s) && Entering(s, k, start)
    ensures Entries(Enter(s, k, start))
  {
    var s' := Enter(s, k, start);
    forall x | x in s'.rows ensures EntryOK(s', x) { assert EntryOK(s, x); }
  }

  lemma EnterOwnership(s: Sys, k: nat, start: int)
    requires PI.ForceOK(s.d) && Ownership(s) && CanStart(s, k, start)
    ensures Ownership(Enter(s, k, start))
  {
    var s' := Enter(s, k, start);
    forall x | x in s'.d.table.inflight ensures OwnOK(s', x) {
      assert OwnOK(s, x);
      assert PreForce(s', x) == PreForce(s, x);
    }
    forall j | Queued(s'.d, j) ensures AttemptOK(s', s'.d.tasks[j].item) {
      assert Queued(s.d, j);
      assert AttemptOK(s, s.d.tasks[j].item);
    }
    forall i | 0 <= i < |s'.d.ch| ensures AttemptOK(s', s'.d.ch[i]) { assert AttemptOK(s, s.d.ch[i]); }
  }

  lemma EnterCmds(s: Sys, k: nat, start: int)
    requires PI.ForceOK(s.d) && Cmds(s) && Entering(s, k, start)
    ensures Cmds(Enter(s, k, start))
  {
    var s' := Enter(s, k, start);
    forall x | x in s'.cmds ensures CmdOK(s', x) { assert CmdOK(s, x); }
  }

  lemma EnterBooting(s: Sys, k: nat, start: int)
    requires Booting(s) && CanStart(s, k, start)
    ensures Booting(Enter(s, k, start))
  {
    var s' := Enter(s, k, start);
    if s.boot.Sweeping? {
      forall i | 0 <= i < |s.boot.list| ensures ToSweep(s', s.boot.list[i]) { assert ToSweep(s, s.boot.list[i]); }
    }
  }

  // ------------------------------------------------------------------
  // The writes that end a run

  /** Once the only live run of a reading has left, none is live. */
  lemma LeaverWasLast(s: Sys, d': P.State, k: nat)
    requires QuietRel(s.d, d') && OneLive(s) && Live(s, k)
    requires k in d'.tasks ==> !Started(d'.tasks[k].phase)
    ensures NoLive(s.(d := d'), s.d.tasks[k].item.id)
  {
    forall j | Live(s.(d := d'), j) ensures d'.tasks[j].item.id != s.d.tasks[k].item.id {
      QuietLive(s, d', j);
    }
  }

  lemma DeciderLive(s: Sys, k: nat)
    requires Handlers(s) && k in s.d.tasks && s.d.tasks[k].phase.Deciding? && Holds(s.d.table, s.d.tasks[k].item)
    ensures Live(s, k) && Leased(s.rows[s.d.tasks[k].item.id], s.d.tasks[k].phase)
  {
    assert HandlerOK(s, k);
  }

  /** What a holder that leaves its run leaves behind: no live run, no command but a
      coming force, no place on the sweep's list. */
  ghost predicate Vacated(s: Sys, id: string) {
    NoLive(s, id) && (id in s.cmds ==> s.cmds[id] == Forcing(None)) && Unlisted(s, id)
  }

  lemma LeaverVacates(s: Sys, d': P.State, k: nat)
    requires PI.ForceOK(s.d) && PI.TasksDistinct(s.d)
    requires Ownership(s) && Handlers(s) && OneLive(s) && Cmds(s) && Booting(s) && QuietRel(s.d, d')
    requires k in s.d.tasks && s.d.tasks[k].phase.Deciding? && Holds(s.d.table, s.d.tasks[k].item)
    requires k in d'.tasks ==> !Started(d'.tasks[k].phase)
    ensures Vacated(s.(d := d'), s.d.tasks[k].item.id)
  {
    var id := s.d.tasks[k].item.id;
    DeciderLive(s, k);
    LeaverWasLast(s, d', k);
    HolderOwns(s, k);
    OwnedCmd(s, id);
    OwnedUnlisted(s, id);
  }

  lemma FinishKeeps(c: Config, s: Sys, k: nat, at: int, message: string, lands: bool)
    requires Inv(s) && CanFinish(c, s, k, at)
    ensures Inv(DoFinish(c, s, k, at, message, lands))
  {
    SettleKeeps(s, k);
    if Holds(s.d.table, s.d.tasks[k].item) && lands {
      FinishPrepared(c, s, k, at, message);
      FinishWrites(c, s, k, at, message);
    }
  }

  lemma SettleKeeps(s: Sys, k: nat)
    requires Inv(s) && k in s.d.tasks && s.d.tasks[k].phase.Deciding?
    ensures Inv(s.(d := P.DoSettle(s.d, k)))
  {
    PI.RetireKeeps(s.d, k);
    RetireQuiet(s.d, k);
    SettleWaited(s.d, k);
    QuietParts(s, P.DoSettle(s.d, k));
  }

  lemma SettleWaited(d: P.State, k: nat)
    requires k in d.tasks && d.tasks[k].phase.Deciding?
    ensures Waited(d, P.DoSettle(d, k))
  {
  }

  lemma FinishPrepared(c: Config, s: Sys, k: nat, at: int, message: string)
    requires Inv(s) && CanFinish(c, s, k, at) && Holds(s.d.table, s.d.tasks[k].item)
    ensures var s1 := s.(d := P.DoSettle(s.d, k));
            var e := FinishEntry(c, EntryOf(s, k), s.d.tasks[k], at, message);
            && Vacated(s1, IdOf(s, k)) && AttemptsBelow(s1, IdOf(s, k), e.r.attempts)
            && EntryOK(SetRow(s1, IdOf(s, k), e), IdOf(s, k))
  {
    SettleVacates(s, k);
    SettledFree(s, k);
    FinishedEntry(c, s, k, at, message);
  }

  lemma SettleVacates(s: Sys, k: nat)
    requires Inv(s) && k in s.d.tasks && s.d.tasks[k].phase.Deciding? && Holds(s.d.table, s.d.tasks[k].item)
    ensures Vacated(s.(d := P.DoSettle(s.d, k)), s.d.tasks[k].item.id)
  {
    RetireQuiet(s.d, k);
    LeaverVacates(s, P.DoSettle(s.d, k), k);
  }

  lemma FinishWrites(c: Config, s: Sys, k: nat, at: int, message: string)
    requires CanFinish(c, s, k, at) && Holds(s.d.table, s.d.tasks[k].item)
    requires var s1 := s.(d := P.DoSettle(s.d, k));
             var e := FinishEntry(c, EntryOf(s, k), s.d.tasks[k], at, message);
             && Inv(s1) && Vacated(s1, IdOf(s, k)) && AttemptsBelow(s1, IdOf(s, k), e.r.attempts)
             && EntryOK(SetRow(s1, IdOf(s, k), e), IdOf(s, k))
    ensures Inv(DoFinish(c, s, k, at, message, true))
  {
    var s1 := s.(d := P.DoSettle(s.d, k));
    var e := FinishEntry(c, EntryOf(s, k), s.d.tasks[k], at, message);
    WriteKeeps(s1, IdOf(s, k), e);
    assert SetRow(s1, IdOf(s, k), e) == DoFinish(c, s, k, at, message, true);
  }

  lemma SettledFree(s: Sys, k: nat)
    requires PI.Distinct(s.d) && k in s.d.tasks && s.d.tasks[k].phase.Deciding? && Holds(s.d.table, s.d.tasks[k].item)
    ensures forall attempts: int :: AttemptsBelow(s.(d := P.DoSettle(s.d, k)), IdOf(s, k), attempts)
  {
  }

  /** A run that ends well has written the content and the tags itself. */
  lemma FinishedEntry(c: Config, s: Sys, k: nat, at: int, message: string)
    requires Entries(s) && Handlers(s) && Procs(s) && CanFinish(c, s, k, at) && Holds(s.d.table, s.d.tasks[k].item)
    ensures EntryOK(SetRow(s.(d := P.DoSettle(s.d, k)), IdOf(s, k),
                           FinishEntry(c, EntryOf(s, k), s.d.tasks[k], at, message)), IdOf(s, k))
  {
    DeciderLive(s, k);
    assert ProcOK(s, k) && EntryOK(s, IdOf(s, k));
  }

  function AgainRow(c: Config, s: Sys, k: nat, k2: nat, at: int): Entry
    requires CanAgain(c, s, k, k2, at)
  {
    EntryOf(s, k).(r := PendingRow(EntryOf(s, k).r, at, P.Action(c.d, s.d.tasks[k]).nextAttempt))
  }

  lemma AgainKeeps(c: Config, s: Sys, k: nat, k2: nat, at: int, lands: bool)
    requires Inv(s) && CanAgain(c, s, k, k2, at)
    ensures Inv(DoAgain(c, s, k, k2, at, lands))
  {
    HandOnKeeps(c, s, k, k2);
    if Holds(s.d.table, s.d.tasks[k].item) && lands {
      AgainPrepared(c, s, k, k2, at);
      AgainWrites(c, s, k, k2, at);
    }
  }

  lemma HandOnKeeps(c: Config, s: Sys, k: nat, k2: nat)
    requires Inv(s) && P.CanRedispatch(c.d, s.d, k, k2)
    ensures Inv(s.(d := P.DoRedispatch(c.d, s.d, k, k2)))
  {
    PI.RedispatchKeeps(c.d, s.d, k, k2);
    RedispatchQuiet(c.d, s.d, k, k2);
    RedispatchWaited(c.d, s.d, k, k2);
    QuietParts(s, P.DoRedispatch(c.d, s.d, k, k2));
  }

  lemma RedispatchWaited(c: P.Config, d: P.State, k: nat, k2: nat)
    requires P.CanRedispatch(c, d, k, k2)
    ensures Waited(d, P.DoRedispatch(c, d, k, k2))
  {
  }

  lemma AgainPrepared(c: Config, s: Sys, k: nat, k2: nat, at: int)
    requires Inv(s) && CanAgain(c, s, k, k2, at) && Holds(s.d.table, s.d.tasks[k].item)
    ensures var s1 := s.(d := P.DoRedispatch(c.d, s.d, k, k2));
            var e := AgainRow(c, s, k, k2, at);
            && Vacated(s1, IdOf(s, k)) && AttemptsBelow(s1, IdOf(s, k), e.r.attempts)
            && EntryOK(SetRow(s1, IdOf(s, k), e), IdOf(s, k))
  {
    AgainVacates(c, s, k, k2);
    AgainAlone(c, s, k, k2);
    AgainEntry(c, s, k, k2, at);
  }

  lemma AgainVacates(c: Config, s: Sys, k: nat, k2: nat)
    requires Inv(s) && P.CanRedispatch(c.d, s.d, k, k2) && Holds(s.d.table, s.d.tasks[k].item)
    ensures Vacated(s.(d := P.DoRedispatch(c.d, s.d, k, k2)), s.d.tasks[k].item.id)
  {
    RedispatchQuiet(c.d, s.d, k, k2);
    LeaverVacates(s, P.DoRedispatch(c.d, s.d, k, k2), k);
  }

  lemma AgainAlone(c: Config, s: Sys, k: nat, k2: nat)
    requires PI.ItemsOK(s.d) && PI.Distinct(s.d) && P.CanRedispatch(c.d, s.d, k, k2) && Holds(s.d.table, s.d.tasks[k].item)
    ensures AttemptsBelow(s.(d := P.DoRedispatch(c.d, s.d, k, k2)), s.d.tasks[k].item.id,
                          P.Action(c.d, s.d.tasks[k]).nextAttempt)
  {
    PI.DistinctByRedispatch(c.d, s.d, k, k2);
    HolderAlone(s.(d := P.DoRedispatch(c.d, s.d, k, k2)), k2, P.Action(c.d, s.d.tasks[k]).nextAttempt);
  }

  lemma AgainWrites(c: Config, s: Sys, k: nat, k2: nat, at: int)
    requires CanAgain(c, s, k, k2, at) && Holds(s.d.table, s.d.tasks[k].item)
    requires var s1 := s.(d := P.DoRedispatch(c.d, s.d, k, k2));
             var e := AgainRow(c, s, k, k2, at);
             && Inv(s1) && Vacated(s1, IdOf(s, k)) && AttemptsBelow(s1, IdOf(s, k), e.r.attempts)
             && EntryOK(SetRow(s1, IdOf(s, k), e), IdOf(s, k))
    ensures Inv(DoAgain(c, s, k, k2, at, true))
  {
    var s1 := s.(d := P.DoRedispatch(c.d, s.d, k, k2));
    var e := AgainRow(c, s, k, k2, at);
    WriteKeeps(s1, IdOf(s, k), e);
    assert SetRow(s1, IdOf(s, k), e) == DoAgain(c, s, k, k2, at, true);
  }

  lemma AgainEntry(c: Config, s: Sys, k: nat, k2: nat, at: int)
    requires Entries(s) && CanAgain(c, s, k, k2, at)
    ensures EntryOK(SetRow(s.(d := P.DoRedispatch(c.d, s.d, k, k2)), IdOf(s, k), AgainRow(c, s, k, k2, at)), IdOf(s, k))
  {
    assert EntryOK(s, IdOf(s, k));
  }
}
