/** Commands that make or reset a row, and the forced submit, keep the joined
    invariant. */
module RowSteps {
  import opened Basics
  import opened Claims
  import opened Readings
  import opened BlobKeys
  import opened System
  import opened SystemInvariant
  import opened DispatchSteps
  import CommandSteps
  import P = Protocol
  import PI = ProtocolInvariant

  // ------------------------------------------------------------------
  // A row made new: created, reset or replaced by an import

  /** No handler of the reading holds its token. */
  ghost predicate Unheld(s: Sys, id: string) {
    forall k :: k in s.d.tasks && P.InHandler(s.d.tasks[k].phase) && IdOf(s, k) == id ==> !Holds(s.d.table, s.d.tasks[k].item)
  }

  /** Whoever could still write the row started strictly before now, so the reset
      fences it. */
  ghost predicate Outdated(s: Sys, id: string) {
    && Unheld(s, id)
    && (forall k :: Live(s, k) && IdOf(s, k) == id ==> s.d.tasks[k].phase.start < s.d.now)
  }

  ghost predicate Remade(s: Sys, s': Sys, id: string, e: Entry) {
    && s' == s.(rows := s.rows[id := e], cmds := s'.cmds) && s.boot.Serving? && Unheld(s, id)
    && e.r.status.Pending? && e.r.attempts == 0
    && (id in s.d.table.inflight ==> PreForce(s, id))
    && (forall x :: x in s.cmds && x != id ==> x in s'.cmds && s'.cmds[x] == s.cmds[x])
    && (forall x :: x in s'.cmds && x != id ==> x in s.cmds)
    && id in s'.cmds && PlaceOK(s', id)
  }

  ghost predicate Renewed(s: Sys, s': Sys, id: string, e: Entry) {
    && Remade(s, s', id, e) && Outdated(s, id)
    && EntryOK(s', id) && e.resetAt == s.d.now && e.resetRun == s.d.nextRun
    && s'.cmds[id] != Forcing(None) && CmdOK(s', id)
  }

  lemma RenewEntries(s: Sys, s': Sys, id: string, e: Entry)
    requires Entries(s) && Renewed(s, s', id, e)
    ensures Entries(s')
  {
    forall x | x in s'.rows ensures EntryOK(s', x) { if x != id { assert EntryOK(s, x); } }
  }

  lemma RenewOwnership(s: Sys, s': Sys, id: string, e: Entry)
    requires PI.ForceOK(s.d) && PI.Distinct(s.d) && Ownership(s) && Remade(s, s', id, e)
    ensures Ownership(s')
  {
    forall x | x in s'.d.table.inflight ensures OwnOK(s', x) { assert OwnOK(s, x); }
    forall j | Queued(s'.d, j) ensures AttemptOK(s', s'.d.tasks[j].item) {
      assert Queued(s.d, j);
      assert AttemptOK(s, s.d.tasks[j].item);
      assert s.d.tasks[j].item.id == id ==> !Holds(s.d.table, s.d.tasks[j].item);
    }
    forall i | 0 <= i < |s'.d.ch| ensures AttemptOK(s', s'.d.ch[i]) {
      assert AttemptOK(s, s.d.ch[i]);
      assert s.d.ch[i].id == id ==> !Holds(s.d.table, s.d.ch[i]);
    }
  }

  lemma RenewHandlers(s: Sys, s': Sys, id: string, e: Entry)
    requires PI.RunsOK(s.d) && Handlers(s) && Entries(s) && Renewed(s, s', id, e)
    ensures Handlers(s')
  {
    forall j | j in s'.d.tasks ensures HandlerOK(s', j) {
      assert HandlerOK(s, j) && PI.GoodRun(s.d, s.d.tasks[j]);
      if id in s.rows { assert EntryOK(s, id); }
    }
  }

  lemma RenewLive(s: Sys, s': Sys, id: string, e: Entry, j: nat)
    requires Handlers(s) && Entries(s) && Renewed(s, s', id, e) && Live(s', j)
    ensures IdOf(s, j) != id && Live(s, j)
  {
    assert HandlerOK(s, j);
    if id in s.rows { assert EntryOK(s, id); }
  }

  lemma RenewProcs(s: Sys, s': Sys, id: string, e: Entry)
    requires Handlers(s) && Entries(s) && Procs(s) && OneLive(s) && Renewed(s, s', id, e)
    ensures Procs(s') && OneLive(s')
  {
    forall j | Live(s', j) ensures IdOf(s, j) != id && Live(s, j) { RenewLive(s, s', id, e, j); }
    forall j | j in s'.d.tasks ensures ProcOK(s', j) { assert ProcOK(s, j); }
  }

  lemma RenewCmds(s: Sys, s': Sys, id: string, e: Entry)
    requires Cmds(s) && Renewed(s, s', id, e) && Linked(s')
    ensures Cmds(s')
  {
    forall x | x in s'.cmds ensures CmdOK(s', x) { if x != id { assert CmdOK(s, x); } }
  }

  lemma RenewKeeps(s: Sys, s': Sys, id: string, e: Entry)
    requires Inv(s) && Renewed(s, s', id, e) && Linked(s')
    ensures Inv(s')
  {
    RenewEntries(s, s', id, e);
    RenewOwnership(s, s', id, e);
    RenewHandlers(s, s', id, e);
    RenewProcs(s, s', id, e);
    RenewCmds(s, s', id, e);
  }

  // ------------------------------------------------------------------
  // Its uses

  /** Nobody runs a reading that has no row or is owned by nobody and finished. */
  lemma IdleOutdated(s: Sys, id: string)
    requires Handlers(s) && id !in s.d.table.inflight && (id in s.rows ==> !s.rows[id].r.status.Running?)
    ensures Outdated(s, id)
  {
    if id in s.rows { CommandSteps.SettledNotLive(s, id); }
  }

  lemma IngestKeeps(s: Sys, rec: Reading)
    requires Inv(s) && CanIngest(s, rec)
    ensures Inv(DoIngest(s, rec))
  {
    IngestRenews(s, rec);
    RenewKeeps(s, DoIngest(s, rec), rec.id, NewEntry(s, rec));
  }

  lemma IngestRenews(s: Sys, rec: Reading)
    requires Ownership(s) && Handlers(s) && Linked(s) && CanIngest(s, rec)
    ensures Renewed(s, DoIngest(s, rec), rec.id, NewEntry(s, rec)) && Linked(DoIngest(s, rec))
  {
    CommandSteps.NewcomerFree(s, rec);
    IdleOutdated(s, rec.id);
  }

  lemma CreateKeeps(s: Sys, id: string)
    requires Inv(s) && CanCreate(s, id)
    ensures Inv(DoCreate(s, id))
  {
    CreateRenews(s, id);
    RenewKeeps(s, DoCreate(s, id), id, NewEntry(s, s.cmds[id].rec));
  }

  lemma CreateRenews(s: Sys, id: string)
    requires Handlers(s) && Cmds(s) && CanCreate(s, id)
    ensures Renewed(s, DoCreate(s, id), id, NewEntry(s, s.cmds[id].rec)) && Linked(DoCreate(s, id))
  {
    assert CmdOK(s, id);
    IdleOutdated(s, id);
  }

  lemma ResetKeeps(s: Sys, id: string)
    requires Inv(s) && CanReset(s, id)
    ensures Inv(DoReset(s, id))
  {
    ResetRenews(s, id);
    RenewKeeps(s, DoReset(s, id), id, DoReset(s, id).rows[id]);
  }

  lemma ResetRenews(s: Sys, id: string)
    requires Entries(s) && Handlers(s) && Cmds(s) && CanReset(s, id)
    ensures Renewed(s, DoReset(s, id), id, DoReset(s, id).rows[id]) && Linked(DoReset(s, id))
  {
    assert CmdOK(s, id) && EntryOK(s, id);
    IdleOutdated(s, id);
  }

  lemma ImportWriteKeeps(s: Sys, id: string)
    requires Inv(s) && CanImportWrite(s, id)
    ensures Inv(DoImportWrite(s, id))
  {
    ImportWriteRenews(s, id);
    RenewKeeps(s, DoImportWrite(s, id), id, DoImportWrite(s, id).rows[id]);
  }

  lemma ImportWriteRenews(s: Sys, id: string)
    requires Entries(s) && Handlers(s) && Cmds(s) && CanImportWrite(s, id)
    ensures Renewed(s, DoImportWrite(s, id), id, DoImportWrite(s, id).rows[id]) && Linked(DoImportWrite(s, id))
  {
    assert CmdOK(s, id) && EntryOK(s, id);
    IdleOutdated(s, id);
    ImportWriteRow(s, id);
  }

  lemma ImportWriteRow(s: Sys, id: string)
    requires CanImportWrite(s, id) && CmdOK(s, id) && EntryOK(s, id)
    ensures var s' := DoImportWrite(s, id); EntryOK(s', id) && CmdOK(s', id)
  {
  }

  // ------------------------------------------------------------------
  // The forced reset

  function ForcedRow(s: Sys, id: string, k: nat): Sys
    requires CanForceReset(s, id, k)
  {
    SetRow(s, id, ResetEntry(s, s.rows[id], s.cmds[id].rawKey, s.cmds[id].title))
  }

  /** Past its wait, the forced submit faces no run that started as late as now. */
  lemma ForcedOutdated(s: Sys, id: string, k: nat)
    requires PI.ForceOK(s.d) && PI.TasksDistinct(s.d) && Handlers(s) && Cmds(s) && CanForceReset(s, id, k)
    ensures Outdated(s, id)
  {
    assert CmdOK(s, id);
    forall j | Live(s, j) && IdOf(s, j) == id ensures s.d.tasks[j].phase.start < s.d.now { assert HandlerOK(s, j); }
  }

  lemma ForcedRenews(s: Sys, id: string, k: nat)
    requires PI.ForceOK(s.d) && PI.TasksDistinct(s.d) && Entries(s) && Handlers(s) && Cmds(s) && CanForceReset(s, id, k)
    ensures Renewed(s, ForcedRow(s, id, k), id, ForcedRow(s, id, k).rows[id]) && Linked(ForcedRow(s, id, k))
  {
    ForcedOutdated(s, id, k);
    assert CmdOK(s, id) && EntryOK(s, id);
  }

  lemma ForceResetKeeps(s: Sys, id: string, k: nat)
    requires Inv(s) && CanForceReset(s, id, k)
    ensures Inv(DoForceReset(s, id, k))
  {
    ForcedRenews(s, id, k);
    var s1 := ForcedRow(s, id, k);
    RenewKeeps(s, s1, id, s1.rows[id]);
    ForcedNotLive(s, id, k);
    HandOverKeeps(s1, id, k);
  }

  lemma ForcedNotLive(s: Sys, id: string, k: nat)
    requires PI.ForceOK(s.d) && PI.TasksDistinct(s.d) && Entries(s) && Handlers(s) && Cmds(s) && CanForceReset(s, id, k)
    ensures NoLive(ForcedRow(s, id, k), id)
  {
    ForcedRenews(s, id, k);
    var s1 := ForcedRow(s, id, k);
    forall j | Live(s1, j) ensures IdOf(s, j) != id { RenewLive(s, s1, id, s1.rows[id], j); }
  }

  /** The forced submit has reset the row and hands its item to queueClaimed. */
  ghost predicate HandingOver(s: Sys, id: string, k: nat) {
    && CanForceReset(s, id, k) && s.rows[id].r.status.Pending? && s.rows[id].r.attempts == 0
    && s.d.tasks[k].item.id == id && s.d.force == Some(k)
  }

  function HandOver(s: Sys, id: string, k: nat): Sys
    requires k in s.d.tasks
  {
    EndCmd(s, id).(d := P.Unlock(P.Move(s.d, k, P.Queueing)))
  }

  lemma HandOverKeeps(s: Sys, id: string, k: nat)
    requires Inv(s) && CanForceReset(s, id, k) && NoLive(s, id)
    requires s.rows[id].r.status.Pending? && s.rows[id].r.attempts == 0
    ensures Inv(HandOver(s, id, k))
  {
    assert CmdOK(s, id);
    PI.UnlockKeeps(s.d, k);
    HandOverOwnership(s, id, k);
    HandOverHandlers(s, id, k);
    HandOverRest(s, id, k);
  }

  lemma HandOverOwnership(s: Sys, id: string, k: nat)
    requires PI.ForceOK(s.d) && Ownership(s) && Linked(s) && HandingOver(s, id, k)
    ensures Ownership(HandOver(s, id, k))
  {
    var s' := HandOver(s, id, k);
    forall x | x in s'.d.table.inflight ensures OwnOK(s', x) { assert OwnOK(s, x); }
    forall j | Queued(s'.d, j) ensures AttemptOK(s', s'.d.tasks[j].item) {
      if j != k { assert Queued(s.d, j); assert AttemptOK(s, s.d.tasks[j].item); }
    }
    forall i | 0 <= i < |s'.d.ch| ensures AttemptOK(s', s'.d.ch[i]) { assert AttemptOK(s, s.d.ch[i]); }
  }

  lemma HandOverHandlers(s: Sys, id: string, k: nat)
    requires Handlers(s) && OneLive(s) && HandingOver(s, id, k) && NoLive(s, id)
    ensures Handlers(HandOver(s, id, k)) && OneLive(HandOver(s, id, k))
  {
    var s' := HandOver(s, id, k);
    forall j | j in s'.d.tasks ensures HandlerOK(s', j) && Live(s', j) == Live(s, j) {
      assert HandlerOK(s, j);
      assert s.d.tasks[j].item.id == id ==> !Live(s, j);
    }
  }

  lemma HandOverRest(s: Sys, id: string, k: nat)
    requires Entries(s) && Procs(s) && Cmds(s) && HandingOver(s, id, k)
    ensures var s' := HandOver(s, id, k); Entries(s') && Procs(s') && Cmds(s')
  {
    var s' := HandOver(s, id, k);
    forall x | x in s'.rows ensures EntryOK(s', x) { assert EntryOK(s, x); }
    forall j | j in s'.d.tasks ensures ProcOK(s', j) { assert ProcOK(s, j); }
    forall x | x in s'.cmds ensures CmdOK(s', x) { assert CmdOK(s, x); }
  }
}
