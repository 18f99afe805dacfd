/** The steps of the service commands keep the joined invariant. */
module CommandSteps {
  import opened Basics
  import opened Claims
  import opened Readings
  import opened BlobKeys
  import opened System
  import opened SystemInvariant
  import opened DispatchSteps
  import BootSteps

  // ------------------------------------------------------------------
  // Steps that change only the command's place, its blobs, or nothing else

  ghost predicate CmdMoves(s: Sys, s': Sys, id: string) {
    && s'.d == s.d && s'.rows == s.rows && s'.procs == s.procs && s'.boot == s.boot && s.boot.Serving?
    && (forall x :: x in s.cmds && x != id ==> x in s'.cmds && s'.cmds[x] == s.cmds[x])
    && (forall x :: x in s'.cmds && x != id ==> x in s.cmds)
  }

  /** The command on id moves, and blobs come or go; a blob that goes is not one a
      row, a live run or another command relies on. */
  ghost predicate CmdRel(s: Sys, s': Sys, id: string) {
    && CmdMoves(s, s', id)
    && (id in s'.cmds && s'.cmds[id] == Forcing(None) ==> forall k :: Live(s, k) && IdOf(s, k) == id ==> s.d.tasks[k].phase.start < s.d.now)
    && (forall x, key | key in s.blobs && Owns(x, key) && NoSlash(x) && x != id :: key in s'.blobs)
    && (id in s.rows ==> s.rows[id].r.rawKey in s.blobs ==> s.rows[id].r.rawKey in s'.blobs)
    && (id in s.rows ==> s.rows[id].r.contentKey in s.blobs ==> s.rows[id].r.contentKey in s'.blobs)
    && (s.blobs <= s'.blobs || NoLive(s, id))
  }

  lemma CmdEntries(s: Sys, s': Sys, id: string)
    requires Entries(s) && CmdRel(s, s', id)
    ensures Entries(s')
  {
    forall x | x in s'.rows ensures EntryOK(s', x) { assert EntryOK(s, x); }
  }

  lemma CmdOwnership(s: Sys, s': Sys, id: string)
    requires Ownership(s) && CmdMoves(s, s', id)
    ensures Ownership(s')
  {
    forall x | x in s'.d.table.inflight ensures OwnOK(s', x) { assert OwnOK(s, x); }
    forall j | Queued(s'.d, j) ensures AttemptOK(s', s'.d.tasks[j].item) { assert AttemptOK(s, s.d.tasks[j].item); }
    forall i | 0 <= i < |s'.d.ch| ensures AttemptOK(s', s'.d.ch[i]) { assert AttemptOK(s, s.d.ch[i]); }
  }

  lemma CmdHandlers(s: Sys, s': Sys, id: string)
    requires Handlers(s) && OneLive(s) && CmdRel(s, s', id)
    ensures Handlers(s') && OneLive(s')
  {
    forall j | j in s'.d.tasks ensures HandlerOK(s', j) && Live(s', j) == Live(s, j) { assert HandlerOK(s, j); }
  }

  lemma CmdProcs(s: Sys, s': Sys, id: string)
    requires Entries(s) && Handlers(s) && Procs(s) && CmdRel(s, s', id)
    ensures Procs(s')
  {
    forall j | j in s'.d.tasks ensures ProcOK(s', j) {
      assert ProcOK(s, j) && Live(s', j) == Live(s, j);
      if Live(s, j) { assert EntryOK(s, IdOf(s, j)); }
    }
  }

  lemma CmdCmds(s: Sys, s': Sys, id: string)
    requires Entries(s) && Cmds(s) && CmdRel(s, s', id) && Linked(s')
    requires id in s'.cmds ==> CmdOK(s', id)
    ensures Cmds(s')
  {
    forall x | x in s'.cmds ensures CmdOK(s', x) {
      if x != id {
        assert CmdOK(s, x);
        if x in s.rows { assert EntryOK(s, x); }
      }
    }
  }

  lemma CmdKeeps(s: Sys, s': Sys, id: string)
    requires Inv(s) && CmdRel(s, s', id) && Linked(s')
    requires id in s'.cmds ==> CmdOK(s', id)
    ensures Inv(s')
  {
    CmdEntries(s, s', id);
    CmdOwnership(s, s', id);
    CmdHandlers(s, s', id);
    CmdProcs(s, s', id);
    CmdCmds(s, s', id);
  }

  // ------------------------------------------------------------------
  // Facts about idle readings

  lemma SettledNotLive(s: Sys, id: string)
    requires Handlers(s) && id in s.rows && !s.rows[id].r.status.Running?
    ensures NoLive(s, id)
  {
    forall k | Live(s, k) ensures s.d.tasks[k].item.id != id { assert HandlerOK(s, k); }
  }

  /** A finished reading without a command is owned by nobody. */
  lemma TerminalFree(s: Sys, id: string)
    requires Ownership(s) && Linked(s) && Idle(s, id) && Terminal(s.rows[id].r.status)
    ensures FreeRow(s, id)
  {
    assert id in s.d.table.inflight ==> OwnOK(s, id);
  }

  lemma OthersKeepBlobs(s: Sys, id: string, key: string)
    requires NoSlash(id) && Owns(id, key)
    ensures forall x, other | other in s.blobs && Owns(x, other) && NoSlash(x) && x != id :: other in s.blobs - {key}
  {
    forall x, other | other in s.blobs && Owns(x, other) && NoSlash(x) && x != id ensures other != key {
      if other == key { OwnerUnique(x, id, key); }
    }
  }

  // ------------------------------------------------------------------
  // The steps

  lemma MarkKeeps(s: Sys, id: string)
    requires Inv(s) && CanMark(s, id)
    ensures Inv(SetCmd(s, id, Marking))
  {
    MarkRel(s, id);
    CmdKeeps(s, SetCmd(s, id, Marking), id);
  }

  lemma MarkRel(s: Sys, id: string)
    requires Ownership(s) && Linked(s) && CanMark(s, id)
    ensures var s' := SetCmd(s, id, Marking); CmdRel(s, s', id) && Linked(s') && CmdOK(s', id)
  {
    TerminalFree(s, id);
  }

  lemma MarkReadKeeps(s: Sys, id: string)
    requires Inv(s) && CanMarkRead(s, id)
    ensures Inv(DoMarkRead(s, id))
  {
    MarkReadRel(s, id);
    CmdKeeps(s, DoMarkRead(s, id), id);
  }

  lemma MarkReadRel(s: Sys, id: string)
    requires Entries(s) && Cmds(s) && CanMarkRead(s, id)
    ensures var s' := DoMarkRead(s, id); CmdRel(s, s', id) && Linked(s') && CmdOK(s', id)
  {
    assert CmdOK(s, id) && EntryOK(s, id);
  }

  lemma GiveUpKeeps(s: Sys, id: string)
    requires Inv(s) && CanGiveUp(s, id)
    ensures Inv(EndCmd(s, id))
  {
    assert CmdOK(s, id);
    CmdKeeps(s, EndCmd(s, id), id);
  }

  /** The staleness gate: a running row that is stale started strictly in the past. */
  lemma StaleStartedBefore(c: Config, s: Sys, id: string)
    requires Handlers(s) && CanDecideForce(c, s, id)
    ensures forall k :: Live(s, k) && IdOf(s, k) == id ==> s.d.tasks[k].phase.start < s.d.now
  {
    forall k | Live(s, k) && IdOf(s, k) == id ensures s.d.tasks[k].phase.start < s.d.now { assert HandlerOK(s, k); }
  }

  lemma DecideForceKeeps(c: Config, s: Sys, id: string)
    requires Inv(s) && CanDecideForce(c, s, id)
    ensures Inv(SetCmd(s, id, Forcing(None)))
  {
    DecideForceRel(c, s, id);
    CmdKeeps(s, SetCmd(s, id, Forcing(None)), id);
  }

  lemma DecideForceRel(c: Config, s: Sys, id: string)
    requires Handlers(s) && Linked(s) && CanDecideForce(c, s, id)
    ensures var s' := SetCmd(s, id, Forcing(None)); CmdRel(s, s', id) && Linked(s') && CmdOK(s', id)
  {
    StaleStartedBefore(c, s, id);
  }

  lemma ForceReadKeeps(s: Sys, id: string, k: nat)
    requires Inv(s) && CanForceRead(s, id, k)
    ensures Inv(DoForceRead(s, id, k))
  {
    ForceReadRel(s, id, k);
    CmdKeeps(s, DoForceRead(s, id, k), id);
  }

  lemma ForceReadRel(s: Sys, id: string, k: nat)
    requires Entries(s) && Cmds(s) && CanForceRead(s, id, k)
    ensures var s' := DoForceRead(s, id, k); CmdRel(s, s', id) && Linked(s') && CmdOK(s', id)
  {
    assert CmdOK(s, id) && EntryOK(s, id);
  }

  lemma NewcomerFree(s: Sys, rec: Reading)
    requires Ownership(s) && Linked(s) && NewRecord(s, rec)
    ensures rec.id !in s.d.table.inflight
  {
    assert rec.id in s.d.table.inflight ==> OwnOK(s, rec.id);
  }

  lemma ImportKeeps(s: Sys, rec: Reading)
    requires Inv(s) && CanImport(s, rec)
    ensures Inv(DoImport(s, rec))
  {
    ImportRel(s, rec);
    CmdKeeps(s, DoImport(s, rec), rec.id);
  }

  lemma ImportRel(s: Sys, rec: Reading)
    requires Ownership(s) && Linked(s) && CanImport(s, rec)
    ensures var s' := DoImport(s, rec); CmdRel(s, s', rec.id) && Linked(s') && CmdOK(s', rec.id)
  {
    NewcomerFree(s, rec);
  }

  lemma CreateFailsKeeps(s: Sys, id: string)
    requires Inv(s) && CanCreate(s, id)
    ensures Inv(DoCreateFails(s, id))
  {
    assert CmdOK(s, id);
    CmdKeeps(s, DoCreateFails(s, id), id);
  }

  lemma UncreateKeeps(s: Sys, id: string, lands: bool)
    requires Inv(s) && CanUncreate(s, id)
    ensures Inv(DoUncreate(s, id, lands))
  {
    UncreateRel(s, id, lands);
    CmdKeeps(s, DoUncreate(s, id, lands), id);
  }

  lemma UncreateRel(s: Sys, id: string, lands: bool)
    requires Entries(s) && Handlers(s) && Cmds(s) && CanUncreate(s, id)
    ensures CmdRel(s, DoUncreate(s, id, lands), id) && Linked(DoUncreate(s, id, lands))
    ensures id !in DoUncreate(s, id, lands).cmds
  {
    assert CmdOK(s, id);
    if id in s.rows { assert EntryOK(s, id); SettledNotLive(s, id); }
    if s.cmds[id].key != "" { OthersKeepBlobs(s, id, s.cmds[id].key); }
    UncreatePlace(s, id, lands);
  }

  lemma UncreatePlace(s: Sys, id: string, lands: bool)
    requires Linked(s) && CanUncreate(s, id)
    ensures Linked(DoUncreate(s, id, lands)) && id !in DoUncreate(s, id, lands).cmds
  {
  }

  lemma ReplaceKeeps(s: Sys, id: string, base: string, title: string, tags: seq<string>)
    requires Inv(s) && CanReplace(s, id)
    ensures Inv(DoReplace(s, id, base, title, tags))
  {
    ReplaceRel(s, id, base, title, tags);
    CmdKeeps(s, DoReplace(s, id, base, title, tags), id);
  }

  lemma ReplaceRel(s: Sys, id: string, base: string, title: string, tags: seq<string>)
    requires Ownership(s) && Linked(s) && CanReplace(s, id)
    ensures var s' := DoReplace(s, id, base, title, tags); CmdRel(s, s', id) && Linked(s') && CmdOK(s', id)
  {
    TerminalFree(s, id);
    ReplacementKeyIsNew(id, base, s.rows[id].r.rawKey, s.rows[id].r.contentKey);
  }

  lemma ImportFailsKeeps(s: Sys, id: string)
    requires Inv(s) && CanImportWrite(s, id)
    ensures Inv(DoImportFails(s, id))
  {
    ImportFailsRel(s, id);
    CmdKeeps(s, DoImportFails(s, id), id);
  }

  lemma ImportFailsRel(s: Sys, id: string)
    requires Cmds(s) && CanImportWrite(s, id)
    ensures var s' := DoImportFails(s, id); CmdRel(s, s', id) && Linked(s') && CmdOK(s', id)
  {
    assert CmdOK(s, id);
  }

  lemma DropRawKeeps(s: Sys, id: string, lands: bool)
    requires Inv(s) && CanDropRaw(s, id)
    ensures Inv(DoDropRaw(s, id, lands))
  {
    DropRawRel(s, id, lands);
    CmdKeeps(s, DoDropRaw(s, id, lands), id);
  }

  lemma DropRawRel(s: Sys, id: string, lands: bool)
    requires Entries(s) && Handlers(s) && Cmds(s) && CanDropRaw(s, id)
    ensures var s' := DoDropRaw(s, id, lands); CmdRel(s, s', id) && Linked(s') && id in s'.cmds && CmdOK(s', id)
  {
    assert CmdOK(s, id);
    SettledNotLive(s, id);
    assert EntryOK(s, id);
    if s.cmds[id].seen.rawKey != "" { OthersKeepBlobs(s, id, s.cmds[id].seen.rawKey); }
    DropRawPlace(s, id, lands);
  }

  lemma DropRawPlace(s: Sys, id: string, lands: bool)
    requires Linked(s) && CanDropRaw(s, id) && CmdOK(s, id)
    ensures var s' := DoDropRaw(s, id, lands); Linked(s') && id in s'.cmds && CmdOK(s', id)
  {
  }

  lemma DropContentKeeps(s: Sys, id: string, lands: bool)
    requires Inv(s) && CanDropContent(s, id)
    ensures Inv(DoDropContent(s, id, lands))
  {
    DropContentRel(s, id, lands);
    CmdKeeps(s, DoDropContent(s, id, lands), id);
  }

  lemma DropContentRel(s: Sys, id: string, lands: bool)
    requires Entries(s) && Handlers(s) && Cmds(s) && CanDropContent(s, id)
    ensures var s' := DoDropContent(s, id, lands); CmdRel(s, s', id) && Linked(s') && id in s'.cmds && CmdOK(s', id)
  {
    assert CmdOK(s, id);
    SettledNotLive(s, id);
    assert EntryOK(s, id);
    if s.cmds[id].seen.contentKey != "" { OthersKeepBlobs(s, id, s.cmds[id].seen.contentKey); }
    DropContentPlace(s, id, lands);
  }

  lemma DropContentPlace(s: Sys, id: string, lands: bool)
    requires Linked(s) && CanDropContent(s, id) && CmdOK(s, id)
    ensures var s' := DoDropContent(s, id, lands); Linked(s') && id in s'.cmds && CmdOK(s', id)
  {
  }

  /** Submit claims the id for the row its command has just reset or created. */
  lemma SubmitKeeps(s: Sys, id: string, k: nat)
    requires Inv(s) && CanSubmit(s, id, k)
    ensures Inv(DoSubmit(s, id, k))
  {
    SubmitRel(s, id, k);
    CmdKeeps(s, EndCmd(s, id), id);
    BootSteps.ClaimKeeps(EndCmd(s, id), k, id, 0, false);
  }

  lemma SubmitRel(s: Sys, id: string, k: nat)
    requires Handlers(s) && Cmds(s) && CanSubmit(s, id, k)
    ensures var s' := EndCmd(s, id); CmdRel(s, s', id) && Linked(s') && BootSteps.Claimable(s', k, id, 0) && NoLive(s', id)
    ensures id !in s.d.table.inflight
  {
    assert CmdOK(s, id);
    SettledNotLive(s, id);
    forall j | Live(EndCmd(s, id), j) ensures s.d.tasks[j].item.id != id { assert Live(s, j); }
  }
}
