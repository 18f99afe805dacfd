/** Claiming a free reading, the startup sweep and the crash keep the joined
    invariant. */
module BootSteps {
  import opened Basics
  import opened Claims
  import opened Readings
  import opened System
  import opened SystemInvariant
  import opened DispatchSteps
  import opened QuietSteps
  import P = Protocol
  import PI = ProtocolInvariant

  // ------------------------------------------------------------------
  // A new claim

  ghost predicate Claimable(s: Sys, k: nat, id: string, attempt: int) {
    && P.CanClaim(s.d, k, id) && id in s.rows && id !in s.cmds && Unlisted(s, id) && !s.boot.Down?
    && (s.rows[id].r.status.Pending? || s.rows[id].r.status.Running?)
    && attempt >= s.rows[id].r.attempts
  }

  function Claimed(s: Sys, k: nat, id: string, attempt: int, sweep: bool): Sys
    requires P.CanClaim(s.d, k, id)
  {
    s.(d := P.DoClaim(s.d, k, id, attempt, sweep))
  }

  lemma ClaimPreForce(s: Sys, k: nat, id: string, attempt: int, sweep: bool, x: string)
    requires PI.ForceOK(s.d) && P.CanClaim(s.d, k, id)
    ensures PreForce(Claimed(s, k, id, attempt, sweep), x) == PreForce(s, x)
  {
  }

  lemma ClaimEntries(s: Sys, k: nat, id: string, attempt: int, sweep: bool)
    requires Entries(s) && P.CanClaim(s.d, k, id)
    ensures Entries(Claimed(s, k, id, attempt, sweep))
  {
    var s' := Claimed(s, k, id, attempt, sweep);
    forall x | x in s'.rows ensures EntryOK(s', x) { assert EntryOK(s, x); }
  }

  lemma ClaimOwnership(s: Sys, k: nat, id: string, attempt: int, sweep: bool)
    requires PI.ForceOK(s.d) && PI.ItemsOK(s.d) && Ownership(s) && Claimable(s, k, id, attempt)
    ensures Ownership(Claimed(s, k, id, attempt, sweep))
  {
    var s' := Claimed(s, k, id, attempt, sweep);
    forall x | x in s'.d.table.inflight ensures OwnOK(s', x) {
      ClaimPreForce(s, k, id, attempt, sweep, x);
      if x != id { assert OwnOK(s, x); }
    }
    forall j | Queued(s'.d, j) ensures AttemptOK(s', s'.d.tasks[j].item) {
      if j != k { assert Queued(s.d, j); assert AttemptOK(s, s.d.tasks[j].item); }
    }
    forall i | 0 <= i < |s'.d.ch| ensures AttemptOK(s', s'.d.ch[i]) { assert AttemptOK(s, s.d.ch[i]); }
  }

  lemma ClaimHandlers(s: Sys, k: nat, id: string, attempt: int, sweep: bool)
    requires PI.ForceOK(s.d) && PI.ItemsOK(s.d) && Handlers(s) && Claimable(s, k, id, attempt) && NoLive(s, id)
    ensures Handlers(Claimed(s, k, id, attempt, sweep))
  {
    var s' := Claimed(s, k, id, attempt, sweep);
    forall j | j in s'.d.tasks ensures HandlerOK(s', j) {
      if j != k {
        assert HandlerOK(s, j);
        assert s.d.tasks[j].item.id == id ==> !Live(s, j);
        ClaimPreForce(s, k, id, attempt, sweep, s.d.tasks[j].item.id);
      }
    }
  }

  lemma ClaimProcs(s: Sys, k: nat, id: string, attempt: int, sweep: bool)
    requires Procs(s) && OneLive(s) && P.CanClaim(s.d, k, id)
    ensures Procs(Claimed(s, k, id, attempt, sweep)) && OneLive(Claimed(s, k, id, attempt, sweep))
  {
    var s' := Claimed(s, k, id, attempt, sweep);
    forall j | j in s'.d.tasks ensures ProcOK(s', j) && Live(s', j) == Live(s, j) {
      if j != k { assert ProcOK(s, j); }
    }
  }

  lemma ClaimCmds(s: Sys, k: nat, id: string, attempt: int, sweep: bool)
    requires Cmds(s) && Claimable(s, k, id, attempt)
    ensures Cmds(Claimed(s, k, id, attempt, sweep))
  {
    var s' := Claimed(s, k, id, attempt, sweep);
    forall x | x in s'.cmds ensures CmdOK(s', x) { assert CmdOK(s, x); }
  }

  lemma ClaimBooting(s: Sys, k: nat, id: string, attempt: int, sweep: bool)
    requires PI.ItemsOK(s.d) && Booting(s) && Claimable(s, k, id, attempt)
    ensures Booting(Claimed(s, k, id, attempt, sweep))
  {
    var s' := Claimed(s, k, id, attempt, sweep);
    if s.boot.Sweeping? {
      forall i | 0 <= i < |s.boot.list| ensures ToSweep(s', s.boot.list[i]) { assert ToSweep(s, s.boot.list[i]); }
    }
  }

  lemma ClaimKeeps(s: Sys, k: nat, id: string, attempt: int, sweep: bool)
    requires Inv(s) && Claimable(s, k, id, attempt) && NoLive(s, id)
    ensures Inv(Claimed(s, k, id, attempt, sweep))
  {
    PI.ClaimKeeps(s.d, k, id, attempt, sweep);
    ClaimEntries(s, k, id, attempt, sweep);
    ClaimOwnership(s, k, id, attempt, sweep);
    ClaimHandlers(s, k, id, attempt, sweep);
    ClaimProcs(s, k, id, attempt, sweep);
    ClaimCmds(s, k, id, attempt, sweep);
    ClaimBooting(s, k, id, attempt, sweep);
  }

  // ------------------------------------------------------------------
  // The sweep

  /** Only the boot stage changes. */
  lemma StageKeeps(s: Sys, boot: Boot)
    requires Inv(s) && !s.boot.Serving? && Booting(SetStage(s, boot))
    ensures Inv(SetStage(s, boot))
  {
    var s' := SetStage(s, boot);
    StageEntries(s, boot);
    StageHandlers(s, boot);
    StageOwnership(s, boot);
  }

  lemma StageEntries(s: Sys, boot: Boot)
    requires Entries(s) && OneLive(s)
    ensures Entries(SetStage(s, boot)) && OneLive(SetStage(s, boot))
  {
    var s' := SetStage(s, boot);
    forall x | x in s'.rows ensures EntryOK(s', x) { assert EntryOK(s, x); }
    forall j | j in s'.d.tasks ensures Live(s', j) == Live(s, j) { }
  }

  lemma StageHandlers(s: Sys, boot: Boot)
    requires Handlers(s) && Procs(s)
    ensures Handlers(SetStage(s, boot)) && Procs(SetStage(s, boot))
  {
    var s' := SetStage(s, boot);
    forall j | j in s'.d.tasks ensures HandlerOK(s', j) && ProcOK(s', j) { assert HandlerOK(s, j) && ProcOK(s, j); }
  }

  lemma StageOwnership(s: Sys, boot: Boot)
    requires Ownership(s)
    ensures Ownership(SetStage(s, boot))
  {
    var s' := SetStage(s, boot);
    forall x | x in s'.d.table.inflight ensures OwnOK(s', x) { assert OwnOK(s, x); }
    forall j | Queued(s'.d, j) ensures AttemptOK(s', s'.d.tasks[j].item) { assert AttemptOK(s, s.d.tasks[j].item); }
    forall i | 0 <= i < |s'.d.ch| ensures AttemptOK(s', s'.d.ch[i]) { assert AttemptOK(s, s.d.ch[i]); }
  }

  lemma ListKeeps(c: Config, s: Sys, list: seq<Recovered>)
    requires Inv(s) && CanList(c, s, list)
    ensures Inv(SetStage(s, Sweeping(list)))
  {
    var s' := SetStage(s, Sweeping(list));
    forall i | 0 <= i < |list| ensures ToSweep(s', list[i]) { assert list[i].id in s.rows; }
    StageKeeps(s, Sweeping(list));
  }

  lemma SweepKeeps(s: Sys, k: nat)
    requires Inv(s) && CanSweep(s, k)
    ensures Inv(DoSweep(s, k))
  {
    var p, rest := s.boot.list[0], s.boot.list[1..];
    var s1 := SetStage(s, Sweeping(rest));
    RestListed(s);
    StageKeeps(s, Sweeping(rest));
    assert ToSweep(s, p);
    NobodyLive(s1, p.id);
    ClaimKeeps(s1, k, p.id, p.attempts, true);
  }

  lemma RestListed(s: Sys)
    requires Booting(s) && s.boot.Sweeping? && s.boot.list != []
    ensures var s1 := SetStage(s, Sweeping(s.boot.list[1..])); Booting(s1) && Unlisted(s1, s.boot.list[0].id)
  {
    var rest := s.boot.list[1..];
    var s1 := SetStage(s, Sweeping(rest));
    forall i | 0 <= i < |rest| ensures ToSweep(s1, rest[i]) && rest[i].id != s.boot.list[0].id {
      assert rest[i] == s.boot.list[i + 1];
      assert ToSweep(s, s.boot.list[i + 1]);
    }
    forall i, j | 0 <= i < j < |rest| ensures rest[i].id != rest[j].id {
      assert rest[i] == s.boot.list[i + 1] && rest[j] == s.boot.list[j + 1];
    }
  }

  lemma NobodyLive(s: Sys, id: string)
    requires Booting(s) && !s.boot.Serving? && id !in s.d.table.inflight
    ensures NoLive(s, id)
  {
  }

  lemma ServeKeeps(s: Sys)
    requires Inv(s) && s.boot == Sweeping([])
    ensures Inv(SetStage(s, Serving))
  {
    StageKeeps(s, Serving);
  }

  // ------------------------------------------------------------------
  // The crash

  lemma CrashKeeps(s: Sys)
    requires Inv(s)
    ensures Inv(DoCrash(s))
  {
    PI.CrashKeeps(s.d);
    CrashEntries(s);
    CrashedInv(s);
  }

  lemma CrashEntries(s: Sys)
    requires Entries(s)
    ensures Entries(DoCrash(s))
  {
    var s' := DoCrash(s);
    forall x | x in s'.rows ensures EntryOK(s', x) { assert EntryOK(s, x); }
  }

  /** The panic: at most one more pending write of the holder, then the crash. */
  lemma PanicKeeps(c: Config, s: Sys, k: nat, at: int, lands: bool)
    requires Inv(s) && CanPanic(c, s, k, at)
    ensures Inv(DoPanic(c, s, k, at, lands))
  {
    if lands { PanicWrites(c, s, k, at); } else { CrashKeeps(s); }
  }

  lemma PanicWrites(c: Config, s: Sys, k: nat, at: int)
    requires PI.Inv(s.d) && Entries(s) && CanPanic(c, s, k, at)
    ensures Inv(DoPanic(c, s, k, at, true))
  {
    var s1 := SetRow(s, IdOf(s, k), PanicEntry(c, s, k, at));
    PI.CrashKeeps(s.d);
    PanicRow(c, s, k, at);
    PanicEntries(s, IdOf(s, k), PanicEntry(c, s, k, at));
    CrashEntries(s1);
    CrashedInv(s1);
  }

  lemma PanicRow(c: Config, s: Sys, k: nat, at: int)
    requires Entries(s) && CanPanic(c, s, k, at)
    ensures EntryOK(SetRow(s, IdOf(s, k), PanicEntry(c, s, k, at)), IdOf(s, k))
  {
    assert EntryOK(s, IdOf(s, k));
  }

  lemma PanicEntries(s: Sys, id: string, e: Entry)
    requires Entries(s) && EntryOK(SetRow(s, id, e), id)
    ensures Entries(SetRow(s, id, e))
  {
    var s1 := SetRow(s, id, e);
    forall x | x in s1.rows ensures EntryOK(s1, x) { if x != id { assert EntryOK(s, x); } }
  }

  /** After the crash the rows are all there is. */
  lemma CrashedInv(s: Sys)
    requires PI.Inv(P.DoCrash(s.d)) && Entries(DoCrash(s))
    ensures Inv(DoCrash(s))
  {
  }

  // ------------------------------------------------------------------

  lemma CoreKeeps(c: Config, s: Sys, l: Label)
    requires Inv(s) && IsCore(l) && CanCore(c, s, l) && (l.Internal? ==> Timely(c.d, l.l))
    ensures Inv(DoCore(c, s, l))
  {
    if l.Internal? { QuietKeeps(c, s, l.l); }
    else if l.Start? { StartKeeps(s, l.k, l.start); }
    else if l.Finish? { FinishKeeps(c, s, l.k, l.at, l.message, l.lands); }
    else if l.Again? { AgainKeeps(c, s, l.k, l.k2, l.at, l.lands); }
    else if l.Panic? { PanicKeeps(c, s, l.k, l.at, l.lands); }
    else if l.List? { ListKeeps(c, s, l.list); }
    else if l.Sweep? { SweepKeeps(s, l.k); }
    else if l.Serve? { ServeKeeps(s); }
    else { CrashKeeps(s); }
  }
}
