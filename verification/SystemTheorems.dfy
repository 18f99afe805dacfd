/** Every step and every run of the joined system, and what holds in them. */
module SystemTheorems {
  import opened Basics
  import opened Claims
  import opened Readings
  import opened BlobKeys
  import opened System
  import opened SystemInvariant
  import opened BootSteps
  import opened PipelineSteps
  import opened QuietSteps
  import C = CommandSteps
  import D = DispatchSteps
  import R = RowSteps
  import F = ForceSteps
  import P = Protocol
  import PI = ProtocolInvariant

  // ------------------------------------------------------------------
  // Preservation

  predicate IsForced(l: Label) { l.Force? || l.ForceAbort? || l.ForceRead? || l.ForceReset? || l.ForceFail? }

  predicate IsImport(l: Label) { l.Import? || l.Create? || l.CreateFails? || l.Uncreate? }

  predicate IsReplace(l: Label) { l.Replace? || l.ImportWrite? || l.ImportFails? || l.DropRaw? || l.DropContent? }

  predicate IsCommand(l: Label) { !IsCore(l) && !IsPipeline(l) }

  lemma ForcedKeeps(c: Config, s: Sys, l: Label)
    requires Inv(s) && IsForced(l) && CanCommand(c, s, l) && (l.Force? ==> c.d.delaySet)
    ensures Inv(DoCommand(c, s, l))
  {
    if l.Force? { F.ForceKeeps(c, s, l.id, l.k); }
    else if l.ForceRead? { C.ForceReadKeeps(s, l.id, l.k); }
    else if l.ForceReset? { R.ForceResetKeeps(s, l.id, l.k); }
    else { F.ForceEndKeeps(s, l.id, l.k); }
  }

  lemma ImportedKeeps(c: Config, s: Sys, l: Label)
    requires Inv(s) && IsImport(l) && CanCommand(c, s, l)
    ensures Inv(DoCommand(c, s, l))
  {
    if l.Import? { C.ImportKeeps(s, l.rec); }
    else if l.Create? { R.CreateKeeps(s, l.id); }
    else if l.CreateFails? { C.CreateFailsKeeps(s, l.id); }
    else { C.UncreateKeeps(s, l.id, l.lands); }
  }

  lemma ReplacedKeeps(c: Config, s: Sys, l: Label)
    requires Inv(s) && IsReplace(l) && CanCommand(c, s, l)
    ensures Inv(DoCommand(c, s, l))
  {
    if l.Replace? { C.ReplaceKeeps(s, l.id, l.base, l.title, l.tags); }
    else if l.ImportWrite? { R.ImportWriteKeeps(s, l.id); }
    else if l.ImportFails? { C.ImportFailsKeeps(s, l.id); }
    else if l.DropRaw? { C.DropRawKeeps(s, l.id, l.lands); }
    else { C.DropContentKeeps(s, l.id, l.lands); }
  }

  lemma IngestedKeeps(c: Config, s: Sys, l: Label)
    requires Inv(s) && IsCommand(l) && !IsForced(l) && !IsImport(l) && !IsReplace(l) && CanCommand(c, s, l)
    ensures Inv(DoCommand(c, s, l))
  {
    if l.Ingest? { R.IngestKeeps(s, l.rec); }
    else if l.Submit? { C.SubmitKeeps(s, l.id, l.k); }
    else if l.DecideForce? { C.DecideForceKeeps(c, s, l.id); }
    else if l.Mark? { C.MarkKeeps(s, l.id); }
    else if l.MarkRead? { C.MarkReadKeeps(s, l.id); }
    else if l.Reset? { R.ResetKeeps(s, l.id); }
    else { C.GiveUpKeeps(s, l.id); }
  }

  lemma CommandKeeps(c: Config, s: Sys, l: Label)
    requires Inv(s) && IsCommand(l) && CanCommand(c, s, l) && (l.Force? ==> c.d.delaySet)
    ensures Inv(DoCommand(c, s, l))
  {
    if IsForced(l) { ForcedKeeps(c, s, l); }
    else if IsImport(l) { ImportedKeeps(c, s, l); }
    else if IsReplace(l) { ReplacedKeeps(c, s, l); }
    else { IngestedKeeps(c, s, l); }
  }

  /** Without staleness nobody is forced. */
  ghost predicate Calm(c: Config, s: Sys) {
    NeverStale(c.ttls) ==>
      s.d.force.None? && forall id :: id in s.cmds ==> !s.cmds[id].Forcing? && !s.cmds[id].ForceResetting?
  }

  lemma CalmKeeps(c: Config, s: Sys, l: Label)
    requires PI.ForceOK(s.d) && Calm(c, s) && Can(c, s, l)
    ensures Calm(c, Do(c, s, l))
  {
    if IsCore(l) { CalmCore(c, s, l); }
    else if IsPipeline(l) { CalmPipeline(c, s, l); }
    else { CalmCommand(c, s, l); }
  }

  lemma CalmCore(c: Config, s: Sys, l: Label)
    requires PI.ForceOK(s.d) && Calm(c, s) && IsCore(l) && CanCore(c, s, l)
    ensures Calm(c, DoCore(c, s, l))
  {
  }

  lemma CalmPipeline(c: Config, s: Sys, l: Label)
    requires Calm(c, s) && IsPipeline(l) && CanPipeline(s, l)
    ensures Calm(c, DoPipeline(s, l))
  {
  }

  lemma CalmCommand(c: Config, s: Sys, l: Label)
    requires Calm(c, s) && IsCommand(l) && CanCommand(c, s, l)
    ensures Calm(c, DoCommand(c, s, l))
  {
    if l.DecideForce? { CalmDecide(c, s, l.id); } else if IsForced(l) { CalmForced(c, s, l); }
  }

  lemma CalmDecide(c: Config, s: Sys, id: string)
    requires Calm(c, s) && CanDecideForce(c, s, id)
    ensures Calm(c, SetCmd(s, id, Forcing(None)))
  {
  }

  lemma CalmForced(c: Config, s: Sys, l: Label)
    requires Calm(c, s) && IsForced(l) && CanCommand(c, s, l)
    ensures Calm(c, DoCommand(c, s, l))
  {
  }

  /** So a forced claim, or a forced wait that times out, only happens with a seam that
      separates leases. */
  lemma ForcingSeparates(c: Config, s: Sys, l: Label)
    requires Separates(c) && PI.ForceOK(s.d) && Calm(c, s) && Can(c, s, l)
    ensures l.Force? ==> c.d.delaySet
    ensures l.Internal? ==> Timely(c.d, l.l)
  {
  }

  lemma CoreStepKeeps(c: Config, s: Sys, l: Label)
    requires Separates(c) && Calm(c, s) && Inv(s) && IsCore(l) && Can(c, s, l)
    ensures Inv(DoCore(c, s, l))
  {
    ForcingSeparates(c, s, l);
    CoreKeeps(c, s, l);
  }

  lemma CommandStepKeeps(c: Config, s: Sys, l: Label)
    requires Separates(c) && Calm(c, s) && Inv(s) && IsCommand(l) && Can(c, s, l)
    ensures Inv(DoCommand(c, s, l))
  {
    ForcingSeparates(c, s, l);
    CommandKeeps(c, s, l);
  }

  /** One step of any kind keeps the joined invariant, if leases are kept apart. */
  lemma StepKeeps(c: Config, s: Sys, l: Label)
    requires Separates(c) && Calm(c, s) && Inv(s) && Can(c, s, l)
    ensures Inv(Do(c, s, l))
  {
    if IsCore(l) { CoreStepKeeps(c, s, l); }
    else if IsPipeline(l) { PipelineKeeps(s, l); }
    else { CommandStepKeeps(c, s, l); }
  }

  lemma {:induction false} ExecKeeps(c: Config, s: Sys, run: seq<Label>)
    requires Separates(c) && Calm(c, s) && Inv(s) && Exec(c, s, run).Some?
    ensures Inv(Exec(c, s, run).value) && Calm(c, Exec(c, s, run).value)
    decreases |run|
  {
    if run != [] {
      CalmKeeps(c, s, run[0]);
      StepKeeps(c, s, run[0]);
      ExecKeeps(c, Do(c, s, run[0]), run[1..]);
    }
  }

  /** A state some run reaches from an empty store. */
  ghost predicate Reachable(c: Config, s: Sys) {
    exists now: int, run: seq<Label> :: Exec(c, Initial(now), run) == Some(s)
  }

  lemma {:induction false} ExecAppend(c: Config, s: Sys, run: seq<Label>, l: Label)
    requires Exec(c, s, run).Some? && Can(c, Exec(c, s, run).value, l)
    ensures Exec(c, s, run + [l]) == Some(Do(c, Exec(c, s, run).value, l))
    decreases |run|
  {
    if run == [] {
      assert run + [l] == [l];
      assert Exec(c, Do(c, s, l), [l][1..]) == Some(Do(c, s, l));
    } else {
      assert (run + [l])[1..] == run[1..] + [l];
      ExecAppend(c, Do(c, s, run[0]), run[1..], l);
    }
  }

  lemma ReachableNext(c: Config, s: Sys, l: Label)
    requires Reachable(c, s) && Can(c, s, l)
    ensures Reachable(c, Do(c, s, l))
  {
    var now: int, run: seq<Label> :| Exec(c, Initial(now), run) == Some(s);
    ExecAppend(c, Initial(now), run, l);
  }

  lemma ReachableInv(c: Config, s: Sys)
    requires Separates(c) && Reachable(c, s)
    ensures Inv(s) && Calm(c, s)
  {
    var now: int, run: seq<Label> :| Exec(c, Initial(now), run) == Some(s);
    InitialInv(now);
    ExecKeeps(c, Initial(now), run);
  }

  // ------------------------------------------------------------------
  // Who may change a row

  predicate Resets(l: Label, id: string) {
    l == Reset(id) || l == ImportWrite(id) || (l.ForceReset? && l.id == id)
  }

  /** A status write of the dispatcher on this reading. */
  predicate WritesStatus(s: Sys, l: Label, id: string) {
    (l.Start? || l.Finish? || l.Again? || l.Panic?) && At(s, l.k) && IdOf(s, l.k) == id
  }

  /** A content or tag write of the pipeline on this reading. */
  predicate WritesContent(s: Sys, l: Label, id: string) {
    (l.Checkpoint? || l.WriteContent? || l.WriteTags? || l.WriteDiagnostics?) && Handling(s, l.k) && IdOf(s, l.k) == id
  }

  ghost predicate Untouched(e: Entry, e': Entry) { e' == e.(vec := e'.vec) }

  lemma CoreRows(c: Config, s: Sys, l: Label, id: string)
    requires IsCore(l) && CanCore(c, s, l) && id in s.rows && !WritesStatus(s, l, id)
    ensures id in DoCore(c, s, l).rows && DoCore(c, s, l).rows[id] == s.rows[id]
  {
    if l.Start? || l.Finish? || l.Again? || l.Panic? { StatusElsewhere(c, s, l, id); }
  }

  lemma StatusElsewhere(c: Config, s: Sys, l: Label, id: string)
    requires (l.Start? || l.Finish? || l.Again? || l.Panic?) && CanCore(c, s, l) && id in s.rows && !WritesStatus(s, l, id)
    ensures id in DoCore(c, s, l).rows && DoCore(c, s, l).rows[id] == s.rows[id]
  {
  }

  lemma PipelineRows(s: Sys, l: Label, id: string)
    requires IsPipeline(l) && CanPipeline(s, l) && id in s.rows && !WritesContent(s, l, id)
    ensures id in DoPipeline(s, l).rows && Untouched(s.rows[id], DoPipeline(s, l).rows[id])
  {
    if l.Checkpoint? || l.WriteContent? || l.WriteTags? || l.WriteDiagnostics? { ContentElsewhere(s, l, id); }
    else { PlainRows(s, l, id); }
  }

  lemma ContentElsewhere(s: Sys, l: Label, id: string)
    requires (l.Checkpoint? || l.WriteContent? || l.WriteTags? || l.WriteDiagnostics?) && CanPipeline(s, l)
    requires id in s.rows && !WritesContent(s, l, id)
    ensures id in DoPipeline(s, l).rows && DoPipeline(s, l).rows[id] == s.rows[id]
  {
  }

  lemma PlainRows(s: Sys, l: Label, id: string)
    requires IsPipeline(l) && CanPipeline(s, l) && id in s.rows
    requires !l.Checkpoint? && !l.WriteContent? && !l.WriteTags? && !l.WriteDiagnostics?
    ensures id in DoPipeline(s, l).rows && Untouched(s.rows[id], DoPipeline(s, l).rows[id])
  {
  }

  lemma CommandRows(c: Config, s: Sys, l: Label, id: string)
    requires IsCommand(l) && CanCommand(c, s, l) && id in s.rows && !Resets(l, id)
    ensures id in DoCommand(c, s, l).rows && DoCommand(c, s, l).rows[id] == s.rows[id]
  {
  }

  /** Only a reset, a status write or a guarded write of the reading's own run changes
      its row. */
  lemma RowsKept(c: Config, s: Sys, l: Label, id: string)
    requires Can(c, s, l) && id in s.rows && !Resets(l, id) && !WritesStatus(s, l, id) && !WritesContent(s, l, id)
    ensures id in Do(c, s, l).rows && Untouched(s.rows[id], Do(c, s, l).rows[id])
  {
    if IsCore(l) { CoreRows(c, s, l, id); }
    else if IsPipeline(l) { PipelineRows(s, l, id); }
    else { CommandRows(c, s, l, id); }
  }

  /** A status write that changes the row is the current holder's, made on a row that
      is not finished, and never lowers the stored attempt. */
  ghost predicate HolderWrite(s: Sys, k: nat, e: Entry, e': Entry)
    requires k in s.d.tasks
  {
    e' != e ==> Holds(s.d.table, s.d.tasks[k].item) && !Terminal(e.r.status) && e'.r.attempts >= e.r.attempts
  }

  lemma HolderFacts(s: Sys, k: nat)
    requires PI.ForceOK(s.d) && PI.TasksDistinct(s.d) && Ownership(s)
    requires At(s, k) && P.InHandler(s.d.tasks[k].phase) && Holds(s.d.table, s.d.tasks[k].item)
    ensures !Terminal(EntryOf(s, k).r.status) && s.d.tasks[k].item.attempt >= EntryOf(s, k).r.attempts
  {
    D.HolderOwns(s, k);
    assert OwnOK(s, IdOf(s, k)) && Queued(s.d, k) && AttemptOK(s, s.d.tasks[k].item);
  }

  lemma StartWrite(s: Sys, k: nat, start: int)
    requires PI.ForceOK(s.d) && PI.TasksDistinct(s.d) && PI.RunsOK(s.d) && Ownership(s) && CanStart(s, k, start)
    ensures HolderWrite(s, k, EntryOf(s, k), DoStart(s, k, start).rows[IdOf(s, k)])
  {
    D.StartHolds(s, k, start);
    HolderFacts(s, k);
  }

  lemma FinishWrite(c: Config, s: Sys, k: nat, at: int, message: string, lands: bool)
    requires PI.ForceOK(s.d) && PI.TasksDistinct(s.d) && Ownership(s) && CanFinish(c, s, k, at)
    ensures HolderWrite(s, k, EntryOf(s, k), DoFinish(c, s, k, at, message, lands).rows[IdOf(s, k)])
  {
    if Holds(s.d.table, s.d.tasks[k].item) { HolderFacts(s, k); }
  }

  lemma AgainWrite(c: Config, s: Sys, k: nat, k2: nat, at: int, lands: bool)
    requires PI.ForceOK(s.d) && PI.TasksDistinct(s.d) && Ownership(s) && CanAgain(c, s, k, k2, at)
    ensures HolderWrite(s, k, EntryOf(s, k), DoAgain(c, s, k, k2, at, lands).rows[IdOf(s, k)])
  {
    if Holds(s.d.table, s.d.tasks[k].item) { HolderFacts(s, k); }
  }

  lemma PanicWrite(c: Config, s: Sys, k: nat, at: int, lands: bool)
    requires PI.ForceOK(s.d) && PI.TasksDistinct(s.d) && Ownership(s) && CanPanic(c, s, k, at)
    ensures HolderWrite(s, k, EntryOf(s, k), DoPanic(c, s, k, at, lands).rows[IdOf(s, k)])
  {
    HolderFacts(s, k);
  }

  lemma StatusWrite(c: Config, s: Sys, l: Label, id: string)
    requires PI.ForceOK(s.d) && PI.TasksDistinct(s.d) && PI.RunsOK(s.d) && Ownership(s) && Can(c, s, l) && id in s.rows && WritesStatus(s, l, id)
    ensures id in Do(c, s, l).rows && HolderWrite(s, l.k, s.rows[id], Do(c, s, l).rows[id])
  {
    if l.Start? { StartWrite(s, l.k, l.start); }
    else if l.Finish? { FinishWrite(c, s, l.k, l.at, l.message, l.lands); }
    else if l.Again? { AgainWrite(c, s, l.k, l.k2, l.at, l.lands); }
    else { PanicWrite(c, s, l.k, l.at, l.lands); }
  }

  lemma ContentWrite(c: Config, s: Sys, l: Label, id: string)
    requires Entries(s) && Handlers(s) && Procs(s) && Can(c, s, l) && id in s.rows && WritesContent(s, l, id)
    ensures Live(s, l.k) && Leased(s.rows[id], s.d.tasks[l.k].phase)
  {
    ContentFence(c, s, l, id);
    FenceMeansLive(s, l.k);
  }

  lemma ContentFence(c: Config, s: Sys, l: Label, id: string)
    requires Can(c, s, l) && WritesContent(s, l, id)
    ensures Fence(s, l.k)
  {
  }

  lemma ContentShape(c: Config, s: Sys, l: Label, id: string)
    requires Can(c, s, l) && id in s.rows && WritesContent(s, l, id)
    ensures id in Do(c, s, l).rows && SameShape(s.rows[id], Do(c, s, l).rows[id])
  {
  }
}
