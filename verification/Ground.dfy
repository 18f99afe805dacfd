/** The part of the joined invariant that stands on tokens alone. It holds in every
    run of every configuration, whatever the timers and the clock do: who owns a
    reading and at which attempt, where each command may be, and that the row of a
    holder carries its lease. */
module Ground {
  import opened Basics
  import opened Claims
  import opened Readings
  import opened System
  import opened SystemInvariant
  import opened QuietSteps
  import opened DispatchSteps
  import opened BootSteps
  import opened PipelineSteps
  import opened CommandSteps
  import opened RowSteps
  import opened ForceSteps
  import P = Protocol
  import PI = ProtocolInvariant
  import Retry

  /** A started run that holds its token finds its own lease on the row. */
  ghost predicate HeldOK(s: Sys, k: nat)
    requires k in s.d.tasks
  {
    var t := s.d.tasks[k];
    Started(t.phase) && Holds(s.d.table, t.item) ==>
      t.item.id in s.rows && s.rows[t.item.id].r.status.Running? && s.rows[t.item.id].r.startedAt == Some(t.phase.start)
  }

  ghost predicate Helds(s: Sys) { forall k :: k in s.d.tasks ==> HeldOK(s, k) }

  /** Every row snapshot a run works on has a lease. */
  ghost predicate Snapped(s: Sys) {
    forall r :: r in s.procs && s.procs[r].Proc? ==> s.procs[r].snap.startedAt.Some?
  }

  ghost predicate Grounded(s: Sys) {
    PI.Inv(s.d) && Ownership(s) && Places(s) && Booting(s) && Helds(s) && Snapped(s)
  }

  // ------------------------------------------------------------------
  // Dispatcher steps that touch no row

  lemma QuietPlaces(s: Sys, d': P.State)
    requires PI.ForceOK(s.d) && QuietRel(s.d, d') && Places(s)
    ensures Places(s.(d := d'))
  {
    var s' := s.(d := d');
    forall id | id in s'.cmds ensures PlaceOK(s', id) { assert PlaceOK(s, id); }
  }

  lemma QuietHelds(s: Sys, d': P.State)
    requires QuietRel(s.d, d') && Helds(s)
    ensures Helds(s.(d := d'))
  {
    var s' := s.(d := d');
    forall k | k in d'.tasks ensures HeldOK(s', k) {
      if Started(d'.tasks[k].phase) { assert RunKept(s.d, d', k) && HeldOK(s, k); }
    }
  }

  lemma QuietGround(s: Sys, d': P.State)
    requires Grounded(s) && PI.Inv(d') && QuietRel(s.d, d')
    ensures Grounded(s.(d := d'))
  {
    QuietOwnership(s, d');
    QuietPlaces(s, d');
    QuietBooting(s, d');
    QuietHelds(s, d');
  }

  lemma InternalGround(c: Config, s: Sys, l: P.Label)
    requires Grounded(s) && Quiet(l) && P.Can(c.d, s.d, l)
    ensures Grounded(DoInternal(c, s, l))
  {
    PI.StepKeeps(c.d, s.d, l);
    StepQuiet(c.d, s.d, l);
    QuietGround(s, P.Do(c.d, s.d, l));
  }

  // ------------------------------------------------------------------
  // Status writes

  /** No started run of the reading holds its token. */
  ghost predicate NotHeld(s: Sys, id: string) {
    forall k :: StartedTask(s, k) && s.d.tasks[k].item.id == id ==> !Holds(s.d.table, s.d.tasks[k].item)
  }

  lemma WritePlaces(s: Sys, id: string, e: Entry)
    requires Places(s) && Settable(s, id, e)
    ensures Places(SetRow(s, id, e))
  {
    var s' := SetRow(s, id, e);
    forall x | x in s'.cmds ensures PlaceOK(s', x) { assert PlaceOK(s, x); }
  }

  lemma WriteHelds(s: Sys, id: string, e: Entry)
    requires Helds(s) && NotHeld(s, id)
    ensures Helds(SetRow(s, id, e))
  {
    var s' := SetRow(s, id, e);
    forall k | k in s'.d.tasks ensures HeldOK(s', k) { assert HeldOK(s, k); }
  }

  lemma WriteGround(s: Sys, id: string, e: Entry)
    requires Grounded(s) && Settable(s, id, e) && NotHeld(s, id)
    ensures Grounded(SetRow(s, id, e))
  {
    WriteOwnership(s, id, e);
    WritePlaces(s, id, e);
    WriteBooting(s, id, e);
    WriteHelds(s, id, e);
  }

  /** What a holder in its handler knows of its reading: the one command there can be
      is about to force it, and the sweep's list does not name it. */
  lemma HolderKnows(s: Sys, k: nat)
    requires PI.ForceOK(s.d) && PI.TasksDistinct(s.d) && Ownership(s) && Places(s) && Booting(s)
    requires k in s.d.tasks && P.InHandler(s.d.tasks[k].phase) && Holds(s.d.table, s.d.tasks[k].item)
    ensures IdOf(s, k) in s.cmds ==> s.cmds[IdOf(s, k)] == Forcing(None)
    ensures Unlisted(s, IdOf(s, k))
  {
    HolderOwns(s, k);
    OwnedCmd(s, IdOf(s, k));
    OwnedUnlisted(s, IdOf(s, k));
  }

  lemma EnterPlaces(s: Sys, k: nat, start: int)
    requires PI.ForceOK(s.d) && Places(s) && CanStart(s, k, start)
    ensures Places(Enter(s, k, start))
  {
    var s' := Enter(s, k, start);
    forall x | x in s'.cmds ensures PlaceOK(s', x) { assert PlaceOK(s, x); }
  }

  lemma EnterHelds(s: Sys, k: nat, start: int)
    requires Helds(s) && Snapped(s) && CanStart(s, k, start)
    requires EntryOf(s, k).r.status.Running? && EntryOf(s, k).r.startedAt == Some(start)
    ensures Helds(Enter(s, k, start)) && Snapped(Enter(s, k, start))
  {
    var s' := Enter(s, k, start);
    forall j | j in s'.d.tasks ensures HeldOK(s', j) { if j != k { assert HeldOK(s, j); } }
  }

  lemma EnterGround(s: Sys, k: nat, start: int)
    requires Grounded(s) && CanStart(s, k, start)
    requires EntryOf(s, k).r.status.Running? && EntryOf(s, k).r.startedAt == Some(start)
    ensures Grounded(Enter(s, k, start))
  {
    PI.StartOkKeeps(s.d, k, start);
    EnterOwnership(s, k, start);
    EnterPlaces(s, k, start);
    EnterBooting(s, k, start);
    EnterHelds(s, k, start);
  }

  lemma StartSettable(s: Sys, k: nat, start: int)
    requires PI.ForceOK(s.d) && PI.Distinct(s.d) && PI.RunsOK(s.d) && Ownership(s) && Places(s) && Booting(s)
    requires CanStart(s, k, start)
    ensures Settable(s, IdOf(s, k), StartEntry(s, k, start)) && NotHeld(s, IdOf(s, k))
  {
    StartHolds(s, k, start);
    HolderKnows(s, k);
    HolderAlone(s, k, s.d.tasks[k].item.attempt);
  }

  lemma StartGround(s: Sys, k: nat, start: int)
    requires Grounded(s) && CanStart(s, k, start)
    ensures Grounded(DoStart(s, k, start))
  {
    StartSettable(s, k, start);
    WriteGround(s, IdOf(s, k), StartEntry(s, k, start));
    EnterGround(SetRow(s, IdOf(s, k), StartEntry(s, k, start)), k, start);
  }

  lemma SettleGround(s: Sys, k: nat)
    requires Grounded(s) && k in s.d.tasks && s.d.tasks[k].phase.Deciding?
    ensures Grounded(s.(d := P.DoSettle(s.d, k)))
  {
    PI.RetireKeeps(s.d, k);
    RetireQuiet(s.d, k);
    QuietGround(s, P.DoSettle(s.d, k));
  }

  lemma FinishSettable(c: Config, s: Sys, k: nat, at: int, message: string)
    requires PI.ForceOK(s.d) && PI.Distinct(s.d) && Ownership(s) && Places(s) && Booting(s)
    requires CanFinish(c, s, k, at) && Holds(s.d.table, s.d.tasks[k].item)
    ensures var s1 := s.(d := P.DoSettle(s.d, k));
            var e := FinishEntry(c, EntryOf(s, k), s.d.tasks[k], at, message);
            Settable(s1, IdOf(s, k), e) && NotHeld(s1, IdOf(s, k))
  {
    HolderKnows(s, k);
    SettledFree(s, k);
  }

  lemma FinishGround(c: Config, s: Sys, k: nat, at: int, message: string, lands: bool)
    requires Grounded(s) && CanFinish(c, s, k, at)
    ensures Grounded(DoFinish(c, s, k, at, message, lands))
  {
    SettleGround(s, k);
    if Holds(s.d.table, s.d.tasks[k].item) && lands { FinishGrounds(c, s, k, at, message); }
  }

  lemma FinishGrounds(c: Config, s: Sys, k: nat, at: int, message: string)
    requires Grounded(s) && CanFinish(c, s, k, at) && Holds(s.d.table, s.d.tasks[k].item)
    requires Grounded(s.(d := P.DoSettle(s.d, k)))
    ensures Grounded(DoFinish(c, s, k, at, message, true))
  {
    FinishSettable(c, s, k, at, message);
    var s1 := s.(d := P.DoSettle(s.d, k));
    var e := FinishEntry(c, EntryOf(s, k), s.d.tasks[k], at, message);
    WriteGround(s1, IdOf(s, k), e);
    assert SetRow(s1, IdOf(s, k), e) == DoFinish(c, s, k, at, message, true);
  }

  lemma HandOnGround(c: Config, s: Sys, k: nat, k2: nat)
    requires Grounded(s) && P.CanRedispatch(c.d, s.d, k, k2)
    ensures Grounded(s.(d := P.DoRedispatch(c.d, s.d, k, k2)))
  {
    PI.RedispatchKeeps(c.d, s.d, k, k2);
    RedispatchQuiet(c.d, s.d, k, k2);
    QuietGround(s, P.DoRedispatch(c.d, s.d, k, k2));
  }

  lemma AgainSettable(c: Config, s: Sys, k: nat, k2: nat, at: int)
    requires PI.ForceOK(s.d) && PI.ItemsOK(s.d) && PI.Distinct(s.d) && Ownership(s) && Places(s) && Booting(s)
    requires CanAgain(c, s, k, k2, at) && Holds(s.d.table, s.d.tasks[k].item)
    ensures var s1 := s.(d := P.DoRedispatch(c.d, s.d, k, k2));
            Settable(s1, IdOf(s, k), AgainRow(c, s, k, k2, at)) && NotHeld(s1, IdOf(s, k))
  {
    HolderKnows(s, k);
    AgainAlone(c, s, k, k2);
  }

  lemma AgainGround(c: Config, s: Sys, k: nat, k2: nat, at: int, lands: bool)
    requires Grounded(s) && CanAgain(c, s, k, k2, at)
    ensures Grounded(DoAgain(c, s, k, k2, at, lands))
  {
    HandOnGround(c, s, k, k2);
    if Holds(s.d.table, s.d.tasks[k].item) && lands { AgainGrounds(c, s, k, k2, at); }
  }

  lemma AgainGrounds(c: Config, s: Sys, k: nat, k2: nat, at: int)
    requires Grounded(s) && CanAgain(c, s, k, k2, at) && Holds(s.d.table, s.d.tasks[k].item)
    requires Grounded(s.(d := P.DoRedispatch(c.d, s.d, k, k2)))
    ensures Grounded(DoAgain(c, s, k, k2, at, true))
  {
    AgainSettable(c, s, k, k2, at);
    var s1 := s.(d := P.DoRedispatch(c.d, s.d, k, k2));
    var e := AgainRow(c, s, k, k2, at);
    WriteGround(s1, IdOf(s, k), e);
    assert SetRow(s1, IdOf(s, k), e) == DoAgain(c, s, k, k2, at, true);
  }

  // ------------------------------------------------------------------
  // Claims, the sweep and the crash

  lemma ClaimPlaces(s: Sys, k: nat, id: string, attempt: int, sweep: bool)
    requires Places(s) && Claimable(s, k, id, attempt)
    ensures Places(Claimed(s, k, id, attempt, sweep))
  {
    var s' := Claimed(s, k, id, attempt, sweep);
    forall x | x in s'.cmds ensures PlaceOK(s', x) { assert PlaceOK(s, x); }
  }

  lemma ClaimHelds(s: Sys, k: nat, id: string, attempt: int, sweep: bool)
    requires PI.ItemsOK(s.d) && Helds(s) && P.CanClaim(s.d, k, id)
    ensures Helds(Claimed(s, k, id, attempt, sweep))
  {
    var s' := Claimed(s, k, id, attempt, sweep);
    forall j | j in s'.d.tasks ensures HeldOK(s', j) { if j != k { assert HeldOK(s, j); } }
  }

  lemma ClaimGround(s: Sys, k: nat, id: string, attempt: int, sweep: bool)
    requires Grounded(s) && Claimable(s, k, id, attempt)
    ensures Grounded(Claimed(s, k, id, attempt, sweep))
  {
    PI.ClaimKeeps(s.d, k, id, attempt, sweep);
    ClaimOwnership(s, k, id, attempt, sweep);
    ClaimPlaces(s, k, id, attempt, sweep);
    ClaimBooting(s, k, id, attempt, sweep);
    ClaimHelds(s, k, id, attempt, sweep);
  }

  lemma StageGround(s: Sys, boot: Boot)
    requires Grounded(s) && !s.boot.Serving? && Booting(SetStage(s, boot))
    ensures Grounded(SetStage(s, boot))
  {
    var s' := SetStage(s, boot);
    StageOwnership(s, boot);
    forall k | k in s'.d.tasks ensures HeldOK(s', k) { assert HeldOK(s, k); }
  }

  lemma ListGround(c: Config, s: Sys, list: seq<Recovered>)
    requires Grounded(s) && CanList(c, s, list)
    ensures Grounded(SetStage(s, Sweeping(list)))
  {
    var s' := SetStage(s, Sweeping(list));
    forall i | 0 <= i < |list| ensures ToSweep(s', list[i]) { assert list[i].id in s.rows; }
    StageGround(s, Sweeping(list));
  }

  lemma SweepGround(s: Sys, k: nat)
    requires Grounded(s) && CanSweep(s, k)
    ensures Grounded(DoSweep(s, k))
  {
    var p, rest := s.boot.list[0], s.boot.list[1..];
    RestListed(s);
    StageGround(s, Sweeping(rest));
    assert ToSweep(s, p);
    ClaimGround(SetStage(s, Sweeping(rest)), k, p.id, p.attempts, true);
  }

  lemma CrashGround(s: Sys)
    requires PI.Inv(s.d)
    ensures Grounded(DoCrash(s))
  {
    PI.CrashKeeps(s.d);
  }

  lemma CoreGround(c: Config, s: Sys, l: Label)
    requires Grounded(s) && IsCore(l) && CanCore(c, s, l)
    ensures Grounded(DoCore(c, s, l))
  {
    if l.Internal? { InternalGround(c, s, l.l); }
    else if l.Start? { StartGround(s, l.k, l.start); }
    else if l.Finish? { FinishGround(c, s, l.k, l.at, l.message, l.lands); }
    else if l.Again? { AgainGround(c, s, l.k, l.k2, l.at, l.lands); }
    else if l.Panic? { CrashGround(if l.lands then SetRow(s, IdOf(s, l.k), PanicEntry(c, s, l.k, l.at)) else s); }
    else if l.List? { ListGround(c, s, l.list); }
    else if l.Sweep? { SweepGround(s, l.k); }
    else if l.Serve? { StageGround(s, Serving); }
    else { CrashGround(s); }
  }

  // ------------------------------------------------------------------
  // The pipeline

  lemma ReshapedGround(s: Sys, s': Sys)
    requires Grounded(s) && Reshaped(s, s') && Snapped(s')
    ensures Grounded(s')
  {
    PipeOwnership(s, s');
    PipeBooting(s, s');
    forall x | x in s'.cmds ensures PlaceOK(s', x) { assert PlaceOK(s, x); }
    forall k | k in s'.d.tasks ensures HeldOK(s', k) { assert HeldOK(s, k); }
  }

  lemma CompleteGround(s: Sys, k: nat, res: Retry.Result)
    requires Grounded(s) && Handling(s, k)
    ensures Grounded(DoComplete(s, k, res))
  {
    PI.ReturnKeeps(s.d, k, res);
    CompleteOwnership(s, k, res);
    CompleteBooting(s, k, res);
    CompletePlaces(s, k, res);
    CompleteHelds(s, k, res);
  }

  lemma CompletePlaces(s: Sys, k: nat, res: Retry.Result)
    requires PI.ForceOK(s.d) && Places(s) && Handling(s, k)
    ensures Places(DoComplete(s, k, res))
  {
    var s' := DoComplete(s, k, res);
    forall x | x in s'.cmds ensures PlaceOK(s', x) { assert PlaceOK(s, x); }
  }

  lemma CompleteHelds(s: Sys, k: nat, res: Retry.Result)
    requires Helds(s) && Handling(s, k)
    ensures Helds(DoComplete(s, k, res))
  {
    var s' := DoComplete(s, k, res);
    forall j | j in s'.d.tasks ensures HeldOK(s', j) { assert HeldOK(s, j); }
  }

  /** The first read of the row sees the lease of the run that makes it: its context is
      not cancelled, so it still holds its token. */
  lemma LoadSnaps(s: Sys, k: nat)
    requires PI.RunsOK(s.d) && Helds(s) && Snapped(s) && CanLoad(s, k)
    ensures Reshaped(s, DoLoad(s, k)) && Snapped(DoLoad(s, k))
  {
    assert PI.GoodRun(s.d, s.d.tasks[k]) && HeldOK(s, k);
  }

  lemma PipelineReshapes(s: Sys, l: Label)
    requires IsPipeline(l) && CanPipeline(s, l) && !l.Load? && !l.Complete? && !l.Fail? && Snapped(s)
    ensures Reshaped(s, DoPipeline(s, l)) && Snapped(DoPipeline(s, l))
  {
    if l.Checkpoint? || l.WriteContent? || l.WriteDiagnostics? { ContentReshapes(s, l); }
    else if l.WriteTags? { TagsReshape(s, l.k, l.tags); }
    else { RecordReshapes(s, l); }
  }

  lemma ContentReshapes(s: Sys, l: Label)
    requires (l.Checkpoint? || l.WriteContent? || l.WriteDiagnostics?) && CanPipeline(s, l) && Snapped(s)
    ensures Reshaped(s, DoPipeline(s, l)) && Snapped(DoPipeline(s, l))
  {
    match l
    case Checkpoint(k, title, derived) => ColumnsReshape(s, k, Checkpointed, title, derived);
    case WriteContent(k, title, derived) => ColumnsReshape(s, k, ContentWritten, title, derived);
    case WriteDiagnostics(k, title, derived) => ColumnsReshape(s, k, TagsWritten, title, derived);
  }

  lemma ColumnsReshape(s: Sys, k: nat, stage: Stage, title: string, derived: Derived)
    requires Fence(s, k) && Snapped(s)
    ensures Reshaped(s, DoContent(s, k, stage, title, derived)) && Snapped(DoContent(s, k, stage, title, derived))
  {
  }

  lemma TagsReshape(s: Sys, k: nat, tags: seq<string>)
    requires Fence(s, k) && Snapped(s)
    ensures Reshaped(s, DoTags(s, k, tags)) && Snapped(DoTags(s, k, tags))
  {
  }

  lemma RecordReshapes(s: Sys, l: Label)
    requires (l.Reuse? || l.Acquire? || l.Index? || l.Upsert? || l.Summarize?) && CanPipeline(s, l) && Snapped(s)
    ensures Reshaped(s, DoPipeline(s, l)) && Snapped(DoPipeline(s, l))
  {
  }

  lemma PipelineGround(s: Sys, l: Label)
    requires Grounded(s) && IsPipeline(l) && CanPipeline(s, l)
    ensures Grounded(DoPipeline(s, l))
  {
    if l.Load? { LoadSnaps(s, l.k); ReshapedGround(s, DoLoad(s, l.k)); }
    else if l.Complete? { CompleteGround(s, l.k, Retry.Result(Retry.Done, 0)); }
    else if l.Fail? { CompleteGround(s, l.k, l.res); }
    else { PipelineReshapes(s, l); ReshapedGround(s, DoPipeline(s, l)); }
  }

  // ------------------------------------------------------------------
  // Commands

  lemma CmdGround(s: Sys, s': Sys, id: string)
    requires Grounded(s) && CmdMoves(s, s', id) && Linked(s')
    requires id in s'.cmds ==> PlaceOK(s', id)
    ensures Grounded(s')
  {
    CmdOwnership(s, s', id);
    forall x | x in s'.cmds ensures PlaceOK(s', x) { if x != id { assert PlaceOK(s, x); } }
    forall k | k in s'.d.tasks ensures HeldOK(s', k) { assert HeldOK(s, k); }
  }

  lemma RemakeGround(s: Sys, s': Sys, id: string, e: Entry)
    requires Grounded(s) && Remade(s, s', id, e) && Linked(s')
    ensures Grounded(s')
  {
    RenewOwnership(s, s', id, e);
    forall x | x in s'.cmds ensures PlaceOK(s', x) { if x != id { assert PlaceOK(s, x); } }
    forall k | k in s'.d.tasks ensures HeldOK(s', k) { assert HeldOK(s, k); }
  }

  /** Commands that move without making a row. */
  predicate Moves(l: Label) {
    l.Mark? || l.MarkRead? || l.GiveUp? || l.DecideForce? || l.ForceRead? || l.Import? || l.CreateFails? || l.Uncreate?
    || l.Replace? || l.ImportFails? || l.DropRaw? || l.DropContent?
  }

  function Target(l: Label): string
    requires !IsCore(l) && !IsPipeline(l)
  {
    if l.Ingest? || l.Import? then l.rec.id else l.id
  }

  ghost predicate Placed(s: Sys, s': Sys, id: string) {
    CmdMoves(s, s', id) && Linked(s') && (id in s'.cmds ==> PlaceOK(s', id))
  }

  lemma MovePlaced(c: Config, s: Sys, l: Label)
    requires Ownership(s) && Places(s) && Moves(l) && CanCommand(c, s, l)
    ensures Placed(s, DoCommand(c, s, l), Target(l))
  {
    if l.Mark? { MarkPlaced(s, l.id); }
    else if l.Import? { ImportPlaced(s, l.rec); }
    else if l.Replace? { ReplacePlaced(s, l.id, l.base, l.title, l.tags); }
    else if l.DecideForce? { DecidePlaced(c, s, l.id); }
    else if l.CreateFails? { CreateFailsPlaced(s, l.id); }
    else if l.Uncreate? { UncreatePlaced(s, l.id, l.lands); }
    else if l.ImportFails? { ImportFailsPlaced(s, l.id); }
    else if l.DropRaw? { DropRawPlaced(s, l.id, l.lands); }
    else if l.DropContent? { DropContentPlaced(s, l.id, l.lands); }
    else { ReadPlaced(c, s, l); }
  }

  lemma MarkPlaced(s: Sys, id: string)
    requires Ownership(s) && Places(s) && CanMark(s, id)
    ensures Placed(s, SetCmd(s, id, Marking), id)
  {
    TerminalFree(s, id);
  }

  lemma ImportPlaced(s: Sys, rec: Reading)
    requires Ownership(s) && Places(s) && CanImport(s, rec)
    ensures Placed(s, DoImport(s, rec), rec.id)
  {
    NewcomerFree(s, rec);
  }

  lemma ReplacePlaced(s: Sys, id: string, base: string, title: string, tags: seq<string>)
    requires Ownership(s) && Places(s) && CanReplace(s, id)
    ensures Placed(s, DoReplace(s, id, base, title, tags), id)
  {
    TerminalFree(s, id);
  }

  lemma DecidePlaced(c: Config, s: Sys, id: string)
    requires Places(s) && CanDecideForce(c, s, id)
    ensures Placed(s, SetCmd(s, id, Forcing(None)), id)
  {
  }

  lemma ReadPlaced(c: Config, s: Sys, l: Label)
    requires Places(s) && (l.MarkRead? || l.ForceRead? || l.GiveUp?) && CanCommand(c, s, l)
    ensures Placed(s, DoCommand(c, s, l), l.id)
  {
    assert PlaceOK(s, l.id);
  }

  lemma CreateFailsPlaced(s: Sys, id: string)
    requires Places(s) && CanCreate(s, id)
    ensures Placed(s, DoCreateFails(s, id), id)
  {
    assert PlaceOK(s, id);
  }

  lemma UncreatePlaced(s: Sys, id: string, lands: bool)
    requires Places(s) && CanUncreate(s, id)
    ensures Placed(s, DoUncreate(s, id, lands), id)
  {
    assert PlaceOK(s, id);
  }

  lemma ImportFailsPlaced(s: Sys, id: string)
    requires Places(s) && CanImportWrite(s, id)
    ensures Placed(s, DoImportFails(s, id), id)
  {
    assert PlaceOK(s, id);
  }

  lemma DropRawPlaced(s: Sys, id: string, lands: bool)
    requires Places(s) && CanDropRaw(s, id)
    ensures Placed(s, DoDropRaw(s, id, lands), id)
  {
    assert PlaceOK(s, id);
  }

  lemma DropContentPlaced(s: Sys, id: string, lands: bool)
    requires Places(s) && CanDropContent(s, id)
    ensures Placed(s, DoDropContent(s, id, lands), id)
  {
    assert PlaceOK(s, id);
  }

  ghost predicate Made(s: Sys, s': Sys, id: string) {
    id in s'.rows && Remade(s, s', id, s'.rows[id]) && Linked(s')
  }

  predicate Makes(l: Label) { l.Ingest? || l.Create? || l.Reset? || l.ImportWrite? }

  lemma MakePlaced(c: Config, s: Sys, l: Label)
    requires Ownership(s) && Places(s) && Makes(l) && CanCommand(c, s, l)
    ensures Made(s, DoCommand(c, s, l), Target(l))
  {
    match l
    case Ingest(rec) => IngestMade(s, rec);
    case Create(id) => CreateMade(s, id);
    case Reset(id) => ResetMade(s, id);
    case ImportWrite(id) => ImportMade(s, id);
  }

  lemma IngestMade(s: Sys, rec: Reading)
    requires Ownership(s) && Places(s) && CanIngest(s, rec)
    ensures Made(s, DoIngest(s, rec), rec.id)
  {
    NewcomerFree(s, rec);
  }

  lemma CreateMade(s: Sys, id: string)
    requires Places(s) && CanCreate(s, id)
    ensures Made(s, DoCreate(s, id), id)
  {
    assert PlaceOK(s, id);
  }

  lemma ResetMade(s: Sys, id: string)
    requires Places(s) && CanReset(s, id)
    ensures Made(s, DoReset(s, id), id)
  {
    assert PlaceOK(s, id);
  }

  lemma ImportMade(s: Sys, id: string)
    requires Places(s) && CanImportWrite(s, id)
    ensures Made(s, DoImportWrite(s, id), id)
  {
    assert PlaceOK(s, id);
    ImportFresh(s, id);
    ImportLinked(s, id);
  }

  lemma ImportFresh(s: Sys, id: string)
    requires CanImportWrite(s, id) && PlaceOK(s, id)
    ensures PlaceOK(DoImportWrite(s, id), id)
  {
  }

  lemma ImportLinked(s: Sys, id: string)
    requires Linked(s) && CanImportWrite(s, id)
    ensures Linked(DoImportWrite(s, id))
  {
  }

  lemma SubmitGround(s: Sys, id: string, k: nat)
    requires Grounded(s) && CanSubmit(s, id, k)
    ensures Grounded(DoSubmit(s, id, k))
  {
    assert PlaceOK(s, id);
    CmdGround(s, EndCmd(s, id), id);
    ClaimGround(EndCmd(s, id), k, id, 0, false);
  }

  lemma ForceGround(c: Config, s: Sys, id: string, k: nat)
    requires Grounded(s) && CanForce(s, id, k)
    ensures Grounded(DoForce(c, s, id, k))
  {
    PI.ForceClaimKeeps(c.d, s.d, k, id);
    ForceOwnership(c, s, id, k);
    ForcePlaces(c, s, id, k);
    ForceHelds(c, s, id, k);
  }

  lemma ForcePlaces(c: Config, s: Sys, id: string, k: nat)
    requires Places(s) && CanForce(s, id, k)
    ensures Places(DoForce(c, s, id, k)) && Booting(DoForce(c, s, id, k))
  {
    var s' := DoForce(c, s, id, k);
    assert PlaceOK(s, id);
    forall x | x in s'.cmds ensures PlaceOK(s', x) { if x != id { assert PlaceOK(s, x); } }
  }

  lemma ForceHelds(c: Config, s: Sys, id: string, k: nat)
    requires PI.ItemsOK(s.d) && Helds(s) && CanForce(s, id, k)
    ensures Helds(DoForce(c, s, id, k))
  {
    var s' := DoForce(c, s, id, k);
    forall j | j in s'.d.tasks ensures HeldOK(s', j) { if j != k { assert HeldOK(s, j); } }
  }

  lemma ForceEndGround(s: Sys, id: string, k: nat)
    requires Grounded(s) && ForcedBy(s, id, k) && k in s.d.tasks && P.InForce(s.d.tasks[k].phase)
    ensures Grounded(DoForceEnd(s, id, k))
  {
    assert PlaceOK(s, id);
    PI.ForceQuitKeeps(s.d, k);
    EndOwnership(s, id, k);
    EndPlaces(s, id, k);
    EndHelds(s, id, k);
  }

  lemma EndPlaces(s: Sys, id: string, k: nat)
    requires Places(s) && Ending(s, id, k)
    ensures Places(DoForceEnd(s, id, k)) && Booting(DoForceEnd(s, id, k))
  {
    var s' := DoForceEnd(s, id, k);
    assert PlaceOK(s, id);
    forall x | x in s'.cmds ensures PlaceOK(s', x) { assert PlaceOK(s, x); }
  }

  lemma EndHelds(s: Sys, id: string, k: nat)
    requires Helds(s) && Ending(s, id, k)
    ensures Helds(DoForceEnd(s, id, k))
  {
    var s' := DoForceEnd(s, id, k);
    forall j | j in s'.d.tasks ensures HeldOK(s', j) { assert HeldOK(s, j); }
  }

  /** The forced submit faces no holder in a handler: the token is its own. */
  lemma ForceResetGround(s: Sys, id: string, k: nat)
    requires Grounded(s) && CanForceReset(s, id, k)
    ensures Grounded(DoForceReset(s, id, k))
  {
    var s1 := ForcedRow(s, id, k);
    ForcedPlaced(s, id, k);
    RemakeGround(s, s1, id, s1.rows[id]);
    HandOverGround(s1, id, k);
  }

  lemma ForcedPlaced(s: Sys, id: string, k: nat)
    requires PI.ForceOK(s.d) && PI.TasksDistinct(s.d) && Places(s) && CanForceReset(s, id, k)
    ensures Remade(s, ForcedRow(s, id, k), id, ForcedRow(s, id, k).rows[id]) && Linked(ForcedRow(s, id, k))
  {
    assert PlaceOK(s, id);
  }

  lemma HandOverGround(s: Sys, id: string, k: nat)
    requires Grounded(s) && CanForceReset(s, id, k) && s.rows[id].r.status.Pending? && s.rows[id].r.attempts == 0
    ensures Grounded(HandOver(s, id, k))
  {
    assert PlaceOK(s, id);
    PI.UnlockKeeps(s.d, k);
    HandOverOwnership(s, id, k);
    HandOverPlaces(s, id, k);
    HandOverHelds(s, id, k);
  }

  lemma HandOverPlaces(s: Sys, id: string, k: nat)
    requires Places(s) && HandingOver(s, id, k)
    ensures Places(HandOver(s, id, k)) && Booting(HandOver(s, id, k))
  {
    var s' := HandOver(s, id, k);
    assert PlaceOK(s, id);
    forall x | x in s'.cmds ensures PlaceOK(s', x) { assert PlaceOK(s, x); }
  }

  lemma HandOverHelds(s: Sys, id: string, k: nat)
    requires Helds(s) && HandingOver(s, id, k)
    ensures Helds(HandOver(s, id, k))
  {
    var s' := HandOver(s, id, k);
    forall j | j in s'.d.tasks ensures HeldOK(s', j) { assert HeldOK(s, j); }
  }

  lemma CommandGround(c: Config, s: Sys, l: Label)
    requires Grounded(s) && !IsCore(l) && !IsPipeline(l) && CanCommand(c, s, l)
    ensures Grounded(DoCommand(c, s, l))
  {
    if Moves(l) { MovePlaced(c, s, l); CmdGround(s, DoCommand(c, s, l), Target(l)); }
    else if Makes(l) { MakePlaced(c, s, l); MadeGround(s, DoCommand(c, s, l), Target(l)); }
    else { ForcedGround(c, s, l); }
  }

  lemma MadeGround(s: Sys, s': Sys, id: string)
    requires Grounded(s) && Made(s, s', id)
    ensures Grounded(s')
  {
    RemakeGround(s, s', id, s'.rows[id]);
  }

  lemma ForcedGround(c: Config, s: Sys, l: Label)
    requires Grounded(s) && (l.Submit? || l.Force? || l.ForceAbort? || l.ForceReset? || l.ForceFail?) && CanCommand(c, s, l)
    ensures Grounded(DoCommand(c, s, l))
  {
    if l.Submit? { SubmitGround(s, l.id, l.k); }
    else if l.Force? { ForceGround(c, s, l.id, l.k); }
    else if l.ForceReset? { ForceResetGround(s, l.id, l.k); }
    else { ForceEndGround(s, l.id, l.k); }
  }

  // ------------------------------------------------------------------
  // Every step and every run, in every configuration

  lemma GroundKeeps(c: Config, s: Sys, l: Label)
    requires Grounded(s) && Can(c, s, l)
    ensures Grounded(Do(c, s, l))
  {
    if IsCore(l) { CoreGround(c, s, l); }
    else if IsPipeline(l) { PipelineGround(s, l); }
    else { CommandGround(c, s, l); }
  }

  lemma {:induction false} ExecGround(c: Config, s: Sys, run: seq<Label>)
    requires Grounded(s) && Exec(c, s, run).Some?
    ensures Grounded(Exec(c, s, run).value)
    decreases |run|
  {
    if run != [] {
      GroundKeeps(c, s, run[0]);
      ExecGround(c, Do(c, s, run[0]), run[1..]);
    }
  }
}
