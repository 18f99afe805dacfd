/** The steps of Process keep the joined invariant. */
module PipelineSteps {
  import opened Basics
  import opened Claims
  import opened Readings
  import opened BlobKeys
  import opened System
  import opened SystemInvariant
  import PI = ProtocolInvariant
  import Retry

  // ------------------------------------------------------------------
  // What a pipeline step may do

  /** The columns the rest of the system decides by. */
  ghost predicate SameShape(e: Entry, e': Entry) {
    && e'.r.id == e.r.id && e'.r.status == e.r.status && e'.r.startedAt == e.r.startedAt
    && e'.r.attempts == e.r.attempts && e'.resetAt == e.resetAt && e'.resetRun == e.resetRun
  }

  ghost predicate SameRow(e: Entry, e': Entry) {
    e'.r == e.r && e'.contentBy == e.contentBy && e'.tagsBy == e.tagsBy
  }

  /** Rows keep those columns, and nothing else moves but records and blobs. */
  ghost predicate Reshaped(s: Sys, s': Sys) {
    && s'.d == s.d && s'.cmds == s.cmds && s'.boot == s.boot && s'.rows.Keys == s.rows.Keys
    && forall x :: x in s.rows ==> SameShape(s.rows[x], s'.rows[x])
  }

  /** Only this run's own record and its own row change, the row only if the run is
      live, and blobs are only added. */
  ghost predicate PipeRel(s: Sys, s': Sys, k: nat)
    requires Handling(s, k)
  {
    && s'.d == s.d && s'.cmds == s.cmds && s'.boot == s.boot && s.blobs <= s'.blobs
    && (forall r :: r in s.procs && r != RunOf(s, k) ==> r in s'.procs && s'.procs[r] == s.procs[r])
    && s'.rows.Keys == s.rows.Keys
    && (forall x :: x in s.rows && x != IdOf(s, k) ==> s'.rows[x] == s.rows[x])
    && SameShape(s.rows[IdOf(s, k)], s'.rows[IdOf(s, k)])
    && (SameRow(s.rows[IdOf(s, k)], s'.rows[IdOf(s, k)])
        || (Live(s, k) && s.rows[IdOf(s, k)].r.status.Running?))
    && VectorMoves(s, s.rows[IdOf(s, k)], s'.rows[IdOf(s, k)], k)
  }

  /** A live run may put in its own vector; a run that is not can only replace an older
      one, and only by a vector from before the reset. */
  ghost predicate VectorMoves(s: Sys, e: Entry, e': Entry, k: nat)
    requires Handling(s, k)
  {
    e'.vec == e.vec
    || (VectorUpTo(e', s.d.tasks[k].phase.start)
        && (!Live(s, k) ==> VectorUpTo(e', e.resetAt - 1) && e'.vec.Some? && VectorUpTo(e, e'.vec.value.gen.value)))
  }

  lemma PipeEntries(s: Sys, s': Sys, k: nat)
    requires Entries(s) && Handling(s, k) && PipeRel(s, s', k)
    requires IdOf(s, k) in s'.rows && EntryOK(s', IdOf(s, k))
    ensures Entries(s')
  {
    forall x | x in s'.rows ensures EntryOK(s', x) { if x != IdOf(s, k) { assert EntryOK(s, x); } }
  }

  lemma PipeOwnership(s: Sys, s': Sys)
    requires Ownership(s) && Reshaped(s, s')
    ensures Ownership(s')
  {
    forall x | x in s'.d.table.inflight ensures OwnOK(s', x) { assert OwnOK(s, x); }
    forall j | Queued(s'.d, j) ensures AttemptOK(s', s'.d.tasks[j].item) { assert AttemptOK(s, s.d.tasks[j].item); }
    forall i | 0 <= i < |s'.d.ch| ensures AttemptOK(s', s'.d.ch[i]) { assert AttemptOK(s, s.d.ch[i]); }
  }

  lemma PipeHandlers(s: Sys, s': Sys, k: nat)
    requires PI.ForceOK(s.d) && PI.TasksDistinct(s.d) && Handlers(s) && OneLive(s) && Handling(s, k) && PipeRel(s, s', k)
    ensures Handlers(s')
  {
    forall j | j in s'.d.tasks ensures HandlerOK(s', j) { PipeHandler(s, s', k, j); }
  }

  lemma PipeHandler(s: Sys, s': Sys, k: nat, j: nat)
    requires PI.ForceOK(s.d) && PI.TasksDistinct(s.d) && OneLive(s) && Handling(s, k) && PipeRel(s, s', k)
    requires j in s.d.tasks && HandlerOK(s, j) && HandlerOK(s, k)
    ensures HandlerOK(s', j)
  {
    if s.d.tasks[j].item.id != IdOf(s, k) { PipeElsewhere(s, s', k, j); }
    else if j == k { PipeSelf(s, s', k); }
    else { PipeSibling(s, s', k, j); }
  }

  lemma PipeElsewhere(s: Sys, s': Sys, k: nat, j: nat)
    requires Handling(s, k) && PipeRel(s, s', k) && j in s.d.tasks && HandlerOK(s, j) && s.d.tasks[j].item.id != IdOf(s, k)
    ensures HandlerOK(s', j)
  {
  }

  lemma PipeSelf(s: Sys, s': Sys, k: nat)
    requires Handling(s, k) && PipeRel(s, s', k) && HandlerOK(s, k)
    ensures HandlerOK(s', k)
  {
  }

  lemma PipeSibling(s: Sys, s': Sys, k: nat, j: nat)
    requires PI.ForceOK(s.d) && PI.TasksDistinct(s.d) && OneLive(s) && Handling(s, k) && PipeRel(s, s', k)
    requires j in s.d.tasks && j != k && s.d.tasks[j].item.id == IdOf(s, k) && HandlerOK(s, j) && HandlerOK(s, k)
    ensures HandlerOK(s', j)
  {
    if Live(s, k) { PipeBeside(s, k, j); }
  }

  /** Beside a live run no other handler of its reading is live, nor about to start. */
  lemma PipeBeside(s: Sys, k: nat, j: nat)
    requires PI.ForceOK(s.d) && PI.TasksDistinct(s.d) && OneLive(s) && Handling(s, k) && Live(s, k)
    requires j in s.d.tasks && j != k && s.d.tasks[j].item.id == IdOf(s, k) && HandlerOK(s, k)
    ensures !Live(s, j) && !(s.d.tasks[j].phase.Begun? && Holds(s.d.table, s.d.tasks[j].item))
  {
  }

  lemma PipeLive(s: Sys, s': Sys, k: nat, j: nat)
    requires Handling(s, k) && PipeRel(s, s', k)
    ensures Live(s', j) == Live(s, j)
  {
  }

  lemma PipeProcs(s: Sys, s': Sys, k: nat)
    requires PI.RunsOK(s.d) && Entries(s) && Handlers(s) && OneLive(s) && Procs(s) && Handling(s, k) && PipeRel(s, s', k) && ProcOK(s', k)
    ensures Procs(s') && OneLive(s')
  {
    forall j | j in s'.d.tasks ensures ProcOK(s', j) && Live(s', j) == Live(s, j) {
      PipeLive(s, s', k, j);
      if j != k { PipeOther(s, s', k, j); }
    }
  }

  lemma PipeOther(s: Sys, s': Sys, k: nat, j: nat)
    requires PI.RunsOK(s.d) && Entries(s) && Handlers(s) && OneLive(s) && Handling(s, k) && PipeRel(s, s', k)
    requires j in s.d.tasks && j != k && ProcOK(s, j)
    ensures ProcOK(s', j)
  {
    PipeLive(s, s', k, j);
    if Live(s, j) { assert EntryOK(s, IdOf(s, j)) && HandlerOK(s, j); }
  }

  lemma PipeCmds(s: Sys, s': Sys, k: nat)
    requires Cmds(s) && Handling(s, k) && PipeRel(s, s', k)
    ensures Cmds(s')
  {
    forall x | x in s'.cmds ensures CmdOK(s', x) { assert CmdOK(s, x); }
  }

  lemma PipeBooting(s: Sys, s': Sys)
    requires Booting(s) && Reshaped(s, s')
    ensures Booting(s')
  {
    if s.boot.Sweeping? {
      forall i | 0 <= i < |s.boot.list| ensures ToSweep(s', s.boot.list[i]) { assert ToSweep(s, s.boot.list[i]); }
    }
  }

  lemma PipeKeeps(s: Sys, s': Sys, k: nat)
    requires Inv(s) && Handling(s, k) && PipeRel(s, s', k)
    requires IdOf(s, k) in s'.rows && EntryOK(s', IdOf(s, k)) && ProcOK(s', k)
    ensures Inv(s')
  {
    PipeReshapes(s, s', k);
    PipeEntries(s, s', k);
    PipeOwnership(s, s');
    PipeHandlers(s, s', k);
    PipeProcs(s, s', k);
    PipeCmds(s, s', k);
    PipeBooting(s, s');
  }

  lemma PipeReshapes(s: Sys, s': Sys, k: nat)
    requires Handling(s, k) && PipeRel(s, s', k)
    ensures Reshaped(s, s')
  {
  }

  // ------------------------------------------------------------------
  // The steps

  /** The context check of the first read: a run that is not cancelled still holds its
      token, so it reads its own lease. */
  lemma LoadSees(s: Sys, k: nat)
    requires PI.RunsOK(s.d) && Handlers(s) && CanLoad(s, k)
    ensures Holds(s.d.table, s.d.tasks[k].item) && EntryOf(s, k).r.startedAt == Some(s.d.tasks[k].phase.start)
  {
    assert PI.GoodRun(s.d, s.d.tasks[k]) && HandlerOK(s, k);
  }

  lemma LoadKeeps(s: Sys, k: nat)
    requires Inv(s) && CanLoad(s, k)
    ensures Inv(DoLoad(s, k))
  {
    LoadFacts(s, k);
    AdvanceKeeps(s, DoLoad(s, k), k);
  }

  lemma LoadFacts(s: Sys, k: nat)
    requires PI.RunsOK(s.d) && Entries(s) && Handlers(s) && Procs(s) && CanLoad(s, k)
    ensures PipeRel(s, DoLoad(s, k), k) && ProcOK(DoLoad(s, k), k)
  {
    LoadSees(s, k);
    assert EntryOK(s, IdOf(s, k)) && ProcOK(s, k);
  }

  /** Changing this run's record, and adding blobs, keeps the row as it is. */
  lemma AdvanceKeeps(s: Sys, s': Sys, k: nat)
    requires Inv(s) && Handling(s, k) && PipeRel(s, s', k) && s'.rows == s.rows && ProcOK(s', k)
    ensures Inv(s')
  {
    assert EntryOK(s, IdOf(s, k));
    PipeKeeps(s, s', k);
  }

  lemma ReuseKeeps(s: Sys, k: nat)
    requires Inv(s) && CanReuse(s, k)
    ensures Inv(DoReuse(s, k))
  {
    ReuseFacts(s, k);
    AdvanceKeeps(s, DoReuse(s, k), k);
  }

  lemma ReuseFacts(s: Sys, k: nat)
    requires Procs(s) && CanReuse(s, k)
    ensures PipeRel(s, DoReuse(s, k), k) && ProcOK(DoReuse(s, k), k)
  {
    assert ProcOK(s, k);
  }

  lemma AcquireKeeps(s: Sys, k: nat, video: bool)
    requires Inv(s) && CanAcquire(s, k, video)
    ensures Inv(DoAcquire(s, k, video))
  {
    AcquireFacts(s, k, video);
    AdvanceKeeps(s, DoAcquire(s, k, video), k);
  }

  lemma AcquireFacts(s: Sys, k: nat, video: bool)
    requires Procs(s) && CanAcquire(s, k, video)
    ensures PipeRel(s, DoAcquire(s, k, video), k) && ProcOK(DoAcquire(s, k, video), k)
  {
    assert ProcOK(s, k);
  }

  lemma IndexKeeps(s: Sys, k: nat)
    requires Inv(s) && AtStage(s, k, Acquired)
    ensures Inv(DoIndex(s, k))
  {
    IndexFacts(s, k);
    AdvanceKeeps(s, DoIndex(s, k), k);
  }

  lemma IndexFacts(s: Sys, k: nat)
    requires Procs(s) && AtStage(s, k, Acquired)
    ensures PipeRel(s, DoIndex(s, k), k) && ProcOK(DoIndex(s, k), k)
  {
    assert ProcOK(s, k);
  }

  lemma SummarizeKeeps(s: Sys, k: nat)
    requires Inv(s) && AtStage(s, k, Stage.Upserted)
    ensures Inv(DoSummarize(s, k))
  {
    SummarizeFacts(s, k);
    AdvanceKeeps(s, DoSummarize(s, k), k);
  }

  lemma SummarizeFacts(s: Sys, k: nat)
    requires Procs(s) && AtStage(s, k, Stage.Upserted)
    ensures PipeRel(s, DoSummarize(s, k), k) && ProcOK(DoSummarize(s, k), k)
  {
    assert ProcOK(s, k);
  }

  /** A write whose fence is open comes from the live run of the reading. */
  lemma FenceMeansLive(s: Sys, k: nat)
    requires Entries(s) && Handlers(s) && Procs(s) && Fence(s, k)
    ensures Live(s, k) && Leased(EntryOf(s, k), s.d.tasks[k].phase)
  {
    assert ProcOK(s, k) && HandlerOK(s, k) && EntryOK(s, IdOf(s, k));
  }

  ghost predicate NextStage(from: Stage, to: Stage) {
    || (from.Indexed? && to.Checkpointed?)
    || (from.Summarized? && to.ContentWritten?)
    || (from.TagsWritten? && to.TagsWritten?)
  }

  lemma ContentKeeps(s: Sys, k: nat, stage: Stage, title: string, derived: Derived)
    requires Inv(s) && Fence(s, k) && NextStage(ProcOf(s, k).stage, stage)
    ensures Inv(DoContent(s, k, stage, title, derived))
  {
    FenceMeansLive(s, k);
    ContentFacts(s, k, stage, title, derived);
    PipeKeeps(s, DoContent(s, k, stage, title, derived), k);
  }

  lemma ContentFacts(s: Sys, k: nat, stage: Stage, title: string, derived: Derived)
    requires Entries(s) && Procs(s) && Live(s, k) && Leased(EntryOf(s, k), s.d.tasks[k].phase)
    requires Fence(s, k) && NextStage(ProcOf(s, k).stage, stage)
    ensures var s' := DoContent(s, k, stage, title, derived);
            PipeRel(s, s', k) && IdOf(s, k) in s'.rows && EntryOK(s', IdOf(s, k)) && ProcOK(s', k)
  {
    assert ProcOK(s, k) && EntryOK(s, IdOf(s, k));
    ContentRow(s, k, stage, title, derived);
    ContentProc(s, k, stage, title, derived);
  }

  lemma ContentRow(s: Sys, k: nat, stage: Stage, title: string, derived: Derived)
    requires Live(s, k) && Fence(s, k) && NextStage(ProcOf(s, k).stage, stage)
    requires ProcOK(s, k) && EntryOK(s, IdOf(s, k)) && EntryOf(s, k).r.status.Running?
    ensures EntryOK(DoContent(s, k, stage, title, derived), IdOf(s, k))
  {
  }

  lemma ContentProc(s: Sys, k: nat, stage: Stage, title: string, derived: Derived)
    requires Live(s, k) && Fence(s, k) && NextStage(ProcOf(s, k).stage, stage) && ProcOK(s, k)
    ensures ProcOK(DoContent(s, k, stage, title, derived), k)
  {
  }

  lemma TagsKeeps(s: Sys, k: nat, tags: seq<string>)
    requires Inv(s) && Fence(s, k) && ProcOf(s, k).stage.ContentWritten?
    ensures Inv(DoTags(s, k, tags))
  {
    FenceMeansLive(s, k);
    TagsFacts(s, k, tags);
    PipeKeeps(s, DoTags(s, k, tags), k);
  }

  lemma TagsFacts(s: Sys, k: nat, tags: seq<string>)
    requires Entries(s) && Procs(s) && Live(s, k) && Leased(EntryOf(s, k), s.d.tasks[k].phase)
    requires Fence(s, k) && ProcOf(s, k).stage.ContentWritten?
    ensures var s' := DoTags(s, k, tags);
            PipeRel(s, s', k) && IdOf(s, k) in s'.rows && EntryOK(s', IdOf(s, k)) && ProcOK(s', k)
  {
    assert ProcOK(s, k) && EntryOK(s, IdOf(s, k));
  }

  lemma UpsertKeeps(s: Sys, k: nat)
    requires Inv(s) && CanUpsert(s, k)
    ensures Inv(DoUpsert(s, k))
  {
    UpsertFacts(s, k);
    PipeKeeps(s, DoUpsert(s, k), k);
  }

  lemma UpsertFacts(s: Sys, k: nat)
    requires PI.RunsOK(s.d) && Entries(s) && Handlers(s) && Procs(s) && CanUpsert(s, k)
    ensures PipeRel(s, DoUpsert(s, k), k) && EntryOK(DoUpsert(s, k), IdOf(s, k)) && ProcOK(DoUpsert(s, k), k)
  {
    UpsertRow(s, k);
    UpsertProc(s, k);
    UpsertRel(s, k);
  }

  /** A stale run's vector either loses to the one stored since the reset, or is
      recorded as older than the reset. */
  lemma UpsertRow(s: Sys, k: nat)
    requires PI.RunsOK(s.d) && Entries(s) && Handlers(s) && Procs(s) && CanUpsert(s, k)
    ensures EntryOK(DoUpsert(s, k), IdOf(s, k))
  {
    assert PI.GoodRun(s.d, s.d.tasks[k]);
    assert ProcOK(s, k) && EntryOK(s, IdOf(s, k)) && HandlerOK(s, k);
  }

  /** A live run's vector always goes in. */
  lemma UpsertProc(s: Sys, k: nat)
    requires Entries(s) && Handlers(s) && Procs(s) && CanUpsert(s, k)
    ensures ProcOK(DoUpsert(s, k), k)
  {
    assert EntryOK(s, IdOf(s, k)) && ProcOK(s, k) && HandlerOK(s, k);
  }

  lemma UpsertRel(s: Sys, k: nat)
    requires Entries(s) && Handlers(s) && Procs(s) && CanUpsert(s, k)
    ensures PipeRel(s, DoUpsert(s, k), k)
  {
    assert EntryOK(s, IdOf(s, k)) && ProcOK(s, k) && HandlerOK(s, k);
  }

  // ------------------------------------------------------------------
  // Process returns

  lemma CompleteKeeps(s: Sys, k: nat, res: Retry.Result)
    requires Inv(s) && Handling(s, k) && (res.outcome.Done? ==> AtStage(s, k, TagsWritten))
    ensures Inv(DoComplete(s, k, res))
  {
    PI.ReturnKeeps(s.d, k, res);
    CompleteHandlers(s, k, res);
    CompleteProcs(s, k, res);
    CompleteOwnership(s, k, res);
    CompleteCmds(s, k, res);
    CompleteBooting(s, k, res);
  }

  lemma CompleteHandlers(s: Sys, k: nat, res: Retry.Result)
    requires PI.ForceOK(s.d) && Handlers(s) && OneLive(s) && Entries(s) && Handling(s, k)
    ensures Handlers(DoComplete(s, k, res)) && OneLive(DoComplete(s, k, res)) && Entries(DoComplete(s, k, res))
  {
    var s' := DoComplete(s, k, res);
    forall j | j in s'.d.tasks ensures HandlerOK(s', j) && Live(s', j) == Live(s, j) { CompleteHandler(s, k, res, j); }
    forall x | x in s'.rows ensures EntryOK(s', x) { assert EntryOK(s, x); }
  }

  lemma CompleteHandler(s: Sys, k: nat, res: Retry.Result, j: nat)
    requires PI.ForceOK(s.d) && Handling(s, k) && j in s.d.tasks && HandlerOK(s, j)
    ensures HandlerOK(DoComplete(s, k, res), j) && Live(DoComplete(s, k, res), j) == Live(s, j)
  {
    var s' := DoComplete(s, k, res);
    assert PreForce(s', s.d.tasks[j].item.id) == PreForce(s, s.d.tasks[j].item.id);
  }

  lemma CompleteProcs(s: Sys, k: nat, res: Retry.Result)
    requires Procs(s) && Handling(s, k) && (res.outcome.Done? ==> AtStage(s, k, TagsWritten))
    ensures Procs(DoComplete(s, k, res))
  {
    var s' := DoComplete(s, k, res);
    forall j | j in s'.d.tasks ensures ProcOK(s', j) { assert ProcOK(s, j); }
  }

  lemma CompleteOwnership(s: Sys, k: nat, res: Retry.Result)
    requires PI.ForceOK(s.d) && Ownership(s) && Handling(s, k)
    ensures Ownership(DoComplete(s, k, res))
  {
    var s' := DoComplete(s, k, res);
    forall x | x in s'.d.table.inflight ensures OwnOK(s', x) {
      assert OwnOK(s, x);
      assert PreForce(s', x) == PreForce(s, x);
    }
    forall j | Queued(s'.d, j) ensures AttemptOK(s', s'.d.tasks[j].item) {
      assert Queued(s.d, j);
      assert AttemptOK(s, s.d.tasks[j].item);
    }
    forall i | 0 <= i < |s'.d.ch| ensures AttemptOK(s', s'.d.ch[i]) { assert AttemptOK(s, s.d.ch[i]); }
  }

  lemma CompleteCmds(s: Sys, k: nat, res: Retry.Result)
    requires PI.ForceOK(s.d) && Cmds(s) && Handling(s, k)
    ensures Cmds(DoComplete(s, k, res))
  {
    var s' := DoComplete(s, k, res);
    forall x | x in s'.cmds ensures CmdOK(s', x) { assert CmdOK(s, x); }
  }

  lemma CompleteBooting(s: Sys, k: nat, res: Retry.Result)
    requires Booting(s) && Handling(s, k)
    ensures Booting(DoComplete(s, k, res))
  {
    var s' := DoComplete(s, k, res);
    if s.boot.Sweeping? {
      forall i | 0 <= i < |s.boot.list| ensures ToSweep(s', s.boot.list[i]) { assert ToSweep(s, s.boot.list[i]); }
    }
  }

  // ------------------------------------------------------------------

  lemma PipelineKeeps(s: Sys, l: Label)
    requires Inv(s) && IsPipeline(l) && CanPipeline(s, l)
    ensures Inv(DoPipeline(s, l))
  {
    if l.Load? { LoadKeeps(s, l.k); }
    else if l.Reuse? { ReuseKeeps(s, l.k); }
    else if l.Acquire? { AcquireKeeps(s, l.k, l.video); }
    else if l.Index? { IndexKeeps(s, l.k); }
    else if l.Checkpoint? { ContentKeeps(s, l.k, Checkpointed, l.title, l.derived); }
    else if l.Upsert? { UpsertKeeps(s, l.k); }
    else if l.Summarize? { SummarizeKeeps(s, l.k); }
    else if l.WriteContent? { ContentKeeps(s, l.k, ContentWritten, l.title, l.derived); }
    else if l.WriteTags? { TagsKeeps(s, l.k, l.tags); }
    else if l.WriteDiagnostics? { ContentKeeps(s, l.k, TagsWritten, l.title, l.derived); }
    else if l.Complete? { CompleteKeeps(s, l.k, Retry.Result(Retry.Done, 0)); }
    else { CompleteKeeps(s, l.k, l.res); }
  }
}
