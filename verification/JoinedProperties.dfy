/** What holds in every run of the joined system. The first part stands on tokens alone
    and holds in every configuration; the rest needs the leases of replaced runs to be
    kept apart, as Separates says. */
module JoinedProperties {
  import opened Basics
  import opened Claims
  import opened Readings
  import opened BlobKeys
  import opened System
  import opened SystemInvariant
  import opened SystemTheorems
  import D = DispatchSteps
  import PL = PipelineSteps
  import G = Ground
  import J = Projection
  import P = Protocol
  import PI = ProtocolInvariant
  import PR = ProtocolRuns
  import DelaySeam

  lemma ReachableGround(c: Config, s: Sys)
    requires Reachable(c, s)
    ensures G.Grounded(s)
  {
    var now: int, run: seq<Label> :| Exec(c, Initial(now), run) == Some(s);
    G.ExecGround(c, Initial(now), run);
  }

  /** The dispatcher of a reachable state is one its own runs reach, so that every
      theorem about those runs holds of it. */
  lemma DispatcherReachable(c: Config, s: Sys)
    requires Reachable(c, s)
    ensures PI.Reachable(c.d, s.d)
  {
    var now: int, run: seq<Label> :| Exec(c, Initial(now), run) == Some(s);
    J.RunShadows(c, Initial(now), run);
    assert P.Exec(c.d, P.Initial(now), J.Shadow(c, Initial(now), run)) == Some(s.d);
  }

  // ------------------------------------------------------------------
  // In every configuration: frozen rows

  /** A ready reading stays exactly as it is until a reset or an import replaces it:
      no handler, replaced or not, no retry, sweep or crash touches its row. */
  lemma ReadyIsFrozen(c: Config, s: Sys, l: Label, id: string)
    requires Reachable(c, s) && Can(c, s, l) && id in s.rows && s.rows[id].r.status.Ready?
    requires !Resets(l, id)
    ensures id in Do(c, s, l).rows
    ensures var e, e' := s.rows[id], Do(c, s, l).rows[id];
            e'.r == e.r && e'.contentBy == e.contentBy && e'.tagsBy == e.tagsBy && e'.readyBy == e.readyBy
  {
    ReachableGround(c, s);
    if WritesStatus(s, l, id) { StatusWrite(c, s, l, id); }
    else { NoContentWrite(c, s, l, id); RowsKept(c, s, l, id); }
  }

  /** A content or tag write lands only on a running row: its run read the row before,
      and what it read had a lease. */
  lemma NoContentWrite(c: Config, s: Sys, l: Label, id: string)
    requires G.Snapped(s) && Can(c, s, l) && id in s.rows && !s.rows[id].r.status.Running?
    ensures !WritesContent(s, l, id)
  {
    if WritesContent(s, l, id) { ContentFence(c, s, l, id); }
  }

  // ------------------------------------------------------------------
  // In every configuration: status writes

  /** Whoever changes a row's status, start or attempts outside a reset holds the
      current token of its id at that moment. */
  lemma StatusByHolder(c: Config, s: Sys, l: Label, id: string)
    requires Reachable(c, s) && Can(c, s, l) && id in s.rows && !Resets(l, id)
    ensures id in Do(c, s, l).rows
    ensures var r, r' := s.rows[id].r, Do(c, s, l).rows[id].r;
            r'.status != r.status || r'.startedAt != r.startedAt || r'.attempts != r.attempts ==>
              (l.Start? || l.Finish? || l.Again? || l.Panic?) && l.k in s.d.tasks
              && s.d.tasks[l.k].item.id == id && Holds(s.d.table, s.d.tasks[l.k].item)
  {
    ReachableGround(c, s);
    if WritesStatus(s, l, id) { StatusWrite(c, s, l, id); }
    else if WritesContent(s, l, id) { ContentShape(c, s, l, id); }
    else { RowsKept(c, s, l, id); }
  }

  /** The stored attempt never falls but by a reset, across retries, lost writes,
      crashes and sweeps. */
  lemma AttemptNeverFalls(c: Config, s: Sys, l: Label, id: string)
    requires Reachable(c, s) && Can(c, s, l) && id in s.rows && !Resets(l, id)
    ensures id in Do(c, s, l).rows && Do(c, s, l).rows[id].r.attempts >= s.rows[id].r.attempts
  {
    ReachableGround(c, s);
    if WritesStatus(s, l, id) { StatusWrite(c, s, l, id); }
    else if WritesContent(s, l, id) { ContentShape(c, s, l, id); }
    else { RowsKept(c, s, l, id); }
  }

  // ------------------------------------------------------------------
  // In every configuration: replaced items

  /** A status write that carries this item's token. */
  predicate WritesFor(s: Sys, l: Label, it: Item) {
    (l.Start? || l.Finish? || l.Again? || l.Panic?) && l.k in s.d.tasks
    && s.d.tasks[l.k].item.id == it.id && s.d.tasks[l.k].item.token == it.token
  }

  /** An item that lost its token writes no status any more, as long as the process
      lives: its run cannot start or go on, and its ending changes no row. */
  lemma StaleItemIsMute(c: Config, s: Sys, it: Item, later: seq<Label>, l: Label)
    requires Reachable(c, s) && 1 <= it.token <= s.d.table.nextToken && !Holds(s.d.table, it)
    requires Exec(c, s, later).Some? && J.Survives(later)
    requires Can(c, Exec(c, s, later).value, l) && WritesFor(Exec(c, s, later).value, l, it)
    ensures !l.Start? && !l.Panic?
    ensures Do(c, Exec(c, s, later).value, l).rows == Exec(c, s, later).value.rows
  {
    var s2 := Exec(c, s, later).value;
    DispatcherReachable(c, s);
    J.RunShadows(c, s, later);
    J.ShadowSurvives(c, s, later);
    PR.StaleForever(c.d, s.d, J.Shadow(c, s, later), it);
    ReachableGround(c, s);
    G.ExecGround(c, s, later);
    MuteStep(c, s2, l, it);
  }

  lemma MuteStep(c: Config, s: Sys, l: Label, it: Item)
    requires PI.RunsOK(s.d) && !Holds(s.d.table, it) && Can(c, s, l) && WritesFor(s, l, it)
    ensures !l.Start? && !l.Panic? && Do(c, s, l).rows == s.rows
  {
    if l.Start? { D.StartHolds(s, l.k, l.start); }
  }

  /** So a forced submit silences the item it replaces: from then on no status write under
      the old token changes a row, whatever its handler ignores and however late it ends. */
  lemma ForceMutes(c: Config, s: Sys, id: string, k: nat, it: Item, later: seq<Label>, l: Label)
    requires Reachable(c, s) && Can(c, s, Label.Force(id, k)) && it.id == id && Holds(s.d.table, it)
    requires Exec(c, Do(c, s, Label.Force(id, k)), later).Some? && J.Survives(later)
    requires var s2 := Exec(c, Do(c, s, Label.Force(id, k)), later).value; Can(c, s2, l) && WritesFor(s2, l, it)
    ensures var s2 := Exec(c, Do(c, s, Label.Force(id, k)), later).value; Do(c, s2, l).rows == s2.rows
  {
    var force := Label.Force(id, k);
    ReachableGround(c, s);
    ReachableNext(c, s, force);
    Replaced(c, s, id, k, it);
    StaleItemIsMute(c, Do(c, s, force), it, later, l);
  }

  lemma Replaced(c: Config, s: Sys, id: string, k: nat, it: Item)
    requires PI.TableOK(s.d) && CanForce(s, id, k) && it.id == id && Holds(s.d.table, it)
    ensures 1 <= it.token <= DoForce(c, s, id, k).d.table.nextToken && !Holds(DoForce(c, s, id, k).d.table, it)
  {
  }

  // ------------------------------------------------------------------
  // With leases kept apart: ready readings

  /** A ready reading has its content blob, and its content, tags and vector all come
      from the run that was marked ready, which began after the last reset. */
  lemma ReadyIsWhole(c: Config, s: Sys, id: string)
    requires Separates(c) && Reachable(c, s) && id in s.rows && s.rows[id].r.status.Ready?
    ensures var e := s.rows[id];
            && e.r.contentKey != "" && e.r.contentKey in s.blobs
            && e.readyBy.Some? && e.contentBy == e.readyBy && e.tagsBy == e.readyBy
            && e.vec.Some? && e.vec.value.run == e.readyBy.value && e.resetRun <= e.readyBy.value
  {
    ReachableInv(c, s);
    assert EntryOK(s, id);
  }

  // ------------------------------------------------------------------
  // With leases kept apart: references

  /** Every key a row holds names an existing blob, at every step of every run. */
  lemma NoDangling(c: Config, s: Sys, id: string)
    requires Separates(c) && Reachable(c, s) && id in s.rows
    ensures s.rows[id].r.rawKey == "" || s.rows[id].r.rawKey in s.blobs
    ensures s.rows[id].r.contentKey == "" || s.rows[id].r.contentKey in s.blobs
  {
    ReachableInv(c, s);
    assert EntryOK(s, id);
  }

  // ------------------------------------------------------------------
  // With leases kept apart: leases

  /** At most one run of a reading can still write it. */
  lemma OneWriter(c: Config, s: Sys, j: nat, k: nat)
    requires Separates(c) && Reachable(c, s) && Fence(s, j) && Fence(s, k) && IdOf(s, j) == IdOf(s, k)
    ensures j == k
  {
    ReachableInv(c, s);
    PL.FenceMeansLive(s, j);
    PL.FenceMeansLive(s, k);
  }

  /** Lease uniqueness is a consequence: a new run of a reading starts strictly after
      every run of it that is still in progress, replaced or not. */
  lemma LeaseStrictlyBelow(c: Config, s: Sys, k: nat, start: int, j: nat)
    requires Separates(c) && Reachable(c, s) && CanStart(s, k, start)
    requires StartedTask(s, j) && s.d.tasks[j].item.id == s.d.tasks[k].item.id
    ensures s.d.tasks[j].phase.start < start
  {
    ReachableInv(c, s);
    StartAfter(s, k, start, j);
  }

  lemma StartAfter(s: Sys, k: nat, start: int, j: nat)
    requires PI.ForceOK(s.d) && PI.TasksDistinct(s.d) && PI.RunsOK(s.d) && Handlers(s) && CanStart(s, k, start)
    requires StartedTask(s, j) && s.d.tasks[j].item.id == s.d.tasks[k].item.id
    ensures s.d.tasks[j].phase.start < start
  {
    D.StartHolds(s, k, start);
    D.HolderOwns(s, k);
    assert HandlerOK(s, j) && HandlerOK(s, k);
  }

  /** The number from which on runs have begun since the last reset of the row. */
  lemma {:induction false} ResetSticks(c: Config, s: Sys, run: seq<Label>, id: string)
    requires Separates(c) && Calm(c, s) && Inv(s) && id in s.rows && Exec(c, s, run).Some?
    ensures id in Exec(c, s, run).value.rows
    ensures Exec(c, s, run).value.rows[id].resetRun >= s.rows[id].resetRun
    decreases |run|
  {
    if run != [] {
      ResetRises(c, s, run[0], id);
      CalmKeeps(c, s, run[0]);
      StepKeeps(c, s, run[0]);
      ResetSticks(c, Do(c, s, run[0]), run[1..], id);
    }
  }

  lemma ResetRises(c: Config, s: Sys, l: Label, id: string)
    requires Inv(s) && Can(c, s, l) && id in s.rows
    ensures id in Do(c, s, l).rows && Do(c, s, l).rows[id].resetRun >= s.rows[id].resetRun
  {
    if Resets(l, id) { ResetMarks(c, s, l, id); assert EntryOK(s, id); }
    else if WritesStatus(s, l, id) { StatusKeepsMark(c, s, l, id); }
    else if WritesContent(s, l, id) { ContentShape(c, s, l, id); }
    else { RowsKept(c, s, l, id); }
  }

  lemma StatusKeepsMark(c: Config, s: Sys, l: Label, id: string)
    requires Can(c, s, l) && id in s.rows && WritesStatus(s, l, id)
    ensures id in Do(c, s, l).rows && Do(c, s, l).rows[id].resetRun == s.rows[id].resetRun
  {
  }

  lemma ResetMarks(c: Config, s: Sys, l: Label, id: string)
    requires Can(c, s, l) && id in s.rows && Resets(l, id)
    ensures id in Do(c, s, l).rows && Do(c, s, l).rows[id].resetRun == s.d.nextRun
  {
  }

  /** Once a reset is done, no run that began before it ever lands a content or tag
      write on the reading again, however long it lives and whatever it ignores. */
  lemma ReplacedRunNeverLands(c: Config, s: Sys, reset: Label, later: seq<Label>, write: Label, id: string)
    requires Separates(c) && Reachable(c, s) && Can(c, s, reset) && id in s.rows && Resets(reset, id)
    requires Exec(c, Do(c, s, reset), later).Some?
    requires var s2 := Exec(c, Do(c, s, reset), later).value; Can(c, s2, write) && WritesContent(s2, write, id)
    ensures RunOf(Exec(c, Do(c, s, reset), later).value, write.k) >= s.d.nextRun
  {
    var s1 := Do(c, s, reset);
    var s2 := Exec(c, s1, later).value;
    ReachableInv(c, s);
    ResetMarks(c, s, reset, id);
    CalmKeeps(c, s, reset);
    StepKeeps(c, s, reset);
    ResetSticks(c, s1, later, id);
    ExecKeeps(c, s1, later);
    ContentWrite(c, s2, write, id);
  }

  /** Nor does such a run replace the vector of a run since the reset. */
  lemma StaleVectorLoses(c: Config, s: Sys, k: nat)
    requires Separates(c) && Reachable(c, s) && CanUpsert(s, k)
    requires var e := EntryOf(s, k); e.vec.Some? && RunOf(s, k) < e.resetRun <= e.vec.value.run
    ensures DoUpsert(s, k).rows[IdOf(s, k)].vec == EntryOf(s, k).vec
  {
    ReachableInv(c, s);
    assert EntryOK(s, IdOf(s, k)) && HandlerOK(s, k) && ProcOK(s, k);
  }

  // ------------------------------------------------------------------
  // When leases are kept apart, and only then

  /** No content or tag write that lands comes from a run older than the last reset of
      its row. */
  ghost predicate OldRunsNeverLand(c: Config) {
    forall s, l, id | Reachable(c, s) && Can(c, s, l) && id in s.rows && WritesContent(s, l, id)
      :: RunOf(s, l.k) >= s.rows[id].resetRun
  }

  ghost predicate ReadyAreWhole(c: Config) {
    forall s, id | Reachable(c, s) && id in s.rows && s.rows[id].r.status.Ready?
      :: s.rows[id].r.contentKey in s.blobs && Whole(s.rows[id])
  }

  predicate KeysStored(s: Sys, e: Entry) {
    (e.r.rawKey == "" || e.r.rawKey in s.blobs) && (e.r.contentKey == "" || e.r.contentKey in s.blobs)
  }

  ghost predicate NeverDangles(c: Config) {
    forall s, id | Reachable(c, s) && id in s.rows :: KeysStored(s, s.rows[id])
  }

  /** No two runs of a reading pass the fence. */
  ghost predicate WritersAreOne(c: Config) {
    forall s, j, k | Reachable(c, s) && Fence(s, j) && Fence(s, k) && IdOf(s, j) == IdOf(s, k) :: j == k
  }

  /** Whoever starts does so strictly after each run of its reading in progress. */
  ghost predicate StartsRise(c: Config) {
    forall s, k, start, j | Reachable(c, s) && CanStart(s, k, start) && StartedTask(s, j) && IdOf(s, j) == IdOf(s, k)
      :: s.d.tasks[j].phase.start < start
  }

  /** Run k comes from before the last reset, and the stored vector from after it. */
  predicate Belated(s: Sys, k: nat) {
    CanUpsert(s, k) && EntryOf(s, k).vec.Some? && RunOf(s, k) < EntryOf(s, k).resetRun <= EntryOf(s, k).vec.value.run
  }

  ghost predicate BelatedVectorsLose(c: Config) {
    forall s, k | Reachable(c, s) && Belated(s, k) :: DoUpsert(s, k).rows[IdOf(s, k)].vec == EntryOf(s, k).vec
  }

  /** Replaced runs are shut out exactly when forced submits wait on a clock that moves,
      or nothing is ever stale. */
  lemma SeparationExact(c: Config)
    ensures OldRunsNeverLand(c) <==> (c.d.delaySet && c.d.waitAdvance > 0) || (c.ttls.pending <= 0 && c.ttls.running <= 0)
  {
    if Separates(c) {
      forall s, l, id | Reachable(c, s) && Can(c, s, l) && id in s.rows && WritesContent(s, l, id)
        ensures RunOf(s, l.k) >= s.rows[id].resetRun
      {
        ReachableInv(c, s);
        ContentWrite(c, s, l, id);
      }
    } else {
      var s := DelaySeam.StaleWriteLands(c);
      assert Can(c, s, Checkpoint(0, "", NO_DERIVED));
    }
  }

  /** Exactly then every ready reading has its content blob and is the work of one run. */
  lemma ReadyIsWholeExact(c: Config)
    ensures ReadyAreWhole(c) <==> Separates(c)
  {
    if Separates(c) {
      forall s, id | Reachable(c, s) && id in s.rows && s.rows[id].r.status.Ready?
        ensures s.rows[id].r.contentKey in s.blobs && Whole(s.rows[id])
      {
        ReadyIsWhole(c, s, id);
      }
    } else {
      var s := DelaySeam.MixedReady(c);
    }
  }

  /** Exactly then no key in a row ever dangles. */
  lemma NoDanglingExact(c: Config)
    ensures NeverDangles(c) <==> Separates(c)
  {
    if Separates(c) {
      forall s, id | Reachable(c, s) && id in s.rows ensures KeysStored(s, s.rows[id]) { NoDangling(c, s, id); }
    } else {
      var s := DelaySeam.KeyDangles(c);
    }
  }

  /** Exactly then at most one run of a reading can write it. */
  lemma OneWriterExact(c: Config)
    ensures WritersAreOne(c) <==> Separates(c)
  {
    if Separates(c) {
      forall s, j, k | Reachable(c, s) && Fence(s, j) && Fence(s, k) && IdOf(s, j) == IdOf(s, k) ensures j == k {
        OneWriter(c, s, j, k);
      }
    } else {
      var s := DelaySeam.TwoWriters(c);
    }
  }

  /** Exactly then leases are unique. */
  lemma LeaseExact(c: Config)
    ensures StartsRise(c) <==> Separates(c)
  {
    if Separates(c) {
      forall s, k, start, j | Reachable(c, s) && CanStart(s, k, start) && StartedTask(s, j) && IdOf(s, j) == IdOf(s, k)
        ensures s.d.tasks[j].phase.start < start
      {
        LeaseStrictlyBelow(c, s, k, start, j);
      }
    } else {
      var s := DelaySeam.EqualStart(c);
    }
  }

  /** Exactly then the generation fence keeps the vectors of replaced runs out. */
  lemma StaleVectorExact(c: Config)
    ensures BelatedVectorsLose(c) <==> Separates(c)
  {
    if Separates(c) {
      forall s, k | Reachable(c, s) && Belated(s, k) ensures DoUpsert(s, k).rows[IdOf(s, k)].vec == EntryOf(s, k).vec {
        StaleVectorLoses(c, s, k);
      }
    } else {
      var s := DelaySeam.StaleVectorWins(c);
      assert Belated(s, 0);
    }
  }

  /** A timer that fires no earlier than the wait budget, on the machine whose clock the
      leases are read from, is enough. */
  lemma TrueTimersSeparate(c: Config)
    requires c.d.delaySet && c.d.waitAdvance >= P.Budget(c.d)
    ensures OldRunsNeverLand(c)
  {
    SeparationExact(c);
  }
}
