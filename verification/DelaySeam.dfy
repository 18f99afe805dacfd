/** Runs in which a replaced run is not shut out. A forced submit must wait until the old
    handler has left or the clock has moved on; a pair of a delay seam that is set and a
    timer that never fires on a standing clock gives that. Without it the staleness gate
    alone does not separate the leases: a reading may be found stale, be started before
    the forced claim, and be reset at the same clock reading its run started at. The next
    run then gets the same start, and both pass the fence. Short of the wait, only TTLs
    under which nothing is ever reported stale keep the leases apart.

    Each lemma below takes such a run one step further, and the last section says what
    goes wrong at its ends. */
module DelaySeam {
  import opened Basics
  import opened Claims
  import opened Readings
  import opened BlobKeys
  import opened System
  import opened SystemInvariant
  import opened SystemTheorems
  import P = Protocol
  import Retry

  /** A set of states that runs start in and do not leave. */
  ghost predicate Closed(c: Config, r: iset<Sys>) {
    (forall now: int :: Initial(now) in r) && forall s, l :: s in r && Can(c, s, l) ==> Do(c, s, l) in r
  }

  lemma Inside(c: Config, r: iset<Sys>, s: Sys, l: P.Label) returns (t: Sys)
    requires Closed(c, r) && s in r && Quiet(l) && P.Can(c.d, s.d, l)
    ensures t == s.(d := P.Do(c.d, s.d, l)) && t in r
  {
    t := Do(c, s, Internal(l));
  }

  lemma Core(c: Config, r: iset<Sys>, s: Sys, l: Label) returns (t: Sys)
    requires Closed(c, r) && s in r && IsCore(l) && CanCore(c, s, l)
    ensures t == DoCore(c, s, l) && t in r
  {
    t := Do(c, s, l);
  }

  lemma Pipe(c: Config, r: iset<Sys>, s: Sys, l: Label) returns (t: Sys)
    requires Closed(c, r) && s in r && IsPipeline(l) && CanPipeline(s, l)
    ensures t == DoPipeline(s, l) && t in r
  {
    t := Do(c, s, l);
  }

  lemma Command(c: Config, r: iset<Sys>, s: Sys, l: Label) returns (t: Sys)
    requires Closed(c, r) && s in r && IsCommand(l) && CanCommand(c, s, l)
    ensures t == DoCommand(c, s, l) && t in r
  {
    t := Do(c, s, l);
  }

  // ------------------------------------------------------------------
  // A stale reading whose item is about to begin

  const A := "a"

  function Rec(): Reading {
    Reading(A, "", "", Pending, Web, "", NO_DERIVED, "", "", "", 0, [], 0, None, None, 0)
  }

  function Fresh(): Entry { Entry(Rec(), None, None, None, None, 0, 0) }

  /** One item past the active check of queueClaimed, or in the send of the sweep. */
  ghost predicate OneSending(s: Sys, k: nat, others: map<nat, P.Task>) {
    && k !in others && s.d.ch == [] && s.d.tasks.Keys == others.Keys + {k}
    && (forall j :: j in others ==> s.d.tasks[j] == others[j])
    && (s.d.tasks[k].phase.Sending? || s.d.tasks[k].phase.SweepSending?)
  }

  ghost predicate OneReceived(s: Sys, s': Sys, k: nat, others: map<nat, P.Task>)
    requires k in s.d.tasks
  {
    && s' == s.(d := s.d.(tasks := s'.d.tasks)) && s'.d.tasks.Keys == others.Keys + {k}
    && (forall j :: j in others ==> s'.d.tasks[j] == others[j])
    && s'.d.tasks[k] == s.d.tasks[k].(phase := P.Received)
  }

  /** Whether work runs inline or through the channel, the item reaches the point before
      beginRun. */
  lemma Received(c: Config, r: iset<Sys>, s: Sys, k: nat, others: map<nat, P.Task>) returns (s': Sys)
    requires Closed(c, r) && s in r && OneSending(s, k, others)
    ensures s' in r && OneReceived(s, s', k, others)
  {
    if c.d.isInline {
      s' := Inside(c, r, s, P.RunInline(k));
    } else {
      var s1 := Inside(c, r, s, P.Send(k));
      assert s1.d.ch == [s.d.tasks[k].item];
      s' := Inside(c, r, s1, P.Receive(k));
      assert s'.d.ch == [];
    }
  }

  lemma Ingested(c: Config, r: iset<Sys>) returns (s: Sys)
    requires Closed(c, r)
    ensures s in r && s == Sys(P.Initial(0), map[A := Fresh()], {}, map[], map[A := Submitting], Serving)
  {
    var s1 := Core(c, r, Initial(0), List([]));
    var s2 := Core(c, r, s1, Serve);
    s := Command(c, r, s2, Ingest(Rec()));
  }

  /** The first claim of the reading, before beginRun. */
  lemma Submitted(c: Config, r: iset<Sys>) returns (s: Sys)
    requires Closed(c, r)
    ensures s in r && s == Sys(s.d, map[A := Fresh()], {}, map[], map[], Serving)
    ensures s.d == P.State(Table(map[A := Claim(1, None, None)], 1, {}), [], map[0 := P.Task(Item(A, 0, 1), P.Received)],
                           None, {}, 0, 0)
  {
    var s0 := Ingested(c, r);
    var s1 := Command(c, r, s0, Submit(A, 0));
    var s2 := Inside(c, r, s1, P.QueueCheck(0));
    s := Received(c, r, s2, 0, map[]);
  }

  /** A reading found stale whose item, of run number n, is about to begin. */
  ghost predicate Poised(s: Sys, n: nat) {
    && s.boot.Serving? && s.cmds == map[A := Forcing(None)] && s.procs == map[]
    && s.rows.Keys == {A} && Bare(s.rows[A])
    && s.d.tasks == map[0 := P.Task(Item(A, 0, 1), P.Received)] && s.d.ch == []
    && s.d.table == Table(map[A := Claim(1, None, None)], 1, {}) && s.d.force == None && s.d.nextRun == n
  }

  /** A web reading that no run has written to. */
  ghost predicate Bare(e: Entry) { e.r.id == A && e.r.kind == Web && e.r.contentKey == "" && e.vec == None }

  /** With a pending TTL it may still be pending, queued for longer than that. */
  lemma PendingStale(c: Config, r: iset<Sys>) returns (s: Sys)
    requires Closed(c, r) && c.ttls.pending > 0
    ensures s in r && Poised(s, 0)
  {
    var s1 := Submitted(c, r);
    var s2 := Inside(c, r, s1, P.Tick(c.ttls.pending + 1));
    s := Command(c, r, s2, DecideForce(A));
  }

  lemma Started(c: Config, r: iset<Sys>) returns (s: Sys)
    requires Closed(c, r)
    ensures s in r && s.rows == map[A := Fresh().(r := RunningRow(Rec(), 0, 0))] && s.blobs == {}
    ensures s.d.table.cancelled == {} && s.d.closed == {} && s.d.nextRun == 1 && s.d.now == 0
  {
    var s0 := Submitted(c, r);
    var s1 := Inside(c, r, s0, P.Begin(0));
    s := Core(c, r, s1, Label.Start(0, 0));
  }

  /** The process dies while the first run is in progress, and starts again later than
      the running TTL allows. */
  lemma Died(c: Config, r: iset<Sys>) returns (s: Sys)
    requires Closed(c, r) && c.ttls.running > 0
    ensures s in r && s == Sys(s.d, map[A := Fresh().(r := RunningRow(Rec(), 0, 0))], {}, map[], map[], Down)
    ensures s.d == P.State(Table(map[], 0, {}), [], map[], None, {}, 1, c.ttls.running + 1)
  {
    var s1 := Started(c, r);
    var s2 := Core(c, r, s1, Crash);
    s := Inside(c, r, s2, P.Tick(c.ttls.running + 1));
  }

  lemma Swept(c: Config, r: iset<Sys>) returns (s: Sys)
    requires Closed(c, r) && c.ttls.running > 0
    ensures s in r && s == Sys(s.d, map[A := Fresh().(r := RunningRow(Rec(), 0, 0))], {}, map[], map[], Serving)
    ensures s.d == P.State(Table(map[A := Claim(1, None, None)], 1, {}), [],
                           map[0 := P.Task(Item(A, 0, 1), P.SweepSending)], None, {}, 1, c.ttls.running + 1)
  {
    var s0 := Died(c, r);
    var list := [Recovered(A, 0)];
    assert list[0].id == A;
    var s1 := Core(c, r, s0, List(list));
    var s2 := Core(c, r, s1, Sweep(0));
    s := Core(c, r, s2, Serve);
  }

  /** With a running TTL it may be marked running by a run that died, and be on its way
      again from the sweep. */
  lemma RunningStale(c: Config, r: iset<Sys>) returns (s: Sys)
    requires Closed(c, r) && c.ttls.running > 0
    ensures s in r && Poised(s, 1)
  {
    var s0 := Swept(c, r);
    var s1 := Received(c, r, s0, 0, map[]);
    s := Command(c, r, s1, DecideForce(A));
  }

  lemma Prepared(c: Config, r: iset<Sys>) returns (s: Sys, n: nat)
    requires Closed(c, r) && !NeverStale(c.ttls)
    ensures s in r && Poised(s, n)
  {
    if c.ttls.pending > 0 { n := 0; s := PendingStale(c, r); } else { n := 1; s := RunningStale(c, r); }
  }

  // ------------------------------------------------------------------
  // Its run is replaced without a tick of the clock

  ghost predicate Running(s: Sys, n: nat) {
    && s.boot.Serving? && s.cmds == map[A := Forcing(None)]
    && s.rows.Keys == {A} && Bare(s.rows[A])
    && s.rows[A].r.status.Running? && s.rows[A].r.startedAt == Some(s.d.now)
    && s.d.tasks == map[0 := P.Task(Item(A, 0, 1), P.Handling(n, s.d.now))] && s.d.ch == []
    && s.d.table == Table(map[A := Claim(1, Some(n), Some(n))], 1, {}) && s.d.force == None && s.d.nextRun == n + 1
    && n in s.procs
  }

  lemma Began(c: Config, r: iset<Sys>) returns (s: Sys, n: nat)
    requires Closed(c, r) && !NeverStale(c.ttls)
    ensures s in r && Running(s, n) && s.procs[n].Loading?
  {
    var s0;
    s0, n := Prepared(c, r);
    var s1 := Inside(c, r, s0, P.Begin(0));
    s := Core(c, r, s1, Label.Start(0, s1.d.now));
  }

  /** Where a run with the lease now stands. */
  ghost predicate Stands(s: Sys, run: nat, stage: Stage) {
    && run in s.procs && s.procs[run].Proc? && s.procs[run].stage == stage
    && s.procs[run].snap.id == A && s.procs[run].snap.startedAt == Some(s.d.now)
    && s.procs[run].ck == Key(s)
  }

  function Key(s: Sys): string { ContentKey(A, Some(s.d.now)) }

  /** The first run reads its lease and stores its content blob. */
  lemma FirstRun(c: Config, r: iset<Sys>) returns (s: Sys, n: nat)
    requires Closed(c, r) && !NeverStale(c.ttls)
    ensures s in r && Running(s, n) && Stands(s, n, Indexed)
  {
    var s2;
    s2, n := Began(c, r);
    var s3 := Pipe(c, r, s2, Load(0));
    var s4 := Pipe(c, r, s3, Acquire(0, false));
    s := Pipe(c, r, s4, Index(0));
  }

  /** The first run, number n, goes on beside the item that replaces it. */
  ghost predicate Beside(s: Sys, n: nat) {
    && s.boot.Serving? && s.d.tasks.Keys == {0, 1}
    && s.d.tasks[0] == P.Task(Item(A, 0, 1), P.Handling(n, s.d.now)) && s.d.tasks[1].item == Item(A, 0, 2)
    && s.d.ch == [] && s.rows.Keys == {A}
  }

  ghost predicate Replaced(s: Sys, n: nat) {
    Beside(s, n) && Stands(s, n, Indexed) && s.d.nextRun == n + 1
    && s.d.table == Table(map[A := Claim(2, None, Some(n))], 2, {n})
  }

  /** With no delay seam the forced submit does not wait; with a timer that fires on a
      standing clock its wait is over at once. */
  lemma Resumed(c: Config, r: iset<Sys>) returns (s: Sys, n: nat)
    requires Closed(c, r) && !Separates(c)
    ensures s in r && Replaced(s, n) && s.d.tasks[1].phase.Resuming? && s.d.force == Some(1)
    ensures s.cmds == map[A := Forcing(Some(1))] && Bare(s.rows[A])
  {
    var s0;
    s0, n := FirstRun(c, r);
    s := Command(c, r, s0, Label.Force(A, 1));
    if c.d.delaySet { s := Inside(c, r, s, P.WaitTimeout(1)); }
  }

  lemma ForcedAtOnce(c: Config, r: iset<Sys>) returns (s: Sys, n: nat)
    requires Closed(c, r) && !Separates(c)
    ensures s in r && Replaced(s, n) && s.d.tasks[1].phase.Callback? && s.d.force == Some(1)
    ensures s.cmds == map[A := Forcing(Some(1))] && Bare(s.rows[A])
  {
    var s1;
    s1, n := Resumed(c, r);
    s := Inside(c, r, s1, P.Resume(1));
  }

  ghost predicate Idling(s: Sys) { s.cmds == map[] && s.d.force == None }

  /** It resets the row at the clock reading the first run started at. */
  lemma Forced(c: Config, r: iset<Sys>) returns (s: Sys, n: nat)
    requires Closed(c, r) && !Separates(c)
    ensures s in r && Replaced(s, n) && Idling(s) && s.d.tasks[1].phase.Queueing?
    ensures Bare(s.rows[A]) && s.rows[A].resetRun == n + 1
  {
    var s2;
    s2, n := ForcedAtOnce(c, r);
    var s3 := Command(c, r, s2, ForceRead(A, 1));
    s := Command(c, r, s3, ForceReset(A, 1));
  }

  lemma SecondReceived(c: Config, r: iset<Sys>) returns (s: Sys, n: nat)
    requires Closed(c, r) && !Separates(c)
    ensures s in r && Replaced(s, n) && Idling(s) && s.d.tasks[1].phase.Received?
    ensures Bare(s.rows[A]) && s.rows[A].resetRun == n + 1
  {
    var s0;
    s0, n := Forced(c, r);
    var s1 := Inside(c, r, s0, P.QueueCheck(1));
    s := Received(c, r, s1, 1, map[0 := P.Task(Item(A, 0, 1), P.Handling(n, s1.d.now))]);
  }

  /** The second run has begun at that same clock reading. */
  ghost predicate Paired(s: Sys, n: nat) {
    Beside(s, n) && Idling(s) && s.d.nextRun == n + 2 && s.rows[A].resetRun == n + 1
    && s.d.table == Table(map[A := Claim(2, Some(n + 1), Some(n + 1))], 2, {n})
  }

  lemma SecondBegun(c: Config, r: iset<Sys>) returns (s: Sys, n: nat)
    requires Closed(c, r) && !Separates(c)
    ensures s in r && Paired(s, n) && s.d.tasks[1].phase == P.Begun(n + 1, s.d.now)
    ensures Stands(s, n, Indexed) && Bare(s.rows[A])
  {
    var s0;
    s0, n := SecondReceived(c, r);
    s := Inside(c, r, s0, P.Begin(1));
  }

  // ------------------------------------------------------------------
  // Two runs with one lease

  ghost predicate Twins(s: Sys, n: nat) {
    Paired(s, n) && s.d.tasks[1].phase == P.Handling(n + 1, s.d.now) && n + 1 in s.procs
    && s.rows[A].r.id == A && s.rows[A].r.status.Running? && s.rows[A].r.startedAt == Some(s.d.now)
  }

  lemma SecondStarted(c: Config, r: iset<Sys>) returns (s: Sys, n: nat)
    requires Closed(c, r) && !Separates(c)
    ensures s in r && Twins(s, n) && Stands(s, n, Indexed) && Bare(s.rows[A]) && s.procs[n + 1].Loading?
  {
    var s0;
    s0, n := SecondBegun(c, r);
    s := Core(c, r, s0, Label.Start(1, s0.d.now));
  }

  lemma SecondLoaded(c: Config, r: iset<Sys>) returns (s: Sys, n: nat)
    requires Closed(c, r) && !Separates(c)
    ensures s in r && Twins(s, n) && Stands(s, n, Indexed) && Bare(s.rows[A])
    ensures s.procs[n + 1] == Proc(s.rows[A].r, Loaded, "", "")
  {
    var s0;
    s0, n := SecondStarted(c, r);
    s := Pipe(c, r, s0, Load(1));
  }

  lemma SecondIndexed(c: Config, r: iset<Sys>) returns (s: Sys, n: nat)
    requires Closed(c, r) && !Separates(c)
    ensures s in r && Twins(s, n) && Stands(s, n, Indexed) && Stands(s, n + 1, Indexed) && s.rows[A].vec == None
  {
    var s0;
    s0, n := SecondLoaded(c, r);
    var s1 := Pipe(c, r, s0, Acquire(1, false));
    s := Pipe(c, r, s1, Index(1));
  }

  lemma SecondCheckpointed(c: Config, r: iset<Sys>) returns (s: Sys, n: nat)
    requires Closed(c, r) && !Separates(c)
    ensures s in r && Twins(s, n) && Stands(s, n, Indexed) && Stands(s, n + 1, Checkpointed)
    ensures s.rows[A].vec == None && s.rows[A].r.contentKey == Key(s)
  {
    var s0;
    s0, n := SecondIndexed(c, r);
    s := Pipe(c, r, s0, Checkpoint(1, "", NO_DERIVED));
  }

  lemma SecondUpserted(c: Config, r: iset<Sys>) returns (s: Sys, n: nat)
    requires Closed(c, r) && !Separates(c)
    ensures s in r && Twins(s, n) && Stands(s, n, Indexed) && Stands(s, n + 1, Stage.Upserted)
    ensures s.rows[A].vec == Some(Vec(Some(s.d.now), n + 1))
  {
    var s0;
    s0, n := SecondCheckpointed(c, r);
    s := Pipe(c, r, s0, Upsert(1));
  }

  /** The first run comes after the second one's vector. */
  lemma FirstReturns(c: Config, r: iset<Sys>) returns (s: Sys, n: nat)
    requires Closed(c, r) && !Separates(c)
    ensures s in r && Twins(s, n) && Stands(s, n, Checkpointed) && s.rows[A].vec == Some(Vec(Some(s.d.now), n + 1))
  {
    var s0;
    s0, n := SecondUpserted(c, r);
    s := Pipe(c, r, s0, Checkpoint(0, "", NO_DERIVED));
  }

  lemma SecondWritten(c: Config, r: iset<Sys>) returns (s: Sys, n: nat)
    requires Closed(c, r) && !Separates(c)
    ensures s in r && Twins(s, n) && Stands(s, n, Indexed) && Stands(s, n + 1, ContentWritten)
  {
    var s0;
    s0, n := SecondUpserted(c, r);
    var s1 := Pipe(c, r, s0, Summarize(1));
    s := Pipe(c, r, s1, WriteContent(1, "", NO_DERIVED));
  }

  /** The first run's checkpoint lands after the second run's last guarded write. */
  lemma Overwritten(c: Config, r: iset<Sys>) returns (s: Sys, n: nat)
    requires Closed(c, r) && !Separates(c)
    ensures s in r && Twins(s, n) && Stands(s, n + 1, TagsWritten) && s.rows[A].contentBy == Some(n)
  {
    var s0;
    s0, n := SecondWritten(c, r);
    var s1 := Pipe(c, r, s0, WriteTags(1, []));
    s := Pipe(c, r, s1, Checkpoint(0, "", NO_DERIVED));
  }

  lemma OverwrittenDecided(c: Config, r: iset<Sys>) returns (s: Sys, n: nat)
    requires Closed(c, r) && !Separates(c)
    ensures s in r && Paired(s, n) && s.d.tasks[1].phase == P.Deciding(n + 1, s.d.now, Retry.Result(Retry.Done, 0))
    ensures s.rows[A].contentBy == Some(n)
  {
    var s0;
    s0, n := Overwritten(c, r);
    var s1 := Pipe(c, r, s0, Complete(1));
    s := Inside(c, r, s1, P.Check(1));
  }

  // ------------------------------------------------------------------
  // The second run fails, its blobs are dropped, and a third run starts

  lemma SecondDecided(c: Config, r: iset<Sys>) returns (s: Sys, n: nat)
    requires Closed(c, r) && !Separates(c)
    ensures s in r && Paired(s, n) && s.d.tasks[1].phase == P.Deciding(n + 1, s.d.now, Retry.Result(Retry.Failing, 0))
    ensures Stands(s, n, Indexed) && s.rows[A].r.contentKey == Key(s) && s.rows[A].r.id == A
  {
    var s0;
    s0, n := SecondCheckpointed(c, r);
    var s1 := Pipe(c, r, s0, Fail(1, Retry.Result(Retry.Failing, 0)));
    s := Inside(c, r, s1, P.Check(1));
  }

  /** The second run has left; nobody owns the reading. */
  ghost predicate Left(s: Sys, n: nat) {
    && Beside(s, n) && s.d.force == None && Stands(s, n, Indexed)
    && s.d.tasks[1] == P.Task(Item(A, 0, 2), P.Exiting(n + 1)) && s.d.nextRun == n + 2
    && s.d.table == Table(map[], 2, {n, n + 1})
  }

  lemma SecondFailed(c: Config, r: iset<Sys>) returns (s: Sys, n: nat)
    requires Closed(c, r) && !Separates(c)
    ensures s in r && Left(s, n) && s.cmds == map[]
    ensures s.rows[A].r.status.Failed? && s.rows[A].r.contentKey == Key(s)
  {
    var s0;
    s0, n := SecondDecided(c, r);
    s := Core(c, r, s0, Finish(1, s0.d.now, "", true));
  }

  lemma Staged(c: Config, r: iset<Sys>) returns (s: Sys, n: nat)
    requires Closed(c, r) && !Separates(c)
    ensures s in r && Left(s, n) && s.cmds.Keys == {A} && s.cmds[A].Replacing?
    ensures s.cmds[A].seen.contentKey == Key(s)
  {
    var s0;
    s0, n := SecondFailed(c, r);
    s := Command(c, r, s0, Replace(A, "b", "", []));
  }

  lemma Reimported(c: Config, r: iset<Sys>) returns (s: Sys, n: nat)
    requires Closed(c, r) && !Separates(c)
    ensures s in r && Left(s, n) && s.cmds.Keys == {A} && s.cmds[A].DroppingRaw?
    ensures s.cmds[A].seen.contentKey == Key(s)
  {
    var s0;
    s0, n := Staged(c, r);
    s := Command(c, r, s0, ImportWrite(A));
  }

  lemma RawDropped(c: Config, r: iset<Sys>) returns (s: Sys, n: nat)
    requires Closed(c, r) && !Separates(c)
    ensures s in r && Left(s, n) && s.cmds.Keys == {A} && s.cmds[A].DroppingContent?
    ensures s.cmds[A].seen.contentKey == Key(s)
  {
    var s0;
    s0, n := Reimported(c, r);
    s := Command(c, r, s0, DropRaw(A, true));
  }

  lemma Dropped(c: Config, r: iset<Sys>) returns (s: Sys, n: nat)
    requires Closed(c, r) && !Separates(c)
    ensures s in r && Left(s, n) && s.cmds.Keys == {A} && s.cmds[A].Submitting? && Key(s) !in s.blobs
  {
    var s0;
    s0, n := RawDropped(c, r);
    s := Command(c, r, s0, DropContent(A, true));
  }

  /** The first run goes on beside the third item. */
  ghost predicate Third(s: Sys, n: nat) {
    && s.boot.Serving? && s.d.ch == [] && s.d.tasks.Keys == {0, 1, 2}
    && s.d.tasks[0] == P.Task(Item(A, 0, 1), P.Handling(n, s.d.now)) && s.d.tasks[2].item == Item(A, 0, 3)
    && Holds(s.d.table, s.d.tasks[2].item) && s.d.nextRun == n + 2 && s.d.table.cancelled == {n, n + 1}
    && s.rows.Keys == {A} && Stands(s, n, Indexed) && Key(s) !in s.blobs
  }

  lemma ThirdQueued(c: Config, r: iset<Sys>) returns (s: Sys, n: nat)
    requires Closed(c, r) && !Separates(c)
    ensures s in r && Third(s, n) && s.d.tasks[2].phase.Queueing?
  {
    var s0;
    s0, n := Dropped(c, r);
    s := Command(c, r, s0, Submit(A, 2));
  }

  lemma ThirdReceived(c: Config, r: iset<Sys>) returns (s: Sys, n: nat)
    requires Closed(c, r) && !Separates(c)
    ensures s in r && Third(s, n) && s.d.tasks[2].phase.Received?
  {
    var s0;
    s0, n := ThirdQueued(c, r);
    var s1 := Inside(c, r, s0, P.QueueCheck(2));
    s := Received(c, r, s1, 2, s1.d.tasks - {2});
  }

  lemma ThirdStarted(c: Config, r: iset<Sys>) returns (s: Sys, n: nat)
    requires Closed(c, r) && !Separates(c)
    ensures s in r && Fence(s, 0) && IdOf(s, 0) == A && Stands(s, n, Indexed) && RunOf(s, 0) == n && Key(s) !in s.blobs
  {
    var s0;
    s0, n := ThirdReceived(c, r);
    var s1 := Inside(c, r, s0, P.Begin(2));
    s := Core(c, r, s1, Label.Start(2, s1.d.now));
  }

  // ------------------------------------------------------------------
  // What goes wrong

  lemma Reaches(c: Config) returns (r: iset<Sys>)
    ensures Closed(c, r) && forall s :: s in r ==> Reachable(c, s)
  {
    r := iset s | Reachable(c, s);
    forall now: int ensures Initial(now) in r { assert Exec(c, Initial(now), []) == Some(Initial(now)); }
    forall s, l | s in r && Can(c, s, l) ensures Do(c, s, l) in r { ReachableNext(c, s, l); }
  }

  /** The first run's checkpoint lands on the row of the second. */
  lemma StaleWriteLands(c: Config) returns (s: Sys)
    requires !Separates(c)
    ensures Reachable(c, s) && A in s.rows && CanPipeline(s, Checkpoint(0, "", NO_DERIVED))
    ensures WritesContent(s, Checkpoint(0, "", NO_DERIVED), A) && RunOf(s, 0) < s.rows[A].resetRun
  {
    var r := Reaches(c);
    var n;
    s, n := SecondStarted(c, r);
  }

  /** The second run starts at the start of the first, which is still in progress. */
  lemma EqualStart(c: Config) returns (s: Sys)
    requires !Separates(c)
    ensures Reachable(c, s) && CanStart(s, 1, s.d.now) && StartedTask(s, 0)
    ensures IdOf(s, 0) == IdOf(s, 1) && s.d.tasks[0].phase.start == s.d.now
  {
    var r := Reaches(c);
    var n;
    s, n := SecondBegun(c, r);
  }

  /** Both runs pass the fence. */
  lemma TwoWriters(c: Config) returns (s: Sys)
    requires !Separates(c)
    ensures Reachable(c, s) && Fence(s, 0) && Fence(s, 1) && IdOf(s, 0) == IdOf(s, 1)
  {
    var r := Reaches(c);
    var n;
    s, n := SecondLoaded(c, r);
  }

  /** The first run's vector replaces the second's, at an equal generation. */
  lemma StaleVectorWins(c: Config) returns (s: Sys)
    requires !Separates(c)
    ensures Reachable(c, s) && CanUpsert(s, 0) && EntryOf(s, 0).vec.Some?
    ensures RunOf(s, 0) < EntryOf(s, 0).resetRun <= EntryOf(s, 0).vec.value.run
    ensures DoUpsert(s, 0).rows[IdOf(s, 0)].vec != EntryOf(s, 0).vec
  {
    var r := Reaches(c);
    var n;
    s, n := FirstReturns(c, r);
  }

  /** A reading becomes ready whose content is the first run's. */
  lemma MixedReady(c: Config) returns (s: Sys)
    requires !Separates(c)
    ensures Reachable(c, s) && A in s.rows && s.rows[A].r.status.Ready? && s.rows[A].contentBy != s.rows[A].readyBy
  {
    var r := Reaches(c);
    var s0, n := OverwrittenDecided(c, r);
    s := Core(c, r, s0, Finish(1, s0.d.now, "", true));
  }

  /** The first run names its blob again, which an import has dropped. */
  lemma KeyDangles(c: Config) returns (s: Sys)
    requires !Separates(c)
    ensures Reachable(c, s) && A in s.rows
    ensures s.rows[A].r.contentKey != "" && s.rows[A].r.contentKey !in s.blobs
  {
    var r := Reaches(c);
    var s0, n := ThirdStarted(c, r);
    s := Pipe(c, r, s0, Checkpoint(0, "", NO_DERIVED));
  }
}
