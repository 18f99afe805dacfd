/** The dispatcher joined to its clients as one step relation: the pipeline that runs
    inside each handler, the commands of the reading service, the startup sweep,
    the rows, the blobs and the vector index.

    A command is one thread per reading: a second command on the same reading waits
    until the first is done, while its steps interleave freely with every handler
    and with commands on other readings. Commands are accepted once the startup
    sweep is over, as the API process is wired. Every store, blob and index call may
    fail. A handler whose claim was replaced may ignore its cancelled context in
    every call but the running write and the first read of its row. */
module System {
  import opened Basics
  import opened Claims
  import opened Readings
  import opened BlobKeys
  import P = Protocol
  import V = Vectors
  import Retry

  datatype Config = Config(d: P.Config, ttls: TTLs)

  /** No reading is ever reported stale, so none is ever forced. */
  predicate NeverStale(ttls: TTLs) { ttls.pending <= 0 && ttls.running <= 0 }

  /** What keeps the lease of a replaced run apart from that of its successor: a forced
      submit waits until the old handler has left or the clock has moved on, or there
      are no forced submits at all. */
  predicate Separates(c: Config) { (c.d.delaySet && c.d.waitAdvance > 0) || NeverStale(c.ttls) }

  datatype Vec = Vec(gen: Option<int>, run: nat)

  /** A row with its provenance. contentBy, tagsBy and readyBy name the runs that
      last wrote the content columns, the tags and the ready status. resetAt and
      resetRun record the clock and the next run number at the last reset of the
      row, or at its creation; they are history, no step reads them. */
  datatype Entry = Entry(r: Reading, contentBy: Option<nat>, tagsBy: Option<nat>, readyBy: Option<nat>,
                         vec: Option<Vec>, resetAt: int, resetRun: nat)

  /** How far one call of Process has come. Loaded: the row snapshot is taken.
      Reused, Acquired: the source is at hand. Indexed: the content blob is stored.
      Checkpointed: the first guarded write landed. Upserted: the vector is in.
      Summarized: the final guarded write is next. ContentWritten: it landed.
      TagsWritten: so did the tags. */
  datatype Stage = Loaded | Reused | Acquired | Indexed | Checkpointed | Upserted | Summarized | ContentWritten | TagsWritten

  datatype Proc = Loading | Proc(snap: Reading, stage: Stage, ck: string, rk: string)

  /** Where the command on one reading is. */
  datatype Cmd =
    | Marking
    | Resetting(rawKey: string, title: string)
    | Submitting
    | Forcing(task: Option<nat>)
    | ForceResetting(forced: nat, rawKey: string, title: string)
    | Creating(rec: Reading)
    | Uncreating(key: string)
    | Replacing(seen: Reading, key: string, title: string, tags: seq<string>)
    | Unreplacing(key: string)
    | DroppingRaw(seen: Reading, key: string)
    | DroppingContent(seen: Reading, key: string)

  /** Down: the process has just started. Sweeping: these readings of the sweep's
      list are still to be enqueued. Serving: commands are accepted. */
  datatype Boot = Down | Sweeping(list: seq<Recovered>) | Serving

  datatype Sys = Sys(d: P.State, rows: map<string, Entry>, blobs: set<string>, procs: map<nat, Proc>,
                     cmds: map<string, Cmd>, boot: Boot)

  function Initial(now: int): Sys {
    Sys(P.Initial(now), map[], {}, map[], map[], Down)
  }

  // ------------------------------------------------------------------
  // Dispatcher steps that touch rows

  predicate At(s: Sys, k: nat) { k in s.d.tasks && s.d.tasks[k].item.id in s.rows }

  function IdOf(s: Sys, k: nat): string
    requires k in s.d.tasks
  {
    s.d.tasks[k].item.id
  }

  function EntryOf(s: Sys, k: nat): Entry
    requires At(s, k)
  {
    s.rows[IdOf(s, k)]
  }

  function SetRow(s: Sys, id: string, e: Entry): Sys { s.(rows := s.rows[id := e]) }

  predicate CanStart(s: Sys, k: nat, start: int) { At(s, k) && P.CanStartOk(s.d, k, start) }

  function DoStart(s: Sys, k: nat, start: int): Sys
    requires CanStart(s, k, start)
  {
    var e := EntryOf(s, k);
    SetRow(s, IdOf(s, k), e.(r := RunningRow(e.r, start, s.d.tasks[k].item.attempt)))
      .(d := P.DoStartOk(s.d, k, start), procs := s.procs[s.d.tasks[k].phase.run := Loading])
  }

  predicate CanFinish(c: Config, s: Sys, k: nat, at: int) {
    At(s, k) && P.CanSettle(c.d, s.d, k) && at <= s.d.now
  }

  /** The terminal status write of the holder; lands says whether the store took it. */
  function FinishEntry(c: Config, e: Entry, t: P.Task, at: int, message: string): Entry
    requires t.phase.Deciding?
  {
    if P.Action(c.d, t).markFailed then e.(r := FailedRow(e.r, at, t.item.attempt, message))
    else e.(r := ReadyRow(e.r, at), readyBy := Some(t.phase.run))
  }

  function DoFinish(c: Config, s: Sys, k: nat, at: int, message: string, lands: bool): Sys
    requires CanFinish(c, s, k, at)
  {
    var t := s.d.tasks[k];
    var s1 := if Holds(s.d.table, t.item) && lands
              then SetRow(s, t.item.id, FinishEntry(c, s.rows[t.item.id], t, at, message)) else s;
    s1.(d := P.DoSettle(s.d, k))
  }

  predicate CanAgain(c: Config, s: Sys, k: nat, k2: nat, at: int) {
    At(s, k) && P.CanRedispatch(c.d, s.d, k, k2) && at <= s.d.now
  }

  function DoAgain(c: Config, s: Sys, k: nat, k2: nat, at: int, lands: bool): Sys
    requires CanAgain(c, s, k, k2, at)
  {
    var t := s.d.tasks[k];
    var e := s.rows[t.item.id];
    var s1 := if Holds(s.d.table, t.item) && lands
              then SetRow(s, t.item.id, e.(r := PendingRow(e.r, at, P.Action(c.d, t).nextAttempt))) else s;
    s1.(d := P.DoRedispatch(c.d, s.d, k, k2))
  }

  /** A holder that would go on without a delay seam: its pending write may land, and
      then the process dies. */
  predicate CanPanic(c: Config, s: Sys, k: nat, at: int) {
    At(s, k) && P.CanPanic(c.d, s.d, k) && at <= s.d.now
  }

  function PanicEntry(c: Config, s: Sys, k: nat, at: int): Entry
    requires CanPanic(c, s, k, at)
  {
    EntryOf(s, k).(r := PendingRow(EntryOf(s, k).r, at, P.Action(c.d, s.d.tasks[k]).nextAttempt))
  }

  function DoPanic(c: Config, s: Sys, k: nat, at: int, lands: bool): Sys
    requires CanPanic(c, s, k, at)
  {
    DoCrash(if lands then SetRow(s, IdOf(s, k), PanicEntry(c, s, k, at)) else s)
  }

  // ------------------------------------------------------------------
  // Pipeline steps

  predicate Handling(s: Sys, k: nat) {
    At(s, k) && s.d.tasks[k].phase.Handling? && s.d.tasks[k].phase.run in s.procs
  }

  function RunOf(s: Sys, k: nat): nat
    requires Handling(s, k)
  {
    s.d.tasks[k].phase.run
  }

  function ProcOf(s: Sys, k: nat): Proc
    requires Handling(s, k)
  {
    s.procs[RunOf(s, k)]
  }

  predicate AtStage(s: Sys, k: nat, stage: Stage) {
    Handling(s, k) && ProcOf(s, k).Proc? && ProcOf(s, k).stage == stage
  }

  function SetProc(s: Sys, k: nat, p: Proc): Sys
    requires Handling(s, k)
  {
    s.(procs := s.procs[RunOf(s, k) := p])
  }

  predicate CanLoad(s: Sys, k: nat) {
    Handling(s, k) && ProcOf(s, k).Loading? && RunOf(s, k) !in s.d.table.cancelled
  }

  function DoLoad(s: Sys, k: nat): Sys
    requires CanLoad(s, k)
  {
    SetProc(s, k, Proc(EntryOf(s, k).r, Loaded, "", ""))
  }

  /** Re-entry on the content of an earlier run. */
  predicate CanReuse(s: Sys, k: nat) {
    AtStage(s, k, Loaded) && ProcOf(s, k).snap.kind != Reddit
    && ProcOf(s, k).snap.contentKey != "" && ProcOf(s, k).snap.contentKey in s.blobs
  }

  function DoReuse(s: Sys, k: nat): Sys
    requires CanReuse(s, k)
  {
    var p := ProcOf(s, k);
    SetProc(s, k, p.(stage := Reused, ck := p.snap.contentKey, rk := p.snap.rawKey))
  }

  /** Markdown reads its stored body; a YouTube video key keeps the row's raw key;
      everything else stores the fetched body first. */
  predicate CanAcquire(s: Sys, k: nat, video: bool) {
    AtStage(s, k, Loaded) && ProcOf(s, k).snap.contentKey == "" && ProcOf(s, k).snap.kind != Reddit
    && (ProcOf(s, k).snap.kind == Markdown ==> ProcOf(s, k).snap.rawKey != "" && ProcOf(s, k).snap.rawKey in s.blobs)
    && (video ==> ProcOf(s, k).snap.kind == YouTube)
  }

  function DoAcquire(s: Sys, k: nat, video: bool): Sys
    requires CanAcquire(s, k, video)
  {
    var p := ProcOf(s, k);
    var ck := ContentKey(p.snap.id, p.snap.startedAt);
    if p.snap.kind == Markdown || video
    then SetProc(s, k, p.(stage := Acquired, ck := ck, rk := p.snap.rawKey))
    else
      var rk := RawKey(p.snap.id, p.snap.startedAt);
      SetProc(s, k, p.(stage := Acquired, ck := ck, rk := rk)).(blobs := s.blobs + {rk})
  }

  function DoIndex(s: Sys, k: nat): Sys
    requires AtStage(s, k, Acquired)
  {
    var p := ProcOf(s, k);
    SetProc(s, k, p.(stage := Indexed)).(blobs := s.blobs + {p.ck})
  }

  /** A guarded content write of this run would land. */
  predicate Fence(s: Sys, k: nat) {
    Handling(s, k) && ProcOf(s, k).Proc? && FenceOpen(EntryOf(s, k).r, ProcOf(s, k).snap.startedAt)
  }

  function ContentEntry(e: Entry, run: nat, p: Proc, now: int, title: string, derived: Derived): Entry
    requires p.Proc?
  {
    e.(r := WithContent(e.r, ContentFields(now, p.snap.startedAt, title, derived, p.ck, p.rk)), contentBy := Some(run))
  }

  /** UpdateContent lands and the run moves on. */
  function DoContent(s: Sys, k: nat, stage: Stage, title: string, derived: Derived): Sys
    requires Fence(s, k)
  {
    var p := ProcOf(s, k);
    SetProc(SetRow(s, IdOf(s, k), ContentEntry(EntryOf(s, k), RunOf(s, k), p, s.d.now, title, derived)), k, p.(stage := stage))
  }

  function DoTags(s: Sys, k: nat, tags: seq<string>): Sys
    requires Fence(s, k)
  {
    var p, e := ProcOf(s, k), EntryOf(s, k);
    var e' := e.(r := WithTags(e.r, tags, TagFields(s.d.now, p.snap.startedAt)), tagsBy := Some(RunOf(s, k)));
    SetProc(SetRow(s, IdOf(s, k), e'), k, p.(stage := TagsWritten))
  }

  /** The index keeps a vector of a later generation. */
  function Upserted(v: Option<Vec>, gen: Option<int>, run: nat): Option<Vec> {
    if v.Some? && V.Outranks(v.value.gen, gen) then v else Some(Vec(gen, run))
  }

  predicate CanUpsert(s: Sys, k: nat) { AtStage(s, k, Checkpointed) || AtStage(s, k, Reused) }

  function DoUpsert(s: Sys, k: nat): Sys
    requires CanUpsert(s, k)
  {
    var p, e := ProcOf(s, k), EntryOf(s, k);
    SetProc(SetRow(s, IdOf(s, k), e.(vec := Upserted(e.vec, p.snap.startedAt, RunOf(s, k)))), k, p.(stage := Stage.Upserted))
  }

  function DoSummarize(s: Sys, k: nat): Sys
    requires AtStage(s, k, Stage.Upserted)
  {
    SetProc(s, k, ProcOf(s, k).(stage := Summarized))
  }

  /** Process returns. */
  function DoComplete(s: Sys, k: nat, res: Retry.Result): Sys
    requires Handling(s, k)
  {
    s.(d := P.DoReturn(s.d, k, res))
  }

  // ------------------------------------------------------------------
  // Command steps

  function SetCmd(s: Sys, id: string, cmd: Cmd): Sys { s.(cmds := s.cmds[id := cmd]) }

  function EndCmd(s: Sys, id: string): Sys { s.(cmds := s.cmds - {id}) }

  function DropBlob(s: Sys, key: string, lands: bool): Sys {
    if lands && key != "" then s.(blobs := s.blobs - {key}) else s
  }

  predicate NewRecord(s: Sys, rec: Reading) {
    s.boot.Serving? && rec.id !in s.rows && rec.id !in s.cmds && NoSlash(rec.id)
    && rec.status == Pending && rec.contentKey == "" && rec.startedAt.None? && rec.attempts == 0
  }

  function NewEntry(s: Sys, rec: Reading): Entry {
    Entry(rec, None, None, None, None, s.d.now, s.d.nextRun)
  }

  predicate Idle(s: Sys, id: string) { s.boot.Serving? && id in s.rows && id !in s.cmds }

  /** IngestURL of a new key: SaveReading lands. */
  predicate CanIngest(s: Sys, rec: Reading) { NewRecord(s, rec) && rec.rawKey == "" && rec.kind != Markdown }

  function DoIngest(s: Sys, rec: Reading): Sys {
    SetCmd(SetRow(s, rec.id, NewEntry(s, rec)), rec.id, Submitting)
  }

  /** IngestURL of a failed reading, or Reprocess of a finished one. */
  predicate CanMark(s: Sys, id: string) { Idle(s, id) && Terminal(s.rows[id].r.status) }

  predicate CanMarkRead(s: Sys, id: string) { id in s.rows && id in s.cmds && s.cmds[id].Marking? }

  /** markPending reads the row. */
  function DoMarkRead(s: Sys, id: string): Sys
    requires CanMarkRead(s, id)
  {
    SetCmd(s, id, Resetting(KeptRaw(s.rows[id].r), KeptTitle(s.rows[id].r)))
  }

  function ResetEntry(s: Sys, e: Entry, rawKey: string, title: string): Entry {
    e.(r := WithReprocess(e.r, ReprocessFields(s.d.now, rawKey, title)), contentBy := None,
       resetAt := s.d.now, resetRun := s.d.nextRun)
  }

  predicate CanReset(s: Sys, id: string) { id in s.rows && id in s.cmds && s.cmds[id].Resetting? }

  function DoReset(s: Sys, id: string): Sys
    requires CanReset(s, id)
  {
    var cmd := s.cmds[id];
    SetCmd(SetRow(s, id, ResetEntry(s, s.rows[id], cmd.rawKey, cmd.title)), id, Submitting)
  }

  predicate CanGiveUp(s: Sys, id: string) { id in s.cmds && (s.cmds[id].Marking? || s.cmds[id].Resetting?) }

  /** Submit: claims the id, or drops the duplicate. */
  predicate CanSubmit(s: Sys, id: string, k: nat) { id in s.cmds && s.cmds[id].Submitting? && k !in s.d.tasks }

  function DoSubmit(s: Sys, id: string, k: nat): Sys
    requires CanSubmit(s, id, k)
  {
    if id in s.d.table.inflight then EndCmd(s, id)
    else EndCmd(s, id).(d := P.DoClaim(s.d, k, id, 0, false))
  }

  /** Reprocess of a stale pending or running reading. */
  predicate CanDecideForce(c: Config, s: Sys, id: string) { Idle(s, id) && Stale(s.rows[id].r, s.d.now, c.ttls) }

  predicate CanForce(s: Sys, id: string, k: nat) {
    id in s.cmds && s.cmds[id] == Forcing(None) && P.CanForceClaim(s.d, k)
  }

  function DoForce(c: Config, s: Sys, id: string, k: nat): Sys
    requires CanForce(s, id, k)
  {
    SetCmd(s, id, Forcing(Some(k))).(d := P.DoForceClaim(c.d, s.d, k, id))
  }

  predicate ForcedBy(s: Sys, id: string, k: nat) {
    id in s.cmds && (s.cmds[id] == Forcing(Some(k)) || (s.cmds[id].ForceResetting? && s.cmds[id].forced == k))
  }

  predicate CanForceAbort(s: Sys, id: string, k: nat) { ForcedBy(s, id, k) && P.CanWaitAbort(s.d, k) }

  predicate CanForceRead(s: Sys, id: string, k: nat) {
    id in s.rows && id in s.cmds && s.cmds[id] == Forcing(Some(k)) && P.CanCallback(s.d, k)
  }

  function DoForceRead(s: Sys, id: string, k: nat): Sys
    requires CanForceRead(s, id, k)
  {
    SetCmd(s, id, ForceResetting(k, KeptRaw(s.rows[id].r), KeptTitle(s.rows[id].r)))
  }

  predicate CanForceReset(s: Sys, id: string, k: nat) {
    id in s.rows && id in s.cmds && s.cmds[id].ForceResetting? && s.cmds[id].forced == k && P.CanCallback(s.d, k)
  }

  function DoForceReset(s: Sys, id: string, k: nat): Sys
    requires CanForceReset(s, id, k)
  {
    var cmd := s.cmds[id];
    EndCmd(SetRow(s, id, ResetEntry(s, s.rows[id], cmd.rawKey, cmd.title)), id)
      .(d := P.Unlock(P.Move(s.d, k, P.Queueing)))
  }

  predicate CanForceFail(s: Sys, id: string, k: nat) { ForcedBy(s, id, k) && P.CanCallback(s.d, k) }

  /** The forced submit ends without a reset: its wait was aborted, or beforeQueue
      failed. */
  function DoForceEnd(s: Sys, id: string, k: nat): Sys
    requires k in s.d.tasks
  {
    EndCmd(s, id).(d := P.Unlock(P.Quit(s.d, k)))
  }

  /** ImportMarkdown of a new key: the body is stored first. */
  predicate CanImport(s: Sys, rec: Reading) {
    NewRecord(s, rec) && rec.kind == Markdown && rec.rawKey == ImportKey(rec.id)
  }

  function DoImport(s: Sys, rec: Reading): Sys {
    SetCmd(s, rec.id, Creating(rec)).(blobs := s.blobs + {rec.rawKey})
  }

  predicate CanCreate(s: Sys, id: string) { id in s.cmds && s.cmds[id].Creating? && id !in s.rows }

  function DoCreate(s: Sys, id: string): Sys
    requires CanCreate(s, id)
  {
    SetCmd(SetRow(s, id, NewEntry(s, s.cmds[id].rec)), id, Submitting)
  }

  function DoCreateFails(s: Sys, id: string): Sys
    requires CanCreate(s, id)
  {
    SetCmd(s, id, Uncreating(s.cmds[id].rec.rawKey))
  }

  predicate CanUncreate(s: Sys, id: string) { id in s.cmds && (s.cmds[id].Uncreating? || s.cmds[id].Unreplacing?) }

  function DoUncreate(s: Sys, id: string, lands: bool): Sys
    requires CanUncreate(s, id)
  {
    EndCmd(DropBlob(s, s.cmds[id].key, lands), id)
  }

  /** ImportMarkdown over a failed reading: the new body is stored under a new key. */
  predicate CanReplace(s: Sys, id: string) { Idle(s, id) && s.rows[id].r.status == Failed }

  function DoReplace(s: Sys, id: string, base: string, title: string, tags: seq<string>): Sys
    requires CanReplace(s, id)
  {
    var r := s.rows[id].r;
    var key := ReplacementKey(id, base, r.rawKey, r.contentKey);
    SetCmd(s, id, Replacing(r, key, title, tags)).(blobs := s.blobs + {key})
  }

  predicate CanImportWrite(s: Sys, id: string) { id in s.rows && id in s.cmds && s.cmds[id].Replacing? }

  function DoImportWrite(s: Sys, id: string): Sys
    requires CanImportWrite(s, id)
  {
    var cmd, e := s.cmds[id], s.rows[id];
    var e' := e.(r := WithImport(e.r, ImportFields(s.d.now, Markdown, cmd.title, cmd.key, cmd.tags)),
                 contentBy := None, tagsBy := None, resetAt := s.d.now, resetRun := s.d.nextRun);
    SetCmd(SetRow(s, id, e'), id, DroppingRaw(cmd.seen, cmd.key))
  }

  function DoImportFails(s: Sys, id: string): Sys
    requires CanImportWrite(s, id)
  {
    SetCmd(s, id, Unreplacing(s.cmds[id].key))
  }

  predicate CanDropRaw(s: Sys, id: string) { id in s.cmds && s.cmds[id].DroppingRaw? }

  function DoDropRaw(s: Sys, id: string, lands: bool): Sys
    requires CanDropRaw(s, id)
  {
    var cmd := s.cmds[id];
    SetCmd(DropBlob(s, cmd.seen.rawKey, lands), id, DroppingContent(cmd.seen, cmd.key))
  }

  predicate CanDropContent(s: Sys, id: string) { id in s.cmds && s.cmds[id].DroppingContent? }

  function DoDropContent(s: Sys, id: string, lands: bool): Sys
    requires CanDropContent(s, id)
  {
    SetCmd(DropBlob(s, s.cmds[id].seen.contentKey, lands), id, Submitting)
  }

  // ------------------------------------------------------------------
  // Start and crash

  function SetStage(s: Sys, boot: Boot): Sys { s.(boot := boot) }

  /** The answer of ListNonTerminal, in some order. */
  predicate CanList(c: Config, s: Sys, list: seq<Recovered>) {
    && s.boot.Down?
    && (forall i | 0 <= i < |list| :: list[i].id in s.rows
          && Recoverable(s.rows[list[i].id].r, s.d.now - c.ttls.running) && s.rows[list[i].id].r.attempts == list[i].attempts)
    && (forall i, j :: 0 <= i < j < |list| ==> list[i].id != list[j].id)
    && (forall id :: id in s.rows && Recoverable(s.rows[id].r, s.d.now - c.ttls.running) ==>
          exists i :: 0 <= i < |list| && list[i].id == id)
  }

  predicate CanSweep(s: Sys, k: nat) { s.boot.Sweeping? && s.boot.list != [] && k !in s.d.tasks }

  /** One turn of the sweep's loop. */
  function DoSweep(s: Sys, k: nat): Sys
    requires CanSweep(s, k)
  {
    var p := s.boot.list[0];
    var s1 := SetStage(s, Sweeping(s.boot.list[1..]));
    if p.id in s.d.table.inflight then s1 else s1.(d := P.DoClaim(s.d, k, p.id, p.attempts, true))
  }

  function DoCrash(s: Sys): Sys {
    s.(d := P.DoCrash(s.d), procs := map[], cmds := map[], boot := Down)
  }

  // ------------------------------------------------------------------
  // Labels and runs

  datatype Label =
    | Internal(l: P.Label)
    | Start(k: nat, start: int)
    | Finish(k: nat, at: int, message: string, lands: bool)
    | Again(k: nat, k2: nat, at: int, lands: bool)
    | Panic(k: nat, at: int, lands: bool)
    | Load(k: nat)
    | Reuse(k: nat)
    | Acquire(k: nat, video: bool)
    | Index(k: nat)
    | Checkpoint(k: nat, title: string, derived: Derived)
    | Upsert(k: nat)
    | Summarize(k: nat)
    | WriteContent(k: nat, title: string, derived: Derived)
    | WriteTags(k: nat, tags: seq<string>)
    | WriteDiagnostics(k: nat, title: string, derived: Derived)
    | Complete(k: nat)
    | Fail(k: nat, res: Retry.Result)
    | Ingest(rec: Reading)
    | Mark(id: string)
    | MarkRead(id: string)
    | Reset(id: string)
    | GiveUp(id: string)
    | Submit(id: string, k: nat)
    | DecideForce(id: string)
    | Force(id: string, k: nat)
    | ForceAbort(id: string, k: nat)
    | ForceRead(id: string, k: nat)
    | ForceReset(id: string, k: nat)
    | ForceFail(id: string, k: nat)
    | Import(rec: Reading)
    | Create(id: string)
    | CreateFails(id: string)
    | Uncreate(id: string, lands: bool)
    | Replace(id: string, base: string, title: string, tags: seq<string>)
    | ImportWrite(id: string)
    | ImportFails(id: string)
    | DropRaw(id: string, lands: bool)
    | DropContent(id: string, lands: bool)
    | List(list: seq<Recovered>)
    | Sweep(k: nat)
    | Serve
    | Crash

  /** Dispatcher steps that touch nothing else. */
  predicate Quiet(l: P.Label) {
    l.WaitClean? || l.WaitTimeout? || l.Resume? || l.QueueCheck? || l.Send? || l.RunInline? || l.Drain? || l.Receive?
    || l.Begin? || l.StartFails? || l.Check? || l.Fire? || l.Exit? || l.Tick?
  }

  function DoInternal(c: Config, s: Sys, l: P.Label): Sys
    requires P.Can(c.d, s.d, l)
  {
    s.(d := P.Do(c.d, s.d, l))
  }

  predicate IsPipeline(l: Label) {
    l.Load? || l.Reuse? || l.Acquire? || l.Index? || l.Checkpoint? || l.Upsert? || l.Summarize? || l.WriteContent?
    || l.WriteTags? || l.WriteDiagnostics? || l.Complete? || l.Fail?
  }

  predicate IsCore(l: Label) {
    l.Internal? || l.Start? || l.Finish? || l.Again? || l.Panic? || l.List? || l.Sweep? || l.Serve? || l.Crash?
  }

  predicate CanCore(c: Config, s: Sys, l: Label)
    requires IsCore(l)
  {
    match l
    case Internal(pl) => Quiet(pl) && P.Can(c.d, s.d, pl)
    case Start(k, start) => CanStart(s, k, start)
    case Finish(k, at, _, _) => CanFinish(c, s, k, at)
    case Again(k, k2, at, _) => CanAgain(c, s, k, k2, at)
    case Panic(k, at, _) => CanPanic(c, s, k, at)
    case List(list) => CanList(c, s, list)
    case Sweep(k) => CanSweep(s, k)
    case Serve => s.boot == Sweeping([])
    case Crash => true
  }

  function DoCore(c: Config, s: Sys, l: Label): Sys
    requires IsCore(l) && CanCore(c, s, l)
  {
    match l
    case Internal(pl) => DoInternal(c, s, pl)
    case Start(k, start) => DoStart(s, k, start)
    case Finish(k, at, message, lands) => DoFinish(c, s, k, at, message, lands)
    case Again(k, k2, at, lands) => DoAgain(c, s, k, k2, at, lands)
    case Panic(k, at, lands) => DoPanic(c, s, k, at, lands)
    case List(list) => SetStage(s, Sweeping(list))
    case Sweep(k) => DoSweep(s, k)
    case Serve => SetStage(s, Serving)
    case Crash => DoCrash(s)
  }

  predicate CanPipeline(s: Sys, l: Label)
    requires IsPipeline(l)
  {
    match l
    case Load(k) => CanLoad(s, k)
    case Reuse(k) => CanReuse(s, k)
    case Acquire(k, video) => CanAcquire(s, k, video)
    case Index(k) => AtStage(s, k, Acquired)
    case Checkpoint(k, _, _) => AtStage(s, k, Indexed) && Fence(s, k)
    case Upsert(k) => CanUpsert(s, k)
    case Summarize(k) => AtStage(s, k, Stage.Upserted)
    case WriteContent(k, _, _) => AtStage(s, k, Summarized) && Fence(s, k)
    case WriteTags(k, _) => AtStage(s, k, ContentWritten) && Fence(s, k)
    case WriteDiagnostics(k, _, _) => AtStage(s, k, TagsWritten) && Fence(s, k)
    case Complete(k) => AtStage(s, k, TagsWritten)
    case Fail(k, res) => Handling(s, k) && res.outcome != Retry.Done
  }

  function DoPipeline(s: Sys, l: Label): Sys
    requires IsPipeline(l) && CanPipeline(s, l)
  {
    match l
    case Load(k) => DoLoad(s, k)
    case Reuse(k) => DoReuse(s, k)
    case Acquire(k, video) => DoAcquire(s, k, video)
    case Index(k) => DoIndex(s, k)
    case Checkpoint(k, title, derived) => DoContent(s, k, Checkpointed, title, derived)
    case Upsert(k) => DoUpsert(s, k)
    case Summarize(k) => DoSummarize(s, k)
    case WriteContent(k, title, derived) => DoContent(s, k, ContentWritten, title, derived)
    case WriteTags(k, tags) => DoTags(s, k, tags)
    case WriteDiagnostics(k, title, derived) => DoContent(s, k, TagsWritten, title, derived)
    case Complete(k) => DoComplete(s, k, Retry.Result(Retry.Done, 0))
    case Fail(k, res) => DoComplete(s, k, res)
  }

  predicate CanCommand(c: Config, s: Sys, l: Label)
    requires !IsCore(l) && !IsPipeline(l)
  {
    match l
    case Ingest(rec) => CanIngest(s, rec)
    case Mark(id) => CanMark(s, id)
    case MarkRead(id) => CanMarkRead(s, id)
    case Reset(id) => CanReset(s, id)
    case GiveUp(id) => CanGiveUp(s, id)
    case Submit(id, k) => CanSubmit(s, id, k)
    case DecideForce(id) => CanDecideForce(c, s, id)
    case Force(id, k) => CanForce(s, id, k)
    case ForceAbort(id, k) => CanForceAbort(s, id, k)
    case ForceRead(id, k) => CanForceRead(s, id, k)
    case ForceReset(id, k) => CanForceReset(s, id, k)
    case ForceFail(id, k) => CanForceFail(s, id, k)
    case Import(rec) => CanImport(s, rec)
    case Create(id) => CanCreate(s, id)
    case CreateFails(id) => CanCreate(s, id)
    case Uncreate(id, _) => CanUncreate(s, id)
    case Replace(id, _, _, _) => CanReplace(s, id)
    case ImportWrite(id) => CanImportWrite(s, id)
    case ImportFails(id) => CanImportWrite(s, id)
    case DropRaw(id, _) => CanDropRaw(s, id)
    case DropContent(id, _) => CanDropContent(s, id)
  }

  function DoCommand(c: Config, s: Sys, l: Label): Sys
    requires !IsCore(l) && !IsPipeline(l) && CanCommand(c, s, l)
  {
    match l
    case Ingest(rec) => DoIngest(s, rec)
    case Mark(id) => SetCmd(s, id, Marking)
    case MarkRead(id) => DoMarkRead(s, id)
    case Reset(id) => DoReset(s, id)
    case GiveUp(id) => EndCmd(s, id)
    case Submit(id, k) => DoSubmit(s, id, k)
    case DecideForce(id) => SetCmd(s, id, Forcing(None))
    case Force(id, k) => DoForce(c, s, id, k)
    case ForceAbort(id, k) => DoForceEnd(s, id, k)
    case ForceRead(id, k) => DoForceRead(s, id, k)
    case ForceReset(id, k) => DoForceReset(s, id, k)
    case ForceFail(id, k) => DoForceEnd(s, id, k)
    case Import(rec) => DoImport(s, rec)
    case Create(id) => DoCreate(s, id)
    case CreateFails(id) => DoCreateFails(s, id)
    case Uncreate(id, lands) => DoUncreate(s, id, lands)
    case Replace(id, base, title, tags) => DoReplace(s, id, base, title, tags)
    case ImportWrite(id) => DoImportWrite(s, id)
    case ImportFails(id) => DoImportFails(s, id)
    case DropRaw(id, lands) => DoDropRaw(s, id, lands)
    case DropContent(id, lands) => DoDropContent(s, id, lands)
  }

  predicate Can(c: Config, s: Sys, l: Label) {
    if IsCore(l) then CanCore(c, s, l) else if IsPipeline(l) then CanPipeline(s, l) else CanCommand(c, s, l)
  }

  function Do(c: Config, s: Sys, l: Label): Sys
    requires Can(c, s, l)
  {
    if IsCore(l) then DoCore(c, s, l) else if IsPipeline(l) then DoPipeline(s, l) else DoCommand(c, s, l)
  }

  function Exec(c: Config, s: Sys, run: seq<Label>): Option<Sys>
    decreases |run|
  {
    if run == [] then Some(s)
    else if Can(c, s, run[0]) then Exec(c, Do(c, s, run[0]), run[1..])
    else None
  }
}
