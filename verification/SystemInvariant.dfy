/** The inductive invariant of the joined system. */
module SystemInvariant {
  import opened Basics
  import opened Claims
  import opened Readings
  import opened BlobKeys
  import opened System
  import P = Protocol
  import PI = ProtocolInvariant

  // ------------------------------------------------------------------
  // Vocabulary

  /** A forced submit owns the id and has not reset its row yet. */
  ghost predicate PreForce(s: Sys, id: string) {
    s.d.force.Some? && s.d.force.value in s.d.tasks && s.d.tasks[s.d.force.value].item.id == id
  }

  /** The id is owned on behalf of work that is queued, delayed or running. */
  ghost predicate Owned(s: Sys, id: string) { id in s.d.table.inflight && !PreForce(s, id) }

  /** The run's start has been written to the row. */
  ghost predicate Started(p: P.Phase) { p.Handling? || p.Returned? || p.Deciding? }

  ghost predicate StartedTask(s: Sys, k: nat) { k in s.d.tasks && Started(s.d.tasks[k].phase) }

  ghost predicate KeyOK(s: Sys, id: string, key: string) { key == "" || (Owns(id, key) && key in s.blobs) }

  /** Content, tags, vector and ready status all come from one run since the reset. */
  ghost predicate Whole(e: Entry) {
    && e.readyBy.Some? && e.contentBy == e.readyBy && e.tagsBy == e.readyBy && e.r.contentKey != ""
    && VectorBy(e, e.readyBy.value) && e.resetRun <= e.readyBy.value
  }

  ghost predicate VectorBy(e: Entry, run: nat) { e.vec.Some? && e.vec.value.run == run }

  /** The vector's generation is no later than t. */
  ghost predicate VectorUpTo(e: Entry, t: int) {
    e.vec.Some? ==> e.vec.value.gen.Some? && e.vec.value.gen.value <= t
  }

  // ------------------------------------------------------------------
  // Rows

  ghost predicate EntryOK(s: Sys, id: string)
    requires id in s.rows
  {
    var e := s.rows[id];
    && e.r.id == id && NoSlash(id)
    && KeyOK(s, id, e.r.contentKey) && KeyOK(s, id, e.r.rawKey)
    && e.resetAt <= s.d.now && e.resetRun <= s.d.nextRun
    && (e.r.startedAt.Some? ==> e.resetAt <= e.r.startedAt.value <= s.d.now)
    && (e.r.status.Running? ==> e.r.startedAt.Some?)
    && (e.r.status.Ready? ==> Whole(e))
    && VectorUpTo(e, s.d.now)
    && (e.vec.Some? ==> e.vec.value.run < s.d.nextRun)
    && (e.vec.Some? && e.vec.value.run >= e.resetRun ==> e.vec.value.gen.value >= e.resetAt)
  }

  ghost predicate Entries(s: Sys) { forall id :: id in s.rows ==> EntryOK(s, id) }

  // ------------------------------------------------------------------
  // Ownership and attempts

  ghost predicate OwnOK(s: Sys, id: string) {
    && id in s.rows
    && (PreForce(s, id) || s.rows[id].r.status.Pending? || s.rows[id].r.status.Running?)
  }

  /** The holder's attempt is no lower than the stored one. */
  ghost predicate AttemptOK(s: Sys, it: Item) {
    Holds(s.d.table, it) && it.id in s.rows ==> it.attempt >= s.rows[it.id].r.attempts
  }

  ghost predicate Queued(d: P.State, k: nat) {
    k in d.tasks && P.Carries(d.tasks[k]) && !P.InForce(d.tasks[k].phase)
  }

  ghost predicate Ownership(s: Sys) {
    && (forall id :: id in s.d.table.inflight ==> OwnOK(s, id))
    && (forall k :: Queued(s.d, k) ==> AttemptOK(s, s.d.tasks[k].item))
    && (forall i :: 0 <= i < |s.d.ch| ==> AttemptOK(s, s.d.ch[i]))
  }

  // ------------------------------------------------------------------
  // Handlers

  /** The row has been reset since this run started: no write of it can land. */
  ghost predicate Fenced(e: Entry, p: P.Phase)
    requires Started(p)
  {
    p.start < e.resetAt && p.run < e.resetRun
  }

  /** The row still carries this run's lease. */
  ghost predicate Leased(e: Entry, p: P.Phase)
    requires Started(p)
  {
    && e.r.status.Running? && e.r.startedAt == Some(p.start) && e.resetAt <= p.start && e.resetRun <= p.run
    && VectorUpTo(e, p.start)
  }

  /** A replaced or disowned run whose row is not reset yet: whatever resets it will
      do so strictly after the run's start. */
  ghost predicate Timed(s: Sys, id: string, p: P.Phase)
    requires Started(p)
  {
    && (PreForce(s, id) ==>
          var q := s.d.tasks[s.d.force.value].phase;
          if q.Waiting? then p.run == q.wait && p.start <= q.since else p.start < s.d.now)
    && (id in s.cmds && s.cmds[id] == Forcing(None) ==> p.start < s.d.now)
  }

  ghost predicate HandlerOK(s: Sys, k: nat)
    requires k in s.d.tasks
  {
    var t := s.d.tasks[k];
    && (P.InHandler(t.phase) ==> t.item.id in s.rows)
    && (t.phase.Begun? && Holds(s.d.table, t.item) ==>
          && s.rows[t.item.id].resetAt <= t.phase.at && s.rows[t.item.id].resetRun <= t.phase.run
          && VectorUpTo(s.rows[t.item.id], t.phase.at))
    && (Started(t.phase) ==>
          if Holds(s.d.table, t.item) then Leased(s.rows[t.item.id], t.phase)
          else
            || Fenced(s.rows[t.item.id], t.phase)
            || (Leased(s.rows[t.item.id], t.phase) && !Owned(s, t.item.id) && Timed(s, t.item.id, t.phase)))
  }

  ghost predicate Handlers(s: Sys) { forall k :: k in s.d.tasks ==> HandlerOK(s, k) }

  /** The run can still write its row. */
  ghost predicate Live(s: Sys, k: nat) {
    StartedTask(s, k) && s.d.tasks[k].item.id in s.rows
    && s.rows[s.d.tasks[k].item.id].resetAt <= s.d.tasks[k].phase.start
  }

  /** At most one run per reading can still write its row. */
  ghost predicate OneLive(s: Sys) {
    forall j, k | Live(s, j) && Live(s, k) :: s.d.tasks[j].item.id == s.d.tasks[k].item.id ==> j == k
  }

  // ------------------------------------------------------------------
  // Pipelines

  ghost predicate Ahead(p: Proc)
    requires p.Proc?
  {
    p.stage.ContentWritten? || p.stage.TagsWritten?
  }

  /** This run's vector is in. */
  ghost predicate Vectored(p: Proc)
    requires p.Proc?
  {
    p.stage.Upserted? || p.stage.Summarized? || Ahead(p)
  }

  ghost predicate ProcKeys(s: Sys, id: string, p: Proc)
    requires p.Proc?
  {
    && KeyOK(s, id, p.snap.contentKey) && KeyOK(s, id, p.snap.rawKey) && KeyOK(s, id, p.rk)
    && (!p.stage.Loaded? ==> p.ck != "" && Owns(id, p.ck))
    && (!p.stage.Loaded? && !p.stage.Acquired? ==> p.ck in s.blobs)
  }

  ghost predicate ProcWrote(e: Entry, run: nat, p: Proc)
    requires p.Proc?
  {
    && (Ahead(p) ==> e.contentBy == Some(run) && e.r.contentKey != "")
    && (p.stage.TagsWritten? ==> e.tagsBy == Some(run))
    && (Vectored(p) ==> VectorBy(e, run))
  }

  ghost predicate ProcOK(s: Sys, k: nat)
    requires k in s.d.tasks
  {
    var t := s.d.tasks[k];
    && (t.phase.Handling? ==> t.phase.run in s.procs)
    && (t.phase.Handling? && s.procs[t.phase.run].Proc? ==>
          s.procs[t.phase.run].snap.startedAt == Some(t.phase.start) && s.procs[t.phase.run].snap.id == t.item.id)
    && (t.phase.Handling? && Live(s, k) && s.procs[t.phase.run].Proc? ==>
          && ProcKeys(s, t.item.id, s.procs[t.phase.run])
          && ProcWrote(s.rows[t.item.id], t.phase.run, s.procs[t.phase.run]))
    && ((t.phase.Returned? || t.phase.Deciding?) && Live(s, k) && t.phase.res.outcome.Done? ==>
          && s.rows[t.item.id].contentBy == Some(t.phase.run) && s.rows[t.item.id].tagsBy == Some(t.phase.run)
          && s.rows[t.item.id].r.contentKey != "" && VectorBy(s.rows[t.item.id], t.phase.run))
  }

  ghost predicate Procs(s: Sys) { forall k :: k in s.d.tasks ==> ProcOK(s, k) }

  // ------------------------------------------------------------------
  // Commands

  ghost predicate FreeRow(s: Sys, id: string) { id in s.rows && id !in s.d.table.inflight }

  ghost predicate Forcer(s: Sys, id: string, k: nat) {
    s.d.force == Some(k) && k in s.d.tasks && s.d.tasks[k].item.id == id && id in s.rows
  }

  /** The row has just been reset and waits to be claimed. */
  ghost predicate FreshRow(s: Sys, id: string) {
    FreeRow(s, id) && s.rows[id].r.status.Pending? && s.rows[id].r.attempts == 0
  }

  /** Where a command may be, by the state of its row and who owns it. */
  ghost predicate PlaceOK(s: Sys, id: string)
    requires id in s.cmds
  {
    s.boot.Serving? &&
    match s.cmds[id]
    case Marking => FreeRow(s, id) && Terminal(s.rows[id].r.status)
    case Resetting(_, _) => FreeRow(s, id) && Terminal(s.rows[id].r.status)
    case Submitting => FreshRow(s, id)
    case Forcing(None) => id in s.rows
    case Forcing(Some(k)) => Forcer(s, id, k)
    case ForceResetting(k, _, _) => Forcer(s, id, k) && s.d.tasks[k].phase.Callback?
    case Creating(rec) =>
      id !in s.rows && id !in s.d.table.inflight && rec.status.Pending? && rec.attempts == 0
    case Uncreating(_) => id !in s.rows
    case Replacing(_, _, _, _) => FreeRow(s, id) && s.rows[id].r.status.Failed?
    case Unreplacing(_) => FreeRow(s, id) && Terminal(s.rows[id].r.status)
    case DroppingRaw(_, _) => FreshRow(s, id)
    case DroppingContent(_, _) => FreshRow(s, id)
  }

  ghost predicate Dropping(s: Sys, id: string, seen: Reading, key: string)
    requires id in s.rows
  {
    && s.rows[id].r.rawKey == key && s.rows[id].r.contentKey == ""
    && seen.rawKey != key && seen.contentKey != key
    && (seen.rawKey != "" ==> Owns(id, seen.rawKey)) && (seen.contentKey != "" ==> Owns(id, seen.contentKey))
  }

  /** What the keys a command holds are to its row. */
  ghost predicate CmdOK(s: Sys, id: string)
    requires id in s.cmds
  {
    PlaceOK(s, id) &&
    match s.cmds[id]
    case Resetting(rawKey, _) => KeyOK(s, id, rawKey)
    case ForceResetting(_, rawKey, _) => KeyOK(s, id, rawKey)
    case Creating(rec) =>
      NoSlash(id) && rec.id == id && rec.contentKey == "" && rec.startedAt.None? && KeyOK(s, id, rec.rawKey)
    case Uncreating(key) => NoSlash(id) && (key == "" || Owns(id, key))
    case Replacing(seen, key, _, _) =>
      && s.rows[id].r == seen
      && Owns(id, key) && key in s.blobs && key != seen.rawKey && key != seen.contentKey
    case Unreplacing(key) =>
      Owns(id, key) && key != s.rows[id].r.rawKey && key != s.rows[id].r.contentKey
    case DroppingRaw(seen, key) => Dropping(s, id, seen, key)
    case DroppingContent(seen, key) => Dropping(s, id, seen, key)
    case _ => true
  }

  /** Whoever holds the force mutex is the command on its reading. */
  ghost predicate Linked(s: Sys) {
    s.d.force.Some? ==>
      && s.d.force.value in s.d.tasks && s.d.tasks[s.d.force.value].item.attempt == 0
      && ForcedBy(s, s.d.tasks[s.d.force.value].item.id, s.d.force.value)
  }

  ghost predicate Places(s: Sys) { Linked(s) && forall id :: id in s.cmds ==> PlaceOK(s, id) }

  ghost predicate Cmds(s: Sys) { Linked(s) && forall id :: id in s.cmds ==> CmdOK(s, id) }

  // ------------------------------------------------------------------
  // Start

  ghost predicate ToSweep(s: Sys, p: Recovered) {
    && FreeRow(s, p.id) && s.rows[p.id].r.attempts == p.attempts
    && (s.rows[p.id].r.status.Pending? || s.rows[p.id].r.status.Running?)
  }

  ghost predicate Booting(s: Sys) {
    !s.boot.Serving? ==>
      && s.cmds == map[] && s.d.force.None?
      && (forall k :: k in s.d.tasks && P.InHandler(s.d.tasks[k].phase) ==> Holds(s.d.table, s.d.tasks[k].item))
      && (s.boot.Down? ==> s.d.table.inflight == map[])
      && (s.boot.Sweeping? ==>
            && (forall i :: 0 <= i < |s.boot.list| ==> ToSweep(s, s.boot.list[i]))
            && (forall i, j :: 0 <= i < j < |s.boot.list| ==> s.boot.list[i].id != s.boot.list[j].id))
  }

  ghost predicate Inv(s: Sys) {
    && PI.Inv(s.d) && Entries(s) && Ownership(s) && Handlers(s) && OneLive(s) && Procs(s) && Cmds(s) && Booting(s)
  }

  lemma InitialInv(now: int)
    ensures Inv(Initial(now))
  {
  }
}
