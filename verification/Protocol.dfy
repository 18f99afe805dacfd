/** The dispatcher of internal/dispatch/dispatcher.go as a step relation. A state
    holds the claim table, the bounded channel, every thread of control with its
    place in the code, the force mutex and the clock. One step is one critical
    section, one channel operation or one observation. Submit, ForceSubmitAfter and
    Sweep may be called at any time, for any id, by any number of callers. */
module Protocol {
  import opened Basics
  import opened Claims
  import Retry

  /** The exported fields of Dispatcher that steer control, and one fact about its ports:
      waitAdvance is the least that Clock advances during a forced wait which its timer
      ends. Delay and Clock are separate ports. Timers of the same machine as the clock
      fire no earlier than the budget they were given; a delayer that fires at will
      may fire while the clock stands still. */
  datatype Config = Config(isInline: bool, delaySet: bool, forceWaitTTL: int, buffer: int, max: int, waitAdvance: nat)

  function Budget(c: Config): (b: int)
    ensures b > 0 && (c.forceWaitTTL > 0 ==> b == c.forceWaitTTL)
  {
    if c.forceWaitTTL <= 0 then 5 * Retry.SECOND else c.forceWaitTTL
  }

  function Capacity(c: Config): (n: int)
    ensures n > 0 && (c.buffer > 0 ==> n == c.buffer)
  {
    if c.buffer <= 0 then 1024 else c.buffer
  }

  function MaxAttempts(c: Config): (m: int)
    ensures m > 0 && (c.max > 0 ==> m == c.max)
  {
    if c.max <= 0 then 5 else c.max
  }

  /** Where a thread of control is.
      Queueing: at the top of queueClaimed. Sending: past its active check.
      SweepSending: in the blocking send of enqueueRecovered.
      Waiting: in awaitStaleHandler. Resuming: before the active check that follows.
      Callback: about to call, or inside, beforeQueue.
      Received: a worker holds the item and has not called beginRun.
      Begun: before the running write. Handling: in Handler.
      Returned: before the active check after Handler. Deciding: past it.
      Delayed: a continuation scheduled through Delay.
      Exiting: in handle's deferred cancel and close. */
  datatype Phase =
    | Queueing
    | Sending
    | SweepSending
    | Waiting(wait: nat, since: int)
    | Resuming
    | Callback
    | Received
    | Begun(run: nat, at: int)
    | Handling(run: nat, start: int)
    | Returned(run: nat, start: int, res: Retry.Result)
    | Deciding(run: nat, start: int, res: Retry.Result)
    | Delayed
    | Exiting(run: nat)

  datatype Task = Task(item: Item, phase: Phase)

  datatype State = State(table: Table, ch: seq<Item>, tasks: map<nat, Task>,
                         force: Option<nat>, closed: set<nat>, nextRun: nat, now: int)

  predicate InForce(p: Phase) { p.Waiting? || p.Resuming? || p.Callback? }

  /** The phases in which this thread is the run of its item. */
  predicate InHandler(p: Phase) { p.Begun? || p.Handling? || p.Returned? || p.Deciding? }

  predicate HasRun(p: Phase) { InHandler(p) || p.Exiting? }

  predicate Carries(t: Task) { !t.phase.Exiting? }

  predicate At(s: State, k: nat) { k in s.tasks }

  function Initial(now: int): State {
    State(Table(map[], 0, {}), [], map[], None, {}, 0, now)
  }

  // ------------------------------------------------------------------
  // Building blocks of steps

  function Move(s: State, k: nat, p: Phase): State
    requires k in s.tasks
  {
    s.(tasks := s.tasks[k := s.tasks[k].(phase := p)])
  }

  function End(s: State, k: nat): State {
    s.(tasks := s.tasks - {k})
  }

  /** release, then the thread ends. */
  function Quit(s: State, k: nat): State
    requires k in s.tasks
  {
    End(s.(table := Release(s.table, s.tasks[k].item)), k)
  }

  function Unlock(s: State): State { s.(force := None) }

  // ------------------------------------------------------------------
  // Steps. Can… is the guard, Do… the effect.

  /** Submit and Sweep: claim succeeds and the thread goes on to enqueue. */
  predicate CanClaim(s: State, k: nat, id: string) {
    k !in s.tasks && id !in s.table.inflight
  }

  function DoClaim(s: State, k: nat, id: string, attempt: int, sweep: bool): State
    requires CanClaim(s, k, id)
  {
    var r := Acquire(s.table, id, attempt);
    s.(table := r.0, tasks := s.tasks[k := Task(r.1.value, if sweep then SweepSending else Queueing)])
  }

  predicate CanForceClaim(s: State, k: nat) {
    k !in s.tasks && s.force.None?
  }

  /** With a done channel to wait for and a delay seam, the thread waits; else it
      goes straight on. */
  function DoForceClaim(c: Config, s: State, k: nat, id: string): State
    requires CanForceClaim(s, k)
  {
    var (t, it) := ForceClaim(s.table, id);
    var wait := t.inflight[id].done;
    var p := if wait.Some? && c.delaySet then Waiting(wait.value, s.now) else Resuming;
    s.(table := t, tasks := s.tasks[k := Task(it, p)], force := Some(k))
  }

  predicate CanWaitClean(s: State, k: nat) {
    k in s.tasks && s.tasks[k].phase.Waiting? && s.tasks[k].phase.wait in s.closed
  }

  /** The wait timer fires. */
  predicate CanWaitTimeout(c: Config, s: State, k: nat) {
    k in s.tasks && s.tasks[k].phase.Waiting? && s.now >= s.tasks[k].phase.since + c.waitAdvance
  }

  predicate CanWaitAbort(s: State, k: nat) {
    k in s.tasks && s.tasks[k].phase.Waiting?
  }

  predicate CanResume(s: State, k: nat) {
    k in s.tasks && s.tasks[k].phase.Resuming?
  }

  function DoResume(s: State, k: nat): State
    requires CanResume(s, k)
  {
    if Holds(s.table, s.tasks[k].item) then Move(s, k, Callback) else Unlock(End(s, k))
  }

  predicate CanCallback(s: State, k: nat) {
    k in s.tasks && s.tasks[k].phase.Callback?
  }

  predicate CanQueueCheck(s: State, k: nat) {
    k in s.tasks && s.tasks[k].phase.Queueing?
  }

  function DoQueueCheck(s: State, k: nat): State
    requires CanQueueCheck(s, k)
  {
    if Holds(s.table, s.tasks[k].item) then Move(s, k, Sending) else End(s, k)
  }

  predicate CanSend(c: Config, s: State, k: nat) {
    k in s.tasks && !c.isInline &&
    (s.tasks[k].phase.Sending? || (s.tasks[k].phase.SweepSending? && |s.ch| < Capacity(c)))
  }

  /** A full channel drops the item and gives the claim up; Sweep blocks instead. */
  function DoSend(c: Config, s: State, k: nat): State
    requires CanSend(c, s, k)
  {
    if |s.ch| < Capacity(c) then End(s, k).(ch := s.ch + [s.tasks[k].item]) else Quit(s, k)
  }

  predicate CanRunInline(c: Config, s: State, k: nat) {
    c.isInline && k in s.tasks && (s.tasks[k].phase.Sending? || s.tasks[k].phase.SweepSending?)
  }

  /** Cancellation seen by a blocked sweep, or by a worker just after its receive. */
  predicate CanDrain(s: State, k: nat) {
    k in s.tasks && (s.tasks[k].phase.SweepSending? || s.tasks[k].phase.Received?)
  }

  predicate CanReceive(s: State, k: nat) {
    k !in s.tasks && s.ch != []
  }

  function DoReceive(s: State, k: nat): State
    requires CanReceive(s, k)
  {
    s.(ch := s.ch[1..], tasks := s.tasks[k := Task(s.ch[0], Received)])
  }

  predicate CanBeginRun(s: State, k: nat) {
    k in s.tasks && s.tasks[k].phase.Received?
  }

  function DoBeginRun(s: State, k: nat): State
    requires CanBeginRun(s, k)
  {
    var it := s.tasks[k].item;
    if Holds(s.table, it)
    then Move(s, k, Begun(s.nextRun, s.now)).(table := BeginRun(s.table, it, s.nextRun), nextRun := s.nextRun + 1)
    else End(s, k)
  }

  predicate CanStart(s: State, k: nat) {
    k in s.tasks && s.tasks[k].phase.Begun?
  }

  /** The running write lands: its context is not cancelled, and its start was read
      from the clock at some moment since beginRun. */
  predicate CanStartOk(s: State, k: nat, start: int) {
    CanStart(s, k) && s.tasks[k].phase.run !in s.table.cancelled && s.tasks[k].phase.at <= start <= s.now
  }

  function DoStartOk(s: State, k: nat, start: int): State
    requires CanStartOk(s, k, start)
  {
    Move(s, k, Handling(s.tasks[k].phase.run, start))
  }

  function DoStartFails(s: State, k: nat): State
    requires CanStart(s, k)
  {
    Move(s, k, Exiting(s.tasks[k].phase.run)).(table := Release(s.table, s.tasks[k].item))
  }

  predicate CanReturn(s: State, k: nat) {
    k in s.tasks && s.tasks[k].phase.Handling?
  }

  function DoReturn(s: State, k: nat, res: Retry.Result): State
    requires CanReturn(s, k)
  {
    var p := s.tasks[k].phase;
    Move(s, k, Returned(p.run, p.start, res))
  }

  predicate CanCheck(s: State, k: nat) {
    k in s.tasks && s.tasks[k].phase.Returned?
  }

  function DoCheck(s: State, k: nat): State
    requires CanCheck(s, k)
  {
    var p := s.tasks[k].phase;
    Move(s, k, if Holds(s.table, s.tasks[k].item) then Deciding(p.run, p.start, p.res) else Exiting(p.run))
  }

  function Action(c: Config, t: Task): Retry.Action
    requires t.phase.Deciding?
  {
    Retry.Decide(t.phase.res, t.item.attempt, MaxAttempts(c))
  }

  predicate CanSettle(c: Config, s: State, k: nat) {
    k in s.tasks && s.tasks[k].phase.Deciding? && !Action(c, s.tasks[k]).redispatch
  }

  /** finish: under the lock, the holder writes the terminal status and gives the
      id up; anyone else leaves without writing. */
  function DoSettle(s: State, k: nat): State
    requires k in s.tasks && s.tasks[k].phase.Deciding?
  {
    Move(s, k, Exiting(s.tasks[k].phase.run)).(table := Release(s.table, s.tasks[k].item))
  }

  /** The holder of the token needs a delay seam to go on; without one its call of
      After panics. */
  predicate CanRedispatch(c: Config, s: State, k: nat, k2: nat) {
    k in s.tasks && s.tasks[k].phase.Deciding? && Action(c, s.tasks[k]).redispatch && k2 !in s.tasks
    && (Holds(s.table, s.tasks[k].item) ==> c.delaySet)
  }

  /** The panic. On a goroutine of the pool or of a timer nobody recovers it, and the
      process ends; a caller of an inline dispatcher that recovers it is not modelled. */
  predicate CanPanic(c: Config, s: State, k: nat) {
    k in s.tasks && s.tasks[k].phase.Deciding? && Action(c, s.tasks[k]).redispatch
    && Holds(s.table, s.tasks[k].item) && !c.delaySet
  }

  /** redispatch: the holder's item moves to a delayed continuation. */
  function DoRedispatch(c: Config, s: State, k: nat, k2: nat): State
    requires CanRedispatch(c, s, k, k2)
  {
    var t := s.tasks[k];
    var s1 := Move(s, k, Exiting(t.phase.run));
    if Holds(s.table, t.item)
    then s1.(tasks := s1.tasks[k2 := Task(t.item.(attempt := Action(c, t).nextAttempt), Delayed)])
    else s1
  }

  predicate CanFire(s: State, k: nat) {
    k in s.tasks && s.tasks[k].phase.Delayed?
  }

  predicate CanExit(s: State, k: nat) {
    k in s.tasks && s.tasks[k].phase.Exiting?
  }

  function DoExit(s: State, k: nat): State
    requires CanExit(s, k)
  {
    var run := s.tasks[k].phase.run;
    End(s, k).(closed := s.closed + {run}, table := s.table.(cancelled := s.table.cancelled + {run}))
  }

  function DoTick(s: State, dt: nat): State { s.(now := s.now + dt) }

  /** The process dies: every thread, claim and queued item is gone, and tokens
      start again from zero. */
  function DoCrash(s: State): State {
    s.(table := Table(map[], 0, s.table.cancelled), ch := [], tasks := map[], force := None)
  }

  // ------------------------------------------------------------------
  // Labels and runs

  datatype Label =
    | Claim(k: nat, id: string, attempt: int, sweep: bool)
    | Force(k: nat, id: string)
    | WaitClean(k: nat)
    | WaitTimeout(k: nat)
    | WaitAbort(k: nat)
    | Resume(k: nat)
    | CallbackOk(k: nat)
    | CallbackFails(k: nat)
    | QueueCheck(k: nat)
    | Send(k: nat)
    | RunInline(k: nat)
    | Drain(k: nat)
    | Receive(k: nat)
    | Begin(k: nat)
    | StartOk(k: nat, start: int)
    | StartFails(k: nat)
    | Return(k: nat, res: Retry.Result)
    | Check(k: nat)
    | Settle(k: nat)
    | Redispatch(k: nat, k2: nat)
    | Fire(k: nat)
    | Exit(k: nat)
    | Tick(dt: nat)
    | Panic(k: nat)
    | Crash

  predicate Can(c: Config, s: State, l: Label) {
    match l
    case Claim(k, id, _, _) => CanClaim(s, k, id)
    case Force(k, _) => CanForceClaim(s, k)
    case WaitClean(k) => CanWaitClean(s, k)
    case WaitTimeout(k) => CanWaitTimeout(c, s, k)
    case WaitAbort(k) => CanWaitAbort(s, k)
    case Resume(k) => CanResume(s, k)
    case CallbackOk(k) => CanCallback(s, k)
    case CallbackFails(k) => CanCallback(s, k)
    case QueueCheck(k) => CanQueueCheck(s, k)
    case Send(k) => CanSend(c, s, k)
    case RunInline(k) => CanRunInline(c, s, k)
    case Drain(k) => CanDrain(s, k)
    case Receive(k) => CanReceive(s, k)
    case Begin(k) => CanBeginRun(s, k)
    case StartOk(k, start) => CanStartOk(s, k, start)
    case StartFails(k) => CanStart(s, k)
    case Return(k, _) => CanReturn(s, k)
    case Check(k) => CanCheck(s, k)
    case Settle(k) => CanSettle(c, s, k)
    case Redispatch(k, k2) => CanRedispatch(c, s, k, k2)
    case Fire(k) => CanFire(s, k)
    case Exit(k) => CanExit(s, k)
    case Tick(_) => true
    case Panic(k) => CanPanic(c, s, k)
    case Crash => true
  }

  function Do(c: Config, s: State, l: Label): State
    requires Can(c, s, l)
  {
    match l
    case Claim(k, id, attempt, sweep) => DoClaim(s, k, id, attempt, sweep)
    case Force(k, id) => DoForceClaim(c, s, k, id)
    case WaitClean(k) => Move(s, k, Resuming)
    case WaitTimeout(k) => Move(s, k, Resuming)
    case WaitAbort(k) => Unlock(Quit(s, k))
    case Resume(k) => DoResume(s, k)
    case CallbackOk(k) => Unlock(Move(s, k, Queueing))
    case CallbackFails(k) => Unlock(Quit(s, k))
    case QueueCheck(k) => DoQueueCheck(s, k)
    case Send(k) => DoSend(c, s, k)
    case RunInline(k) => Move(s, k, Received)
    case Drain(k) => Quit(s, k)
    case Receive(k) => DoReceive(s, k)
    case Begin(k) => DoBeginRun(s, k)
    case StartOk(k, start) => DoStartOk(s, k, start)
    case StartFails(k) => DoStartFails(s, k)
    case Return(k, res) => DoReturn(s, k, res)
    case Check(k) => DoCheck(s, k)
    case Settle(k) => DoSettle(s, k)
    case Redispatch(k, k2) => DoRedispatch(c, s, k, k2)
    case Fire(k) => Move(s, k, Queueing)
    case Exit(k) => DoExit(s, k)
    case Tick(dt) => DoTick(s, dt)
    case Panic(k) => DoCrash(s)
    case Crash => DoCrash(s)
  }

  /** The state a run reaches, or None when some label was not enabled. */
  function Exec(c: Config, s: State, run: seq<Label>): Option<State>
    decreases |run|
  {
    if run == [] then Some(s)
    else if Can(c, s, run[0]) then Exec(c, Do(c, s, run[0]), run[1..])
    else None
  }
}
