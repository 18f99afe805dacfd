/** The class Dispatcher of internal/dispatch/dispatcher.go: its critical sections and
    channel operations, each a method, over the token map and the channel it updates
    in place. What interleavings of them keep is proved on the step relation Protocol,
    whose steps apply the same functions of Claims. */
module Dispatcher {
  import opened Basics
  import opened Claims
  import opened Readings
  import P = Protocol
  import Retry
  import M = MemoryStore
  import T = ReadingTable

  // ------------------------------------------------------------------
  // The token map

  /** Tokens are issued in order and no two ids share one. */
  predicate Issued(t: Table) {
    (forall id :: id in t.inflight ==> 0 < t.inflight[id].token <= t.nextToken)
    && (forall a, b :: a in t.inflight && b in t.inflight && t.inflight[a].token == t.inflight[b].token ==> a == b)
  }

  /** A claim makes exactly one item the holder of its id, and only an id without an
      owner can be claimed. */
  lemma AcquireExact(t: Table, id: string, attempt: int, other: Item)
    requires Issued(t)
    ensures var (t', r) := Acquire(t, id, attempt);
            && Issued(t')
            && (r.Some? <==> id !in t.inflight)
            && (r.Some? ==> Holds(t', r.value) && (other.id == id && Holds(t', other) ==> other.token == r.value.token))
            && (other.id != id ==> (Holds(t', other) <==> Holds(t, other)))
  {
  }

  /** A forced claim takes the id from whoever had it: no item issued before holds it,
      and a late release by one of them changes nothing. The run it replaces is
      cancelled and its done channel is kept to wait for. */
  lemma ForceSupersedes(t: Table, id: string, stale: Item)
    requires Issued(t) && stale.id == id && stale.token <= t.nextToken
    ensures var (t', it) := ForceClaim(t, id);
            && Issued(t') && Holds(t', it) && !Holds(t', stale) && Release(t', stale) == t'
            && (id in t.inflight && t.inflight[id].cancel.Some? ==> t.inflight[id].cancel.value in t'.cancelled)
            && (id in t.inflight ==> t'.inflight[id].done == t.inflight[id].done)
  {
  }

  lemma ReleaseKeeps(t: Table, it: Item)
    requires Issued(t)
    ensures Issued(Release(t, it)) && !Holds(Release(t, it), it)
    ensures forall o: Item :: o.id != it.id ==> (Holds(Release(t, it), o) <==> Holds(t, o))
  {
  }

  /** Claiming a free id and giving it up again leaves every owner as it was. */
  lemma ClaimReleaseRoundTrip(t: Table, id: string, attempt: int)
    requires Issued(t) && id !in t.inflight
    ensures var (t', r) := Acquire(t, id, attempt); Release(t', r.value).inflight == t.inflight
  {
    var (t', r) := Acquire(t, id, attempt);
    assert t'.inflight - {id} == t.inflight;
  }

  /** One critical section on the token map. */
  datatype Section = Acquiring(id: string, attempt: int) | Releasing(it: Item) | Beginning(it: Item, run: nat) | Forcing(id: string)

  function Pass(t: Table, s: Section): Table {
    match s
    case Acquiring(id, attempt) => Acquire(t, id, attempt).0
    case Releasing(it) => Release(t, it)
    case Beginning(it, run) => if Holds(t, it) then BeginRun(t, it, run) else t
    case Forcing(id) => ForceClaim(t, id).0
  }

  function Through(t: Table, ss: seq<Section>): Table
    decreases |ss|
  {
    if ss == [] then t else Through(Pass(t, ss[0]), ss[1..])
  }

  lemma PassLoses(t: Table, s: Section, it: Item)
    requires Issued(t) && 0 < it.token <= t.nextToken && !Holds(t, it)
    ensures Issued(Pass(t, s)) && it.token <= Pass(t, s).nextToken && !Holds(Pass(t, s), it)
  {
    match s
    case Acquiring(id, attempt) => AcquireExact(t, id, attempt, it);
    case Releasing(o) => ReleaseKeeps(t, o);
    case Beginning(o, run) =>
    case Forcing(id) => ForceSupersedes(t, id, it.(id := id));
  }

  /** An item that lost its id never holds it again, whatever sections follow in whatever
      order, and giving the id up under its token changes nothing. */
  lemma {:induction false} LostForever(t: Table, ss: seq<Section>, it: Item)
    requires Issued(t) && 0 < it.token <= t.nextToken && !Holds(t, it)
    ensures Issued(Through(t, ss)) && !Holds(Through(t, ss), it) && Release(Through(t, ss), it) == Through(t, ss)
    decreases |ss|
  {
    if ss != [] {
      PassLoses(t, ss[0], it);
      LostForever(Pass(t, ss[0]), ss[1..], it);
    }
  }

  // ------------------------------------------------------------------
  // The writes

  function ReadyFields(now: int): StatusFields { StatusFields(now, None, false, Some(now), false, None, true, None) }

  function RunningFields(now: int, attempt: int): StatusFields {
    StatusFields(now, Some(now), false, None, false, None, true, Some(attempt))
  }

  function FailedFields(now: int, attempt: int, message: string): StatusFields {
    StatusFields(now, None, false, Some(now), false, Some(message), false, Some(attempt))
  }

  function PendingFields(now: int, next: int): StatusFields {
    StatusFields(now, None, false, None, false, None, false, Some(next))
  }

  function Put(t: T.Table, id: string, status: Status, f: StatusFields, ctxDone: bool): T.Table {
    T.Apply(t, T.Update(id, T.SetStatus(status, f)), ctxDone).0
  }

  /** Each of the four writes, column by column, is the row function that the joined
      system uses. */
  lemma WritesAreRows(t: T.Table, id: string, now: int, attempt: int, message: string)
    requires id in t.byID
    ensures var r := t.byID[id];
            && Put(t, id, Running, RunningFields(now, attempt), false).byID == t.byID[id := RunningRow(r, now, attempt)]
            && RunningRow(r, now, attempt) == Started(r, now, attempt)
            && Put(t, id, Ready, ReadyFields(now), false).byID == t.byID[id := ReadyRow(r, now)]
            && ReadyRow(r, now) == Ended(r, Ready, now, r.attempts, "")
            && Put(t, id, Failed, FailedFields(now, attempt, message), false).byID == t.byID[id := FailedRow(r, now, attempt, message)]
            && FailedRow(r, now, attempt, message) == Ended(r, Failed, now, attempt, message)
            && Put(t, id, Pending, PendingFields(now, attempt), false).byID == t.byID[id := PendingRow(r, now, attempt)]
            && PendingRow(r, now, attempt) == Waiting(r, now, attempt)
  {
  }

  /** The row of a run that starts now, of one that ends now, and of one to be run again. */
  function Started(r: Reading, now: int, attempt: int): Reading {
    r.(status := Running, startedAt := Some(now), attempts := attempt, error := "", updatedAt := now)
  }

  function Ended(r: Reading, status: Status, now: int, attempt: int, error: string): Reading {
    r.(status := status, finishedAt := Some(now), attempts := attempt, error := error, updatedAt := now)
  }

  function Waiting(r: Reading, now: int, next: int): Reading {
    r.(status := Pending, attempts := next, updatedAt := now)
  }

  /** What became of an item at queueClaimed. RunNow: its handle follows in the same call. */
  datatype Sent = Queued | RunNow | Dropped | Superseded

  /** What enqueueRecovered answers. Taken: someone owns the id already. RunsNow: its
      handle follows in the same call. Cancelled: the context's error. */
  datatype Recovery = Taken | Handed(it: Item) | RunsNow(it: Item) | Cancelled

  class Dispatcher {
    const config: P.Config
    const store: M.Memory

    var inflight: map<string, Claim>
    var nextToken: nat
    // Contexts and done channels are numbered by the run they belong to.
    var nextRun: nat
    var cancelled: set<nat>
    var ch: seq<Item>

    ghost function Owners(): Table
      reads this
    {
      Table(inflight, nextToken, cancelled)
    }

    ghost predicate Valid()
      reads this
    {
      Issued(Owners()) && |ch| <= P.Capacity(config)
    }

    constructor (config: P.Config, store: M.Memory)
      ensures Valid() && Owners() == Table(map[], 0, {}) && ch == [] && this.config == config && this.store == store
    {
      this.config, this.store := config, store;
      inflight, nextToken, nextRun, cancelled, ch := map[], 0, 0, {}, [];
    }

    method Claim(id: string, attempt: int) returns (it: Option<Item>)
      requires Valid()
      modifies this`inflight, this`nextToken
      ensures Valid() && (Owners(), it) == Acquire(old(Owners()), id, attempt)
      ensures it == if id in old(inflight) then None else Some(Item(id, attempt, old(nextToken) + 1))
      ensures it.Some? ==> inflight == old(inflight)[id := Claims.Claim.Claim(nextToken, None, None)] && nextToken == it.value.token
    {
      if id in inflight { return None; }
      nextToken := nextToken + 1;
      inflight := inflight[id := Claims.Claim.Claim(nextToken, None, None)];
      return Some(Item(id, attempt, nextToken));
    }

    method Release(it: Item)
      requires Valid()
      modifies this`inflight, this`cancelled
      ensures Valid() && Owners() == Claims.Release(old(Owners()), it)
      ensures it.id in old(inflight) && old(inflight)[it.id].token == it.token ==>
                inflight == old(inflight) - {it.id}
                && (old(inflight)[it.id].cancel.Some? ==> cancelled == old(cancelled) + {old(inflight)[it.id].cancel.value})
      ensures !(it.id in old(inflight) && old(inflight)[it.id].token == it.token) ==> Owners() == old(Owners())
    {
      if it.id !in inflight || inflight[it.id].token != it.token { return; }
      var current := inflight[it.id];
      if current.cancel.Some? { cancelled := cancelled + {current.cancel.value}; }
      inflight := inflight - {it.id};
    }

    method Active(it: Item) returns (ok: bool)
      ensures ok == Holds(Owners(), it)
    {
      return it.id in inflight && inflight[it.id].token == it.token;
    }

    /** Only the holder begins a run; its context and done channel enter the claim. */
    method BeginRun(it: Item) returns (run: Option<nat>)
      requires Valid()
      modifies this`inflight, this`nextRun
      ensures Valid()
      ensures run.Some? <==> Holds(old(Owners()), it)
      ensures run.Some? ==> run.value == old(nextRun) < nextRun && Owners() == Claims.BeginRun(old(Owners()), it, run.value)
                            && inflight[it.id] == Claims.Claim.Claim(it.token, run, run)
      ensures run.None? ==> Owners() == old(Owners()) && nextRun == old(nextRun)
    {
      if it.id !in inflight || inflight[it.id].token != it.token { return None; }
      var current := inflight[it.id];
      inflight := inflight[it.id := current.(cancel := Some(nextRun), done := Some(nextRun))];
      nextRun := nextRun + 1;
      return Some(nextRun - 1);
    }

    method ForceClaim(id: string) returns (it: Item, wait: Option<nat>)
      requires Valid()
      modifies this`inflight, this`nextToken, this`cancelled
      ensures Valid() && (Owners(), it) == Claims.ForceClaim(old(Owners()), id)
      ensures wait == if id in old(inflight) then old(inflight)[id].done else None
      ensures it == Item(id, 0, old(nextToken) + 1) && id in inflight
              && inflight == old(inflight)[id := Claims.Claim.Claim(it.token, None, wait)]
      ensures id in old(inflight) && old(inflight)[id].cancel.Some? ==>
                cancelled == old(cancelled) + {old(inflight)[id].cancel.value}
    {
      wait := None;
      if id in inflight {
        var current := inflight[id];
        if current.cancel.Some? { cancelled := cancelled + {current.cancel.value}; }
        wait := current.done;
      }
      nextToken := nextToken + 1;
      inflight := inflight[id := Claims.Claim.Claim(nextToken, None, wait)];
      return Item(id, 0, nextToken), wait;
    }

    /** queueClaimed. Inline a current item is run at once; on a pool of workers it goes
        into the channel if there is room, and gives its id up if there is not. A stale
        item changes nothing. */
    method QueueClaimed(it: Item) returns (sent: Sent)
      requires Valid()
      modifies this`inflight, this`cancelled, this`ch
      ensures Valid()
      ensures sent == if !Holds(old(Owners()), it) then Superseded
                      else if config.isInline then RunNow
                      else if |old(ch)| < P.Capacity(config) then Queued else Dropped
      ensures ch == if sent.Queued? then old(ch) + [it] else old(ch)
      ensures Owners() == if sent.Dropped? then Claims.Release(old(Owners()), it) else old(Owners())
    {
      var ok := Active(it);
      if !ok { return Superseded; }
      if config.isInline { return RunNow; }
      if |ch| < P.Capacity(config) {
        ch := ch + [it];
        return Queued;
      }
      Release(it);
      return Dropped;
    }

    /** Submit owns a free id at attempt 0 and runs or queues it or, when the channel is
        full, leaves it free; an id that has an owner is left alone. now is the item
        whose run follows in the same call. */
    method Submit(id: string) returns (now: Option<Item>)
      requires Valid()
      modifies this`inflight, this`nextToken, this`cancelled, this`ch
      ensures Valid()
      ensures id in old(inflight) ==> Owners() == old(Owners()) && ch == old(ch) && now.None?
      ensures id !in old(inflight) ==>
                var it := Item(id, 0, old(nextToken) + 1);
                if config.isInline then ch == old(ch) && Holds(Owners(), it) && now == Some(it)
                else if |old(ch)| < P.Capacity(config)
                then ch == old(ch) + [it] && Holds(Owners(), it) && now.None?
                else ch == old(ch) && inflight == old(inflight) && now.None?
    {
      if id !in inflight { ClaimReleaseRoundTrip(Owners(), id, 0); }
      var it := Claim(id, 0);
      if it.None? { return None; }
      var sent := QueueClaimed(it.value);
      return if sent.RunNow? then it else None;
    }

    /** A worker takes the oldest item of the channel. */
    method Receive() returns (it: Item)
      requires Valid() && ch != []
      modifies this`ch
      ensures Valid() && [it] + ch == old(ch)
    {
      it, ch := ch[0], ch[1..];
    }

    /** enqueueRecovered: one reading of the sweep. A context that is done is honoured
        before anything else, an owned id is left alone, and otherwise the id is claimed
        at its stored attempt. The send then blocks while the channel is full, and never
        drops the item: meanwhile workers take the oldest taken items, or the context
        ends the wait, as aborted says, and the id is free again. */
    method EnqueueRecovered(ctxDone: bool, id: string, attempt: int, taken: nat, aborted: bool) returns (r: Recovery)
      requires Valid()
      requires !ctxDone && id !in inflight && !config.isInline ==>
                 taken <= |ch| && (aborted || |ch| - taken < P.Capacity(config))
      modifies this`inflight, this`nextToken, this`cancelled, this`ch
      ensures Valid()
      ensures var it := Item(id, attempt, old(nextToken) + 1);
              r == if ctxDone then Cancelled else if id in old(inflight) then Taken
                   else if config.isInline then RunsNow(it) else if aborted then Cancelled else Handed(it)
      ensures r.Handed? || r.RunsNow? ==> Owners() == Acquire(old(Owners()), id, attempt).0
      ensures r.Taken? || r.Cancelled? ==> inflight == old(inflight)
      ensures ch == if ctxDone || id in old(inflight) || config.isInline then old(ch)
                    else old(ch)[taken..] + (if aborted then [] else [Item(id, attempt, old(nextToken) + 1)])
    {
      if ctxDone { return Cancelled; }
      if id !in inflight { ClaimReleaseRoundTrip(Owners(), id, attempt); }
      var claimed := Claim(id, attempt);
      if claimed.None? { return Taken; }
      var it := claimed.value;
      if config.isInline { return RunsNow(it); }
      ch := ch[taken..];
      if aborted {
        Release(it);
        return Cancelled;
      }
      ch := ch + [it];
      return Handed(it);
    }

    /** The start of handle: the holder begins its run and marks the row running. A write
        that fails gives the id up; an item without its token changes nothing. */
    method Start(it: Item, now: int, ctxDone: bool) returns (run: Option<nat>)
      requires Valid() && store.RowsValid()
      modifies this`inflight, this`nextRun, this`cancelled, store`byID
      ensures Valid() && store.RowsValid()
      ensures run.Some? <==> Holds(old(Owners()), it) && !ctxDone && it.id in old(store.byID)
      ensures run.Some? ==>
                run.value == old(nextRun) && Owners() == Claims.BeginRun(old(Owners()), it, run.value)
                && store.byID == old(store.byID)[it.id := Started(old(store.byID)[it.id], now, it.attempt)]
      ensures run.None? ==> store.byID == old(store.byID)
      ensures run.None? && !Holds(old(Owners()), it) ==> Owners() == old(Owners())
      ensures run.None? && Holds(old(Owners()), it) ==>
                Owners() == Claims.Release(Claims.BeginRun(old(Owners()), it, old(nextRun)), it)
    {
      run := BeginRun(it);
      if run.None? { return; }
      ghost var before := store.Table();
      if it.id in store.byID { WritesAreRows(before, it.id, now, it.attempt, ""); }
      var res := store.UpdateStatus(ctxDone, it.id, Running,
                                    StatusFields(now, Some(now), false, None, false, None, true, Some(it.attempt)));
      if res.Fail? {
        Release(it);
        run := None;
      }
    }

    /** finish after a success: the row becomes ready and the id is given up, both under
        the lock and only by the holder; anyone else changes neither. */
    method FinishReady(it: Item, now: int, ctxDone: bool)
      requires Valid() && store.RowsValid()
      modifies this`inflight, this`cancelled, store`byID
      ensures Valid() && store.RowsValid()
      ensures Owners() == Claims.Release(old(Owners()), it)
      ensures store.Table() == if Holds(old(Owners()), it) then Put(old(store.Table()), it.id, Ready, ReadyFields(now), ctxDone)
                               else old(store.Table())
      ensures Holds(old(Owners()), it) && !ctxDone && it.id in old(store.byID) ==>
                store.byID == old(store.byID)[it.id := Ended(old(store.byID)[it.id], Ready, now, old(store.byID)[it.id].attempts, "")]
    {
      if it.id !in inflight || inflight[it.id].token != it.token { return; }
      if it.id in store.byID { WritesAreRows(store.Table(), it.id, now, it.attempt, ""); }
      var current := inflight[it.id];
      var _ := store.UpdateStatus(ctxDone, it.id, Ready, StatusFields(now, None, false, Some(now), false, None, true, None));
      if current.cancel.Some? { cancelled := cancelled + {current.cancel.value}; }
      inflight := inflight - {it.id};
    }

    /** finish after a failure. */
    method FinishFailed(it: Item, now: int, message: string, ctxDone: bool)
      requires Valid() && store.RowsValid()
      modifies this`inflight, this`cancelled, store`byID
      ensures Valid() && store.RowsValid()
      ensures Owners() == Claims.Release(old(Owners()), it)
      ensures store.Table() == if Holds(old(Owners()), it)
                               then Put(old(store.Table()), it.id, Failed, FailedFields(now, it.attempt, message), ctxDone)
                               else old(store.Table())
      ensures Holds(old(Owners()), it) && !ctxDone && it.id in old(store.byID) ==>
                store.byID == old(store.byID)[it.id := Ended(old(store.byID)[it.id], Failed, now, it.attempt, message)]
    {
      if it.id !in inflight || inflight[it.id].token != it.token { return; }
      if it.id in store.byID { WritesAreRows(store.Table(), it.id, now, it.attempt, message); }
      var current := inflight[it.id];
      var _ := store.UpdateStatus(ctxDone, it.id, Failed,
                                  StatusFields(now, None, false, Some(now), false, Some(message), false, Some(it.attempt)));
      if current.cancel.Some? { cancelled := cancelled + {current.cancel.value}; }
      inflight := inflight - {it.id};
    }

    /** redispatch: the row becomes pending with the next attempt, the id stays owned, and
        the continuation carries the same token. It is only scheduled for the holder. */
    method Redispatch(it: Item, act: Retry.Action, now: int, ctxDone: bool) returns (later: Option<(int, Item)>)
      requires Valid() && store.RowsValid()
      modifies store`byID
      ensures Valid() && store.RowsValid()
      ensures later == if Holds(Owners(), it) then Some((act.delay, it.(attempt := act.nextAttempt))) else None
      ensures store.Table() == if Holds(Owners(), it)
                               then Put(old(store.Table()), it.id, Pending, PendingFields(now, act.nextAttempt), ctxDone)
                               else old(store.Table())
      ensures later.Some? && !ctxDone && it.id in old(store.byID) ==>
                store.byID == old(store.byID)[it.id := Waiting(old(store.byID)[it.id], now, act.nextAttempt)]
    {
      if it.id !in inflight || inflight[it.id].token != it.token { return None; }
      if it.id in store.byID { WritesAreRows(store.Table(), it.id, now, act.nextAttempt, ""); }
      var _ := store.UpdateStatus(ctxDone, it.id, Pending,
                                  StatusFields(now, None, false, None, false, None, false, Some(act.nextAttempt)));
      return Some((act.delay, it.(attempt := act.nextAttempt)));
    }

    /** The end of handle: one of the three sections, as decide says. A success makes the
        row ready and a permanent error or a spent budget makes it failed, and both free
        the id; a rate limit asks again after its delay with the attempt unchanged, and
        any other error after the backoff with the next. */
    method Settle(it: Item, res: Retry.Result, now: int, message: string, ctxDone: bool) returns (later: Option<(int, Item)>)
      requires Valid() && store.RowsValid()
      modifies this`inflight, this`cancelled, store`byID
      ensures Valid() && store.RowsValid()
      ensures !Holds(old(Owners()), it) ==> Owners() == old(Owners()) && store.Table() == old(store.Table()) && later.None?
      ensures Holds(old(Owners()), it) ==>
                later == match res.outcome
                         case Done => None
                         case Failing => None
                         case Requeue => Some((res.after, it))
                         case Retrying => if it.attempt + 1 >= (if config.max <= 0 then 5 else config.max) then None
                                          else Some((Retry.Backoff(it.attempt), it.(attempt := it.attempt + 1)))
      ensures Holds(old(Owners()), it) ==>
                if later.Some? then Owners() == old(Owners()) else Owners() == Claims.Release(old(Owners()), it) && it.id !in inflight
      ensures ctxDone || it.id !in old(store.byID) ==> store.byID == old(store.byID)
      ensures Holds(old(Owners()), it) && !ctxDone && it.id in old(store.byID) ==>
                var r := old(store.byID)[it.id];
                store.byID == old(store.byID)[it.id :=
                  if later.Some? then Waiting(r, now, later.value.1.attempt)
                  else if res.outcome.Done? then Ended(r, Ready, now, r.attempts, "")
                  else Ended(r, Failed, now, it.attempt, message)]
    {
      var ok := Active(it);
      if !ok { return None; }
      var maxAttempts := if config.max <= 0 then 5 else config.max;
      var act := Retry.Decide(res, it.attempt, maxAttempts);
      later := None;
      if act.markFailed {
        FinishFailed(it, now, message, ctxDone);
      } else if act.redispatch {
        later := Redispatch(it, act, now, ctxDone);
      } else {
        FinishReady(it, now, ctxDone);
      }
    }
  }
}
