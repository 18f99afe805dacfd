/** The token map of internal/dispatch/dispatcher.go as a value: what each critical
    section under inflightMu does to it. The step relation in Protocol and the class
    Dispatcher both use these functions. Runs are numbered; the number stands for
    the run's context, its cancel function and its done channel. */
module Claims {
  import opened Basics

  datatype Item = Item(id: string, attempt: int, token: nat)

  datatype Claim = Claim(token: nat, cancel: Option<nat>, done: Option<nat>)

  /** inflight and nextToken, and the runs whose context has been cancelled. */
  datatype Table = Table(inflight: map<string, Claim>, nextToken: nat, cancelled: set<nat>)

  predicate Holds(t: Table, it: Item) {
    it.id in t.inflight && t.inflight[it.id].token == it.token
  }

  function Cancelling(t: Table, c: Claim): set<nat> {
    if c.cancel.Some? then t.cancelled + {c.cancel.value} else t.cancelled
  }

  /** claim: refuses an id that is already owned. */
  function Acquire(t: Table, id: string, attempt: int): (r: (Table, Option<Item>)) {
    if id in t.inflight then (t, None)
    else
      var tok := t.nextToken + 1;
      (t.(inflight := t.inflight[id := Claim(tok, None, None)], nextToken := tok),
       Some(Item(id, attempt, tok)))
  }

  /** release: only the holder of the current token gives the id up. */
  function Release(t: Table, it: Item): Table {
    if Holds(t, it)
    then t.(inflight := t.inflight - {it.id}, cancelled := Cancelling(t, t.inflight[it.id]))
    else t
  }

  /** beginRun for the holder of the current token. */
  function BeginRun(t: Table, it: Item, run: nat): Table
    requires Holds(t, it)
  {
    t.(inflight := t.inflight[it.id := t.inflight[it.id].(cancel := Some(run), done := Some(run))])
  }

  /** forceClaim: cancels the current run and replaces the claim, keeping the done
      channel of whatever run it had, so that a second forced submit still waits
      for it. */
  function ForceClaim(t: Table, id: string): (Table, Item) {
    var tok := t.nextToken + 1;
    var wait := if id in t.inflight then t.inflight[id].done else None;
    var cancelled := if id in t.inflight then Cancelling(t, t.inflight[id]) else t.cancelled;
    (Table(t.inflight[id := Claim(tok, None, wait)], tok, cancelled), Item(id, 0, tok))
  }
}
