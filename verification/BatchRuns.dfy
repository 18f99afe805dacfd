/** What the operations of the manual-batch store mean over whole runs. */
module BatchRuns {
  import opened Basics
  import opened Batches
  import opened BatchInvariant

  // ------------------------------------------------------------------
  // Errors and repeats

  /** A call that returns an error leaves the whole store as it was. */
  lemma ErrorsChangeNothing(j: Json, st: Store, call: Call)
    ensures Apply(j, st, call).1.Fail? ==> Apply(j, st, call).0 == st
  {
  }

  /** Repeating a successful submit, at any later time, succeeds and changes nothing. */
  lemma SubmitRepeats(st: Store, id: string, f: SubmitFields, now: int, later: int)
    requires Submit(st, id, f, now).1.Ok?
    ensures var st' := Submit(st, id, f, now).0; Submit(st', id, f, later) == (st', Ok)
  {
    if st.batches[id].submittedAt.None? {
      assert SubmittedBatch(st.batches[id], f, now).submittedAt.Some?;
    }
  }

  /** Once its result is accepted, an item carries what was reported. */
  lemma WriteReports(j: Json, st: Store, c: string, f: ResultFields, now: int)
    requires WriteResult(j, st, c, f, now).1.Ok?
    ensures var it := WriteResult(j, st, c, f, now).0.items[c];
            it.finishedAt.Some? && it.errorType == f.errorType && it.errorMessage == f.errorMessage
            && RawEqual(j, it.result, f.result) == (if f.result == "" || j.decode(f.result).Some? then Some(true) else None)
  {
  }

  // ------------------------------------------------------------------
  // One call: what it may do to an item and to a batch

  function ItemRank(s: ItemState): nat {
    match s
    case Planned => 0
    case Submitted => 1
    case Succeeded => 2
    case _ => 3
  }

  function BatchRank(s: BatchState): nat {
    match s
    case Planned => 0
    case Submitted => 1
    case ResultsReady => 2
    case _ => 3
  }

  predicate SameReport(it: BatchItem, it': BatchItem) {
    it'.result == it.result && it'.errorType == it.errorType && it'.errorMessage == it.errorMessage
  }

  /** Identity, request and a recorded result are fixed, the state only climbs, and an
      inactive item is frozen. */
  predicate ItemClimbs(it: BatchItem, it': BatchItem) {
    it'.batchId == it.batchId && it'.readingId == it.readingId && it'.customId == it.customId
    && it'.request == it.request && it'.createdAt == it.createdAt
    && (it.finishedAt.Some? ==> it'.finishedAt.Some? && SameReport(it, it'))
    && (it'.state == it.state || ItemRank(it.state) < ItemRank(it'.state))
    && (!Active(it.state) ==> it' == it)
  }

  predicate BatchClimbs(b: Batch, b': Batch) {
    b'.id == b.id && b'.createdAt == b.createdAt
    && (b'.state == b.state || BatchRank(b.state) < BatchRank(b'.state))
    && (b.submittedAt.Some? ==> b'.submittedAt == b.submittedAt && b'.remoteId == b.remoteId)
  }

  predicate ItemsClimb(items: map<string, BatchItem>, items': map<string, BatchItem>) {
    forall c :: c in items ==> c in items' && ItemClimbs(items[c], items'[c])
  }

  predicate Climbs(st: Store, st': Store) {
    ItemsClimb(st.items, st'.items)
    && (forall b :: b in st.batches ==> b in st'.batches && BatchClimbs(st.batches[b], st'.batches[b]))
    && (forall b :: b in st.index ==> b in st'.index && st'.index[b] == st.index[b])
  }

  lemma CallClimbs(j: Json, st: Store, call: Call)
    requires Inv(st)
    ensures Climbs(st, Apply(j, st, call).0)
  {
    if call.ctxDone { ClimbsSelf(st); }
    else {
      match call.op
      case OpCreate(id, rs) => CreateClimbs(j, st, id, rs, call.now);
      case OpSubmit(id, f) => SubmitClimbs(st, id, f, call.now);
      case OpSetState(id, to, f) => MoveClimbs(st, id, to, f, call.now);
      case OpWriteResult(c, f) => WriteClimbs(j, st, c, f, call.now);
      case OpMarkApplied(c) => ApplyClimbs(st, c, call.now);
    }
  }

  lemma ClimbsSelf(st: Store)
    ensures Climbs(st, st)
  {
  }

  lemma CreateClimbs(j: Json, st: Store, id: string, rs: seq<Request>, now: int)
    requires Indexed(st)
    ensures Climbs(st, Create(j, st, id, rs, now).0)
  {
    if CanCreate(j, st, id, rs) {
      assert ItemsClimb(st.items, Stored(st.items, id, rs, now, |rs|)) by {
        assert forall i :: 0 <= i < |rs| ==> Admissible(j, st.items, rs[i]);
        StoredShape(st.items, id, rs, now, |rs|);
      }
      assert id !in st.index;
    }
  }

  lemma SubmitClimbs(st: Store, id: string, f: SubmitFields, now: int)
    ensures Climbs(st, Submit(st, id, f, now).0)
  {
    if CanSubmit(st, id, f) {
      var items := SubmitItems(st.items, Listed(st, id), now);
      forall c | c in st.items ensures ItemClimbs(st.items[c], items[c]) {
        if c in Listed(st, id) { assert st.items[c].state.Planned?; }
      }
    }
  }

  lemma MoveItemsClimb(st: Store, id: string, to: BatchState, now: int)
    requires Indexed(st) && id in st.batches
    ensures ItemsClimb(st.items, MovedItems(st, id, to, now))
  {
    MoveItem(st, id, to, now);
  }

  lemma MoveBatchClimbs(st: Store, id: string, to: BatchState, f: StateFields, now: int)
    requires CanMove(st, id, to, f)
    ensures BatchClimbs(st.batches[id], MovedBatch(st.batches[id], to, f, now))
  {
  }

  lemma MoveClimbs(st: Store, id: string, to: BatchState, f: StateFields, now: int)
    requires Indexed(st)
    ensures Climbs(st, SetState(st, id, to, f, now).0)
  {
    if !CanMove(st, id, to, f) { ClimbsSelf(st); }
    else {
      MoveItemsClimb(st, id, to, now);
      MoveBatchClimbs(st, id, to, f, now);
      BatchAndItemsClimb(st, id, MovedBatch(st.batches[id], to, f, now), MovedItems(st, id, to, now));
    }
  }

  lemma BatchAndItemsClimb(st: Store, id: string, b: Batch, items: map<string, BatchItem>)
    requires id in st.batches && BatchClimbs(st.batches[id], b) && ItemsClimb(st.items, items)
    ensures Climbs(st, st.(batches := st.batches[id := b], items := items))
  {
  }

  lemma OneItemClimbs(st: Store, c: string, it: BatchItem)
    requires c in st.items && ItemClimbs(st.items[c], it)
    ensures Climbs(st, st.(items := st.items[c := it]))
  {
  }

  lemma WriteClimbs(j: Json, st: Store, c: string, f: ResultFields, now: int)
    ensures Climbs(st, WriteResult(j, st, c, f, now).0)
  {
    ClimbsSelf(st);
    if c in st.items && Reported(f.state) && st.items[c].state.Submitted? && st.items[c].finishedAt.None? {
      OneItemClimbs(st, c, ReportedItem(st.items[c], f, now));
    }
  }

  lemma ApplyClimbs(st: Store, c: string, now: int)
    ensures Climbs(st, MarkApplied(st, c, now).0)
  {
    ClimbsSelf(st);
    if c in st.items && st.items[c].state.Succeeded? { OneItemClimbs(st, c, AppliedItem(st.items[c], now)); }
  }

  // ------------------------------------------------------------------
  // Runs

  /** How often a run changes the state of an item, and of a batch, that it starts with. */
  function ItemChanges(j: Json, st: Store, calls: seq<Call>, c: string): nat
    decreases |calls|
  {
    if calls == [] then 0
    else
      var st' := Apply(j, st, calls[0]).0;
      (if c in st.items && c in st'.items && st.items[c].state != st'.items[c].state then 1 else 0)
      + ItemChanges(j, st', calls[1..], c)
  }

  function BatchChanges(j: Json, st: Store, calls: seq<Call>, b: string): nat
    decreases |calls|
  {
    if calls == [] then 0
    else
      var st' := Apply(j, st, calls[0]).0;
      (if b in st.batches && b in st'.batches && st.batches[b].state != st'.batches[b].state then 1 else 0)
      + BatchChanges(j, st', calls[1..], b)
  }

  /** Every change of an item's state raises its rank, so it changes at most three
      times; once inactive it never changes at all. */
  lemma {:induction false} ItemRun(j: Json, st: Store, calls: seq<Call>, c: string)
    requires Inv(st) && c in st.items
    ensures c in Run(j, st, calls).items
    ensures ItemRank(st.items[c].state) + ItemChanges(j, st, calls, c) <= ItemRank(Run(j, st, calls).items[c].state) <= 3
    ensures !Active(st.items[c].state) ==> Run(j, st, calls).items[c] == st.items[c]
    decreases |calls|
  {
    if calls != [] {
      var st' := Apply(j, st, calls[0]).0;
      CallKeeps(j, st, calls[0]);
      CallClimbs(j, st, calls[0]);
      assert ItemClimbs(st.items[c], st'.items[c]);
      ItemRun(j, st', calls[1..], c);
    }
  }

  /** So does a batch; its list of items, in the order they were planned in, is fixed. */
  lemma {:induction false} BatchRun(j: Json, st: Store, calls: seq<Call>, b: string)
    requires Inv(st) && b in st.batches
    ensures b in Run(j, st, calls).batches && Listed(Run(j, st, calls), b) == Listed(st, b)
    ensures BatchRank(st.batches[b].state) + BatchChanges(j, st, calls, b)
         <= BatchRank(Run(j, st, calls).batches[b].state) <= 3
    ensures Final(st.batches[b].state) ==> Run(j, st, calls).batches[b].state == st.batches[b].state
    decreases |calls|
  {
    if calls != [] {
      var st' := Apply(j, st, calls[0]).0;
      CallKeeps(j, st, calls[0]);
      CallClimbs(j, st, calls[0]);
      assert BatchClimbs(st.batches[b], st'.batches[b]);
      assert BatchStamped(st.batches[b]) && BatchStamped(st'.batches[b]);
      BatchRun(j, st', calls[1..], b);
    }
  }

  /** A batch that was applied, canceled or failed never again has an active item. */
  lemma EndedStaysEnded(j: Json, st: Store, calls: seq<Call>, b: string, c: string)
    requires Inv(st) && b in st.batches && Final(st.batches[b].state) && c in Listed(Run(j, st, calls), b)
    ensures c in Run(j, st, calls).items && !Active(Run(j, st, calls).items[c].state)
  {
    RunKeeps(j, st, calls);
    BatchRun(j, st, calls, b);
    var end := Run(j, st, calls);
    assert b in end.index;
    ListedIff(end, b);
    assert ItemStamped(end.items[c], end.batches[b]);
  }

  // ------------------------------------------------------------------
  // Failed calls and repeated ones

  /** The calls of a run that succeed. */
  function Successes(j: Json, st: Store, calls: seq<Call>): seq<Call>
    decreases |calls|
  {
    if calls == [] then []
    else
      var (st', res) := Apply(j, st, calls[0]);
      (if res.Ok? then [calls[0]] else []) + Successes(j, st', calls[1..])
  }

  /** Failed calls leave no trace: a run ends where its successful calls alone end. */
  lemma {:induction false} FailuresLeaveNoTrace(j: Json, st: Store, calls: seq<Call>)
    ensures Run(j, st, calls) == Run(j, st, Successes(j, st, calls))
    decreases |calls|
  {
    if calls != [] {
      var (st', res) := Apply(j, st, calls[0]);
      ErrorsChangeNothing(j, st, calls[0]);
      FailuresLeaveNoTrace(j, st', calls[1..]);
      var rest, kept := Successes(j, st', calls[1..]), Successes(j, st, calls);
      if res.Ok? { assert kept == [calls[0]] + rest && kept[1..] == rest; } else { assert kept == [] + rest == rest; }
    }
  }

  lemma {:induction false} RunClimbs(j: Json, st: Store, calls: seq<Call>, b: string, c: string)
    requires Inv(st)
    ensures b in st.batches && st.batches[b].submittedAt.Some? ==>
              b in Run(j, st, calls).batches && Run(j, st, calls).batches[b].submittedAt == st.batches[b].submittedAt
              && Run(j, st, calls).batches[b].remoteId == st.batches[b].remoteId
    ensures c in st.items && st.items[c].finishedAt.Some? ==>
              c in Run(j, st, calls).items && Run(j, st, calls).items[c].finishedAt.Some?
              && SameReport(st.items[c], Run(j, st, calls).items[c])
    decreases |calls|
  {
    if calls != [] {
      var st' := Apply(j, st, calls[0]).0;
      CallKeeps(j, st, calls[0]);
      CallClimbs(j, st, calls[0]);
      assert c in st.items ==> ItemClimbs(st.items[c], st'.items[c]);
      RunClimbs(j, st', calls[1..], b, c);
    }
  }

  /** Repeating a successful submit after any further calls changes nothing, and it
      succeeds exactly while no state update has replaced the URL or the counts. */
  lemma SubmitRepeatsExact(j: Json, st: Store, id: string, f: SubmitFields, now: int, calls: seq<Call>, later: int)
    requires Inv(st) && Submit(st, id, f, now).1.Ok?
    ensures var end := Run(j, Submit(st, id, f, now).0, calls);
            id in end.batches
            && Submit(end, id, f, later)
               == (end, if end.batches[id].resultsURL == f.resultsURL && end.batches[id].counts == f.counts then Ok else Fail(Conflict))
  {
    var call := Call(OpSubmit(id, f), now, false);
    CallKeeps(j, st, call);
    SubmitRepeats(st, id, f, now, now);
    RunClimbs(j, Apply(j, st, call).0, calls, id, "");
  }

  /** Writing a recorded result again after any further calls changes nothing, and it
      succeeds exactly when the item is still in the reported state and the result decodes.
      A document that json.Valid accepts and Unmarshal refuses is stored by the first call
      and refused by every later one. */
  lemma WriteRepeatsExact(j: Json, st: Store, c: string, f: ResultFields, now: int, calls: seq<Call>, later: int)
    requires Inv(st) && WriteResult(j, st, c, f, now).1.Ok?
    ensures var end := Run(j, WriteResult(j, st, c, f, now).0, calls);
            c in end.items
            && WriteResult(j, end, c, f, later)
               == (end, if end.items[c].state != f.state then Fail(Conflict)
                        else if f.result == "" || j.decode(f.result).Some? then Ok else Fail(BadJson))
  {
    var call := Call(OpWriteResult(c, f), now, false);
    CallKeeps(j, st, call);
    RunClimbs(j, Apply(j, st, call).0, calls, "", c);
    WriteReports(j, st, c, f, now);
  }

  /** One such document: valid, not decodable. */
  lemma WriteRepeatFails(st: Store, c: string, now: int, calls: seq<Call>, later: int)
    requires Inv(st) && c in st.items && st.items[c].state.Submitted? && st.items[c].finishedAt.None?
    ensures var j := Json(s => s == "1e999", _ => None);
            var f := ResultFields(ItemState.Succeeded, "1e999", "", "");
            var first := WriteResult(j, st, c, f, now);
            first.1.Ok? && var end := Run(j, first.0, calls);
            WriteResult(j, end, c, f, later).0 == end && WriteResult(j, end, c, f, later).1.Fail?
  {
    var j := Json(s => s == "1e999", _ => None);
    WriteRepeatsExact(j, st, c, ResultFields(ItemState.Succeeded, "1e999", "", ""), now, calls, later);
  }

  /** Repeating an apply mark after any further calls succeeds and changes nothing. */
  lemma ApplyRepeatsAlways(j: Json, st: Store, c: string, now: int, calls: seq<Call>, later: int)
    requires Inv(st) && MarkApplied(st, c, now).1.Ok?
    ensures var end := Run(j, MarkApplied(st, c, now).0, calls); MarkApplied(end, c, later) == (end, Ok)
  {
    var call := Call(OpMarkApplied(c), now, false);
    CallKeeps(j, st, call);
    ItemRun(j, Apply(j, st, call).0, calls, c);
  }

  // ------------------------------------------------------------------
  // Planning and ending

  /** Creating a batch plans exactly the requested items, in the requested order. */
  lemma CreatePlans(j: Json, st: Store, id: string, rs: seq<Request>, now: int)
    requires Inv(st) && Create(j, st, id, rs, now).1.Ok?
    ensures var st' := Create(j, st, id, rs, now).0;
            && id in st'.index && |st'.index[id]| == |rs|
            && (forall i :: 0 <= i < |rs| ==> var c := st'.index[id][i];
                  c == rs[i].customId && c in st'.items && st'.items[c] == PlannedItem(id, rs[i], now))
            && (forall c :: c in st'.items && c !in st.items ==> c in st'.index[id])
  {
    assert forall i :: 0 <= i < |rs| ==> Admissible(j, st.items, rs[i]);
    StoredShape(st.items, id, rs, now, |rs|);
    var st' := Create(j, st, id, rs, now).0;
    forall c | c in st'.items && c !in st.items ensures c in st'.index[id] {
      assert FromRequest(st'.items[c], id, rs, now, |rs|);
      var i :| 0 <= i < |rs| && st'.items[c] == PlannedItem(id, rs[i], now);
      assert st'.index[id][i] == rs[i].customId;
    }
  }

  /** Canceling or failing a batch frees the readings it held: each of them may be
      planned again at once. */
  lemma EndingFreesReadings(st: Store, id: string, to: BatchState, f: StateFields, now: int, c: string)
    requires Inv(st) && SetState(st, id, to, f, now).1.Ok? && (to.Canceled? || to.Failed?)
    requires c in Listed(st, id) && c in st.items && Active(st.items[c].state)
    ensures !ReadingActive(SetState(st, id, to, f, now).0.items, st.items[c].readingId)
  {
    MoveItem(st, id, to, now);
    ListedIff(st, id);
    assert ItemStamped(st.items[c], st.batches[id]);
    var items := SetState(st, id, to, f, now).0.items;
    forall d | d in items && items[d].readingId == st.items[c].readingId ensures !Active(items[d].state) {
      assert Active(st.items[d].state) ==> d == c;
    }
  }

  /** A batch becomes applied exactly when its results are ready, the counts fit and
      every item of it has come to rest. */
  lemma ApplyBatchExact(st: Store, id: string, f: StateFields, now: int)
    requires Inv(st) && id in st.batches && !st.batches[id].state.Applied?
    ensures SetState(st, id, BatchState.Applied, f, now).1.Ok? <==>
              st.batches[id].state.ResultsReady? && (f.counts.Some? ==> ValidCounts(f.counts.value))
              && forall c :: c in st.items && st.items[c].batchId == id ==> !Active(st.items[c].state)
  {
    ListedIff(st, id);
  }
}
