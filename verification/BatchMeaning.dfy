/** What each operation of the manual-batch store promises, in the words of its records:
    exactly when it succeeds, and what it then leaves in every batch and item. */
module BatchMeaning {
  import opened Basics
  import opened Batches
  import opened BatchInvariant
  import R = BatchRuns

  /** A count of the API fits an int32 column. */
  predicate Fits(n: int) { 0 <= n <= 0x7fff_ffff }

  predicate CountsFit(c: Counts) {
    Fits(c.processing) && Fits(c.succeeded) && Fits(c.errored) && Fits(c.canceled) && Fits(c.expired)
  }

  /** The item keeps its reading from being planned again. */
  predicate Busy(it: BatchItem) {
    it.state == ItemState.Planned || it.state == ItemState.Submitted || it.state == ItemState.Succeeded
  }

  // ------------------------------------------------------------------
  // CreatePlannedBatch

  predicate MayCreate(j: Json, st: Store, id: string, rs: seq<Request>) {
    && id !in st.batches
    && (forall i :: 0 <= i < |rs| ==> j.valid(rs[i].request) && rs[i].customId !in st.items)
    && (forall i, c :: 0 <= i < |rs| && c in st.items && st.items[c].readingId == rs[i].readingId ==> !Busy(st.items[c]))
    && (forall i, k :: 0 <= i < k < |rs| ==> rs[i].customId != rs[k].customId && rs[i].readingId != rs[k].readingId)
  }

  /** A planned batch and one planned item for each request, in order; the rest stays. */
  predicate Created(st: Store, st': Store, id: string, rs: seq<Request>, now: int) {
    && st'.batches == st.batches[id := Batch(id, BatchState.Planned, "", "", Counts(0, 0, 0, 0, 0), now, None, None, None, now)]
    && id in st'.index && |st'.index[id]| == |rs| && st'.index == st.index[id := st'.index[id]]
    && (forall i :: 0 <= i < |rs| ==> st'.index[id][i] == rs[i].customId)
    && (forall i :: 0 <= i < |rs| ==> rs[i].customId in st'.items)
    && (forall i :: 0 <= i < |rs| ==>
          st'.items[rs[i].customId] == BatchItem(id, rs[i].readingId, rs[i].customId, ItemState.Planned, rs[i].request,
                                                 "", "", "", now, None, None, None, now))
    && (forall c :: c in st.items ==> c in st'.items && st'.items[c] == st.items[c])
    && (forall c :: c in st'.items ==> c in st.items || c in st'.index[id])
  }

  lemma CreateMeans(j: Json, st: Store, id: string, rs: seq<Request>, now: int)
    requires Inv(st)
    ensures var (st', res) := Create(j, st, id, rs, now);
            (res.Ok? <==> MayCreate(j, st, id, rs)) && (res.Ok? ==> Created(st, st', id, rs, now)) && (res.Fail? ==> st' == st)
  {
    CreateMay(j, st, id, rs);
    if CanCreate(j, st, id, rs) {
      R.CreatePlans(j, st, id, rs, now);
      CreateKeepsItems(j, st, id, rs, now);
    }
  }

  lemma CreateMay(j: Json, st: Store, id: string, rs: seq<Request>)
    ensures CanCreate(j, st, id, rs) <==> MayCreate(j, st, id, rs)
  {
    forall i | 0 <= i < |rs|
      ensures ReadingActive(st.items, rs[i].readingId)
         <==> exists c :: c in st.items && st.items[c].readingId == rs[i].readingId && Busy(st.items[c])
    {
    }
    if MayCreate(j, st, id, rs) {
      forall i | 0 <= i < |rs| ensures Admissible(j, st.items, rs[i]) { }
    }
  }

  lemma CreateKeepsItems(j: Json, st: Store, id: string, rs: seq<Request>, now: int)
    requires CanCreate(j, st, id, rs)
    ensures var st' := Create(j, st, id, rs, now).0;
            forall c :: c in st.items ==> c in st'.items && st'.items[c] == st.items[c]
  {
    assert forall i :: 0 <= i < |rs| ==> Admissible(j, st.items, rs[i]);
    StoredShape(st.items, id, rs, now, |rs|);
  }

  // ------------------------------------------------------------------
  // SubmitBatch

  predicate MaySubmit(st: Store, id: string, f: SubmitFields) {
    && id in st.batches && st.batches[id].state == BatchState.Planned && CountsFit(f.counts)
    && (f.remoteId != "" ==> forall o :: o in st.batches && o != id ==> st.batches[o].remoteId != f.remoteId)
  }

  /** The batch and all its items are stamped as submitted; the rest stays. */
  predicate Submitted(st: Store, st': Store, id: string, f: SubmitFields, now: int)
    requires id in st.batches
  {
    && st'.batches == st.batches[id := st.batches[id].(state := BatchState.Submitted, remoteId := f.remoteId, counts := f.counts,
                                                       resultsURL := f.resultsURL, submittedAt := Some(now), updatedAt := now)]
    && st'.index == st.index && st'.items.Keys == st.items.Keys
    && (forall c :: c in st.items ==>
          st'.items[c] == if st.items[c].batchId == id
                          then st.items[c].(state := ItemState.Submitted, submittedAt := Some(now), updatedAt := now)
                          else st.items[c])
  }

  lemma SubmitMeans(st: Store, id: string, f: SubmitFields, now: int)
    requires Inv(st) && id in st.batches && st.batches[id].submittedAt.None?
    ensures var (st', res) := Submit(st, id, f, now);
            (res.Ok? <==> MaySubmit(st, id, f)) && (res.Ok? ==> Submitted(st, st', id, f, now)) && (res.Fail? ==> st' == st)
  {
    SubmitExact(st, id, f, now);
    CountsMean(f.counts);
    ListedIff(st, id);
  }

  lemma CountsMean(c: Counts)
    ensures ValidCounts(c) <==> CountsFit(c)
  {
    var ns := [c.processing, c.succeeded, c.errored, c.canceled, c.expired];
    assert c.processing in ns && c.succeeded in ns && c.errored in ns && c.canceled in ns && c.expired in ns;
  }

  // ------------------------------------------------------------------
  // UpdateBatchState

  /** The moves of a batch, from state to state. */
  predicate Moves(from: BatchState, to: BatchState) {
    || (from == BatchState.Planned && (to == BatchState.Canceled || to == BatchState.Failed))
    || (from == BatchState.Submitted && (to == BatchState.ResultsReady || to == BatchState.Canceled || to == BatchState.Failed))
    || (from == BatchState.ResultsReady && (to == BatchState.Applied || to == BatchState.Canceled || to == BatchState.Failed))
  }

  predicate MayMove(st: Store, id: string, to: BatchState, f: StateFields) {
    && id in st.batches && (f.counts.Some? ==> CountsFit(f.counts.value))
    && (st.batches[id].state != to ==>
          && Moves(st.batches[id].state, to)
          && (to == BatchState.Applied ==> forall c :: c in st.items && st.items[c].batchId == id ==> !Busy(st.items[c])))
  }

  /** The batch takes the state, and what URL and counts it is given. A move to results
      ready, canceled or failed stamps it finished, one to applied stamps it applied. */
  predicate BatchMoved(b: Batch, b': Batch, to: BatchState, f: StateFields, now: int) {
    && b'.state == to && b'.updatedAt == now
    && b'.resultsURL == (if f.resultsURL == "" then b.resultsURL else f.resultsURL)
    && (f.counts.Some? ==> b'.counts == f.counts.value) && (f.counts.None? ==> b'.counts == b.counts)
    && (b.state == to ==> b'.finishedAt == b.finishedAt && b'.appliedAt == b.appliedAt)
    && (b.state != to && to != BatchState.Applied ==> b'.finishedAt == Some(now) && b'.appliedAt == b.appliedAt)
    && (b.state != to && to == BatchState.Applied ==> b'.finishedAt == b.finishedAt && b'.appliedAt == Some(now))
    && b' == b.(state := b'.state, updatedAt := b'.updatedAt, resultsURL := b'.resultsURL, counts := b'.counts,
                finishedAt := b'.finishedAt, appliedAt := b'.appliedAt)
  }

  /** A batch that is canceled or fails takes its busy items with it. */
  predicate ItemsMoved(st: Store, st': Store, id: string, to: BatchState, now: int)
    requires id in st.batches
  {
    && st'.items.Keys == st.items.Keys
    && (forall c :: c in st.items ==>
          var it := st.items[c];
          st'.items[c] == if st.batches[id].state == to || it.batchId != id || !Busy(it) then it
                          else if to == BatchState.Canceled then it.(state := ItemState.Canceled, finishedAt := Some(now), updatedAt := now)
                          else if to == BatchState.Failed then it.(state := ItemState.Failed, finishedAt := Some(now), updatedAt := now)
                          else it)
  }

  predicate Moved(st: Store, st': Store, id: string, to: BatchState, f: StateFields, now: int)
    requires id in st.batches
  {
    && id in st'.batches && st'.batches == st.batches[id := st'.batches[id]] && st'.index == st.index
    && BatchMoved(st.batches[id], st'.batches[id], to, f, now) && ItemsMoved(st, st', id, to, now)
  }

  lemma MoveMeans(st: Store, id: string, to: BatchState, f: StateFields, now: int)
    requires Inv(st) && id in st.batches
    ensures var (st', res) := SetState(st, id, to, f, now);
            (res.Ok? <==> MayMove(st, id, to, f)) && (res.Ok? ==> Moved(st, st', id, to, f, now)) && (res.Fail? ==> st' == st)
  {
    MoveMay(st, id, to, f);
    if CanMove(st, id, to, f) {
      MoveBatchMeans(st, id, to, f, now);
      MoveItemsMean(st, SetState(st, id, to, f, now).0, id, to, now);
    }
  }

  lemma MoveBatchMeans(st: Store, id: string, to: BatchState, f: StateFields, now: int)
    requires Coupled(st) && CanMove(st, id, to, f)
    ensures BatchMoved(st.batches[id], MovedBatch(st.batches[id], to, f, now), to, f, now)
  {
    assert BatchStamped(st.batches[id]);
  }

  lemma MoveItemsMean(st: Store, st': Store, id: string, to: BatchState, now: int)
    requires Indexed(st) && id in st.batches && st'.items == MovedItems(st, id, to, now)
    ensures ItemsMoved(st, st', id, to, now)
  {
    MoveItem(st, id, to, now);
  }

  lemma MoveMay(st: Store, id: string, to: BatchState, f: StateFields)
    requires Inv(st) && id in st.batches
    ensures CanMove(st, id, to, f) <==> MayMove(st, id, to, f)
  {
    if f.counts.Some? { CountsMean(f.counts.value); }
    ListedIff(st, id);
  }

  // ------------------------------------------------------------------
  // Reporting and applying a result

  /** An item whose first result is accepted may be marked applied next exactly when the
      result was a success. */
  lemma ApplyAfterWrite(j: Json, st: Store, c: string, f: ResultFields, now: int, later: int)
    requires c in st.items && st.items[c].finishedAt.None? && WriteResult(j, st, c, f, now).1.Ok?
    ensures MarkApplied(WriteResult(j, st, c, f, now).0, c, later).1.Ok? <==> f.state == ItemState.Succeeded
  {
    assert WriteResult(j, st, c, f, now).0.items[c].state == f.state;
  }
}
