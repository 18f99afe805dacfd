/** The invariant of the manual-batch store and its proof, one operation at a time. */
module BatchInvariant {
  import opened Basics
  import opened Batches

  predicate Final(s: BatchState) { s.Applied? || s.Canceled? || s.Failed? }

  predicate NoRepeat(ids: seq<string>) {
    forall i, k :: 0 <= i < k < |ids| ==> ids[i] != ids[k]
  }

  predicate Keyed(st: Store) {
    (forall b :: b in st.batches ==> st.batches[b].id == b)
    && (forall c :: c in st.items ==> st.items[c].customId == c)
  }

  predicate ItemListed(st: Store, c: string)
    requires c in st.items
  {
    st.items[c].batchId in st.index && c in st.index[st.items[c].batchId]
  }

  predicate ListStored(st: Store, b: string)
    requires b in st.index
  {
    NoRepeat(st.index[b]) && forall c :: c in st.index[b] ==> c in st.items && st.items[c].batchId == b
  }

  /** batchItems and batchItemsByBatch describe the same items, without repeats. */
  predicate Indexed(st: Store) {
    st.index.Keys == st.batches.Keys
    && (forall c :: c in st.items ==> ItemListed(st, c))
    && (forall b :: b in st.index ==> ListStored(st, b))
  }

  /** A reading has at most one active item, across all batches. */
  predicate OneActive(st: Store) {
    forall c, d | c in st.items && d in st.items && Active(st.items[c].state) && Active(st.items[d].state)
      :: st.items[c].readingId == st.items[d].readingId ==> c == d
  }

  predicate UniqueRemotes(st: Store) {
    forall b, o | b in st.batches && o in st.batches && st.batches[b].remoteId != ""
      :: st.batches[b].remoteId == st.batches[o].remoteId ==> b == o
  }

  /** The timestamps a batch state implies, and no others. A canceled or failed batch
      may or may not have been submitted. */
  predicate BatchStamped(b: Batch) {
    !b.state.Other?
    && (b.state.Planned? ==> b.submittedAt.None?)
    && (b.submittedAt.None? ==> b.remoteId == "")
    && (b.state.Submitted? || b.state.ResultsReady? || b.state.Applied? ==> b.submittedAt.Some?)
    && (b.finishedAt.Some? <==> b.state.ResultsReady? || Final(b.state))
    && (b.appliedAt.Some? <==> b.state.Applied?)
  }

  /** The timestamps an item state implies, and how they and the state are tied to its
      batch: submission stamps both, an item is planned iff its batch is, and a batch
      that has ended has no active item. */
  predicate ItemStamped(it: BatchItem, b: Batch) {
    !it.state.Other?
    && (it.state.Planned? <==> b.state.Planned?)
    && (Final(b.state) ==> !Active(it.state))
    && it.createdAt == b.createdAt
    && it.submittedAt == b.submittedAt
    && (it.finishedAt.Some? <==> !it.state.Planned? && !it.state.Submitted?)
    && (it.appliedAt.Some? <==> it.state.Applied?)
  }

  predicate Coupled(st: Store) {
    (forall b :: b in st.batches ==> BatchStamped(st.batches[b]))
    && (forall c :: c in st.items && st.items[c].batchId in st.batches ==>
          ItemStamped(st.items[c], st.batches[st.items[c].batchId]))
  }

  predicate Inv(st: Store) {
    Keyed(st) && Indexed(st) && OneActive(st) && UniqueRemotes(st) && Coupled(st)
  }

  // ------------------------------------------------------------------
  // CreatePlannedBatch

  predicate FromRequest(it: BatchItem, id: string, rs: seq<Request>, now: int, n: nat)
    requires n <= |rs|
  {
    exists i :: 0 <= i < n && it == PlannedItem(id, rs[i], now)
  }

  /** m is the item table with one planned item for each of the first n requests. */
  predicate Grew(items: map<string, BatchItem>, m: map<string, BatchItem>, id: string, rs: seq<Request>, now: int, n: nat)
    requires n <= |rs|
  {
    (forall c :: c in items ==> c in m && m[c] == items[c])
    && (forall i :: 0 <= i < n ==> rs[i].customId in m && m[rs[i].customId] == PlannedItem(id, rs[i], now))
    && (forall c :: c in m && c !in items ==> m[c].customId == c && FromRequest(m[c], id, rs, now, n))
  }

  lemma StoredShape(items: map<string, BatchItem>, id: string, rs: seq<Request>, now: int, n: nat)
    requires n <= |rs| && Distinct(rs) && Unused(items, rs)
    ensures Grew(items, Stored(items, id, rs, now, n), id, rs, now, n)
  {
    var m := items;
    GrowNone(items, id, rs, now);
    for i := 0 to n
      invariant m == Stored(items, id, rs, now, i) && Grew(items, m, id, rs, now, i)
    {
      var m' := m[rs[i].customId := PlannedItem(id, rs[i], now)];
      GrowStep(items, m, id, rs, now, i, m');
      m := m';
    }
  }

  lemma GrowNone(items: map<string, BatchItem>, id: string, rs: seq<Request>, now: int)
    ensures Grew(items, items, id, rs, now, 0)
  {
  }

  predicate Unused(items: map<string, BatchItem>, rs: seq<Request>) {
    forall i :: 0 <= i < |rs| ==> rs[i].customId !in items
  }

  lemma GrowStep(items: map<string, BatchItem>, m: map<string, BatchItem>, id: string, rs: seq<Request>, now: int, n: nat,
                 m': map<string, BatchItem>)
    requires n < |rs| && Distinct(rs) && Unused(items, rs) && Grew(items, m, id, rs, now, n)
    requires m' == m[rs[n].customId := PlannedItem(id, rs[n], now)]
    ensures Grew(items, m', id, rs, now, n + 1)
  {
    forall c | c in m' && c !in items ensures m'[c].customId == c && FromRequest(m'[c], id, rs, now, n + 1) {
      if c == rs[n].customId {
        assert m'[c] == PlannedItem(id, rs[n], now);
      } else {
        assert FromRequest(m[c], id, rs, now, n);
      }
    }
  }

  lemma CreateKeeps(j: Json, st: Store, id: string, rs: seq<Request>, now: int)
    requires Inv(st) && CanCreate(j, st, id, rs)
    ensures Inv(Create(j, st, id, rs, now).0)
  {
    var m := Stored(st.items, id, rs, now, |rs|);
    assert forall i :: 0 <= i < |rs| ==> Admissible(j, st.items, rs[i]);
    StoredShape(st.items, id, rs, now, |rs|);
    GrowIndexed(st, id, rs, now, m);
    GrowOneActive(st, id, rs, now, m);
    GrowCoupled(st, id, rs, now, m);
  }

  function Grown(st: Store, id: string, rs: seq<Request>, now: int, m: map<string, BatchItem>): Store {
    Store(st.batches[id := PlannedBatch(id, now)], m, st.index[id := CustomIds(rs)])
  }

  lemma GrowIndexed(st: Store, id: string, rs: seq<Request>, now: int, m: map<string, BatchItem>)
    requires Indexed(st) && id !in st.batches && Distinct(rs) && Grew(st.items, m, id, rs, now, |rs|)
    ensures Indexed(Grown(st, id, rs, now, m))
  {
    var st' := Grown(st, id, rs, now, m);
    forall c | c in m ensures ItemListed(st', c) {
      if c in st.items {
        assert ItemListed(st, c);
      } else {
        var i :| 0 <= i < |rs| && m[c] == PlannedItem(id, rs[i], now);
        assert CustomIds(rs)[i] == c;
      }
    }
    forall b | b in st'.index ensures ListStored(st', b) {
      if b != id { GrowList(st, id, rs, now, m, b); }
    }
  }

  lemma GrowList(st: Store, id: string, rs: seq<Request>, now: int, m: map<string, BatchItem>, b: string)
    requires b in st.index && ListStored(st, b) && b != id && Grew(st.items, m, id, rs, now, |rs|)
    ensures ListStored(Grown(st, id, rs, now, m), b)
  {
  }

  lemma GrowOneActive(st: Store, id: string, rs: seq<Request>, now: int, m: map<string, BatchItem>)
    requires OneActive(st) && Distinct(rs) && Grew(st.items, m, id, rs, now, |rs|)
    requires forall i :: 0 <= i < |rs| ==> !ReadingActive(st.items, rs[i].readingId)
    ensures OneActive(Grown(st, id, rs, now, m))
  {
    forall c, d | c in m && d in m && Active(m[c].state) && Active(m[d].state)
      ensures m[c].readingId == m[d].readingId ==> c == d
    {
      if c !in st.items { assert FromRequest(m[c], id, rs, now, |rs|); }
      if d !in st.items { assert FromRequest(m[d], id, rs, now, |rs|); }
    }
  }

  lemma GrowCoupled(st: Store, id: string, rs: seq<Request>, now: int, m: map<string, BatchItem>)
    requires Keyed(st) && Indexed(st) && UniqueRemotes(st) && Coupled(st)
    requires id !in st.batches && Grew(st.items, m, id, rs, now, |rs|)
    ensures var st' := Grown(st, id, rs, now, m); Keyed(st') && UniqueRemotes(st') && Coupled(st')
  {
    var st' := Grown(st, id, rs, now, m);
    assert BatchStamped(st'.batches[id]);
    forall c | c in m && m[c].batchId in st'.batches ensures ItemStamped(m[c], st'.batches[m[c].batchId]) {
      if c in st.items {
        assert ItemListed(st, c) && ItemStamped(st.items[c], st.batches[st.items[c].batchId]);
      } else {
        assert FromRequest(m[c], id, rs, now, |rs|);
      }
    }
  }

  // ------------------------------------------------------------------
  // SubmitBatch

  /** Same batches, same items, same lists, nobody revived: what Submit, a move and a
      write to one item have in common. */
  predicate SameShape(st: Store, st': Store) {
    st'.index == st.index && st'.batches.Keys == st.batches.Keys && st'.items.Keys == st.items.Keys
    && (forall b :: b in st.batches ==> st'.batches[b].id == st.batches[b].id)
    && (forall c :: c in st.items ==> SameItem(st.items[c], st'.items[c]))
  }

  predicate SameItem(it: BatchItem, it': BatchItem) {
    it'.batchId == it.batchId && it'.customId == it.customId && it'.readingId == it.readingId
    && (Active(it'.state) ==> Active(it.state))
  }

  lemma ShapeKeeps(st: Store, st': Store)
    requires Keyed(st) && Indexed(st) && OneActive(st) && SameShape(st, st')
    ensures Keyed(st') && Indexed(st') && OneActive(st')
  {
    forall c | c in st'.items ensures ItemListed(st', c) { assert ItemListed(st, c) && SameItem(st.items[c], st'.items[c]); }
    forall b | b in st'.index ensures ListStored(st', b) {
      assert ListStored(st, b);
      forall c | c in st'.index[b] ensures c in st'.items && st'.items[c].batchId == b {
        assert SameItem(st.items[c], st'.items[c]);
      }
    }
    forall c, d | c in st'.items && d in st'.items && Active(st'.items[c].state) && Active(st'.items[d].state)
      ensures st'.items[c].readingId == st'.items[d].readingId ==> c == d
    {
      assert SameItem(st.items[c], st'.items[c]) && SameItem(st.items[d], st'.items[d]);
    }
  }

  /** The list of a batch holds exactly the items that name it. */
  lemma ListedIff(st: Store, id: string)
    requires Indexed(st)
    ensures forall c :: c in st.items ==> (c in Listed(st, id) <==> st.items[c].batchId == id)
    ensures forall c :: c in Listed(st, id) ==> c in st.items
  {
    if id in st.index { assert ListStored(st, id); }
    forall c | c in st.items ensures c in Listed(st, id) <==> st.items[c].batchId == id {
      assert ItemListed(st, c);
    }
  }

  lemma SubmitKeeps(st: Store, id: string, f: SubmitFields, now: int)
    requires Inv(st) && CanSubmit(st, id, f)
    ensures Inv(Submit(st, id, f, now).0)
  {
    SubmitCoupled(st, id, f, now);
    SubmitShape(st, id, f, now);
    ShapeKeeps(st, Submit(st, id, f, now).0);
    SubmitRemotes(st, id, f, now);
  }

  lemma SubmitShape(st: Store, id: string, f: SubmitFields, now: int)
    requires CanSubmit(st, id, f)
    ensures SameShape(st, Submit(st, id, f, now).0)
  {
    var items := SubmitItems(st.items, Listed(st, id), now);
    forall c | c in st.items ensures SameItem(st.items[c], items[c]) {
      if c in Listed(st, id) { assert st.items[c].state.Planned?; }
    }
  }

  lemma SubmitRemotes(st: Store, id: string, f: SubmitFields, now: int)
    requires UniqueRemotes(st) && CanSubmit(st, id, f)
    ensures UniqueRemotes(Submit(st, id, f, now).0)
  {
  }

  lemma SubmitCoupled(st: Store, id: string, f: SubmitFields, now: int)
    requires Indexed(st) && Coupled(st) && CanSubmit(st, id, f)
    ensures Coupled(Submit(st, id, f, now).0)
  {
    ListedIff(st, id);
    var st' := Submit(st, id, f, now).0;
    forall c | c in st'.items && st'.items[c].batchId in st'.batches
      ensures ItemStamped(st'.items[c], st'.batches[st'.items[c].batchId])
    {
      assert ItemStamped(st.items[c], st.batches[st.items[c].batchId]);
    }
  }

  /** The guard on the items' states never fires: the items of a planned batch are
      planned. So a first submit succeeds exactly when the batch is planned, the
      counts fit and no other batch has its remote id. */
  lemma SubmitExact(st: Store, id: string, f: SubmitFields, now: int)
    requires Inv(st) && id in st.batches && st.batches[id].submittedAt.None?
    ensures Submit(st, id, f, now).1.Ok? <==>
              st.batches[id].state.Planned? && ValidCounts(f.counts) && !RemoteTaken(st.batches, id, f.remoteId)
  {
    if st.batches[id].state.Planned? {
      forall c | c in st.index[id] ensures c in st.items && st.items[c].state.Planned? {
        ListedIff(st, id);
        assert ItemStamped(st.items[c], st.batches[id]);
      }
    }
  }

  // ------------------------------------------------------------------
  // UpdateBatchState

  lemma MoveKeeps(st: Store, id: string, to: BatchState, f: StateFields, now: int)
    requires Inv(st) && CanMove(st, id, to, f)
    ensures Inv(SetState(st, id, to, f, now).0)
  {
    MoveCoupled(st, id, to, f, now);
    MoveShape(st, id, to, f, now);
    ShapeKeeps(st, SetState(st, id, to, f, now).0);
    MoveRemotes(st, id, to, f, now);
  }

  lemma MoveShape(st: Store, id: string, to: BatchState, f: StateFields, now: int)
    requires Indexed(st) && CanMove(st, id, to, f)
    ensures SameShape(st, SetState(st, id, to, f, now).0)
  {
    MoveItem(st, id, to, now);
  }

  lemma MoveRemotes(st: Store, id: string, to: BatchState, f: StateFields, now: int)
    requires UniqueRemotes(st) && CanMove(st, id, to, f)
    ensures UniqueRemotes(SetState(st, id, to, f, now).0)
  {
  }

  /** What a move does to the items: those of the batch that were active end with it,
      all the others stay. */
  lemma MoveItem(st: Store, id: string, to: BatchState, now: int)
    requires Indexed(st) && id in st.batches
    ensures var m := MovedItems(st, id, to, now);
            && m.Keys == st.items.Keys
            && forall c :: c in st.items ==>
                 m[c] == if st.batches[id].state != to && st.items[c].batchId == id && ItemFate(to).Some?
                         then EndedItem(st.items[c], ItemFate(to).value, now) else st.items[c]
  {
    ListedIff(st, id);
  }

  lemma MoveCoupled(st: Store, id: string, to: BatchState, f: StateFields, now: int)
    requires Indexed(st) && Coupled(st) && CanMove(st, id, to, f)
    ensures Coupled(SetState(st, id, to, f, now).0)
  {
    var st' := SetState(st, id, to, f, now).0;
    MoveItem(st, id, to, now);
    assert BatchStamped(st.batches[id]);
    assert BatchStamped(st'.batches[id]);
    forall c | c in st'.items && st'.items[c].batchId in st'.batches
      ensures ItemStamped(st'.items[c], st'.batches[st'.items[c].batchId])
    {
      assert ItemStamped(st.items[c], st.batches[st.items[c].batchId]);
      if st.items[c].batchId == id && to.Applied? && st.batches[id].state != to {
        ListedIff(st, id);
        assert !Active(st.items[c].state);
      }
    }
  }

  // ------------------------------------------------------------------
  // One item

  /** A write to one item keeps the invariant if it keeps the item's identity, does not
      revive it and leaves it in step with its batch. */
  lemma ItemKeeps(st: Store, c: string, it: BatchItem)
    requires Inv(st) && c in st.items && it.batchId in st.batches
    requires SameItem(st.items[c], it) && ItemStamped(it, st.batches[it.batchId])
    ensures Inv(st.(items := st.items[c := it]))
  {
    var st' := st.(items := st.items[c := it]);
    assert SameShape(st, st');
    ShapeKeeps(st, st');
    assert Coupled(st');
  }

  lemma WriteKeeps(j: Json, st: Store, c: string, f: ResultFields, now: int)
    requires Inv(st)
    ensures Inv(WriteResult(j, st, c, f, now).0)
  {
    if c in st.items {
      var it := st.items[c];
      assert ItemListed(st, c);
      assert ItemStamped(it, st.batches[it.batchId]);
      if Reported(f.state) && it.finishedAt.None? && it.state.Submitted? {
        ItemKeeps(st, c, ReportedItem(it, f, now));
      }
    }
  }

  lemma ApplyItemKeeps(st: Store, c: string, now: int)
    requires Inv(st)
    ensures Inv(MarkApplied(st, c, now).0)
  {
    if c in st.items {
      var it := st.items[c];
      assert ItemListed(st, c);
      assert ItemStamped(it, st.batches[it.batchId]);
      if it.state.Succeeded? { ItemKeeps(st, c, AppliedItem(it, now)); }
    }
  }

  // ------------------------------------------------------------------
  // Every call

  lemma CallKeeps(j: Json, st: Store, call: Call)
    requires Inv(st)
    ensures Inv(Apply(j, st, call).0)
  {
    if !call.ctxDone {
      match call.op
      case OpCreate(id, rs) =>
        if CanCreate(j, st, id, rs) { CreateKeeps(j, st, id, rs, call.now); }
      case OpSubmit(id, f) =>
        if CanSubmit(st, id, f) { SubmitKeeps(st, id, f, call.now); }
      case OpSetState(id, to, f) =>
        if CanMove(st, id, to, f) { MoveKeeps(st, id, to, f, call.now); }
      case OpWriteResult(c, f) => WriteKeeps(j, st, c, f, call.now);
      case OpMarkApplied(c) => ApplyItemKeeps(st, c, call.now);
    }
  }

  /** The invariant holds after every sequence of calls on an empty store. */
  lemma {:induction false} RunKeeps(j: Json, st: Store, calls: seq<Call>)
    requires Inv(st)
    ensures Inv(Run(j, st, calls))
    decreases |calls|
  {
    if calls != [] {
      CallKeeps(j, st, calls[0]);
      RunKeeps(j, Apply(j, st, calls[0]).0, calls[1..]);
    }
  }
}
