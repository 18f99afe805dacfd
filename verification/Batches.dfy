/** The manual-batch state of internal/store/memory.go as a value, and what each of
    its five mutating operations does to it. The class Memory refines these. */
module Batches {
  import opened Basics

  // Both are open string types in the source, so a caller may pass any other name.
  datatype BatchState = Planned | Submitted | ResultsReady | Applied | Canceled | Failed | Other(name: string)

  datatype ItemState =
    | Planned | Submitted | Succeeded | Errored | Canceled | Expired | Applied | Failed | Other(name: string)

  predicate Active(s: ItemState) { s.Planned? || s.Submitted? || s.Succeeded? }

  predicate Reported(s: ItemState) { s.Succeeded? || s.Errored? || s.Canceled? || s.Expired? }

  datatype Counts = Counts(processing: int, succeeded: int, errored: int, canceled: int, expired: int)

  const MAX_COUNT := 0x7fff_ffff

  predicate ValidCounts(c: Counts) {
    forall n :: n in [c.processing, c.succeeded, c.errored, c.canceled, c.expired] ==> 0 <= n <= MAX_COUNT
  }

  datatype Batch = Batch(id: string, state: BatchState, remoteId: string, resultsURL: string, counts: Counts,
                         createdAt: int, submittedAt: Option<int>, finishedAt: Option<int>, appliedAt: Option<int>,
                         updatedAt: int)

  datatype BatchItem = BatchItem(batchId: string, readingId: string, customId: string, state: ItemState,
                                 request: string, result: string, errorType: string, errorMessage: string,
                                 createdAt: int, submittedAt: Option<int>, finishedAt: Option<int>,
                                 appliedAt: Option<int>, updatedAt: int)

  /** JSON on raw bytes. valid is json.Valid. decode is json.Unmarshal into an any: it
      numbers the classes reflect.DeepEqual tells apart and is None where decoding
      fails, which it may on a valid document, as for a number beyond float64. */
  datatype Json = Json(valid: string -> bool, decode: string -> Option<nat>)

  datatype Error = CtxDone | NotFound | Conflict | BadJson

  datatype Result = Ok | Fail(error: Error)

  datatype Store = Store(batches: map<string, Batch>, items: map<string, BatchItem>, index: map<string, seq<string>>)

  const EMPTY := Store(map[], map[], map[])

  // ------------------------------------------------------------------
  // CreatePlannedBatch

  datatype Request = Request(readingId: string, customId: string, request: string)

  predicate ReadingActive(items: map<string, BatchItem>, readingId: string) {
    exists c :: c in items && items[c].readingId == readingId && Active(items[c].state)
  }

  predicate Admissible(j: Json, items: map<string, BatchItem>, r: Request) {
    j.valid(r.request) && r.customId !in items && !ReadingActive(items, r.readingId)
  }

  predicate Distinct(rs: seq<Request>) {
    forall i, k :: 0 <= i < k < |rs| ==> rs[i].customId != rs[k].customId && rs[i].readingId != rs[k].readingId
  }

  predicate CanCreate(j: Json, st: Store, id: string, rs: seq<Request>) {
    id !in st.batches && Distinct(rs) && forall i :: 0 <= i < |rs| ==> Admissible(j, st.items, rs[i])
  }

  function PlannedBatch(id: string, now: int): Batch {
    Batch(id, BatchState.Planned, "", "", Counts(0, 0, 0, 0, 0), now, None, None, None, now)
  }

  function PlannedItem(id: string, r: Request, now: int): BatchItem {
    BatchItem(id, r.readingId, r.customId, ItemState.Planned, r.request, "", "", "", now, None, None, None, now)
  }

  /** The item table once the first n requests are stored. */
  function Stored(items: map<string, BatchItem>, id: string, rs: seq<Request>, now: int, n: nat): map<string, BatchItem>
    requires n <= |rs|
  {
    if n == 0 then items
    else Stored(items, id, rs, now, n - 1)[rs[n - 1].customId := PlannedItem(id, rs[n - 1], now)]
  }

  function CustomIds(rs: seq<Request>): seq<string> {
    seq(|rs|, i requires 0 <= i < |rs| => rs[i].customId)
  }

  function Create(j: Json, st: Store, id: string, rs: seq<Request>, now: int): (Store, Result) {
    if CanCreate(j, st, id, rs)
    then (Store(st.batches[id := PlannedBatch(id, now)], Stored(st.items, id, rs, now, |rs|),
                st.index[id := CustomIds(rs)]), Ok)
    else (st, Fail(Conflict))
  }

  // ------------------------------------------------------------------
  // SubmitBatch

  datatype SubmitFields = SubmitFields(remoteId: string, resultsURL: string, counts: Counts)

  predicate SameSubmit(b: Batch, f: SubmitFields) {
    b.remoteId == f.remoteId && b.resultsURL == f.resultsURL && b.counts == f.counts
  }

  predicate RemoteTaken(batches: map<string, Batch>, id: string, remoteId: string) {
    remoteId != "" && exists o :: o in batches && o != id && batches[o].remoteId == remoteId
  }

  predicate ItemsPlanned(st: Store, id: string) {
    id in st.index ==> forall c :: c in st.index[id] ==> c in st.items && st.items[c].state.Planned?
  }

  predicate CanSubmit(st: Store, id: string, f: SubmitFields) {
    id in st.batches && st.batches[id].submittedAt.None? && st.batches[id].state.Planned?
    && ValidCounts(f.counts) && !RemoteTaken(st.batches, id, f.remoteId) && ItemsPlanned(st, id)
  }

  function SubmittedBatch(b: Batch, f: SubmitFields, now: int): Batch {
    b.(state := BatchState.Submitted, remoteId := f.remoteId, resultsURL := f.resultsURL, counts := f.counts,
       submittedAt := Some(now), updatedAt := now)
  }

  function SubmittedItem(it: BatchItem, now: int): BatchItem {
    it.(state := ItemState.Submitted, submittedAt := Some(now), updatedAt := now)
  }

  function SubmitItems(items: map<string, BatchItem>, ids: seq<string>, now: int): map<string, BatchItem> {
    map c | c in items :: if c in ids then SubmittedItem(items[c], now) else items[c]
  }

  function Listed(st: Store, id: string): seq<string> {
    if id in st.index then st.index[id] else []
  }

  function Submit(st: Store, id: string, f: SubmitFields, now: int): (Store, Result) {
    if id !in st.batches then (st, Fail(NotFound))
    else if st.batches[id].submittedAt.Some? then (st, if SameSubmit(st.batches[id], f) then Ok else Fail(Conflict))
    else if !CanSubmit(st, id, f) then (st, Fail(Conflict))
    else (st.(batches := st.batches[id := SubmittedBatch(st.batches[id], f, now)],
              items := SubmitItems(st.items, Listed(st, id), now)), Ok)
  }

  // ------------------------------------------------------------------
  // UpdateBatchState

  datatype StateFields = StateFields(resultsURL: string, counts: Option<Counts>)

  predicate ValidTransition(from: BatchState, to: BatchState) {
    match from
    case Planned => to.Canceled? || to.Failed?
    case Submitted => to.ResultsReady? || to.Canceled? || to.Failed?
    case ResultsReady => to.Applied? || to.Canceled? || to.Failed?
    case _ => false
  }

  /** The state a batch's active items fall to when it ends. */
  function ItemFate(to: BatchState): Option<ItemState> {
    match to
    case Canceled => Some(ItemState.Canceled)
    case Failed => Some(ItemState.Failed)
    case _ => None
  }

  predicate HasActive(st: Store, id: string) {
    exists c :: c in Listed(st, id) && c in st.items && Active(st.items[c].state)
  }

  predicate CanMove(st: Store, id: string, to: BatchState, f: StateFields) {
    id in st.batches && (f.counts.Some? ==> ValidCounts(f.counts.value))
    && (st.batches[id].state == to
        || (!(to.Applied? && HasActive(st, id)) && ValidTransition(st.batches[id].state, to)))
  }

  function MovedBatch(b: Batch, to: BatchState, f: StateFields, now: int): Batch {
    var moved := b.state != to;
    b.(state := to,
       resultsURL := if f.resultsURL != "" then f.resultsURL else b.resultsURL,
       counts := if f.counts.Some? then f.counts.value else b.counts,
       finishedAt := if moved && (to.ResultsReady? || to.Canceled? || to.Failed? || (to.Applied? && b.finishedAt.None?))
                     then Some(now) else b.finishedAt,
       appliedAt := if moved && to.Applied? then Some(now) else b.appliedAt,
       updatedAt := now)
  }

  function EndedItem(it: BatchItem, state: ItemState, now: int): BatchItem {
    if Active(it.state) then it.(state := state, finishedAt := Some(now), updatedAt := now) else it
  }

  function EndItems(items: map<string, BatchItem>, ids: seq<string>, state: ItemState, now: int): map<string, BatchItem> {
    map c | c in items :: if c in ids then EndedItem(items[c], state, now) else items[c]
  }

  function MovedItems(st: Store, id: string, to: BatchState, now: int): map<string, BatchItem>
    requires id in st.batches
  {
    if st.batches[id].state != to && ItemFate(to).Some?
    then EndItems(st.items, Listed(st, id), ItemFate(to).value, now) else st.items
  }

  function SetState(st: Store, id: string, to: BatchState, f: StateFields, now: int): (Store, Result) {
    if id !in st.batches then (st, Fail(NotFound))
    else if !CanMove(st, id, to, f) then (st, Fail(Conflict))
    else (st.(batches := st.batches[id := MovedBatch(st.batches[id], to, f, now)],
              items := MovedItems(st, id, to, now)), Ok)
  }

  // ------------------------------------------------------------------
  // WriteBatchItemResult and MarkBatchItemApplied

  datatype ResultFields = ResultFields(state: ItemState, result: string, errorType: string, errorMessage: string)

  /** jsonRawEqual; None is its error. */
  function RawEqual(j: Json, a: string, b: string): Option<bool> {
    if a == "" || b == "" then Some(|a| == |b|)
    else match (j.decode(a), j.decode(b))
         case (Some(x), Some(y)) => Some(x == y)
         case _ => None
  }

  function SameResult(j: Json, it: BatchItem, f: ResultFields): Option<bool> {
    if it.state != f.state || it.errorType != f.errorType || it.errorMessage != f.errorMessage then Some(false)
    else RawEqual(j, it.result, f.result)
  }

  function ReportedItem(it: BatchItem, f: ResultFields, now: int): BatchItem {
    it.(state := f.state, result := f.result, errorType := f.errorType, errorMessage := f.errorMessage,
        finishedAt := Some(now), updatedAt := now)
  }

  function WriteResult(j: Json, st: Store, c: string, f: ResultFields, now: int): (Store, Result) {
    if !Reported(f.state) then (st, Fail(Conflict))
    else if c !in st.items then (st, Fail(NotFound))
    else if st.items[c].finishedAt.Some? then
      match SameResult(j, st.items[c], f)
      case None => (st, Fail(BadJson))
      case Some(same) => (st, if same then Ok else Fail(Conflict))
    else if !st.items[c].state.Submitted? || !j.valid(f.result) then (st, Fail(Conflict))
    else (st.(items := st.items[c := ReportedItem(st.items[c], f, now)]), Ok)
  }

  function AppliedItem(it: BatchItem, now: int): BatchItem {
    it.(state := ItemState.Applied, appliedAt := Some(now), updatedAt := now)
  }

  function MarkApplied(st: Store, c: string, now: int): (Store, Result) {
    if c !in st.items then (st, Fail(NotFound))
    else if st.items[c].state.Applied? then (st, Ok)
    else if !st.items[c].state.Succeeded? then (st, Fail(Conflict))
    else (st.(items := st.items[c := AppliedItem(st.items[c], now)]), Ok)
  }

  // ------------------------------------------------------------------
  // Runs

  datatype Op =
    | OpCreate(id: string, rs: seq<Request>)
    | OpSubmit(id: string, submit: SubmitFields)
    | OpSetState(id: string, to: BatchState, fields: StateFields)
    | OpWriteResult(customId: string, result: ResultFields)
    | OpMarkApplied(customId: string)

  function Perform(j: Json, st: Store, op: Op, now: int): (Store, Result) {
    match op
    case OpCreate(id, rs) => Create(j, st, id, rs, now)
    case OpSubmit(id, f) => Submit(st, id, f, now)
    case OpSetState(id, to, f) => SetState(st, id, to, f, now)
    case OpWriteResult(c, f) => WriteResult(j, st, c, f, now)
    case OpMarkApplied(c) => MarkApplied(st, c, now)
  }

  /** A call with its context: a context that is done refuses the call at once. */
  datatype Call = Call(op: Op, now: int, ctxDone: bool)

  function Apply(j: Json, st: Store, call: Call): (Store, Result) {
    if call.ctxDone then (st, Fail(CtxDone)) else Perform(j, st, call.op, call.now)
  }

  function Run(j: Json, st: Store, calls: seq<Call>): Store
    decreases |calls|
  {
    if calls == [] then st else Run(j, Apply(j, st, calls[0]).0, calls[1..])
  }
}
