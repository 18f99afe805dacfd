/** The reading half of internal/store/memory.go as a value: the two maps byID and
    byURLKey and what each operation does to them. The class Memory refines it. */
module ReadingTable {
  import opened Basics
  import opened Readings
  import opened Keyset
  import opened Listings

  datatype Error = CtxDone | NotFound | Conflict

  datatype Result = Ok | Fail(error: Error)

  datatype Table = Table(byID: Rows, byURLKey: map<string, string>)

  /** byID is keyed by id, and byURLKey is exactly its inverse index by URL key. */
  predicate Valid(t: Table) {
    KeyedRows(t.byID)
    && (forall id :: id in t.byID ==> t.byID[id].urlKey in t.byURLKey && t.byURLKey[t.byID[id].urlKey] == id)
    && (forall k :: k in t.byURLKey ==> t.byURLKey[k] in t.byID && t.byID[t.byURLKey[k]].urlKey == k)
  }

  datatype Write =
    | SetStatus(status: Status, statusFields: StatusFields)
    | SetContent(content: ContentFields)
    | SetImport(imported: ImportFields)
    | SetPending(reprocess: ReprocessFields)
    | SetTags(tags: seq<string>, tagFields: TagFields)

  /** The fence of a write. Only content and tags carry one. */
  predicate Open(r: Reading, w: Write) {
    match w
    case SetContent(f) => FenceOpen(r, f.expectedStartedAt)
    case SetTags(_, f) => FenceOpen(r, f.expectedStartedAt)
    case _ => true
  }

  function Written(r: Reading, w: Write): Reading {
    match w
    case SetStatus(status, f) => WithStatus(r, status, f)
    case SetContent(f) => WithContent(r, f)
    case SetImport(f) => WithImport(r, f)
    case SetPending(f) => WithReprocess(r, f)
    case SetTags(tags, f) => WithTags(r, tags, f)
  }

  datatype Op = Save(r: Reading) | Update(id: string, w: Write) | Delete(id: string)

  function Perform(t: Table, op: Op): (Table, Result) {
    match op
    case Save(r) =>
      if r.id in t.byID || r.urlKey in t.byURLKey then (t, Fail(Conflict))
      else (Table(t.byID[r.id := r], t.byURLKey[r.urlKey := r.id]), Ok)
    case Update(id, w) =>
      if id !in t.byID then (t, Fail(NotFound))
      else if !Open(t.byID[id], w) then (t, Fail(Conflict))
      else (t.(byID := t.byID[id := Written(t.byID[id], w)]), Ok)
    case Delete(id) =>
      if id !in t.byID then (t, Fail(NotFound))
      else (Table(t.byID - {id}, t.byURLKey - {t.byID[id].urlKey}), Ok)
  }

  /** A call with its context: a context that is done refuses the call at once. */
  function Apply(t: Table, op: Op, ctxDone: bool): (Table, Result) {
    if ctxDone then (t, Fail(CtxDone)) else Perform(t, op)
  }

  function Run(t: Table, ops: seq<Op>): Table
    decreases |ops|
  {
    if ops == [] then t else Run(Perform(t, ops[0]).0, ops[1..])
  }

  /** No update operation changes what identifies a reading or when it was created. */
  lemma WriteKeepsIdentity(r: Reading, w: Write)
    ensures var r' := Written(r, w);
            r'.id == r.id && r'.createdAt == r.createdAt && r'.urlKey == r.urlKey && r'.url == r.url
  {
  }

  lemma PerformKeeps(t: Table, op: Op)
    requires Valid(t)
    ensures Valid(Perform(t, op).0)
  {
    match op
    case Save(r) =>
    case Update(id, w) => if id in t.byID { WriteKeepsIdentity(t.byID[id], w); }
    case Delete(id) =>
  }

  lemma {:induction false} RunKeeps(t: Table, ops: seq<Op>)
    requires Valid(t)
    ensures Valid(Run(t, ops))
    decreases |ops|
  {
    if ops != [] {
      PerformKeeps(t, ops[0]);
      RunKeeps(Perform(t, ops[0]).0, ops[1..]);
    }
  }

  /** Through any run that does not delete it, a reading stays, with its identity. */
  lemma {:induction false} RunKeepsIdentity(t: Table, ops: seq<Op>, id: string)
    requires Valid(t) && id in t.byID && Delete(id) !in ops
    ensures var t' := Run(t, ops);
            id in t'.byID && t'.byID[id].id == id && t'.byID[id].createdAt == t.byID[id].createdAt
            && t'.byID[id].urlKey == t.byID[id].urlKey
    decreases |ops|
  {
    if ops != [] {
      var t' := Perform(t, ops[0]).0;
      PerformKeeps(t, ops[0]);
      assert ops[0] != Delete(id) by { assert ops[0] in ops; }
      assert id in t'.byID && t'.byID[id].createdAt == t.byID[id].createdAt && t'.byID[id].urlKey == t.byID[id].urlKey by {
        if ops[0].Update? { WriteKeepsIdentity(t.byID[id], ops[0].w); }
      }
      assert Delete(id) !in ops[1..];
      RunKeepsIdentity(t', ops[1..], id);
    }
  }
}
