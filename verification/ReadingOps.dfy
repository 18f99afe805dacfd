/** The commands of internal/readingops/service.go as methods over the store, the blobs
    and the dispatcher that they change step by step, with their compensating deletes.
    A command runs here by itself, with any of its calls failing; System interleaves
    the same steps with handlers and other commands. */
module ReadingOps {
  import opened Basics
  import opened Readings
  import opened BlobKeys
  import C = Claims
  import D = Dispatcher
  import K = Keyset
  import M = MemoryStore
  import P = Protocol
  import T = ReadingTable

  class BlobStore {
    var data: map<string, string>

    constructor ()
      ensures data == map[]
    {
      data := map[];
    }

    method Put(fails: bool, key: string, body: string) returns (ok: bool)
      modifies this
      ensures ok == !fails
      ensures data == if ok then old(data)[key := body] else old(data)
    {
      if !fails { data := data[key := body]; }
      return !fails;
    }

    method Get(fails: bool, key: string) returns (body: Option<string>)
      ensures body == if !fails && key in data then Some(data[key]) else None
    {
      return if !fails && key in data then Some(data[key]) else None;
    }

    method Delete(fails: bool, key: string)
      modifies this
      ensures data == if fails then old(data) else old(data) - {key}
    {
      if !fails { data := data - {key}; }
    }
  }

  datatype Error = InvalidURL | BlobFailed | StoreFailed(error: T.Error)

  datatype Reply = Accepted(id: string, status: Status, created: bool) | Refused(error: Error)

  // ------------------------------------------------------------------
  // What a command must not break

  predicate KeyOK(data: map<string, string>, id: string, key: string) {
    key == "" || (Owns(id, key) && key in data)
  }

  predicate RowOK(data: map<string, string>, r: Reading) {
    NoSlash(r.id) && KeyOK(data, r.id, r.rawKey) && KeyOK(data, r.id, r.contentKey)
  }

  /** Every key in a row lies under the reading's prefix and names a blob. */
  predicate Referenced(rows: K.Rows, data: map<string, string>) {
    forall id :: id in rows ==> rows[id].id == id && RowOK(data, rows[id])
  }

  /** No row but id's own refers to a key under id's prefix. */
  lemma OthersElsewhere(rows: K.Rows, data: map<string, string>, id: string, key: string, other: string)
    requires Referenced(rows, data) && NoSlash(id) && Owns(id, key) && other in rows && other != id
    ensures rows[other].rawKey != key && rows[other].contentKey != key
  {
    assert RowOK(data, rows[other]);
    if rows[other].rawKey == key || rows[other].contentKey == key {
      assert key != "" by { assert |key| >= |Home(id)| > 0; }
      OwnerUnique(id, other, key);
    }
  }

  /** Storing a body changes no blob a row refers to, unless id's row refers to this key. */
  lemma PutKeeps(rows: K.Rows, data: map<string, string>, id: string, key: string, body: string)
    requires Referenced(rows, data) && NoSlash(id) && Owns(id, key)
    requires id in rows ==> rows[id].rawKey != key && rows[id].contentKey != key
    ensures Referenced(rows, data[key := body]) && SameBodies(rows, data, data[key := body])
  {
    forall other | other in rows ensures RowOK(data[key := body], rows[other]) && SameRow(rows[other], data, data[key := body]) {
      assert RowOK(data, rows[other]);
      if other != id { OthersElsewhere(rows, data, id, key, other); }
    }
  }

  lemma DeleteKeeps(rows: K.Rows, data: map<string, string>, id: string, key: string)
    requires Referenced(rows, data) && NoSlash(id) && Owns(id, key)
    requires id in rows ==> rows[id].rawKey != key && rows[id].contentKey != key
    ensures Referenced(rows, data - {key}) && SameBodies(rows, data, data - {key})
  {
    forall other | other in rows ensures RowOK(data - {key}, rows[other]) && SameRow(rows[other], data, data - {key}) {
      assert RowOK(data, rows[other]);
      if other != id { OthersElsewhere(rows, data, id, key, other); }
    }
  }

  predicate SameRow(r: Reading, data: map<string, string>, data': map<string, string>) {
    (r.rawKey != "" ==> r.rawKey in data && r.rawKey in data' && data'[r.rawKey] == data[r.rawKey])
    && (r.contentKey != "" ==> r.contentKey in data && r.contentKey in data' && data'[r.contentKey] == data[r.contentKey])
  }

  /** Every blob that these rows refer to has the body it had. */
  predicate SameBodies(rows: K.Rows, data: map<string, string>, data': map<string, string>) {
    forall id :: id in rows ==> SameRow(rows[id], data, data')
  }

  /** A reset makes the row as if just created; a markdown row keeps its body and title. */
  function ResetRow(r: Reading, now: int): Reading {
    Reading(r.id, r.url, r.urlKey, Pending, r.kind, if r.kind == Markdown then r.title else "", NO_DERIVED,
            "", if r.kind == Markdown then r.rawKey else "", "", 0, r.tags, r.createdAt, None, None, now)
  }

  /** It is the reset of the joined system. */
  lemma ResetIsShared(r: Reading, now: int)
    ensures ResetRow(r, now) == WithReprocess(r, ReprocessFields(now, KeptRaw(r), KeptTitle(r)))
  {
  }

  lemma RowKeeps(rows: K.Rows, data: map<string, string>, r: Reading)
    requires Referenced(rows, data) && RowOK(data, r)
    ensures Referenced(rows[r.id := r], data)
  {
  }

  lemma ResetKeeps(rows: K.Rows, data: map<string, string>, id: string, now: int)
    requires Referenced(rows, data) && id in rows
    ensures Referenced(rows[id := ResetRow(rows[id], now)], data)
  {
    assert RowOK(data, rows[id]);
    assert RowOK(data, ResetRow(rows[id], now));
    RowKeeps(rows, data, ResetRow(rows[id], now));
  }

  lemma ImportKeeps(rows: K.Rows, data: map<string, string>, id: string, f: ImportFields)
    requires Referenced(rows, data) && id in rows && KeyOK(data, id, f.rawKey)
    ensures Referenced(rows[id := WithImport(rows[id], f)], data)
  {
    assert RowOK(data, rows[id]);
    assert RowOK(data, WithImport(rows[id], f));
    RowKeeps(rows, data, WithImport(rows[id], f));
  }

  lemma SameBodiesChain(rows: K.Rows, a: map<string, string>, b: map<string, string>, c: map<string, string>)
    requires SameBodies(rows, a, b) && SameBodies(rows, b, c)
    ensures SameBodies(rows, a, c)
  {
    forall id | id in rows ensures SameRow(rows[id], a, c) { assert SameRow(rows[id], a, b) && SameRow(rows[id], b, c); }
  }

  lemma Unchanged(rows: K.Rows, data: map<string, string>)
    requires Referenced(rows, data)
    ensures SameBodies(rows, data, data)
  {
    forall id | id in rows ensures SameRow(rows[id], data, data) { assert RowOK(data, rows[id]); }
  }

  /** The row of a fresh markdown import, with its body stored. */
  predicate Imported(r: Reading, key: string, title: string, tags: seq<string>, markdown: string, data: map<string, string>,
                     now: int) {
    r.status == Pending && r.kind == Markdown && r.urlKey == key && r.title == title && r.tags == tags
    && r.attempts == 0 && r.error == "" && r.startedAt.None? && r.finishedAt.None? && r.updatedAt == now
    && r.rawKey in data && data[r.rawKey] == markdown && r.contentKey == ""
  }

  /** Reprocess starts over what has finished, what has been pending for too long since it
      was created and since it last changed, and what has been running for too long. */
  predicate Restarts(r: Reading, now: int, ttls: TTLs) {
    || r.status == Ready || r.status == Failed
    || (r.status == Pending && ttls.pending > 0 && r.updatedAt < now - ttls.pending && r.createdAt < now - ttls.pending)
    || (r.status == Running && ttls.running > 0 && r.startedAt.Some? && r.startedAt.value < now - ttls.running)
  }

  /** What has been started over is left alone for as long as the pending TTL lasts. */
  lemma RestartedIsFresh(r: Reading, now: int, later: int, ttls: TTLs)
    requires later <= now + ttls.pending
    ensures !Stale(ResetRow(r, now), later, ttls) && !Restarts(ResetRow(r, now), later, ttls)
  {
    StaleMeans(ResetRow(r, now), later, ttls);
  }

  /** The row of a freshly ingested URL. */
  function FetchedRow(id: string, url: string, key: string, kind: Kind, now: int): Reading {
    Reading(id, url, key, Pending, if kind == Markdown then Web else kind, "", NO_DERIVED, "", "", "", 0, [], now, None, None, now)
  }

  class Service {
    const store: M.Memory
    const blobs: BlobStore
    const dispatcher: D.Dispatcher
    const ttls: TTLs
    const urlKey: string -> Option<string>
    const kindOf: string -> Kind
    const trim: string -> string

    ghost predicate Valid()
      reads this, store, blobs, dispatcher
    {
      dispatcher.store == store && store.RowsValid() && dispatcher.Valid() && Referenced(store.byID, blobs.data)
    }

    constructor (store: M.Memory, blobs: BlobStore, dispatcher: D.Dispatcher, ttls: TTLs,
                 urlKey: string -> Option<string>, kindOf: string -> Kind, trim: string -> string)
      requires dispatcher.store == store && store.RowsValid() && dispatcher.Valid() && Referenced(store.byID, blobs.data)
      ensures Valid()
      ensures this.store == store && this.blobs == blobs && this.dispatcher == dispatcher && this.ttls == ttls
    {
      this.store, this.blobs, this.dispatcher, this.ttls := store, blobs, dispatcher, ttls;
      this.urlKey, this.kindOf, this.trim := urlKey, kindOf, trim;
    }

    /** markPending resets the row, keeping a markdown body and its title, or fails and
        changes nothing. */
    method MarkPending(readFails: bool, writeFails: bool, id: string, now: int) returns (res: T.Result)
      requires Valid()
      modifies store`byID
      ensures Valid()
      ensures res.Ok? <==> !readFails && !writeFails && id in old(store.byID)
      ensures store.byID == if res.Ok? then old(store.byID)[id := ResetRow(old(store.byID)[id], now)] else old(store.byID)
    {
      var got, r := store.GetByID(readFails, id);
      if got.Fail? { return got; }
      ResetIsShared(r.value, now);
      ResetKeeps(store.byID, blobs.data, id, now);
      var rawKey, title := "", "";
      if r.value.kind == Markdown { rawKey, title := r.value.rawKey, r.value.title; }
      res := store.Reprocess(writeFails, id, ReprocessFields(now, rawKey, title));
    }

    /** ForceSubmitAfter with markPending as its callback. Its context cannot be
        cancelled, so the wait for the replaced run ends by itself; what that run does
        meanwhile is the step relation's concern. */
    method ForceReset(readFails: bool, writeFails: bool, id: string, now: int) returns (res: T.Result)
      requires Valid()
      modifies store`byID, dispatcher`inflight, dispatcher`nextToken, dispatcher`cancelled, dispatcher`ch
      ensures Valid()
      ensures res.Ok? <==> !readFails && !writeFails && id in old(store.byID)
      ensures store.byID == if res.Ok? then old(store.byID)[id := ResetRow(old(store.byID)[id], now)] else old(store.byID)
      ensures id in old(dispatcher.inflight) && old(dispatcher.inflight)[id].cancel.Some? ==>
                old(dispatcher.inflight)[id].cancel.value in dispatcher.cancelled
      ensures if res.Ok? && dispatcher.config.isInline
              then dispatcher.ch == old(dispatcher.ch) && C.Holds(dispatcher.Owners(), C.Item(id, 0, dispatcher.nextToken))
              else if res.Ok? && |old(dispatcher.ch)| < P.Capacity(dispatcher.config)
              then dispatcher.ch == old(dispatcher.ch) + [C.Item(id, 0, dispatcher.nextToken)]
                   && C.Holds(dispatcher.Owners(), C.Item(id, 0, dispatcher.nextToken))
              else dispatcher.ch == old(dispatcher.ch) && id !in dispatcher.inflight
    {
      var it, _ := dispatcher.ForceClaim(id);
      res := MarkPending(readFails, writeFails, id, now);
      if res.Fail? {
        dispatcher.Release(it);
      } else {
        var _ := dispatcher.QueueClaimed(it);
      }
    }

    /** Reprocess leaves a fresh pending or running reading alone. A finished one it
        resets and submits, a stale one it takes over by force. No blob changes. */
    method Reprocess(fails: (bool, bool, bool), id: string, now: int) returns (reply: Reply)
      requires Valid()
      modifies store`byID, dispatcher`inflight, dispatcher`nextToken, dispatcher`cancelled, dispatcher`ch
      ensures Valid()
      ensures reply.Refused? ==> store.byID == old(store.byID)
      ensures reply.Accepted? <==> !fails.0 && id in old(store.byID)
                                   && (Restarts(old(store.byID)[id], now, ttls) ==> !fails.1 && !fails.2)
      ensures reply.Accepted? ==>
                var r := old(store.byID)[id];
                if Restarts(r, now, ttls)
                then store.byID == old(store.byID)[id := ResetRow(r, now)] && reply == Accepted(id, Pending, false)
                else store.byID == old(store.byID) && reply == Accepted(id, r.status, false)
                     && dispatcher.Owners() == old(dispatcher.Owners()) && dispatcher.ch == old(dispatcher.ch)
      ensures reply.Accepted? && Restarts(old(store.byID)[id], now, ttls) ==>
                id in dispatcher.inflight || |dispatcher.ch| == P.Capacity(dispatcher.config)
    {
      var got, r := store.GetByID(fails.0, id);
      if got.Fail? { return Refused(StoreFailed(got.error)); }
      StaleMeans(r.value, now, ttls);
      var waiting := r.value.status == Pending || r.value.status == Running;
      var stale := Stale(r.value, now, ttls);
      if waiting && !stale { return Accepted(id, r.value.status, false); }
      var res;
      if waiting && stale {
        res := ForceReset(fails.1, fails.2, id, now);
        if res.Fail? { return Refused(StoreFailed(res.error)); }
      } else {
        res := MarkPending(fails.1, fails.2, id, now);
        if res.Fail? { return Refused(StoreFailed(res.error)); }
        Enqueue(id);
      }
      return Accepted(id, Pending, false);
    }

    /** Submit: afterwards the id has an owner, unless the channel is full. Where the
        dispatcher runs items inline, the run of the new item comes next. */
    method Enqueue(id: string)
      requires dispatcher.Valid()
      modifies dispatcher`inflight, dispatcher`nextToken, dispatcher`cancelled, dispatcher`ch
      ensures dispatcher.Valid()
      ensures id in dispatcher.inflight || |dispatcher.ch| == P.Capacity(dispatcher.config)
    {
      var _ := dispatcher.Submit(id);
    }

    /** The new half of IngestURL. A key that is known by now is answered as it is. */
    method IngestNew(fails: (bool, bool), key: string, url: string, newID: string, now: int) returns (reply: Reply)
      requires Valid() && NoSlash(newID)
      modifies store`byID, store`byURLKey, dispatcher`inflight, dispatcher`nextToken, dispatcher`cancelled, dispatcher`ch
      ensures Valid()
      ensures reply.Accepted? && reply.created ==>
                && reply == Accepted(newID, Pending, true) && newID !in old(store.byID)
                && store.byID == old(store.byID)[newID := FetchedRow(newID, trim(url), key, kindOf(key), now)]
                && (newID in dispatcher.inflight || |dispatcher.ch| == P.Capacity(dispatcher.config))
      ensures !(reply.Accepted? && reply.created) ==>
                store.Table() == old(store.Table()) && dispatcher.Owners() == old(dispatcher.Owners())
                && dispatcher.ch == old(dispatcher.ch)
      ensures fails == (false, false) && newID !in old(store.byID) ==> reply.Accepted?
      ensures reply.Accepted? && !reply.created ==>
                reply.id in store.byID && store.byID[reply.id].urlKey == key && store.byID[reply.id].status == reply.status
    {
      var kind := kindOf(key);
      if kind == Markdown { kind := Web; }
      var rec := Reading(newID, trim(url), key, Pending, kind, "", NO_DERIVED, "", "", "", 0, [], now, None, None, now);
      if newID !in store.byID { RowKeeps(store.byID, blobs.data, rec); }
      var saved := store.SaveReading(fails.0, rec);
      if saved.Fail? {
        if saved.error == T.Conflict {
          var again, got := store.GetByURLKey(fails.1, key);
          if again.Ok? { return Accepted(got.value.id, got.value.status, false); }
        }
        return Refused(StoreFailed(saved.error));
      }
      Enqueue(newID);
      return Accepted(newID, Pending, true);
    }

    /** IngestURL: an existing reading is answered as it is, or reset if it failed; a new
        one is saved pending. No blob changes, and a refusal changes no row. */
    method IngestURL(fails: (bool, bool, bool), rawURL: string, newID: string, now: int) returns (reply: Reply)
      requires Valid() && NoSlash(newID)
      modifies store`byID, store`byURLKey, dispatcher`inflight, dispatcher`nextToken, dispatcher`cancelled, dispatcher`ch
      ensures Valid()
      ensures reply.Refused? ==> store.Table() == old(store.Table())
      ensures reply.Accepted? ==> reply.id in store.byID && store.byID[reply.id].status == reply.status
                                  && Some(store.byID[reply.id].urlKey) == urlKey(rawURL)
      ensures reply.Accepted? && reply.created ==>
                newID !in old(store.byID) && reply == Accepted(newID, Pending, true) && urlKey(rawURL).Some?
                && store.byID == old(store.byID)[newID := FetchedRow(newID, trim(rawURL), urlKey(rawURL).value,
                                                                     kindOf(urlKey(rawURL).value), now)]
      ensures reply.Accepted? && !reply.created ==>
                reply.id in old(store.byID)
                && var r := old(store.byID)[reply.id];
                   store.byID == if r.status == Failed then old(store.byID)[r.id := ResetRow(r, now)] else old(store.byID)
      ensures reply.Accepted? && (reply.created || old(store.byID)[reply.id].status == Failed) ==>
                reply.id in dispatcher.inflight || |dispatcher.ch| == P.Capacity(dispatcher.config)
      ensures reply.Refused? || (!reply.created && old(store.byID)[reply.id].status != Failed) ==>
                dispatcher.Owners() == old(dispatcher.Owners()) && dispatcher.ch == old(dispatcher.ch)
      ensures urlKey(rawURL).None? ==> reply == Refused(InvalidURL)
      ensures urlKey(rawURL).Some? && fails == (false, false, false) && newID !in old(store.byID) ==> reply.Accepted?
    {
      var key := urlKey(rawURL);
      if key.None? { return Refused(InvalidURL); }
      var got, existing := store.GetByURLKey(fails.0, key.value);
      if got.Ok? {
        var r := existing.value;
        if r.status != Failed { return Accepted(r.id, r.status, false); }
        var res := MarkPending(fails.1, fails.2, r.id, now);
        if res.Fail? { return Refused(StoreFailed(res.error)); }
        Enqueue(r.id);
        return Accepted(r.id, Pending, false);
      }
      if got.error != T.NotFound { return Refused(StoreFailed(got.error)); }
      reply := IngestNew((fails.1, fails.2), key.value, rawURL, newID, now);
    }

    /** The end of a new import, with the body stored: the row is saved and submitted, or
        the body is dropped again. A key that is known by now is answered as it is. */
    method SaveImport(fails: (bool, bool, bool), rec: Reading) returns (reply: Reply)
      requires Valid() && rec.id !in store.byID && rec.rawKey != "" && RowOK(blobs.data, rec)
      modifies store`byID, store`byURLKey, blobs, dispatcher`inflight, dispatcher`nextToken, dispatcher`cancelled, dispatcher`ch
      ensures Valid()
      ensures SameBodies(old(store.byID), old(blobs.data), blobs.data)
      ensures if reply.Accepted? && reply.created
              then reply == Accepted(rec.id, rec.status, true) && blobs.data == old(blobs.data)
                   && (rec.id in dispatcher.inflight || |dispatcher.ch| == P.Capacity(dispatcher.config))
                   && store.byID == old(store.byID)[rec.id := rec] && rec.urlKey !in old(store.byURLKey)
              else store.Table() == old(store.Table())
                   && blobs.data == if fails.2 then old(blobs.data) else old(blobs.data) - {rec.rawKey}
      ensures reply.Accepted? && !reply.created ==>
                reply.id in store.byID && store.byID[reply.id].urlKey == rec.urlKey && store.byID[reply.id].status == reply.status
    {
      RowKeeps(store.byID, blobs.data, rec);
      Unchanged(store.byID, blobs.data);
      DeleteKeeps(store.byID, blobs.data, rec.id, rec.rawKey);
      var saved := store.SaveReading(fails.0, rec);
      if saved.Fail? {
        if saved.error == T.Conflict {
          var again, got := store.GetByURLKey(fails.1, rec.urlKey);
          if again.Ok? {
            blobs.Delete(fails.2, rec.rawKey);
            return Accepted(got.value.id, got.value.status, false);
          }
        }
        blobs.Delete(fails.2, rec.rawKey);
        return Refused(StoreFailed(saved.error));
      }
      Enqueue(rec.id);
      return Accepted(rec.id, rec.status, true);
    }

    /** Stores a body under a key that no row refers to. */
    method StoreBody(fails: bool, id: string, key: string, body: string) returns (ok: bool)
      requires Valid() && NoSlash(id) && key != "" && Owns(id, key)
      requires id in store.byID ==> store.byID[id].rawKey != key && store.byID[id].contentKey != key
      modifies blobs
      ensures Valid() && ok == !fails
      ensures SameBodies(store.byID, old(blobs.data), blobs.data)
      ensures blobs.data == if ok then old(blobs.data)[key := body] else old(blobs.data)
      ensures ok ==> KeyOK(blobs.data, id, key)
    {
      Unchanged(store.byID, blobs.data);
      PutKeeps(store.byID, blobs.data, id, key, body);
      ok := blobs.Put(fails, key, body);
    }

    /** ImportMarkdown of a new reading: the body is stored before the row. Unless the row
        is created, every row stays as it was, and every blob but perhaps the new one. */
    method ImportNew(fails: (bool, bool, bool, bool, bool), key: string, url: string, title: string, markdown: string,
                     tags: seq<string>, newID: string, now: int)
      returns (reply: Reply)
      requires Valid() && NoSlash(newID)
      modifies store`byID, store`byURLKey, blobs, dispatcher`inflight, dispatcher`nextToken, dispatcher`cancelled, dispatcher`ch
      ensures Valid()
      ensures SameBodies(old(store.byID), old(blobs.data), blobs.data)
      ensures blobs.data - {ImportKey(newID)} == old(blobs.data) - {ImportKey(newID)}
      ensures if reply.Accepted? && reply.created
              then reply == Accepted(newID, Pending, true) && newID !in old(store.byID) && newID in store.byID
                   && Imported(store.byID[newID], key, title, tags, markdown, blobs.data, now)
                   && (newID in dispatcher.inflight || |dispatcher.ch| == P.Capacity(dispatcher.config))
                   && store.byID == old(store.byID)[newID := store.byID[newID]]
              else store.Table() == old(store.Table())
      ensures reply.Accepted? && !reply.created ==>
                reply.id in store.byID && store.byID[reply.id].urlKey == key && store.byID[reply.id].status == reply.status
      ensures !(reply.Accepted? && reply.created) && !fails.4 && ImportKey(newID) !in old(blobs.data) ==>
                blobs.data == old(blobs.data)
    {
      Unchanged(store.byID, blobs.data);
      var found, _ := store.GetByID(fails.0, newID);
      if found.Ok? { return Refused(StoreFailed(T.Conflict)); }
      if found.error != T.NotFound { return Refused(StoreFailed(found.error)); }
      reply := ImportFresh(fails, key, url, title, markdown, tags, newID, now);
    }

    method ImportFresh(fails: (bool, bool, bool, bool, bool), key: string, url: string, title: string, markdown: string,
                       tags: seq<string>, newID: string, now: int)
      returns (reply: Reply)
      requires Valid() && NoSlash(newID) && newID !in store.byID
      modifies store`byID, store`byURLKey, blobs, dispatcher`inflight, dispatcher`nextToken, dispatcher`cancelled, dispatcher`ch
      ensures Valid()
      ensures SameBodies(old(store.byID), old(blobs.data), blobs.data)
      ensures blobs.data - {ImportKey(newID)} == old(blobs.data) - {ImportKey(newID)}
      ensures if reply.Accepted? && reply.created
              then reply == Accepted(newID, Pending, true) && newID !in old(store.byID) && newID in store.byID
                   && Imported(store.byID[newID], key, title, tags, markdown, blobs.data, now)
                   && (newID in dispatcher.inflight || |dispatcher.ch| == P.Capacity(dispatcher.config))
                   && store.byID == old(store.byID)[newID := store.byID[newID]]
              else store.Table() == old(store.Table())
      ensures reply.Accepted? && !reply.created ==>
                reply.id in store.byID && store.byID[reply.id].urlKey == key && store.byID[reply.id].status == reply.status
      ensures !(reply.Accepted? && reply.created) && !fails.4 && ImportKey(newID) !in old(blobs.data) ==>
                blobs.data == old(blobs.data)
    {
      var rawKey := ImportKey(newID);
      var put := StoreBody(fails.1, newID, rawKey, markdown);
      if !put { return Refused(BlobFailed); }
      var rec := Reading(newID, trim(url), key, Pending, Markdown, title, NO_DERIVED, "", rawKey, "", 0, tags, now, None, None, now);
      reply := SaveImport((fails.2, fails.3, fails.4), rec);
    }

    /** Drops a blob the row no longer refers to. */
    method DropOld(fails: bool, id: string, key: string)
      requires Valid() && NoSlash(id) && (key == "" || Owns(id, key))
      requires key != "" && id in store.byID ==> store.byID[id].rawKey != key && store.byID[id].contentKey != key
      modifies blobs
      ensures Valid() && SameBodies(store.byID, old(blobs.data), blobs.data)
      ensures blobs.data == if key == "" || fails then old(blobs.data) else old(blobs.data) - {key}
    {
      if key != "" {
        DeleteKeeps(store.byID, blobs.data, id, key);
        blobs.Delete(fails, key);
      } else {
        Unchanged(store.byID, blobs.data);
      }
    }

    /** Points the row at a stored body, or takes the body back. */
    method Redirect(fails: (bool, bool), existing: Reading, fields: ImportFields) returns (res: T.Result)
      requires Valid() && existing.id in store.byID && store.byID[existing.id] == existing
      requires fields.rawKey != "" && KeyOK(blobs.data, existing.id, fields.rawKey)
      requires fields.rawKey != existing.rawKey && fields.rawKey != existing.contentKey
      modifies store`byID, blobs
      ensures Valid() && SameBodies(old(store.byID), old(blobs.data), blobs.data)
      ensures store.byID == if res.Ok? then old(store.byID)[existing.id := WithImport(existing, fields)] else old(store.byID)
      ensures blobs.data == if res.Ok? || fails.1 then old(blobs.data) else old(blobs.data) - {fields.rawKey}
    {
      ImportKeeps(store.byID, blobs.data, existing.id, fields);
      Unchanged(store.byID, blobs.data);
      assert NoSlash(existing.id) by { assert RowOK(blobs.data, existing); }
      res := store.UpdateImport(fails.0, existing.id, fields);
      if res.Fail? { DropOld(fails.1, existing.id, fields.rawKey); }
    }

    /** replaceFailedWithMarkdown: the new body goes under a key that is neither of the old
        ones, so a failure before the row is rewritten loses nothing; the old blobs are
        dropped only afterwards. */
    method ReplaceFailed(fails: (bool, bool, bool, bool), existing: Reading, base: string, title: string,
                         markdown: string, tags: seq<string>, now: int)
      returns (reply: Reply)
      requires Valid() && existing.id in store.byID && store.byID[existing.id] == existing
      modifies store`byID, blobs, dispatcher`inflight, dispatcher`nextToken, dispatcher`cancelled, dispatcher`ch
      ensures Valid()
      ensures reply.Refused? ==> store.byID == old(store.byID) && SameBodies(old(store.byID), old(blobs.data), blobs.data)
      ensures reply.Accepted? ==>
                var key := ReplacementKey(existing.id, base, existing.rawKey, existing.contentKey);
                var r := Reading(existing.id, existing.url, existing.urlKey, Pending, Markdown, title, NO_DERIVED, "", key, "", 0,
                                 tags, existing.createdAt, None, None, now);
                reply == Accepted(existing.id, Pending, false) && store.byID == old(store.byID)[existing.id := r]
                && key in blobs.data && blobs.data[key] == markdown
                && Imported(r, existing.urlKey, title, tags, markdown, blobs.data, now)
      ensures reply.Accepted? ==> existing.id in dispatcher.inflight || |dispatcher.ch| == P.Capacity(dispatcher.config)
      ensures reply.Accepted? && !fails.2 ==> existing.rawKey == "" || existing.rawKey !in blobs.data
      ensures reply.Accepted? && !fails.3 ==> existing.contentKey == "" || existing.contentKey !in blobs.data
    {
      assert RowOK(blobs.data, existing);
      ghost var rows, before := store.byID, blobs.data;
      var key, _ := ReplacementRawKey(existing.id, base, existing.rawKey, existing.contentKey, now);
      var put := StoreBody(fails.0, existing.id, key, markdown);
      if !put { return Refused(BlobFailed); }
      ghost var staged := blobs.data;
      var res := Redirect((fails.1, fails.2), existing, ImportFields(now, Markdown, title, key, tags));
      SameBodiesChain(rows, before, staged, blobs.data);
      if res.Fail? { return Refused(StoreFailed(res.error)); }
      DropOld(fails.2, existing.id, existing.rawKey);
      DropOld(fails.3, existing.id, existing.contentKey);
      Enqueue(existing.id);
      return Accepted(existing.id, Pending, false);
    }

    /** ImportMarkdown: a known URL is answered as it is, or replaced if its reading failed;
        any other is imported new. */
    method ImportMarkdown(lookupFails: bool, create: (bool, bool, bool, bool, bool), replace: (bool, bool, bool, bool),
                          url: string, title: string, markdown: string, tags: seq<string>, newID: string, now: int)
      returns (reply: Reply)
      requires Valid() && NoSlash(newID)
      modifies store`byID, store`byURLKey, blobs, dispatcher`inflight, dispatcher`nextToken, dispatcher`cancelled, dispatcher`ch
      ensures Valid()
      ensures reply.Refused? ==> store.byID == old(store.byID) && SameBodies(old(store.byID), old(blobs.data), blobs.data)
      ensures reply.Accepted? ==> reply.id in store.byID && store.byID[reply.id].status == reply.status
                                  && Some(store.byID[reply.id].urlKey) == urlKey(url)
      ensures reply.Accepted? && store.byID != old(store.byID) ==>
                var r := store.byID[reply.id];
                store.byID == old(store.byID)[reply.id := r]
                && Imported(r, r.urlKey, title, tags, markdown, blobs.data, now)
                && (reply.id in dispatcher.inflight || |dispatcher.ch| == P.Capacity(dispatcher.config))
      ensures urlKey(url).None? ==> reply == Refused(InvalidURL)
    {
      Unchanged(store.byID, blobs.data);
      var key := urlKey(url);
      if key.None? { return Refused(InvalidURL); }
      var got, existing := store.GetByURLKey(lookupFails, key.value);
      if got.Ok? {
        if existing.value.status != Failed { return Accepted(existing.value.id, existing.value.status, false); }
        reply := ReplaceFailed(replace, existing.value, newID, title, markdown, tags, now);
        return;
      }
      if got.error != T.NotFound { return Refused(StoreFailed(got.error)); }
      reply := ImportNew(create, key.value, url, title, markdown, tags, newID, now);
    }
  }
}
