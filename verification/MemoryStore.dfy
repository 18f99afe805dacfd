/** The class Memory of internal/store/memory.go. Each method holds the store's one lock
    for its whole body, so a method body is one step; ctxDone says that ctx.Err() is
    not nil when it starts. Each is proved against the value it refines: a function of
    ReadingTable or Batches, or the unique page of Listings. */
module MemoryStore {
  import opened Basics
  import opened Readings
  import opened Keyset
  import opened Listings
  import B = Batches
  import BI = BatchInvariant
  import BM = BatchMeaning
  import O = PageOrder
  import S = Sorting
  import T = ReadingTable

  class Memory {
    const text: Text
    const json: B.Json

    var byID: Rows
    var byURLKey: map<string, string>
    var batches: map<string, B.Batch>
    var batchItems: map<string, B.BatchItem>
    var batchItemsByBatch: map<string, seq<string>>

    ghost function Table(): T.Table
      reads this`byID, this`byURLKey
    {
      T.Table(byID, byURLKey)
    }

    ghost function BatchTable(): B.Store
      reads this`batches, this`batchItems, this`batchItemsByBatch
    {
      B.Store(batches, batchItems, batchItemsByBatch)
    }

    ghost predicate RowsValid()
      reads this`byID, this`byURLKey
    {
      T.Valid(Table())
    }

    ghost predicate BatchesValid()
      reads this`batches, this`batchItems, this`batchItemsByBatch
    {
      BI.Inv(BatchTable())
    }

    ghost predicate Valid()
      reads this
    {
      RowsValid() && BatchesValid()
    }

    constructor (text: Text, json: B.Json)
      ensures Valid() && Table() == T.Table(map[], map[]) && BatchTable() == B.EMPTY
      ensures this.text == text && this.json == json
    {
      this.text, this.json := text, json;
      byID, byURLKey := map[], map[];
      batches, batchItems, batchItemsByBatch := map[], map[], map[];
    }

    // ----------------------------------------------------------------
    // Readings

    method SaveReading(ctxDone: bool, r: Reading) returns (res: T.Result)
      requires RowsValid()
      modifies this`byID, this`byURLKey
      ensures RowsValid()
      ensures (Table(), res) == T.Apply(old(Table()), T.Save(r), ctxDone)
      ensures res == if ctxDone then T.Fail(T.CtxDone)
                     else if r.id in old(byID) || exists id :: id in old(byID) && old(byID)[id].urlKey == r.urlKey
                     then T.Fail(T.Conflict) else T.Ok
      ensures byID == if res.Ok? then old(byID)[r.id := r] else old(byID)
    {
      T.PerformKeeps(Table(), T.Save(r));
      if ctxDone { return T.Fail(T.CtxDone); }
      if r.id in byID { return T.Fail(T.Conflict); }
      if r.urlKey in byURLKey { return T.Fail(T.Conflict); }
      byID := byID[r.id := r];
      byURLKey := byURLKey[r.urlKey := r.id];
      return T.Ok;
    }

    method GetByID(ctxDone: bool, id: string) returns (res: T.Result, r: Option<Reading>)
      requires RowsValid()
      ensures res == if ctxDone then T.Fail(T.CtxDone) else if id in byID then T.Ok else T.Fail(T.NotFound)
      ensures r == if res.Ok? then Some(byID[id]) else None
    {
      if ctxDone { return T.Fail(T.CtxDone), None; }
      if id !in byID { return T.Fail(T.NotFound), None; }
      return T.Ok, Some(byID[id]);
    }

    method GetByURLKey(ctxDone: bool, key: string) returns (res: T.Result, r: Option<Reading>)
      requires RowsValid()
      ensures res == if ctxDone then T.Fail(T.CtxDone)
                     else if exists id :: id in byID && byID[id].urlKey == key then T.Ok else T.Fail(T.NotFound)
      ensures r.Some? <==> res.Ok?
      ensures r.Some? ==> r.value.urlKey == key && r.value.id in byID && byID[r.value.id] == r.value
    {
      if ctxDone { return T.Fail(T.CtxDone), None; }
      if key !in byURLKey { return T.Fail(T.NotFound), None; }
      return T.Ok, Some(byID[byURLKey[key]]);
    }

    method UpdateStatus(ctxDone: bool, id: string, status: Status, fields: StatusFields) returns (res: T.Result)
      requires RowsValid()
      modifies this`byID
      ensures RowsValid()
      ensures (Table(), res) == T.Apply(old(Table()), T.Update(id, T.SetStatus(status, fields)), ctxDone)
      ensures res == if ctxDone then T.Fail(T.CtxDone) else if id !in old(byID) then T.Fail(T.NotFound) else T.Ok
      ensures res.Ok? ==> id in byID && byID == old(byID)[id := byID[id]]
                          && StatusWritten(old(byID)[id], byID[id], status, fields)
      ensures res.Fail? ==> byID == old(byID)
    {
      T.PerformKeeps(Table(), T.Update(id, T.SetStatus(status, fields)));
      if ctxDone { return T.Fail(T.CtxDone); }
      if id !in byID { return T.Fail(T.NotFound); }
      var r := StatusRow(byID[id], status, fields);
      WithStatusWrites(byID[id], status, fields);
      byID := byID[id := r];
      return T.Ok;
    }

    /** The row a status write stores. */
    method StatusRow(row: Reading, status: Status, fields: StatusFields) returns (r: Reading)
      ensures r == WithStatus(row, status, fields)
    {
      r := row.(status := status, updatedAt := fields.now);
      if fields.clearStartedAt {
        r := r.(startedAt := None);
      } else if fields.startedAt.Some? {
        r := r.(startedAt := fields.startedAt);
      } else if status == Running {
        r := r.(startedAt := Some(fields.now));
      }
      if fields.clearFinishedAt {
        r := r.(finishedAt := None);
      } else if fields.finishedAt.Some? {
        r := r.(finishedAt := fields.finishedAt);
      } else if Terminal(status) {
        r := r.(finishedAt := Some(fields.now));
      }
      if fields.error.Some? {
        r := r.(error := fields.error.value);
      } else if fields.clearError {
        r := r.(error := "");
      }
      if fields.attempts.Some? { r := r.(attempts := fields.attempts.value); }
    }

    method UpdateContent(ctxDone: bool, id: string, fields: ContentFields) returns (res: T.Result)
      requires RowsValid()
      modifies this`byID
      ensures RowsValid()
      ensures (Table(), res) == T.Apply(old(Table()), T.Update(id, T.SetContent(fields)), ctxDone)
      ensures res == if ctxDone then T.Fail(T.CtxDone) else if id !in old(byID) then T.Fail(T.NotFound)
                     else if fields.expectedStartedAt.Some?
                             && !(old(byID)[id].status == Running && old(byID)[id].startedAt == fields.expectedStartedAt)
                     then T.Fail(T.Conflict) else T.Ok
      ensures byID == if res.Ok?
                      then old(byID)[id := old(byID)[id].(title := fields.title, derived := fields.derived, updatedAt := fields.now,
                                                          contentKey := fields.contentKey, rawKey := fields.rawKey)]
                      else old(byID)
    {
      T.PerformKeeps(Table(), T.Update(id, T.SetContent(fields)));
      if ctxDone { return T.Fail(T.CtxDone); }
      if id !in byID { return T.Fail(T.NotFound); }
      var r := byID[id];
      var e := fields.expectedStartedAt;
      if e.Some? && (r.status != Running || r.startedAt.None? || r.startedAt.value != e.value) {
        return T.Fail(T.Conflict);
      }
      byID := byID[id := r.(title := fields.title, derived := fields.derived, contentKey := fields.contentKey,
                            rawKey := fields.rawKey, updatedAt := fields.now)];
      return T.Ok;
    }

    method UpdateImport(ctxDone: bool, id: string, fields: ImportFields) returns (res: T.Result)
      requires RowsValid()
      modifies this`byID
      ensures RowsValid()
      ensures (Table(), res) == T.Apply(old(Table()), T.Update(id, T.SetImport(fields)), ctxDone)
      ensures res == if ctxDone then T.Fail(T.CtxDone) else if id !in old(byID) then T.Fail(T.NotFound) else T.Ok
      ensures res.Ok? ==>
                var r := old(byID)[id];
                byID == old(byID)[id := Reading(id, r.url, r.urlKey, Pending, fields.kind, fields.title, NO_DERIVED,
                                                "", fields.rawKey, "", 0, fields.tags, r.createdAt, None, None, fields.now)]
      ensures res.Fail? ==> byID == old(byID)
    {
      T.PerformKeeps(Table(), T.Update(id, T.SetImport(fields)));
      if ctxDone { return T.Fail(T.CtxDone); }
      if id !in byID { return T.Fail(T.NotFound); }
      var r := byID[id].(status := Pending, kind := fields.kind, title := fields.title, derived := NO_DERIVED);
      r := r.(contentKey := "", rawKey := fields.rawKey, error := "", startedAt := None, finishedAt := None);
      byID := byID[id := r.(attempts := 0, tags := fields.tags, updatedAt := fields.now)];
      return T.Ok;
    }

    method Reprocess(ctxDone: bool, id: string, fields: ReprocessFields) returns (res: T.Result)
      requires RowsValid()
      modifies this`byID
      ensures RowsValid()
      ensures (Table(), res) == T.Apply(old(Table()), T.Update(id, T.SetPending(fields)), ctxDone)
      ensures res == if ctxDone then T.Fail(T.CtxDone) else if id !in old(byID) then T.Fail(T.NotFound) else T.Ok
      ensures res.Ok? ==>
                var r := old(byID)[id];
                byID == old(byID)[id := Reading(id, r.url, r.urlKey, Pending, r.kind, fields.title, NO_DERIVED,
                                                "", fields.rawKey, "", 0, r.tags, r.createdAt, None, None, fields.now)]
      ensures res.Fail? ==> byID == old(byID)
    {
      T.PerformKeeps(Table(), T.Update(id, T.SetPending(fields)));
      if ctxDone { return T.Fail(T.CtxDone); }
      if id !in byID { return T.Fail(T.NotFound); }
      var r := byID[id].(status := Pending, title := fields.title, derived := NO_DERIVED);
      r := r.(contentKey := "", rawKey := fields.rawKey, error := "", startedAt := None, finishedAt := None);
      byID := byID[id := r.(attempts := 0, updatedAt := fields.now)];
      return T.Ok;
    }

    method ReplaceTags(ctxDone: bool, id: string, tags: seq<string>, fields: TagFields) returns (res: T.Result)
      requires RowsValid()
      modifies this`byID
      ensures RowsValid()
      ensures (Table(), res) == T.Apply(old(Table()), T.Update(id, T.SetTags(tags, fields)), ctxDone)
      ensures res == if ctxDone then T.Fail(T.CtxDone) else if id !in old(byID) then T.Fail(T.NotFound)
                     else if fields.expectedStartedAt.Some?
                             && !(old(byID)[id].status == Running && old(byID)[id].startedAt == fields.expectedStartedAt)
                     then T.Fail(T.Conflict) else T.Ok
      ensures byID == if res.Ok? then old(byID)[id := old(byID)[id].(tags := tags, updatedAt := fields.now)] else old(byID)
    {
      T.PerformKeeps(Table(), T.Update(id, T.SetTags(tags, fields)));
      if ctxDone { return T.Fail(T.CtxDone); }
      if id !in byID { return T.Fail(T.NotFound); }
      var r := byID[id];
      var e := fields.expectedStartedAt;
      if e.Some? && (r.status != Running || r.startedAt.None? || r.startedAt.value != e.value) {
        return T.Fail(T.Conflict);
      }
      byID := byID[id := r.(tags := tags, updatedAt := fields.now)];
      return T.Ok;
    }

    method Delete(ctxDone: bool, id: string) returns (res: T.Result)
      requires RowsValid()
      modifies this`byID, this`byURLKey
      ensures RowsValid()
      ensures (Table(), res) == T.Apply(old(Table()), T.Delete(id), ctxDone)
      ensures res == if ctxDone then T.Fail(T.CtxDone) else if id !in old(byID) then T.Fail(T.NotFound) else T.Ok
      ensures byID == if res.Ok? then old(byID) - {id} else old(byID)
    {
      T.PerformKeeps(Table(), T.Delete(id));
      if ctxDone { return T.Fail(T.CtxDone); }
      if id !in byID { return T.Fail(T.NotFound); }
      var key := byID[id].urlKey;
      byID := byID - {id};
      byURLKey := byURLKey - {key};
      return T.Ok;
    }

    /** Every recoverable reading once, with its stored attempts, and no other. */
    method ListNonTerminal(ctxDone: bool, cutoff: int) returns (res: T.Result, out: seq<Recovered>)
      requires KeyedRows(byID)
      ensures res == if ctxDone then T.Fail(T.CtxDone) else T.Ok
      ensures ctxDone ==> out == []
      ensures forall i :: 0 <= i < |out| ==>
                out[i].id in byID && Recoverable(byID[out[i].id], cutoff) && out[i].attempts == byID[out[i].id].attempts
      ensures forall i, k :: 0 <= i < k < |out| ==> out[i].id != out[k].id
      ensures !ctxDone ==> forall id :: id in byID && Recoverable(byID[id], cutoff) ==>
                             Recovered(id, byID[id].attempts) in out
      ensures !ctxDone ==> forall id :: id in byID ==>
                var r := byID[id];
                Recovered(id, r.attempts) in out <==>
                  r.status == Pending || (r.status == Running && r.startedAt.Some? && r.startedAt.value < cutoff)
    {
      out := [];
      if ctxDone { return T.Fail(T.CtxDone), out; }
      var rest := byID.Keys;
      while rest != {}
        invariant rest <= byID.Keys
        invariant forall i :: 0 <= i < |out| ==>
                    out[i].id in byID && out[i].id !in rest && Recoverable(byID[out[i].id], cutoff)
                    && out[i].attempts == byID[out[i].id].attempts
        invariant forall i, k :: 0 <= i < k < |out| ==> out[i].id != out[k].id
        invariant forall id :: id in byID && id !in rest && Recoverable(byID[id], cutoff) ==>
                    Recovered(id, byID[id].attempts) in out
        decreases |rest|
      {
        var id :| id in rest;
        rest := rest - {id};
        var r := byID[id];
        match r.status {
          case Pending => out := out + [Recovered(r.id, r.attempts)];
          case Running =>
            if r.startedAt.Some? && r.startedAt.value < cutoff { out := out + [Recovered(r.id, r.attempts)]; }
          case _ =>
        }
      }
      return T.Ok, out;
    }

    // ----------------------------------------------------------------
    // Search

    method HasTags(have: seq<string>, want: seq<string>) returns (ok: bool)
      ensures ok == HasAllTags(have, want)
    {
      if |want| == 0 { return true; }
      var tags := {};
      for i := 0 to |have|
        invariant forall tag :: tag in tags <==> tag in have[..i]
      {
        tags := tags + {have[i]};
      }
      assert have[..|have|] == have;
      for i := 0 to |want|
        invariant forall tag :: tag in want[..i] ==> tag in tags
      {
        if want[i] !in tags { return false; }
      }
      assert want[..|want|] == want;
      return true;
    }

    method ScoreReading(r: Reading, terms: seq<string>) returns (score: nat)
      ensures score == Score(text, r, terms)
    {
      score := 0;
      for i := 0 to |terms|
        invariant score == Score(text, r, terms[..i])
      {
        assert terms[..i + 1][..i] == terms[..i];
        score := score + text.count(r, terms[i]);
      }
      assert terms[..|terms|] == terms;
    }

    /** The filters of the search loop, and the score. */
    method Examine(r: Reading, q: Query) returns (m: Option<Match>)
      ensures m == if Matches(text, r, q) then Some(MatchOf(text, r, q)) else None
    {
      var terms := text.tokenize(q.q);
      if q.status.Some? && r.status != q.status.value { return None; }
      var tagged := HasTags(r.tags, q.tags);
      if !tagged { return None; }
      var score := ScoreReading(r, terms);
      if |terms| > 0 && score == 0 { return None; }
      return Some(Match(r, score));
    }

    /** The rows that match, each once; the order is that of the map's iteration. */
    method Gather(q: Query) returns (matches: seq<Match>)
      requires KeyedRows(byID)
      ensures Gathered(text, byID, q, matches)
    {
      matches := [];
      var rest := byID.Keys;
      while rest != {}
        invariant rest <= byID.Keys
        invariant forall i :: 0 <= i < |matches| ==>
                    IsMatch(text, byID, q, matches[i]) && matches[i].reading.id !in rest
        invariant forall i, k :: 0 <= i < k < |matches| ==> matches[i].reading.id != matches[k].reading.id
        invariant forall id :: id in byID && id !in rest && Matches(text, byID[id], q) ==>
                    MatchOf(text, byID[id], q) in matches
        decreases |rest|
      {
        var id :| id in rest;
        rest := rest - {id};
        var m := Examine(byID[id], q);
        if m.Some? { matches := matches + [m.value]; }
      }
    }

    method ApplyCursor(matches: seq<Match>, q: Query) returns (rest: seq<Match>)
      ensures rest == AfterCursor(text, matches, q.sort, q.cursor)
    {
      if !q.cursor.valid { return matches; }
      var i := 0;
      while i < |matches|
        invariant i <= |matches|
        invariant AfterCursor(text, matches[i..], q.sort, q.cursor) == AfterCursor(text, matches, q.sort, q.cursor)
      {
        if IsAfterCursor(text, matches[i], q.sort, q.cursor) { return matches[i..]; }
        assert matches[i..][1..] == matches[i + 1..];
        i := i + 1;
      }
      return [];
    }

    method MakePage(sorted: seq<Match>, after: seq<Match>, requested: int) returns (page: Page)
      ensures page == Cut(sorted, after, LimitOf(requested))
    {
      var rest, limit := after, if requested <= 0 then 50 else requested;
      var hasNext := |rest| > limit;
      if hasNext { rest := rest[..limit]; }
      page := Page(ReadingsOf(rest), |sorted|, NO_CURSOR);
      if hasNext && |rest| > 0 {
        var last := rest[|rest| - 1];
        page := page.(next := Cursor(last.reading.createdAt, last.reading.id, last.reading.title, last.score as real, true));
      }
    }

    /** Search returns the page of the one sorted listing of its matches: rows that pass
        the filters, after the cursor, in the order asked for. Without a query text and
        by default that is newest first. */
    method Search(ctxDone: bool, q: Query) returns (res: T.Result, page: Page)
      requires RowsValid()
      ensures res == if ctxDone then T.Fail(T.CtxDone) else T.Ok
      ensures page == if ctxDone then Page([], 0, NO_CURSOR) else SearchPage(text, byID, q)
      ensures !ctxDone ==> O.PageMeans(text, byID, q, page)
      ensures text.tokenize(q.q) == [] ==> O.ByCreation(q.sort, page.readings)
    {
      if ctxDone { return T.Fail(T.CtxDone), Page([], 0, NO_CURSOR); }
      O.SearchMeans(text, byID, q);
      page := SearchRows(q);
      return T.Ok, page;
    }

    /** The page of the rows as they are. */
    method SearchRows(q: Query) returns (page: Page)
      requires RowsValid()
      ensures page == SearchPage(text, byID, q)
    {
      var found := Gather(q);
      var sorted := S.Sort(Comparator(text, q), found);
      SortIsListing(text, byID, q, found);
      var rest := ApplyCursor(sorted, q);
      page := MakePage(sorted, rest, q.limit);
    }

    // ----------------------------------------------------------------
    // Manual batches

    method ReadingBusy(readingId: string) returns (busy: bool)
      ensures busy == B.ReadingActive(batchItems, readingId)
    {
      var rest := batchItems.Keys;
      while rest != {}
        invariant rest <= batchItems.Keys
        invariant forall c :: c in batchItems && c !in rest ==>
                    !(batchItems[c].readingId == readingId && B.Active(batchItems[c].state))
        decreases |rest|
      {
        var c :| c in rest;
        rest := rest - {c};
        if batchItems[c].readingId == readingId && B.Active(batchItems[c].state) { return true; }
      }
      return false;
    }

    method CheckRequests(rs: seq<B.Request>) returns (ok: bool)
      ensures ok <==> B.Distinct(rs) && forall i :: 0 <= i < |rs| ==> B.Admissible(json, batchItems, rs[i])
    {
      var seenCustomIDs, seenReadingIDs := {}, {};
      for i := 0 to |rs|
        invariant forall c :: c in seenCustomIDs <==> exists k :: 0 <= k < i && rs[k].customId == c
        invariant forall r :: r in seenReadingIDs <==> exists k :: 0 <= k < i && rs[k].readingId == r
        invariant B.Distinct(rs[..i]) && forall k :: 0 <= k < i ==> B.Admissible(json, batchItems, rs[k])
      {
        if !json.valid(rs[i].request) { assert !B.Admissible(json, batchItems, rs[i]); return false; }
        if rs[i].customId in seenCustomIDs { return false; }
        seenCustomIDs := seenCustomIDs + {rs[i].customId};
        if rs[i].readingId in seenReadingIDs { return false; }
        seenReadingIDs := seenReadingIDs + {rs[i].readingId};
        if rs[i].customId in batchItems { assert !B.Admissible(json, batchItems, rs[i]); return false; }
        var busy := ReadingBusy(rs[i].readingId);
        if busy { assert !B.Admissible(json, batchItems, rs[i]); return false; }
      }
      assert rs[..|rs|] == rs;
      return true;
    }

    method StoreItems(id: string, rs: seq<B.Request>, now: int) returns (customIDs: seq<string>)
      modifies this`batchItems
      ensures batchItems == B.Stored(old(batchItems), id, rs, now, |rs|) && customIDs == B.CustomIds(rs)
    {
      customIDs := [];
      for i := 0 to |rs|
        invariant customIDs == B.CustomIds(rs)[..i]
        invariant batchItems == B.Stored(old(batchItems), id, rs, now, i)
      {
        var item := B.BatchItem(id, rs[i].readingId, rs[i].customId, B.ItemState.Planned, rs[i].request, "", "", "",
                                now, None, None, None, now);
        batchItems := batchItems[rs[i].customId := item];
        customIDs := customIDs + [rs[i].customId];
      }
    }

    method CreatePlannedBatch(ctxDone: bool, id: string, rs: seq<B.Request>, now: int) returns (res: B.Result)
      requires BatchesValid()
      modifies this`batches, this`batchItems, this`batchItemsByBatch
      ensures BatchesValid()
      ensures (BatchTable(), res) == B.Apply(json, old(BatchTable()), B.Call(B.OpCreate(id, rs), now, ctxDone))
      ensures res.Ok? <==> !ctxDone && BM.MayCreate(json, old(BatchTable()), id, rs)
      ensures res.Ok? ==> BM.Created(old(BatchTable()), BatchTable(), id, rs, now)
      ensures res.Fail? ==> BatchTable() == old(BatchTable())
    {
      BM.CreateMeans(json, BatchTable(), id, rs, now);
      BI.CallKeeps(json, BatchTable(), B.Call(B.OpCreate(id, rs), now, ctxDone));
      if ctxDone { return B.Fail(B.CtxDone); }
      if id in batches { return B.Fail(B.Conflict); }
      var ok := CheckRequests(rs);
      if !ok { return B.Fail(B.Conflict); }
      batches := batches[id := B.Batch(id, B.BatchState.Planned, "", "", B.Counts(0, 0, 0, 0, 0), now, None, None, None, now)];
      var customIDs := StoreItems(id, rs, now);
      batchItemsByBatch := batchItemsByBatch[id := customIDs];
      return B.Ok;
    }

    method RemoteInUse(id: string, remoteId: string) returns (taken: bool)
      ensures taken == B.RemoteTaken(batches, id, remoteId)
    {
      if remoteId == "" { return false; }
      var rest := batches.Keys;
      while rest != {}
        invariant rest <= batches.Keys
        invariant forall o :: o in batches && o !in rest ==> !(o != id && batches[o].remoteId == remoteId)
        decreases |rest|
      {
        var o :| o in rest;
        rest := rest - {o};
        if o != id && batches[o].remoteId == remoteId { return true; }
      }
      return false;
    }

    method AllPlanned(ids: seq<string>) returns (ok: bool)
      requires forall c :: c in ids ==> c in batchItems
      ensures ok <==> forall c :: c in ids ==> batchItems[c].state.Planned?
    {
      for i := 0 to |ids|
        invariant forall k :: 0 <= k < i ==> batchItems[ids[k]].state.Planned?
      {
        if !batchItems[ids[i]].state.Planned? { return false; }
      }
      return true;
    }

    method SubmitItems(customIDs: seq<string>, now: int)
      requires forall c :: c in customIDs ==> c in batchItems
      modifies this`batchItems
      ensures batchItems == B.SubmitItems(old(batchItems), customIDs, now)
    {
      for i := 0 to |customIDs|
        invariant batchItems == B.SubmitItems(old(batchItems), customIDs[..i], now)
      {
        var item := batchItems[customIDs[i]];
        batchItems := batchItems[customIDs[i] := item.(state := B.ItemState.Submitted, submittedAt := Some(now), updatedAt := now)];
        assert customIDs[..i + 1] == customIDs[..i] + [customIDs[i]];
      }
      assert customIDs[..|customIDs|] == customIDs;
    }

    /** The guards of a first submit, in the source's order. */
    method MaySubmit(id: string, fields: B.SubmitFields) returns (ok: bool)
      requires BatchesValid() && id in batches && batches[id].submittedAt.None?
      ensures ok == B.CanSubmit(BatchTable(), id, fields)
    {
      BI.ListedIff(BatchTable(), id);
      if batches[id].state != B.BatchState.Planned { return false; }
      if !B.ValidCounts(fields.counts) { return false; }
      var taken := RemoteInUse(id, fields.remoteId);
      if taken { return false; }
      ok := AllPlanned(batchItemsByBatch[id]);
    }

    method SubmitBatch(ctxDone: bool, id: string, fields: B.SubmitFields, now: int) returns (res: B.Result)
      requires BatchesValid()
      modifies this`batches, this`batchItems
      ensures BatchesValid()
      ensures (BatchTable(), res) == B.Apply(json, old(BatchTable()), B.Call(B.OpSubmit(id, fields), now, ctxDone))
      ensures !ctxDone && id in old(batches) && old(batches)[id].submittedAt.None? ==>
                (res.Ok? <==> BM.MaySubmit(old(BatchTable()), id, fields))
                && (res.Ok? ==> BM.Submitted(old(BatchTable()), BatchTable(), id, fields, now))
      ensures res.Fail? ==> BatchTable() == old(BatchTable())
    {
      if id in batches && batches[id].submittedAt.None? { BM.SubmitMeans(BatchTable(), id, fields, now); }
      BI.CallKeeps(json, BatchTable(), B.Call(B.OpSubmit(id, fields), now, ctxDone));
      if ctxDone { return B.Fail(B.CtxDone); }
      if id !in batches { return B.Fail(B.NotFound); }
      var batch := batches[id];
      if batch.submittedAt.Some? {
        return if batch.remoteId == fields.remoteId && batch.resultsURL == fields.resultsURL && batch.counts == fields.counts
               then B.Ok else B.Fail(B.Conflict);
      }
      var ok := MaySubmit(id, fields);
      if !ok { return B.Fail(B.Conflict); }
      var customIDs := batchItemsByBatch[id];
      batches := batches[id := batch.(state := B.BatchState.Submitted, remoteId := fields.remoteId,
                                      resultsURL := fields.resultsURL, counts := fields.counts,
                                      submittedAt := Some(now), updatedAt := now)];
      SubmitItems(customIDs, now);
      return B.Ok;
    }

    method HasActiveItem(id: string) returns (active: bool)
      requires BatchesValid()
      ensures active == B.HasActive(BatchTable(), id)
    {
      BI.ListedIff(BatchTable(), id);
      var customIDs := if id in batchItemsByBatch then batchItemsByBatch[id] else [];
      for i := 0 to |customIDs|
        invariant forall k :: 0 <= k < i ==> !B.Active(batchItems[customIDs[k]].state)
      {
        if B.Active(batchItems[customIDs[i]].state) { return true; }
      }
      return false;
    }

    method EndItems(customIDs: seq<string>, state: B.ItemState, now: int)
      requires forall c :: c in customIDs ==> c in batchItems
      requires !B.Active(state)
      modifies this`batchItems
      ensures batchItems == B.EndItems(old(batchItems), customIDs, state, now)
    {
      for i := 0 to |customIDs|
        invariant batchItems == B.EndItems(old(batchItems), customIDs[..i], state, now)
      {
        var item := batchItems[customIDs[i]];
        if B.Active(item.state) {
          batchItems := batchItems[customIDs[i] := item.(state := state, finishedAt := Some(now), updatedAt := now)];
        }
        assert customIDs[..i + 1] == customIDs[..i] + [customIDs[i]];
      }
      assert customIDs[..|customIDs|] == customIDs;
    }

    /** The guards of a state update, in the source's order. */
    method MayMove(id: string, state: B.BatchState, fields: B.StateFields) returns (ok: bool)
      requires BatchesValid() && id in batches
      ensures ok == B.CanMove(BatchTable(), id, state, fields)
    {
      if fields.counts.Some? && !B.ValidCounts(fields.counts.value) { return false; }
      if batches[id].state != state {
        var active := HasActiveItem(id);
        if state == B.BatchState.Applied && active { return false; }
        if !B.ValidTransition(batches[id].state, state) { return false; }
      }
      return true;
    }

    method UpdateBatchState(ctxDone: bool, id: string, state: B.BatchState, fields: B.StateFields, now: int)
      returns (res: B.Result)
      requires BatchesValid()
      modifies this`batches, this`batchItems
      ensures BatchesValid()
      ensures (BatchTable(), res) == B.Apply(json, old(BatchTable()), B.Call(B.OpSetState(id, state, fields), now, ctxDone))
      ensures res.Ok? <==> !ctxDone && BM.MayMove(old(BatchTable()), id, state, fields)
      ensures res.Ok? ==> BM.Moved(old(BatchTable()), BatchTable(), id, state, fields, now)
      ensures res.Fail? ==> BatchTable() == old(BatchTable())
    {
      MoveFacts(id, state, fields, now, ctxDone);
      if ctxDone { return B.Fail(B.CtxDone); }
      if id !in batches { return B.Fail(B.NotFound); }
      var ok := MayMove(id, state, fields);
      if !ok { return B.Fail(B.Conflict); }
      MoveBatch(id, state, fields, now);
      return B.Ok;
    }

    lemma MoveFacts(id: string, state: B.BatchState, fields: B.StateFields, now: int, ctxDone: bool)
      requires BatchesValid()
      ensures BI.Inv(B.Apply(json, BatchTable(), B.Call(B.OpSetState(id, state, fields), now, ctxDone)).0)
      ensures id in batches ==>
                var (st', res) := B.SetState(BatchTable(), id, state, fields, now);
                (res.Ok? <==> BM.MayMove(BatchTable(), id, state, fields))
                && (res.Ok? ==> BM.Moved(BatchTable(), st', id, state, fields, now)) && (res.Fail? ==> st' == BatchTable())
    {
      if id in batches { BM.MoveMeans(BatchTable(), id, state, fields, now); }
      BI.CallKeeps(json, BatchTable(), B.Call(B.OpSetState(id, state, fields), now, ctxDone));
    }

    /** The write of an update that may be made: the batch, and its items if it ends. */
    method MoveBatch(id: string, state: B.BatchState, fields: B.StateFields, now: int)
      requires BatchesValid() && id in batches
      modifies this`batches, this`batchItems
      ensures batches == old(batches)[id := B.MovedBatch(old(batches)[id], state, fields, now)]
      ensures batchItems == B.MovedItems(old(BatchTable()), id, state, now)
    {
      var sameState := batches[id].state == state;
      var moved := Moved(batches[id], state, fields, now);
      var fate := B.ItemFate(state);
      BI.ListedIff(BatchTable(), id);
      batches := batches[id := moved];
      if !sameState && fate.Some? { EndItems(batchItemsByBatch[id], fate.value, now); }
    }

    /** The batch record a state update stores. */
    method Moved(batch: B.Batch, state: B.BatchState, fields: B.StateFields, now: int) returns (b: B.Batch)
      ensures b == B.MovedBatch(batch, state, fields, now)
    {
      b := batch;
      var sameState := batch.state == state;
      if !sameState { b := b.(state := state); }
      if fields.resultsURL != "" { b := b.(resultsURL := fields.resultsURL); }
      if fields.counts.Some? { b := b.(counts := fields.counts.value); }
      if !sameState {
        match state {
          case ResultsReady => b := b.(finishedAt := Some(now));
          case Applied =>
            if b.finishedAt.None? { b := b.(finishedAt := Some(now)); }
            b := b.(appliedAt := Some(now));
          case Canceled => b := b.(finishedAt := Some(now));
          case Failed => b := b.(finishedAt := Some(now));
          case _ =>
        }
      }
      b := b.(updatedAt := now);
    }

    /** The items of a batch in the order they were planned in. */
    method ListBatchItems(ctxDone: bool, id: string) returns (res: B.Result, out: seq<B.BatchItem>)
      requires BatchesValid()
      ensures res == if ctxDone then B.Fail(B.CtxDone) else if id !in batches then B.Fail(B.NotFound) else B.Ok
      ensures res.Fail? ==> out == []
      ensures res.Ok? ==> |out| == |batchItemsByBatch[id]|
                          && forall i :: 0 <= i < |out| ==> var c := batchItemsByBatch[id][i]; c in batchItems && out[i] == batchItems[c]
      ensures res.Ok? ==> forall c :: c in batchItems ==> (batchItems[c].batchId == id <==> batchItems[c] in out)
    {
      out := [];
      if ctxDone { return B.Fail(B.CtxDone), out; }
      if id !in batchItemsByBatch { return B.Fail(B.NotFound), out; }
      BI.ListedIff(BatchTable(), id);
      var customIDs := batchItemsByBatch[id];
      for i := 0 to |customIDs|
        invariant |out| == i && forall k :: 0 <= k < i ==> out[k] == batchItems[customIDs[k]]
      {
        out := out + [batchItems[customIDs[i]]];
      }
      assert forall c :: c in customIDs ==> batchItems[c] in out;
      return B.Ok, out;
    }

    method WriteBatchItemResult(ctxDone: bool, customID: string, fields: B.ResultFields, now: int) returns (res: B.Result)
      requires BatchesValid()
      modifies this`batchItems
      ensures BatchesValid()
      ensures (BatchTable(), res) == B.Apply(json, old(BatchTable()), B.Call(B.OpWriteResult(customID, fields), now, ctxDone))
      ensures !ctxDone && customID in old(batchItems) && old(batchItems)[customID].finishedAt.None? ==>
                (res.Ok? <==> old(batchItems)[customID].state.Submitted? && json.valid(fields.result)
                              && (fields.state.Succeeded? || fields.state.Errored? || fields.state.Canceled? || fields.state.Expired?))
      ensures batchItems == if res.Ok? && old(batchItems)[customID].finishedAt.None?
                            then old(batchItems)[customID := old(batchItems)[customID].(
                                   state := fields.state, result := fields.result, errorType := fields.errorType,
                                   errorMessage := fields.errorMessage, finishedAt := Some(now), updatedAt := now)]
                            else old(batchItems)
    {
      BI.CallKeeps(json, BatchTable(), B.Call(B.OpWriteResult(customID, fields), now, ctxDone));
      if ctxDone { return B.Fail(B.CtxDone); }
      if !B.Reported(fields.state) { return B.Fail(B.Conflict); }
      if customID !in batchItems { return B.Fail(B.NotFound); }
      var item := batchItems[customID];
      if item.finishedAt.Some? {
        var equal := B.SameResult(json, item, fields);
        if equal.None? { return B.Fail(B.BadJson); }
        if equal.value { return B.Ok; }
        return B.Fail(B.Conflict);
      }
      if item.state != B.ItemState.Submitted { return B.Fail(B.Conflict); }
      if !json.valid(fields.result) { return B.Fail(B.Conflict); }
      item := item.(state := fields.state, result := fields.result, errorType := fields.errorType,
                    errorMessage := fields.errorMessage, finishedAt := Some(now), updatedAt := now);
      batchItems := batchItems[customID := item];
      return B.Ok;
    }

    method MarkBatchItemApplied(ctxDone: bool, customID: string, now: int) returns (res: B.Result)
      requires BatchesValid()
      modifies this`batchItems
      ensures BatchesValid()
      ensures (BatchTable(), res) == B.Apply(json, old(BatchTable()), B.Call(B.OpMarkApplied(customID), now, ctxDone))
      ensures res.Ok? <==> !ctxDone && customID in old(batchItems)
                           && (old(batchItems)[customID].state.Succeeded? || old(batchItems)[customID].state.Applied?)
      ensures batchItems == if res.Ok? && old(batchItems)[customID].state.Succeeded?
                            then old(batchItems)[customID := old(batchItems)[customID].(
                                   state := B.ItemState.Applied, appliedAt := Some(now), updatedAt := now)]
                            else old(batchItems)
    {
      BI.CallKeeps(json, BatchTable(), B.Call(B.OpMarkApplied(customID), now, ctxDone));
      if ctxDone { return B.Fail(B.CtxDone); }
      if customID !in batchItems { return B.Fail(B.NotFound); }
      var item := batchItems[customID];
      if item.state == B.ItemState.Applied { return B.Ok; }
      if item.state != B.ItemState.Succeeded { return B.Fail(B.Conflict); }
      batchItems := batchItems[customID := item.(state := B.ItemState.Applied, appliedAt := Some(now), updatedAt := now)];
      return B.Ok;
    }
  }
}
