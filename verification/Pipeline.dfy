/** Process of internal/pipeline/pipeline.go as methods: the order in which one run
    writes blobs, row and vector, with any call failing at any point, and the result it
    hands the dispatcher. The run works on
    the snapshot of its row that it loaded; the row may have been replaced since, which
    the lease in the snapshot tells. System interleaves the same steps. */
module Pipeline {
  import opened Basics
  import opened Readings
  import opened BlobKeys
  import M = MemoryStore
  import O = ReadingOps
  import V = Vectors
  import X = VectorIndex
  import Retry

  datatype Article = Article(title: string, derived: Derived, markdown: string)

  datatype Summary = Summary(title: string, text: string, json: string, tags: seq<string>)

  /** An error as its chain of layers. */
  type Failure = c: seq<Retry.Layer> | c != [] witness [Retry.Plain]

  datatype Answer<+T> = Got(value: T) | Err(chain: Failure)

  datatype Fetched = Fetched(status: int, body: string)

  /** What the adapters answer in one run. isVideo: the YouTube adapter is wired and the
      key names a video. */
  datatype World = World(fetched: Answer<Fetched>, article: Answer<Article>, video: Answer<Article>, isVideo: bool,
                         embedding: Answer<seq<real>>, again: Answer<seq<real>>, similar: Answer<string>,
                         summary: Answer<Summary>, notified: bool)

  /** Which of the run's own calls fail. */
  datatype Faults = Faults(load: bool, read: bool, putRaw: bool, query: bool, putContent: bool, checkpoint: bool,
                           upsert: bool, final: bool, tags: bool, noted: bool)

  datatype Content = Content(title: string, derived: Derived, markdown: string, contentKey: string, rawKey: string,
                             vec: seq<real>)

  // ------------------------------------------------------------------
  // Errors, in the order in which a run meets them; [] is none

  /** The first of two errors. */
  function Or(first: seq<Retry.Layer>, second: seq<Retry.Layer>): seq<Retry.Layer> { if first != [] then first else second }

  /** The error of a store, blob or index call. */
  function Plainly(failed: bool): seq<Retry.Layer> { if failed then [Retry.Plain] else [] }

  function ErrorOf<T>(a: Answer<T>): seq<Retry.Layer> { if a.Err? then a.chain else [] }

  /** classifyFetchStatus. */
  function StatusError(status: int): seq<Retry.Layer> {
    if 200 <= status < 300 then []
    else if status == 429 then [Retry.RateLimit(Retry.BACKOFF_CAP)]
    else if 400 <= status < 500 then [Retry.Permanent]
    else [Retry.Plain]
  }

  function SourceError(r: Reading, w: World, f: Faults, data: map<string, string>): seq<Retry.Layer> {
    if r.kind == Markdown then
      Or(if r.rawKey == "" then [Retry.Permanent] else [], Plainly(f.read || r.rawKey !in data))
    else if r.kind == YouTube && w.isVideo then ErrorOf(w.video)
    else
      Or(ErrorOf(w.fetched),
         Or(if w.fetched.Got? then StatusError(w.fetched.value.status) else [],
            Or(ErrorOf(w.article), Plainly(f.putRaw))))
  }

  function IndexError(w: World, f: Faults): seq<Retry.Layer> {
    Or(ErrorOf(w.embedding),
       Or(Plainly(f.query || (w.embedding.Got? && |w.embedding.value| != V.DIM)),
          Or(ErrorOf(w.similar), Plainly(f.putContent))))
  }

  /** The error of upsertVector when it has this vector from the index step. */
  function VectorError(vec: seq<real>, w: World, f: Faults): seq<Retry.Layer> {
    if vec != [] then Plainly(f.upsert || |vec| != V.DIM)
    else Or(ErrorOf(w.again), Plainly(f.upsert || (w.again.Got? && |w.again.value| != V.DIM)))
  }

  /** The error of summarizeAndFinish; mine says whether the row still has the lease. */
  function TailError(w: World, f: Faults, mine: bool): seq<Retry.Layer> {
    Or(ErrorOf(w.summary), Or(Plainly(f.final || !mine), Plainly(f.tags || !mine)))
  }

  /** The error of a run on snapshot r. */
  function RunError(r: Reading, w: World, f: Faults, data: map<string, string>, mine: bool): seq<Retry.Layer> {
    if r.kind == Reddit then [Retry.Permanent]
    else if r.contentKey != "" then
      Or(Plainly(f.read || r.contentKey !in data), Or(VectorError([], w, f), TailError(w, f, mine)))
    else NewError(r, w, f, data, mine)
  }

  /** The error of a run that has no content yet. */
  function NewError(r: Reading, w: World, f: Faults, data: map<string, string>, mine: bool): seq<Retry.Layer> {
    Or(Or(SourceError(r, w, f, data), IndexError(w, f)), PublishError(NewVector(r, w), w, f, mine))
  }

  /** The error from the checkpoint on. */
  function PublishError(vec: seq<real>, w: World, f: Faults, mine: bool): seq<Retry.Layer> {
    Or(Plainly(f.checkpoint || !mine), Or(VectorError(vec, w, f), TailError(w, f, mine)))
  }

  /** What the first error of a run comes to, and when there is none: every call answers
      well, a page is fetched with a status from 200 to 299, and the row has the lease. */
  predicate SourceAnswers(r: Reading, w: World, f: Faults, data: map<string, string>) {
    if r.kind == Markdown then r.rawKey != "" && !f.read && r.rawKey in data
    else if r.kind == YouTube && w.isVideo then w.video.Got?
    else w.fetched.Got? && 200 <= w.fetched.value.status < 300 && w.article.Got? && !f.putRaw
  }

  predicate AllAnswer(r: Reading, w: World, f: Faults, data: map<string, string>, mine: bool) {
    && mine && r.kind != Reddit && w.summary.Got? && !f.final && !f.tags && !f.upsert
    && (if r.contentKey != "" then !f.read && r.contentKey in data && w.again.Got? && |w.again.value| == V.DIM
        else SourceAnswers(r, w, f, data) && w.embedding.Got? && |w.embedding.value| == V.DIM && !f.query
             && w.similar.Got? && !f.putContent && !f.checkpoint)
  }

  lemma NoErrorMeans(r: Reading, w: World, f: Faults, data: map<string, string>, mine: bool)
    ensures RunError(r, w, f, data, mine) == [] <==> AllAnswer(r, w, f, data, mine)
  {
  }

  /** The run fetches a page. */
  predicate Fetches(r: Reading, w: World) {
    r.contentKey == "" && r.kind != Reddit && r.kind != Markdown && !(r.kind == YouTube && w.isVideo)
  }

  /** A fetch that answers a rate limit is asked for again after half a minute, one that
      answers another 4xx never, and one with any other status but 2xx is retried. */
  predicate StatusDecides(status: int, res: Retry.Result) {
    && (status == 429 ==> res == Retry.Result(Retry.Requeue, 30_000_000_000))
    && (400 <= status < 500 && status != 429 ==> res.outcome == Retry.Failing)
    && (status < 200 || 300 <= status < 400 || 500 <= status ==> res.outcome == Retry.Retrying)
  }

  lemma StatusMeans(r: Reading, w: World, f: Faults, data: map<string, string>, mine: bool)
    requires Fetches(r, w) && w.fetched.Got?
    ensures StatusDecides(w.fetched.value.status, Retry.Classify(RunError(r, w, f, data, mine)))
  {
    var refused := StatusError(w.fetched.value.status);
    if refused != [] { assert refused[0] in refused; }
  }

  /** What the result of a run on snapshot r must be. */
  predicate Decides(r: Reading, w: World, f: Faults, data: map<string, string>, mine: bool, res: Retry.Result) {
    && (res.outcome.Done? <==> AllAnswer(r, w, f, data, mine))
    && (r.kind == Reddit ==> res.outcome.Failing?)
    && (r.kind == Markdown && r.contentKey == "" && r.rawKey == "" ==> res.outcome.Failing?)
    && (Fetches(r, w) && w.fetched.Got? ==> StatusDecides(w.fetched.value.status, res))
    && (Fetches(r, w) && w.fetched.Err? ==> res == Retry.Classify(w.fetched.chain))
    && (r.kind != Reddit && r.contentKey == "" && SourceAnswers(r, w, f, data) && w.embedding.Err? ==>
          res == Retry.Classify(w.embedding.chain))
    && (w.summary.Err? && AllAnswer(r, w.(summary := AN_ANSWER), f, data, mine) ==> res == Retry.Classify(w.summary.chain))
  }

  const AN_ANSWER: Answer<Summary> := Got(Summary("", "", "", []))

  lemma ErrorDecides(r: Reading, w: World, f: Faults, data: map<string, string>, mine: bool)
    ensures Decides(r, w, f, data, mine, Retry.Classify(RunError(r, w, f, data, mine)))
  {
    NoErrorMeans(r, w, f, data, mine);
    if Fetches(r, w) && w.fetched.Got? { StatusMeans(r, w, f, data, mine); }
    if w.summary.Err? { NoErrorMeans(r, w.(summary := AN_ANSWER), f, data, mine); }
    var permanent := [Retry.Permanent];
    assert permanent[0] == Retry.Permanent && Retry.Permanent in permanent;
  }

  /** A page that was not to be had leaves everything as it was. */
  predicate Refused(r: Reading, w: World) { Fetches(r, w) && w.fetched.Got? && !(200 <= w.fetched.value.status < 300) }

  // ------------------------------------------------------------------
  // What a run that is done leaves

  function SourceTitle(r: Reading, w: World): string {
    if r.contentKey != "" || r.kind == Markdown then r.title
    else if r.kind == YouTube && w.isVideo then (if w.video.Got? then w.video.value.title else "")
    else if w.article.Got? then w.article.value.title else ""
  }

  /** The extracted columns, with the readings found to be similar. */
  function SourceDerived(r: Reading, w: World): Derived {
    if r.contentKey != "" then r.derived
    else
      var d := if r.kind == Markdown then NO_DERIVED
               else if r.kind == YouTube && w.isVideo then (if w.video.Got? then w.video.value.derived else NO_DERIVED)
               else if w.article.Got? then w.article.value.derived else NO_DERIVED;
      d.(similarJSON := if w.similar.Got? then w.similar.value else "")
  }

  function SourceMarkdown(r: Reading, w: World, data: map<string, string>): string {
    if r.kind == Markdown then (if r.rawKey in data then data[r.rawKey] else "")
    else if r.kind == YouTube && w.isVideo then (if w.video.Got? then w.video.value.markdown else "")
    else if w.article.Got? then w.article.value.markdown else ""
  }

  /** The vector of a run that is done. */
  function NewVector(r: Reading, w: World): seq<real> {
    if r.contentKey != "" then (if w.again.Got? then w.again.value else [])
    else if w.embedding.Got? then w.embedding.value else []
  }

  /** The row has the source's columns and the summary's, and names the content, which a
      run that acquired it has stored. */
  predicate Published(r: Reading, w: World, row: Reading, data: map<string, string>, data': map<string, string>) {
    && w.summary.Got?
    && row.title == (if w.summary.value.title != "" then w.summary.value.title else SourceTitle(r, w))
    && row.derived == SourceDerived(r, w).(summary := w.summary.value.text, summaryJSON := w.summary.value.json)
    && row.tags == w.summary.value.tags
    && row.contentKey == (if r.contentKey != "" then r.contentKey else ContentKey(r.id, r.startedAt))
    && row.contentKey in data'
    && (r.contentKey == "" ==> data'[row.contentKey] == SourceMarkdown(r, w, data))
    && (r.contentKey != "" ==> data' == data)
  }

  /** contentFields. */
  function Fields(r: Reading, c: Content, sum: Option<Summary>, now: int): ContentFields {
    var title := if sum.Some? && sum.value.title != "" then sum.value.title else c.title;
    var derived := if sum.Some? then c.derived.(summary := sum.value.text, summaryJSON := sum.value.json)
                   else c.derived.(summary := "", summaryJSON := "");
    ContentFields(now, r.startedAt, title, derived, c.contentKey, c.rawKey)
  }

  /** What a run never touches, whatever happens. */
  predicate SameLife(r: Reading, r': Reading) {
    r'.id == r.id && r'.status == r.status && r'.startedAt == r.startedAt && r'.finishedAt == r.finishedAt
    && r'.attempts == r.attempts && r'.error == r.error && r'.kind == r.kind && r'.createdAt == r.createdAt
  }

  predicate OnlyContent(rows: map<string, Reading>, rows': map<string, Reading>, id: string) {
    rows'.Keys == rows.Keys
    && (forall k :: k in rows ==> SameLife(rows[k], rows'[k]) && (k != id ==> rows'[k] == rows[k]))
  }

  /** Only the blobs of this run may have changed. */
  predicate OnlyOwnBlobs(data: map<string, string>, data': map<string, string>, r: Reading) {
    var own := {RawKey(r.id, r.startedAt), ContentKey(r.id, r.startedAt)};
    data' - own == data - own && data.Keys <= data'.Keys
  }

  lemma OnlyContentChain(a: map<string, Reading>, b: map<string, Reading>, c: map<string, Reading>, id: string)
    requires OnlyContent(a, b, id) && OnlyContent(b, c, id)
    ensures OnlyContent(a, c, id)
  {
  }

  lemma MoreBlobs(rows: map<string, Reading>, data: map<string, string>, data': map<string, string>)
    requires O.Referenced(rows, data) && data.Keys <= data'.Keys
    ensures O.Referenced(rows, data')
  {
    forall id | id in rows ensures O.RowOK(data', rows[id]) { assert O.RowOK(data, rows[id]); }
  }

  class Pipeline {
    const store: M.Memory
    const blobs: O.BlobStore
    const index: X.Index

    ghost predicate Valid()
      reads this, store, blobs, index
    {
      store.RowsValid() && index.Valid() && O.Referenced(store.byID, blobs.data)
    }

    /** A guarded write of a run with this snapshot would land. */
    ghost predicate Mine(r: Reading)
      reads store`byID
    {
      r.id in store.byID && FenceOpen(store.byID[r.id], r.startedAt)
    }

    constructor (store: M.Memory, blobs: O.BlobStore, index: X.Index)
      requires store.RowsValid() && index.Valid() && O.Referenced(store.byID, blobs.data)
      ensures Valid() && this.store == store && this.blobs == blobs && this.index == index
    {
      this.store, this.blobs, this.index := store, blobs, index;
    }

    /** acquire: markdown reads its stored body, a video keeps the row's raw key, and
        everything else stores the fetched body under the run's own key first. */
    method Acquire(r: Reading, w: World, f: Faults) returns (c: Answer<Content>)
      requires Valid()
      modifies blobs
      ensures Valid() && OnlyOwnBlobs(old(blobs.data), blobs.data, r)
      ensures ErrorOf(c) == SourceError(r, w, f, old(blobs.data))
      ensures c.Got? ==> c.value.contentKey == ContentKey(r.id, r.startedAt) && c.value.vec == []
      ensures c.Got? && r.contentKey == "" ==> Sourced(r, w, old(blobs.data), c.value)
      ensures c.Err? && Refused(r, w) ==>
                blobs.data == old(blobs.data)
      ensures c.Got? && Fetches(r, w) ==>
                w.fetched.Got? && c.value.rawKey in blobs.data && blobs.data[c.value.rawKey] == w.fetched.value.body
      ensures c.Got? ==> if r.kind == Markdown then c.value.rawKey == r.rawKey && r.rawKey in blobs.data
                          else if r.kind == YouTube && w.isVideo then c.value.rawKey == r.rawKey
                          else c.value.rawKey == RawKey(r.id, r.startedAt) && c.value.rawKey in blobs.data
    {
      var key := ContentKey(r.id, r.startedAt);
      if r.kind == Markdown {
        if r.rawKey == "" { return Err([Retry.Permanent]); }
        var body := blobs.Get(f.read, r.rawKey);
        if body.None? { return Err([Retry.Plain]); }
        return Got(Content(r.title, NO_DERIVED, body.value, key, r.rawKey, []));
      }
      if r.kind == YouTube && w.isVideo {
        if w.video.Err? { return Err(w.video.chain); }
        return Got(Content(w.video.value.title, w.video.value.derived, w.video.value.markdown, key, r.rawKey, []));
      }
      c := AcquireFetched(r, w, f);
    }

    method AcquireFetched(r: Reading, w: World, f: Faults) returns (c: Answer<Content>)
      requires Valid() && r.kind != Markdown && !(r.kind == YouTube && w.isVideo)
      modifies blobs
      ensures Valid() && OnlyOwnBlobs(old(blobs.data), blobs.data, r)
      ensures ErrorOf(c) == SourceError(r, w, f, old(blobs.data))
      ensures c.Got? ==> c.value.contentKey == ContentKey(r.id, r.startedAt) && c.value.vec == []
                         && c.value.rawKey == RawKey(r.id, r.startedAt) && c.value.rawKey in blobs.data
                         && blobs.data[c.value.rawKey] == w.fetched.value.body
      ensures c.Got? && r.contentKey == "" ==> Sourced(r, w, old(blobs.data), c.value)
      ensures w.fetched.Got? && !(200 <= w.fetched.value.status < 300) ==> c.Err? && blobs.data == old(blobs.data)
    {
      if w.fetched.Err? { return Err(w.fetched.chain); }
      var refused := StatusError(w.fetched.value.status);
      if refused != [] { return Err(refused); }
      if w.article.Err? { return Err(w.article.chain); }
      var article, raw := w.article.value, RawKey(r.id, r.startedAt);
      var ok := blobs.Put(f.putRaw, raw, w.fetched.value.body);
      MoreBlobs(store.byID, old(blobs.data), blobs.data);
      if !ok { return Err([Retry.Plain]); }
      return Got(Content(article.title, article.derived, article.markdown, ContentKey(r.id, r.startedAt), raw, []));
    }

    /** index: embed, query, snapshot, and store the content blob. The row learns of the
        blob only afterwards. */
    method IndexContent(r: Reading, c: Content, w: World, f: Faults) returns (out: Answer<Content>)
      requires Valid() && c.contentKey == ContentKey(r.id, r.startedAt)
      modifies blobs
      ensures Valid() && OnlyOwnBlobs(old(blobs.data), blobs.data, r)
      ensures ErrorOf(out) == IndexError(w, f)
      ensures blobs.data - {c.contentKey} == old(blobs.data) - {c.contentKey}
      ensures out.Got? ==> Compared(c, w, out.value) && out.value.vec != []
                           && c.contentKey in blobs.data && blobs.data[c.contentKey] == c.markdown
    {
      if w.embedding.Err? { return Err(w.embedding.chain); }
      // 5 is the default of topK; what is made of the matches is w.similar.
      var res, _ := index.Query(f.query, w.embedding.value, 5, r.id);
      if res != V.Ok { return Err([Retry.Plain]); }
      if w.similar.Err? { return Err(w.similar.chain); }
      var ok := blobs.Put(f.putContent, c.contentKey, c.markdown);
      MoreBlobs(store.byID, old(blobs.data), blobs.data);
      if !ok { return Err([Retry.Plain]); }
      return Got(c.(vec := w.embedding.value, derived := c.derived.(similarJSON := w.similar.value)));
    }

    /** A guarded content write: it lands exactly when the row still has the run's lease. */
    method WriteContent(fails: bool, r: Reading, c: Content, sum: Option<Summary>, now: int) returns (ok: bool)
      requires Valid()
      requires Mine(r) ==> O.KeyOK(blobs.data, r.id, c.contentKey) && O.KeyOK(blobs.data, r.id, c.rawKey)
      modifies store`byID
      ensures Valid() && (Mine(r) <==> old(Mine(r)))
      ensures ok <==> !fails && old(Mine(r))
      ensures OnlyContent(old(store.byID), store.byID, r.id)
      ensures store.byID == if ok then old(store.byID)[r.id := WithContent(old(store.byID)[r.id], Fields(r, c, sum, now))]
                            else old(store.byID)
      ensures ok ==> store.byID[r.id] == old(store.byID)[r.id].(
                title := if sum.Some? && sum.value.title != "" then sum.value.title else c.title,
                derived := c.derived.(summary := if sum.Some? then sum.value.text else "",
                                      summaryJSON := if sum.Some? then sum.value.json else ""),
                contentKey := c.contentKey, rawKey := c.rawKey, updatedAt := now)
    {
      ghost var row := if Mine(r) then WithContent(store.byID[r.id], Fields(r, c, sum, now)) else r;
      if Mine(r) {
        assert O.RowOK(blobs.data, store.byID[r.id]);
        assert O.RowOK(blobs.data, row);
        O.RowKeeps(store.byID, blobs.data, row);
      }
      var res := store.UpdateContent(fails, r.id, Fields(r, c, sum, now));
      ok := res.Ok?;
    }

    /** upsertVector, at the generation of the run's lease. */
    method UpsertVector(r: Reading, c: Content, w: World, f: Faults) returns (error: seq<Retry.Layer>)
      requires index.Valid()
      modifies index`vecs
      ensures index.Valid()
      ensures error == VectorError(c.vec, w, f)
      ensures error != [] ==> index.vecs == old(index.vecs)
      ensures error == [] ==>
                exists vec :: |vec| == V.DIM && vec == (if c.vec != [] || w.again.Err? then c.vec else w.again.value)
                              && index.vecs == V.Upserted(old(index.vecs), V.Write(r.id, vec, r.startedAt))
    {
      var vec := c.vec;
      if |vec| == 0 {
        if w.again.Err? { return w.again.chain; }
        vec := w.again.value;
      }
      var res := index.Upsert(f.upsert, r.id, vec, r.startedAt);
      return Plainly(res != V.Ok);
    }

    method WriteTags(fails: bool, r: Reading, tags: seq<string>, now: int) returns (ok: bool)
      requires Valid()
      modifies store`byID
      ensures Valid() && (Mine(r) <==> old(Mine(r)))
      ensures ok <==> !fails && old(Mine(r))
      ensures OnlyContent(old(store.byID), store.byID, r.id)
      ensures store.byID == if ok then old(store.byID)[r.id := WithTags(old(store.byID)[r.id], tags, TagFields(now, r.startedAt))]
                            else old(store.byID)
    {
      ghost var row := if Mine(r) then WithTags(store.byID[r.id], tags, TagFields(now, r.startedAt)) else r;
      if Mine(r) {
        assert O.RowOK(blobs.data, store.byID[r.id]);
        assert O.RowOK(blobs.data, row);
        O.RowKeeps(store.byID, blobs.data, row);
      }
      var res := store.ReplaceTags(fails, r.id, tags, TagFields(now, r.startedAt));
      ok := res.Ok?;
    }

    /** The tail of a run. Done means that content and tags of the row are this run's. */
    method SummarizeAndFinish(r: Reading, c: Content, w: World, f: Faults, now: int) returns (res: Retry.Result)
      requires Valid()
      requires Mine(r) ==> O.KeyOK(blobs.data, r.id, c.contentKey) && O.KeyOK(blobs.data, r.id, c.rawKey)
      modifies store`byID
      ensures Valid() && OnlyContent(old(store.byID), store.byID, r.id)
      ensures res == Retry.Classify(TailError(w, f, old(Mine(r))))
      ensures !old(Mine(r)) ==> !res.outcome.Done? && store.byID == old(store.byID)
      ensures res.outcome.Done? ==> w.summary.Got? && Finished(store.byID, r, c, w.summary.value)
    {
      if w.summary.Err? { return Retry.Classify(w.summary.chain); }
      var sum := Some(w.summary.value);
      var ok := WriteContent(f.final, r, c, sum, now);
      if !ok { return Retry.Classify([Retry.Plain]); }
      ghost var written := store.byID;
      ok := WriteTags(f.tags, r, w.summary.value.tags, now);
      OnlyContentChain(old(store.byID), written, store.byID, r.id);
      if !ok { return Retry.Classify([Retry.Plain]); }
      if w.notified {
        ghost var tagged := store.byID;
        var _ := WriteContent(f.noted, r, c, sum, now);
        OnlyContentChain(old(store.byID), tagged, store.byID, r.id);
      }
      return Retry.Result(Retry.Done, 0);
    }

    /** One run on a snapshot. While the row still has the run's lease it is the snapshot;
        once it has not, the run changes no row and is not done. In every case lifecycle
        columns and other rows stay, every key in a row names a blob, and the run writes
        no blob but its own two. When it is done, content and tags are its own. The
        result is that of the first error it meets. */
    method Run(r: Reading, w: World, f: Faults, now: int) returns (res: Retry.Result)
      requires Valid() && NoSlash(r.id) && (Mine(r) ==> store.byID[r.id] == r)
      modifies store`byID, blobs, index`vecs
      ensures Valid()
      ensures OnlyContent(old(store.byID), store.byID, r.id)
      ensures OnlyOwnBlobs(old(blobs.data), blobs.data, r)
      ensures res == Retry.Classify(RunError(r, w, f, old(blobs.data), old(Mine(r))))
      ensures !old(Mine(r)) ==> !res.outcome.Done? && store.byID == old(store.byID)
      ensures res.outcome.Done? ==> r.id in store.byID && Published(r, w, store.byID[r.id], old(blobs.data), blobs.data)
      ensures res.outcome.Done? ==> index.vecs == V.Upserted(old(index.vecs), V.Write(r.id, NewVector(r, w), r.startedAt))
      ensures Refused(r, w) ==>
                store.byID == old(store.byID) && blobs.data == old(blobs.data) && index.vecs == old(index.vecs)
      ensures index.vecs == old(index.vecs)
              || exists vec :: |vec| == V.DIM && index.vecs == V.Upserted(old(index.vecs), V.Write(r.id, vec, r.startedAt))
    {
      if r.kind == Reddit { return Retry.Result(Retry.Failing, 0); }
      if r.contentKey != "" {
        res := RunAgain(r, w, f, now);
      } else {
        res := RunNew(r, w, f, now);
      }
    }

    /** Re-entry on the content of an earlier run. */
    method RunAgain(r: Reading, w: World, f: Faults, now: int) returns (res: Retry.Result)
      requires Valid() && NoSlash(r.id) && (Mine(r) ==> store.byID[r.id] == r) && r.kind != Reddit && r.contentKey != ""
      modifies store`byID, index`vecs
      ensures Valid()
      ensures OnlyContent(old(store.byID), store.byID, r.id)
      ensures res == Retry.Classify(RunError(r, w, f, blobs.data, old(Mine(r))))
      ensures !old(Mine(r)) ==> !res.outcome.Done? && store.byID == old(store.byID)
      ensures res.outcome.Done? ==> r.id in store.byID && Published(r, w, store.byID[r.id], blobs.data, blobs.data)
      ensures res.outcome.Done? ==> index.vecs == V.Upserted(old(index.vecs), V.Write(r.id, NewVector(r, w), r.startedAt))
      ensures index.vecs == old(index.vecs)
              || exists vec :: |vec| == V.DIM && index.vecs == V.Upserted(old(index.vecs), V.Write(r.id, vec, r.startedAt))
    {
      var body := blobs.Get(f.read, r.contentKey);
      if body.None? { return Retry.Classify([Retry.Plain]); }
      var c := Content(r.title, r.derived, body.value, r.contentKey, r.rawKey, []);
      SnapshotKeys(r);
      var error := UpsertVector(r, c, w, f);
      if error != [] { return Retry.Classify(error); }
      res := SummarizeAndFinish(r, c, w, f, now);
    }

    lemma SnapshotKeys(r: Reading)
      requires Valid() && (Mine(r) ==> store.byID[r.id] == r)
      ensures Mine(r) ==> O.KeyOK(blobs.data, r.id, r.contentKey) && O.KeyOK(blobs.data, r.id, r.rawKey)
    {
      if Mine(r) { assert O.RowOK(blobs.data, store.byID[r.id]); }
    }

    /** A run that acquires its source. The content blob is stored before the checkpoint
        names it, and the vector follows the checkpoint. */
    method RunNew(r: Reading, w: World, f: Faults, now: int) returns (res: Retry.Result)
      requires Valid() && NoSlash(r.id) && (Mine(r) ==> store.byID[r.id] == r) && r.kind != Reddit && r.contentKey == ""
      modifies store`byID, blobs, index`vecs
      ensures Valid()
      ensures OnlyContent(old(store.byID), store.byID, r.id)
      ensures OnlyOwnBlobs(old(blobs.data), blobs.data, r)
      ensures res == Retry.Classify(RunError(r, w, f, old(blobs.data), old(Mine(r))))
      ensures !old(Mine(r)) ==> !res.outcome.Done? && store.byID == old(store.byID) && index.vecs == old(index.vecs)
      ensures res.outcome.Done? ==> r.id in store.byID && Published(r, w, store.byID[r.id], old(blobs.data), blobs.data)
      ensures res.outcome.Done? ==> index.vecs == V.Upserted(old(index.vecs), V.Write(r.id, NewVector(r, w), r.startedAt))
      ensures Refused(r, w) ==>
                store.byID == old(store.byID) && blobs.data == old(blobs.data) && index.vecs == old(index.vecs)
      ensures index.vecs == old(index.vecs)
              || exists vec :: |vec| == V.DIM && index.vecs == V.Upserted(old(index.vecs), V.Write(r.id, vec, r.startedAt))
    {
      SnapshotKeys(r);
      var obtained := Obtain(r, w, f);
      if obtained.Err? { return Retry.Classify(obtained.chain); }
      res := PublishNew(r, obtained.value, w, f, now);
      if res.outcome.Done? {
        FinishedIsPublished(r, w, obtained.value, store.byID, old(blobs.data), blobs.data);
      }
    }

    /** acquire and then index: the content is at hand, and its blob is stored. */
    method Obtain(r: Reading, w: World, f: Faults) returns (c: Answer<Content>)
      requires Valid() && NoSlash(r.id) && r.kind != Reddit && r.contentKey == ""
      requires Mine(r) ==> O.KeyOK(blobs.data, r.id, r.contentKey) && O.KeyOK(blobs.data, r.id, r.rawKey)
      modifies blobs
      ensures Valid() && OnlyOwnBlobs(old(blobs.data), blobs.data, r)
      ensures ErrorOf(c) == Or(SourceError(r, w, f, old(blobs.data)), IndexError(w, f))
      ensures c.Got? ==> Obtained(r, w, old(blobs.data), c.value, blobs.data)
      ensures c.Got? && Mine(r) ==> O.KeyOK(blobs.data, r.id, c.value.contentKey) && O.KeyOK(blobs.data, r.id, c.value.rawKey)
      ensures Refused(r, w) ==> c.Err? && blobs.data == old(blobs.data)
      ensures c.Got? && Fetches(r, w) ==>
                w.fetched.Got? && RawKey(r.id, r.startedAt) in blobs.data
                && blobs.data[RawKey(r.id, r.startedAt)] == w.fetched.value.body
    {
      RawIsNotContent(r.id, r.startedAt, r.startedAt);
      var acquired := Acquire(r, w, f);
      if acquired.Err? { return acquired; }
      ghost var raw := blobs.data;
      c := IndexContent(r, acquired.value, w, f);
      OwnBlobsChain(old(blobs.data), raw, blobs.data, r);
      ghost var key, other := acquired.value.rawKey, acquired.value.contentKey;
      assert key in raw && key != other ==> key in raw - {other};
      if c.Got? { SourcedIsObtained(r, w, old(blobs.data), acquired.value, c.value, blobs.data); }
    }

    /** The checkpoint and what follows it. */
    method PublishNew(r: Reading, c: Content, w: World, f: Faults, now: int) returns (res: Retry.Result)
      requires Valid()
      requires Mine(r) ==> O.KeyOK(blobs.data, r.id, c.contentKey) && O.KeyOK(blobs.data, r.id, c.rawKey)
      modifies store`byID, index`vecs
      ensures Valid() && OnlyContent(old(store.byID), store.byID, r.id)
      ensures res == Retry.Classify(PublishError(c.vec, w, f, old(Mine(r))))
      ensures !old(Mine(r)) ==> !res.outcome.Done? && store.byID == old(store.byID) && index.vecs == old(index.vecs)
      ensures res.outcome.Done? ==> w.summary.Got? && Finished(store.byID, r, c, w.summary.value)
      ensures res.outcome.Done? && c.vec != [] ==>
                index.vecs == V.Upserted(old(index.vecs), V.Write(r.id, c.vec, r.startedAt))
      ensures index.vecs == old(index.vecs)
              || exists vec :: |vec| == V.DIM && index.vecs == V.Upserted(old(index.vecs), V.Write(r.id, vec, r.startedAt))
    {
      var ok := WriteContent(f.checkpoint, r, c, None, now);
      if !ok { return Retry.Classify([Retry.Plain]); }
      ghost var checkpointed := store.byID;
      var error := UpsertVector(r, c, w, f);
      if error != [] { return Retry.Classify(error); }
      res := SummarizeAndFinish(r, c, w, f, now);
      OnlyContentChain(old(store.byID), checkpointed, store.byID, r.id);
    }

    /** Process: load the row, then run on it. */
    method Process(id: string, w: World, f: Faults, now: int) returns (res: Retry.Result)
      requires Valid()
      modifies store`byID, blobs, index`vecs
      ensures Valid()
      ensures OnlyContent(old(store.byID), store.byID, id)
      ensures res == Retry.Classify(
                if f.load || id !in old(store.byID) then [Retry.Plain]
                else var r := old(store.byID)[id]; RunError(r, w, f, old(blobs.data), FenceOpen(r, r.startedAt)))
      ensures f.load || id !in old(store.byID) ==> res == Retry.Result(Retry.Retrying, 0)
      ensures !f.load && id in old(store.byID) ==>
                var r := old(store.byID)[id];
                && Decides(r, w, f, old(blobs.data), r.startedAt.Some? ==> r.status == Running, res)
                && (res.outcome.Done? ==> id in store.byID && Published(r, w, store.byID[id], old(blobs.data), blobs.data))
                && (res.outcome.Done? ==> index.vecs == V.Upserted(old(index.vecs), V.Write(id, NewVector(r, w), r.startedAt)))
                && (Refused(r, w) ==> store.byID == old(store.byID) && blobs.data == old(blobs.data) && index.vecs == old(index.vecs))
    {
      var got, row := store.GetByID(f.load, id);
      if got.Fail? { return Retry.Classify([Retry.Plain]); }
      ErrorDecides(row.value, w, f, blobs.data, FenceOpen(row.value, row.value.startedAt));
      assert O.RowOK(blobs.data, row.value);
      res := Run(row.value, w, f, now);
    }
  }

  lemma OwnBlobsChain(a: map<string, string>, b: map<string, string>, c: map<string, string>, r: Reading)
    requires OnlyOwnBlobs(a, b, r) && OnlyOwnBlobs(b, c, r)
    ensures OnlyOwnBlobs(a, c, r)
  {
  }

  /** The row carries this content, this summary and its tags. */
  predicate Finished(rows: map<string, Reading>, r: Reading, c: Content, sum: Summary) {
    && r.id in rows && rows[r.id].contentKey == c.contentKey && rows[r.id].rawKey == c.rawKey && rows[r.id].tags == sum.tags
    && rows[r.id].title == (if sum.title != "" then sum.title else c.title)
    && rows[r.id].derived == c.derived.(summary := sum.text, summaryJSON := sum.json)
  }

  /** The content is what its source says. */
  predicate Sourced(r: Reading, w: World, data: map<string, string>, c: Content) {
    if r.kind == Markdown then
      c.title == r.title && c.derived == NO_DERIVED && r.rawKey in data && c.markdown == data[r.rawKey]
    else if r.kind == YouTube && w.isVideo then
      w.video.Got? && c.title == w.video.value.title && c.derived == w.video.value.derived && c.markdown == w.video.value.markdown
    else
      w.article.Got? && c.title == w.article.value.title && c.derived == w.article.value.derived
      && c.markdown == w.article.value.markdown
  }

  /** The same content, with what is similar to it. */
  predicate Compared(c: Content, w: World, out: Content) {
    w.similar.Got? && w.embedding.Got? && out == c.(derived := c.derived.(similarJSON := w.similar.value), vec := w.embedding.value)
  }

  /** The content of a run that has acquired and compared it. */
  predicate Obtained(r: Reading, w: World, data: map<string, string>, c: Content, data': map<string, string>) {
    && c.title == SourceTitle(r, w) && c.derived == SourceDerived(r, w) && c.vec == NewVector(r, w) && c.vec != []
    && c.contentKey == ContentKey(r.id, r.startedAt) && c.contentKey in data'
    && data'[c.contentKey] == SourceMarkdown(r, w, data)
  }

  lemma SourcedIsObtained(r: Reading, w: World, data: map<string, string>, c: Content, out: Content, data': map<string, string>)
    requires r.contentKey == "" && Sourced(r, w, data, c) && Compared(c, w, out) && out.vec != []
    requires c.contentKey == ContentKey(r.id, r.startedAt) && c.contentKey in data' && data'[c.contentKey] == c.markdown
    ensures Obtained(r, w, data, out, data')
  {
  }

  lemma FinishedIsPublished(r: Reading, w: World, c: Content, rows: map<string, Reading>,
                            data: map<string, string>, data': map<string, string>)
    requires r.contentKey == "" && Obtained(r, w, data, c, data') && w.summary.Got?
    requires Finished(rows, r, c, w.summary.value)
    ensures Published(r, w, rows[r.id], data, data')
  {
  }
}
