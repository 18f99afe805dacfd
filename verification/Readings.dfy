/** The reading row of internal/reading and what each guarded write of
    internal/store/memory.go does to it. Times are nanoseconds; the JSON and text
    columns of the extracted content travel together in Derived. */
module Readings {
  import opened Basics

  datatype Kind = Web | Reddit | YouTube | Markdown

  datatype Status = Pending | Running | Ready | Failed

  datatype Derived = Derived(author: string, site: string, lang: string, wordCount: int, mode: string,
                             summary: string, summaryJSON: string, similarJSON: string, diagnosticsJSON: string)

  const NO_DERIVED := Derived("", "", "", 0, "", "", "", "", "")

  datatype Reading = Reading(
    id: string, url: string, urlKey: string, status: Status, kind: Kind, title: string, derived: Derived,
    contentKey: string, rawKey: string, error: string, attempts: int, tags: seq<string>,
    createdAt: int, startedAt: Option<int>, finishedAt: Option<int>, updatedAt: int)

  predicate Terminal(s: Status) { s == Ready || s == Failed }

  datatype StatusFields = StatusFields(now: int, startedAt: Option<int>, clearStartedAt: bool,
                                       finishedAt: Option<int>, clearFinishedAt: bool,
                                       error: Option<string>, clearError: bool, attempts: Option<int>)

  datatype ContentFields = ContentFields(now: int, expectedStartedAt: Option<int>, title: string,
                                         derived: Derived, contentKey: string, rawKey: string)

  datatype ImportFields = ImportFields(now: int, kind: Kind, title: string, rawKey: string, tags: seq<string>)

  datatype ReprocessFields = ReprocessFields(now: int, rawKey: string, title: string)

  datatype TagFields = TagFields(now: int, expectedStartedAt: Option<int>)

  /** UpdateStatus. */
  function WithStatus(r: Reading, status: Status, f: StatusFields): Reading {
    r.(status := status,
       updatedAt := f.now,
       startedAt := if f.clearStartedAt then None
                    else if f.startedAt.Some? then f.startedAt
                    else if status == Running then Some(f.now) else r.startedAt,
       finishedAt := if f.clearFinishedAt then None
                     else if f.finishedAt.Some? then f.finishedAt
                     else if Terminal(status) then Some(f.now) else r.finishedAt,
       error := if f.error.Some? then f.error.value else if f.clearError then "" else r.error,
       attempts := if f.attempts.Some? then f.attempts.value else r.attempts)
  }

  /** What UpdateStatus promises, column by column: a clear outranks a given time, which
      outranks the clock, and the clock sets a start on running and a finish on a final
      status. Everything else stays. */
  predicate StatusWritten(r: Reading, r': Reading, status: Status, f: StatusFields) {
    && r'.status == status && r'.updatedAt == f.now
    && (f.clearStartedAt ==> r'.startedAt == None)
    && (!f.clearStartedAt && f.startedAt.Some? ==> r'.startedAt == f.startedAt)
    && (!f.clearStartedAt && f.startedAt.None? && status == Running ==> r'.startedAt == Some(f.now))
    && (!f.clearStartedAt && f.startedAt.None? && status != Running ==> r'.startedAt == r.startedAt)
    && (f.clearFinishedAt ==> r'.finishedAt == None)
    && (!f.clearFinishedAt && f.finishedAt.Some? ==> r'.finishedAt == f.finishedAt)
    && (!f.clearFinishedAt && f.finishedAt.None? && (status == Ready || status == Failed) ==> r'.finishedAt == Some(f.now))
    && (!f.clearFinishedAt && f.finishedAt.None? && (status == Pending || status == Running) ==> r'.finishedAt == r.finishedAt)
    && (f.error.Some? ==> r'.error == f.error.value)
    && (f.error.None? ==> r'.error == if f.clearError then "" else r.error)
    && (f.attempts.Some? ==> r'.attempts == f.attempts.value)
    && (f.attempts.None? ==> r'.attempts == r.attempts)
    && r' == r.(status := r'.status, updatedAt := r'.updatedAt, startedAt := r'.startedAt, finishedAt := r'.finishedAt,
                error := r'.error, attempts := r'.attempts)
  }

  lemma WithStatusWrites(r: Reading, status: Status, f: StatusFields)
    ensures StatusWritten(r, WithStatus(r, status, f), status, f)
  {
  }

  /** The lease fence of UpdateContent and ReplaceTags. */
  predicate FenceOpen(r: Reading, expected: Option<int>) {
    expected.Some? ==> r.status == Running && r.startedAt == expected
  }

  /** UpdateContent, once its fence is open. */
  function WithContent(r: Reading, f: ContentFields): Reading {
    r.(title := f.title, derived := f.derived, contentKey := f.contentKey, rawKey := f.rawKey, updatedAt := f.now)
  }

  /** ReplaceTags, once its fence is open. */
  function WithTags(r: Reading, tags: seq<string>, f: TagFields): Reading {
    r.(tags := tags, updatedAt := f.now)
  }

  function WithReprocess(r: Reading, f: ReprocessFields): Reading {
    r.(status := Pending, title := f.title, derived := NO_DERIVED, contentKey := "", rawKey := f.rawKey,
       error := "", startedAt := None, finishedAt := None, attempts := 0, updatedAt := f.now)
  }

  function WithImport(r: Reading, f: ImportFields): Reading {
    r.(status := Pending, kind := f.kind, title := f.title, derived := NO_DERIVED, contentKey := "",
       rawKey := f.rawKey, error := "", startedAt := None, finishedAt := None, attempts := 0, tags := f.tags,
       updatedAt := f.now)
  }

  /** What markPending keeps of a row: a markdown import keeps its body and title. */
  function KeptRaw(r: Reading): string { if r.kind == Markdown then r.rawKey else "" }

  function KeptTitle(r: Reading): string { if r.kind == Markdown then r.title else "" }

  // ------------------------------------------------------------------
  // The four status writes of the dispatcher

  function RunningRow(r: Reading, start: int, attempt: int): Reading {
    WithStatus(r, Running, StatusFields(start, Some(start), false, None, false, None, true, Some(attempt)))
  }

  function ReadyRow(r: Reading, now: int): Reading {
    WithStatus(r, Ready, StatusFields(now, None, false, Some(now), false, None, true, None))
  }

  function FailedRow(r: Reading, now: int, attempt: int, message: string): Reading {
    WithStatus(r, Failed, StatusFields(now, None, false, Some(now), false, Some(message), false, Some(attempt)))
  }

  function PendingRow(r: Reading, now: int, next: int): Reading {
    WithStatus(r, Pending, StatusFields(now, None, false, None, false, None, false, Some(next)))
  }

  // ------------------------------------------------------------------
  // Staleness

  datatype TTLs = TTLs(pending: int, running: int)

  function PendingSince(r: Reading): int {
    Max(r.updatedAt, r.createdAt)
  }

  /** AnnotateStale reports the row failed. */
  predicate Stale(r: Reading, now: int, ttls: TTLs) {
    match r.status
    case Pending => ttls.pending > 0 && now - PendingSince(r) > ttls.pending
    case Running => r.startedAt.Some? && ttls.running > 0 && now - r.startedAt.value > ttls.running
    case _ => false
  }

  /** The time of t lies more than a positive ttl back. */
  predicate Past(t: int, now: int, ttl: int) { ttl > 0 && t < now - ttl }

  /** A pending row is stale when its creation and its last change both lie too far back,
      a running row when its start does, and a finished one never. */
  lemma StaleMeans(r: Reading, now: int, ttls: TTLs)
    ensures Stale(r, now, ttls) <==>
              || (r.status == Pending && Past(r.updatedAt, now, ttls.pending) && Past(r.createdAt, now, ttls.pending))
              || (r.status == Running && r.startedAt.Some? && Past(r.startedAt.value, now, ttls.running))
  {
  }

  // ------------------------------------------------------------------
  // Recovery

  datatype Recovered = Recovered(id: string, attempts: int)

  /** The readings the startup sweep dispatches again: pending ones, and running ones
      that started before the cutoff. */
  predicate Recoverable(r: Reading, cutoff: int) {
    r.status == Pending || (r.status == Running && r.startedAt.Some? && r.startedAt.value < cutoff)
  }
}
