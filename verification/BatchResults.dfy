/** ParseBatchResults of internal/summarize/anthropic_batch.go. Decoding a line is
    abstract: a line arrives as blank, undecodable, or its decoded fields. */
module BatchResults {
  import opened Basics

  datatype Kind = Succeeded | Errored | Canceled | Expired | Other(name: string)

  /** summary is what the tool call in the message parses to, None where it does not.
      errorType and errorMessage are the error payload, and blank says which strings
      are only white space. */
  datatype Line =
    | Blank
    | Garbled
    | Decoded(customId: string, kind: Kind, summary: Option<string>, errorType: string, errorMessage: string)

  datatype BatchResult = BatchResult(customId: string, kind: Kind, summary: string, errorType: string, errorMessage: string)

  datatype Error =
    | EmptyExpected | DuplicateExpected(id: string)
    | Undecodable | Unknown(id: string) | Duplicate(id: string) | BadPayload(id: string) | UnknownKind(id: string)
    | ReadFailed | Missing(id: string)

  datatype Outcome = Results(results: seq<BatchResult>) | Failed(error: Error)

  /** What each kind of result must bring along. */
  predicate PayloadOK(blank: string -> bool, l: Line)
    requires l.Decoded?
  {
    match l.kind
    case Succeeded => l.summary.Some?
    case Errored => !blank(l.errorType) && !blank(l.errorMessage)
    case Canceled => true
    case Expired => true
    case Other(_) => false
  }

  /** The result says what its line says: the summary of a success, the error of a
      failure, and neither of the other kinds. */
  predicate IsResult(l: Line, r: BatchResult)
    requires l.Decoded?
  {
    && r.customId == l.customId && r.kind == l.kind
    && (l.kind.Succeeded? ==> l.summary == Some(r.summary))
    && (!l.kind.Succeeded? ==> r.summary == "")
    && (l.kind.Errored? ==> r.errorType == l.errorType && r.errorMessage == l.errorMessage)
    && (!l.kind.Errored? ==> r.errorType == "" && r.errorMessage == "")
  }

  predicate GoodIds(ids: seq<string>) {
    (forall i :: 0 <= i < |ids| ==> ids[i] != "") && forall i, k :: 0 <= i < k < |ids| ==> ids[i] != ids[k]
  }

  /** A line that may stand in the file: blank, or a whole result for an expected id. */
  predicate GoodLine(blank: string -> bool, ids: seq<string>, l: Line) {
    l.Blank? || (l.Decoded? && l.customId in ids && PayloadOK(blank, l))
  }

  predicate OnePerId(lines: seq<Line>) {
    forall i, k :: 0 <= i < k < |lines| && lines[i].Decoded? && lines[k].Decoded? ==> lines[i].customId != lines[k].customId
  }

  predicate Carried(lines: seq<Line>, id: string) {
    exists i :: 0 <= i < |lines| && lines[i].Decoded? && lines[i].customId == id
  }

  /** The non-blank lines carry each expected id exactly once and no other. */
  predicate Complete(blank: string -> bool, lines: seq<Line>, ids: seq<string>) {
    GoodIds(ids)
    && (forall i :: 0 <= i < |lines| ==> GoodLine(blank, ids, lines[i]))
    && OnePerId(lines)
    && (forall i :: 0 <= i < |ids| ==> Carried(lines, ids[i]))
  }

  predicate FromLine(blank: string -> bool, lines: seq<Line>, r: BatchResult) {
    exists i :: 0 <= i < |lines| && lines[i].Decoded? && PayloadOK(blank, lines[i]) && IsResult(lines[i], r)
  }

  /** One result per expected id, in the expected order, each taken from its line. */
  predicate InOrder(blank: string -> bool, lines: seq<Line>, ids: seq<string>, out: seq<BatchResult>) {
    |out| == |ids| && forall i :: 0 <= i < |out| ==> out[i].customId == ids[i] && FromLine(blank, lines, out[i])
  }

  /** An error names what is there. */
  predicate Justified(blank: string -> bool, lines: seq<Line>, readFails: bool, ids: seq<string>, e: Error) {
    match e
    case EmptyExpected => "" in ids
    case DuplicateExpected(id) => exists i, k :: 0 <= i < k < |ids| && ids[i] == ids[k] == id
    case Undecodable => Garbled in lines
    case Unknown(id) => id !in ids && Carried(lines, id)
    case Duplicate(id) => exists i, k :: 0 <= i < k < |lines| && IdAt(lines, i, id) && IdAt(lines, k, id)
    case BadPayload(id) => exists i :: 0 <= i < |lines| && IdAt(lines, i, id) && !PayloadOK(blank, lines[i])
    case UnknownKind(id) => exists i :: 0 <= i < |lines| && IdAt(lines, i, id) && lines[i].kind.Other?
    case ReadFailed => readFails
    case Missing(id) => id in ids && !Carried(lines, id)
  }

  predicate IdAt(lines: seq<Line>, i: nat, id: string) {
    i < |lines| && lines[i].Decoded? && lines[i].customId == id
  }

  method CheckExpected(ids: seq<string>) returns (e: Option<Error>, want: set<string>, order: seq<string>)
    ensures e.None? <==> GoodIds(ids)
    ensures e.Some? ==> (e.value.EmptyExpected? || e.value.DuplicateExpected?) && Justified(_ => false, [], false, ids, e.value)
    ensures e.None? ==> order == ids && forall id :: id in want <==> id in ids
  {
    want, order := {}, [];
    for i := 0 to |ids|
      invariant order == ids[..i] && (forall id :: id in want <==> id in ids[..i]) && GoodIds(ids[..i])
    {
      if ids[i] == "" { return Some(EmptyExpected), want, order; }
      if ids[i] in want {
        var k :| 0 <= k < i && ids[..i][k] == ids[i];
        assert ids[k] == ids[i];
        return Some(DuplicateExpected(ids[i])), want, order;
      }
      want, order := want + {ids[i]}, order + [ids[i]];
      assert ids[..i + 1] == ids[..i] + [ids[i]];
    }
    assert ids[..|ids|] == ids;
    return None, want, order;
  }

  /** The result of one decoded line, or why it has none. */
  method ReadLine(blank: string -> bool, l: Line) returns (e: Option<Error>, out: BatchResult)
    requires l.Decoded?
    ensures e.None? <==> PayloadOK(blank, l)
    ensures e.Some? ==> e.value == if l.kind.Other? then UnknownKind(l.customId) else BadPayload(l.customId)
    ensures e.None? ==> IsResult(l, out)
  {
    out := BatchResult(l.customId, l.kind, "", "", "");
    match l.kind {
      case Succeeded =>
        if l.summary.None? { return Some(BadPayload(l.customId)), out; }
        out := out.(summary := l.summary.value);
      case Errored =>
        if blank(l.errorType) || blank(l.errorMessage) { return Some(BadPayload(l.customId)), out; }
        out := out.(errorType := l.errorType, errorMessage := l.errorMessage);
      case Canceled =>
      case Expired =>
      case Other(_) => return Some(UnknownKind(l.customId)), out;
    }
    return None, out;
  }

  /** seen holds the result of every decoded line so far. */
  predicate Seen(blank: string -> bool, lines: seq<Line>, seen: map<string, BatchResult>) {
    (forall id :: id in seen ==> seen[id].customId == id && FromLine(blank, lines, seen[id]))
    && (forall i :: 0 <= i < |lines| && lines[i].Decoded? ==> lines[i].customId in seen)
  }

  method ReadLines(blank: string -> bool, lines: seq<Line>, ids: seq<string>, want: set<string>)
    returns (e: Option<Error>, seen: map<string, BatchResult>)
    requires forall id :: id in want <==> id in ids
    ensures e.None? <==> (forall i :: 0 <= i < |lines| ==> GoodLine(blank, ids, lines[i])) && OnePerId(lines)
    ensures e.Some? ==> Justified(blank, lines, false, ids, e.value)
    ensures e.None? ==> Seen(blank, lines, seen)
  {
    seen := map[];
    for n := 0 to |lines|
      invariant forall i :: 0 <= i < n ==> GoodLine(blank, ids, lines[i])
      invariant OnePerId(lines[..n]) && Seen(blank, lines[..n], seen)
    {
      var l := lines[n];
      if l.Blank? { SeenSame(blank, lines, n, seen); continue; }
      if l.Garbled? { assert !GoodLine(blank, ids, lines[n]); return Some(Undecodable), seen; }
      if l.customId !in want { assert !GoodLine(blank, ids, lines[n]); return Some(Unknown(l.customId)), seen; }
      if l.customId in seen {
        RepeatedId(blank, lines, n, seen);
        return Some(Duplicate(l.customId)), seen;
      }
      var bad, out := ReadLine(blank, l);
      if bad.Some? { assert !GoodLine(blank, ids, lines[n]); return bad, seen; }
      SeenMore(blank, lines, n, seen, out);
      seen := seen[l.customId := out];
    }
    assert lines[..|lines|] == lines;
    return None, seen;
  }

  lemma SeenSame(blank: string -> bool, lines: seq<Line>, n: nat, seen: map<string, BatchResult>)
    requires n < |lines| && !lines[n].Decoded? && OnePerId(lines[..n]) && Seen(blank, lines[..n], seen)
    ensures OnePerId(lines[..n + 1]) && Seen(blank, lines[..n + 1], seen)
  {
    forall id | id in seen ensures FromLine(blank, lines[..n + 1], seen[id]) { FromEarlier(blank, lines, n, seen[id]); }
    var more := lines[..n + 1];
    forall i | 0 <= i < |more| && more[i].Decoded? ensures i < n && lines[..n][i] == more[i] && more[i].customId in seen {
      assert more[i] == lines[i];
      assert i < n;
      assert lines[..n][i] == lines[i];
    }
  }

  lemma SeenMore(blank: string -> bool, lines: seq<Line>, n: nat, seen: map<string, BatchResult>, r: BatchResult)
    requires n < |lines| && lines[n].Decoded? && PayloadOK(blank, lines[n]) && lines[n].customId !in seen && IsResult(lines[n], r)
    requires OnePerId(lines[..n]) && Seen(blank, lines[..n], seen)
    ensures OnePerId(lines[..n + 1]) && Seen(blank, lines[..n + 1], seen[lines[n].customId := r])
  {
    var l := lines[n];
    var seen' := seen[l.customId := r];
    forall id | id in seen' ensures seen'[id].customId == id && FromLine(blank, lines[..n + 1], seen'[id]) {
      if id == l.customId { assert lines[..n + 1][n] == l; } else { FromEarlier(blank, lines, n, seen[id]); }
    }
    assert forall i :: 0 <= i < n && lines[i].Decoded? ==> lines[..n][i].customId in seen;
    assert OnePerId(lines[..n + 1]) by {
      forall i, k | 0 <= i < k <= n && lines[i].Decoded? && lines[k].Decoded? ensures lines[i].customId != lines[k].customId {
        if k < n { assert lines[..n][i].customId != lines[..n][k].customId; }
      }
    }
  }

  lemma FromEarlier(blank: string -> bool, lines: seq<Line>, n: nat, r: BatchResult)
    requires n < |lines| && FromLine(blank, lines[..n], r)
    ensures FromLine(blank, lines[..n + 1], r)
  {
    var i :| 0 <= i < n && lines[..n][i].Decoded? && PayloadOK(blank, lines[..n][i]) && IsResult(lines[..n][i], r);
    assert lines[..n + 1][i] == lines[..n][i];
  }

  lemma RepeatedId(blank: string -> bool, lines: seq<Line>, n: nat, seen: map<string, BatchResult>)
    requires n < |lines| && lines[n].Decoded? && Seen(blank, lines[..n], seen) && lines[n].customId in seen
    ensures !OnePerId(lines)
    ensures exists i, k :: 0 <= i < k < |lines| && IdAt(lines, i, lines[n].customId) && IdAt(lines, k, lines[n].customId)
  {
    var r := seen[lines[n].customId];
    var i :| 0 <= i < n && lines[..n][i].Decoded? && PayloadOK(blank, lines[..n][i]) && IsResult(lines[..n][i], r);
    assert IdAt(lines, i, lines[n].customId) && IdAt(lines, n, lines[n].customId);
  }

  /** The results in the expected order, or the first id without one. */
  method Collect(blank: string -> bool, lines: seq<Line>, order: seq<string>, seen: map<string, BatchResult>) returns (r: Outcome)
    requires Seen(blank, lines, seen)
    ensures r.Results? <==> forall i :: 0 <= i < |order| ==> Carried(lines, order[i])
    ensures r.Failed? ==> Justified(blank, lines, false, order, r.error)
    ensures r.Results? ==> InOrder(blank, lines, order, r.results)
  {
    var out: seq<BatchResult> := [];
    for i := 0 to |order|
      invariant InOrder(blank, lines, order[..i], out)
      invariant forall k :: 0 <= k < i ==> Carried(lines, order[k])
    {
      if order[i] !in seen {
        assert !Carried(lines, order[i]);
        return Failed(Missing(order[i]));
      }
      SeenIsCarried(blank, lines, seen, order[i]);
      out := out + [seen[order[i]]];
    }
    assert order[..|order|] == order;
    return Results(out);
  }

  /** Parsing succeeds exactly when the file reads to its end and its non-blank lines
      carry each expected id once and no other, each with the payload its kind needs;
      the results then come in the expected order. In every other case there are no
      results, and the error names something that is wrong. */
  method ParseBatchResults(blank: string -> bool, lines: seq<Line>, readFails: bool, ids: seq<string>) returns (r: Outcome)
    ensures r.Results? <==> !readFails && Complete(blank, lines, ids)
    ensures r.Failed? ==> Justified(blank, lines, readFails, ids, r.error)
    ensures r.Results? ==> InOrder(blank, lines, ids, r.results)
  {
    var bad, want, order := CheckExpected(ids);
    if bad.Some? { return Failed(bad.value); }
    var wrong, seen := ReadLines(blank, lines, ids, want);
    if wrong.Some? { return Failed(wrong.value); }
    if readFails { return Failed(ReadFailed); }
    r := Collect(blank, lines, order, seen);
  }

  lemma SeenIsCarried(blank: string -> bool, lines: seq<Line>, seen: map<string, BatchResult>, id: string)
    requires Seen(blank, lines, seen) && id in seen
    ensures Carried(lines, id)
  {
    var i :| 0 <= i < |lines| && lines[i].Decoded? && PayloadOK(blank, lines[i]) && IsResult(lines[i], seen[id]);
  }

  // ------------------------------------------------------------------
  // What a success means

  /** The results do not depend on the order of the lines, or on blank ones. */
  lemma OrderIrrelevant(blank: string -> bool, lines: seq<Line>, lines': seq<Line>, ids: seq<string>,
                        out: seq<BatchResult>, out': seq<BatchResult>)
    requires Complete(blank, lines, ids) && InOrder(blank, lines, ids, out)
    requires Complete(blank, lines', ids) && InOrder(blank, lines', ids, out')
    requires forall l: Line :: l.Decoded? && l in lines' ==> l in lines
    ensures out' == out
  {
    forall i | 0 <= i < |ids| ensures out'[i] == out[i] {
      assert FromLine(blank, lines, out[i]) && FromLine(blank, lines', out'[i]);
      var a :| 0 <= a < |lines| && lines[a].Decoded? && PayloadOK(blank, lines[a]) && IsResult(lines[a], out[i]);
      var b :| 0 <= b < |lines'| && lines'[b].Decoded? && PayloadOK(blank, lines'[b]) && IsResult(lines'[b], out'[i]);
      assert lines'[b] in lines;
      var c :| 0 <= c < |lines| && lines[c] == lines'[b];
      assert lines[a].customId == lines[c].customId;
      assert a == c;
    }
  }

  function DecodedCount(lines: seq<Line>): nat {
    if lines == [] then 0 else DecodedCount(lines[..|lines| - 1]) + (if lines[|lines| - 1].Decoded? then 1 else 0)
  }

  function IdsOf(lines: seq<Line>): set<string> {
    if lines == [] then {}
    else IdsOf(lines[..|lines| - 1]) + (if lines[|lines| - 1].Decoded? then {lines[|lines| - 1].customId} else {})
  }

  lemma {:induction false} IdsAreCarried(lines: seq<Line>, id: string)
    ensures id in IdsOf(lines) <==> Carried(lines, id)
  {
    if lines != [] {
      var n := |lines| - 1;
      IdsAreCarried(lines[..n], id);
      if Carried(lines[..n], id) {
        var i :| 0 <= i < n && lines[..n][i].Decoded? && lines[..n][i].customId == id;
        assert lines[i].Decoded? && lines[i].customId == id;
      }
      if Carried(lines, id) {
        var i :| 0 <= i < |lines| && lines[i].Decoded? && lines[i].customId == id;
        assert i < n ==> lines[..n][i] == lines[i];
      }
    }
  }

  lemma {:induction false} CountIsIds(lines: seq<Line>)
    requires OnePerId(lines)
    ensures |IdsOf(lines)| == DecodedCount(lines)
  {
    if lines != [] {
      var n := |lines| - 1;
      var l := lines[n];
      CountIsIds(lines[..n]);
      if l.Decoded? {
        IdsAreCarried(lines[..n], l.customId);
        assert !Carried(lines[..n], l.customId);
      }
    }
  }

  lemma {:induction false} SetOfIds(ids: seq<string>)
    requires GoodIds(ids)
    ensures |set i | 0 <= i < |ids| :: ids[i]| == |ids|
  {
    if ids != [] {
      var front := ids[..|ids| - 1];
      SetOfIds(front);
      assert (set i | 0 <= i < |ids| :: ids[i]) == (set i | 0 <= i < |front| :: front[i]) + {ids[|ids| - 1]};
    }
  }

  /** Nothing is lost and nothing is made up: as many results as result lines. */
  lemma NothingLost(blank: string -> bool, lines: seq<Line>, ids: seq<string>)
    requires Complete(blank, lines, ids)
    ensures DecodedCount(lines) == |ids|
  {
    CountIsIds(lines);
    SetOfIds(ids);
    var wanted := set i | 0 <= i < |ids| :: ids[i];
    forall id ensures id in IdsOf(lines) <==> id in wanted {
      IdsAreCarried(lines, id);
      if Carried(lines, id) {
        var k :| 0 <= k < |lines| && lines[k].Decoded? && lines[k].customId == id;
        assert GoodLine(blank, ids, lines[k]);
      }
      if id in wanted {
        var k :| 0 <= k < |ids| && ids[k] == id;
        assert Carried(lines, ids[k]);
      }
    }
    assert IdsOf(lines) == wanted;
  }
}
