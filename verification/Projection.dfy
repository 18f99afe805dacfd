/** Forgetting rows, blobs and commands turns every run of the joined system into a run
    of the dispatcher alone, so that what holds in all runs of Protocol holds here. */
module Projection {
  import opened Basics
  import opened Claims
  import opened System
  import P = Protocol
  import PI = ProtocolInvariant
  import PR = ProtocolRuns
  import Retry

  /** The dispatcher's part in a step, if it has one. */
  function Projected(s: Sys, l: Label): Option<P.Label> {
    match l
    case Internal(pl) => Some(pl)
    case Start(k, start) => Some(P.StartOk(k, start))
    case Finish(k, _, _, _) => Some(P.Settle(k))
    case Again(k, k2, _, _) => Some(P.Redispatch(k, k2))
    case Panic(k, _, _) => Some(P.Label.Panic(k))
    case Crash => Some(P.Label.Crash)
    case Complete(k) => Some(P.Return(k, Retry.Result(Retry.Done, 0)))
    case Fail(k, res) => Some(P.Return(k, res))
    case Submit(id, k) => if id in s.d.table.inflight then None else Some(P.Claim(k, id, 0, false))
    case Sweep(k) =>
      if s.boot.Sweeping? && s.boot.list != [] && s.boot.list[0].id !in s.d.table.inflight
      then Some(P.Claim(k, s.boot.list[0].id, s.boot.list[0].attempts, true)) else None
    case Force(id, k) => Some(P.Force(k, id))
    case ForceAbort(_, k) => Some(P.WaitAbort(k))
    case ForceReset(_, k) => Some(P.CallbackOk(k))
    case ForceFail(_, k) => Some(P.CallbackFails(k))
    case _ => None
  }

  ghost predicate Shadows(c: Config, s: Sys, l: Label)
    requires Can(c, s, l)
  {
    match Projected(s, l)
    case None => Do(c, s, l).d == s.d
    case Some(pl) => P.Can(c.d, s.d, pl) && Do(c, s, l).d == P.Do(c.d, s.d, pl)
  }

  /** Each step of the joined system is a step of the dispatcher or leaves it alone. */
  lemma StepShadows(c: Config, s: Sys, l: Label)
    requires Can(c, s, l)
    ensures Shadows(c, s, l)
  {
    if IsCore(l) { CoreShadows(c, s, l); }
    else if IsPipeline(l) { PipelineShadows(c, s, l); }
    else { CommandShadows(c, s, l); }
  }

  lemma CoreShadows(c: Config, s: Sys, l: Label)
    requires IsCore(l) && Can(c, s, l)
    ensures Shadows(c, s, l)
  {
    if l.Start? || l.Finish? || l.Again? || l.Panic? { StatusShadows(c, s, l); } else { BootShadows(c, s, l); }
  }

  lemma BootShadows(c: Config, s: Sys, l: Label)
    requires (l.Internal? || l.List? || l.Sweep? || l.Serve? || l.Crash?) && Can(c, s, l)
    ensures Shadows(c, s, l)
  {
    if l.Sweep? { SweepShadows(c, s, l); }
  }

  lemma SweepShadows(c: Config, s: Sys, l: Label)
    requires l.Sweep? && Can(c, s, l)
    ensures Shadows(c, s, l)
  {
  }

  lemma StatusShadows(c: Config, s: Sys, l: Label)
    requires (l.Start? || l.Finish? || l.Again? || l.Panic?) && Can(c, s, l)
    ensures Shadows(c, s, l)
  {
  }

  lemma PipelineShadows(c: Config, s: Sys, l: Label)
    requires IsPipeline(l) && Can(c, s, l)
    ensures Shadows(c, s, l)
  {
    if l.Complete? || l.Fail? { ReturnShadows(c, s, l); } else { RecordShadows(c, s, l); }
  }

  lemma ReturnShadows(c: Config, s: Sys, l: Label)
    requires (l.Complete? || l.Fail?) && Can(c, s, l)
    ensures Shadows(c, s, l)
  {
  }

  lemma RecordShadows(c: Config, s: Sys, l: Label)
    requires IsPipeline(l) && !l.Complete? && !l.Fail? && Can(c, s, l)
    ensures Shadows(c, s, l)
  {
  }

  lemma CommandShadows(c: Config, s: Sys, l: Label)
    requires !IsCore(l) && !IsPipeline(l) && Can(c, s, l)
    ensures Shadows(c, s, l)
  {
  }

  /** The dispatcher's run inside a joined one. */
  function Shadow(c: Config, s: Sys, run: seq<Label>): seq<P.Label>
    requires Exec(c, s, run).Some?
    decreases |run|
  {
    if run == [] then []
    else
      var rest := Shadow(c, Do(c, s, run[0]), run[1..]);
      match Projected(s, run[0])
      case None => rest
      case Some(pl) => [pl] + rest
  }

  lemma {:induction false} RunShadows(c: Config, s: Sys, run: seq<Label>)
    requires Exec(c, s, run).Some?
    ensures P.Exec(c.d, s.d, Shadow(c, s, run)) == Some(Exec(c, s, run).value.d)
    decreases |run|
  {
    if run != [] {
      StepShadows(c, s, run[0]);
      RunShadows(c, Do(c, s, run[0]), run[1..]);
      if Projected(s, run[0]).Some? {
        var rest := Shadow(c, Do(c, s, run[0]), run[1..]);
        assert Shadow(c, s, run)[1..] == rest;
      }
    }
  }

  /** The process does not die in this run. */
  predicate Survives(run: seq<Label>) {
    forall i :: 0 <= i < |run| ==> !run[i].Crash? && !run[i].Panic? && (run[i].Internal? ==> Quiet(run[i].l))
  }

  lemma {:induction false} ShadowSurvives(c: Config, s: Sys, run: seq<Label>)
    requires Exec(c, s, run).Some? && Survives(run)
    ensures PR.Survives(Shadow(c, s, run))
    decreases |run|
  {
    if run != [] {
      assert forall i :: 0 <= i < |run[1..]| ==> run[1..][i] == run[i + 1];
      ShadowSurvives(c, Do(c, s, run[0]), run[1..]);
      StepSurvives(s, run[0]);
    }
  }

  lemma StepSurvives(s: Sys, l: Label)
    requires !l.Crash? && !l.Panic? && (l.Internal? ==> Quiet(l.l))
    ensures Projected(s, l).Some? ==> !PI.Dies(Projected(s, l).value)
  {
  }
}
