/** Taking and giving up a forced claim keep the joined invariant. */
module ForceSteps {
  import opened Basics
  import opened Claims
  import opened Readings
  import opened BlobKeys
  import opened System
  import opened SystemInvariant
  import P = Protocol
  import PI = ProtocolInvariant

  // ------------------------------------------------------------------
  // forceClaim

  lemma ForceHandler(c: Config, s: Sys, id: string, k: nat, j: nat)
    requires c.d.delaySet && PI.ForceOK(s.d) && PI.ItemsOK(s.d) && CanForce(s, id, k)
    requires j in s.d.tasks && HandlerOK(s, j) && PI.GoodRun(s.d, s.d.tasks[j])
    ensures HandlerOK(DoForce(c, s, id, k), j)
  {
    var s' := DoForce(c, s, id, k);
    assert PreForce(s', s.d.tasks[j].item.id) <==> s.d.tasks[j].item.id == id;
  }

  lemma ForceHandlers(c: Config, s: Sys, id: string, k: nat)
    requires c.d.delaySet && PI.ForceOK(s.d) && PI.ItemsOK(s.d) && PI.RunsOK(s.d)
    requires Handlers(s) && OneLive(s) && CanForce(s, id, k)
    ensures Handlers(DoForce(c, s, id, k)) && OneLive(DoForce(c, s, id, k))
  {
    var s' := DoForce(c, s, id, k);
    forall j | j in s'.d.tasks ensures HandlerOK(s', j) && Live(s', j) == Live(s, j) {
      if j != k { ForceHandler(c, s, id, k, j); }
    }
  }

  lemma ForceOwnership(c: Config, s: Sys, id: string, k: nat)
    requires PI.ForceOK(s.d) && PI.ItemsOK(s.d) && Ownership(s) && Places(s) && CanForce(s, id, k)
    ensures Ownership(DoForce(c, s, id, k))
  {
    var s' := DoForce(c, s, id, k);
    assert PlaceOK(s, id);
    forall x | x in s'.d.table.inflight ensures OwnOK(s', x) { if x != id { assert OwnOK(s, x); } }
    forall j | Queued(s'.d, j) ensures AttemptOK(s', s'.d.tasks[j].item) {
      assert Queued(s.d, j);
      assert AttemptOK(s, s.d.tasks[j].item);
    }
    forall i | 0 <= i < |s'.d.ch| ensures AttemptOK(s', s'.d.ch[i]) { assert AttemptOK(s, s.d.ch[i]); }
  }

  lemma ForceRest(c: Config, s: Sys, id: string, k: nat)
    requires Entries(s) && Procs(s) && CanForce(s, id, k)
    ensures Entries(DoForce(c, s, id, k)) && Procs(DoForce(c, s, id, k))
  {
    var s' := DoForce(c, s, id, k);
    forall x | x in s'.rows ensures EntryOK(s', x) { assert EntryOK(s, x); }
    forall j | j in s'.d.tasks ensures ProcOK(s', j) { if j != k { assert ProcOK(s, j); } }
  }

  lemma ForceCmds(c: Config, s: Sys, id: string, k: nat)
    requires Cmds(s) && CanForce(s, id, k)
    ensures Cmds(DoForce(c, s, id, k))
  {
    var s' := DoForce(c, s, id, k);
    assert CmdOK(s, id);
    forall x | x in s'.cmds ensures CmdOK(s', x) { if x != id { assert CmdOK(s, x); } }
  }

  lemma ForceKeeps(c: Config, s: Sys, id: string, k: nat)
    requires c.d.delaySet && Inv(s) && CanForce(s, id, k)
    ensures Inv(DoForce(c, s, id, k))
  {
    PI.ForceClaimKeeps(c.d, s.d, k, id);
    ForceHandlers(c, s, id, k);
    ForceOwnership(c, s, id, k);
    ForceRest(c, s, id, k);
    ForceCmds(c, s, id, k);
    ForceServing(c, s, id, k);
  }

  lemma ForceServing(c: Config, s: Sys, id: string, k: nat)
    requires Cmds(s) && CanForce(s, id, k)
    ensures Booting(DoForce(c, s, id, k))
  {
    assert CmdOK(s, id);
  }

  // ------------------------------------------------------------------
  // The forced submit ends without a reset

  ghost predicate Ending(s: Sys, id: string, k: nat) {
    && ForcedBy(s, id, k) && s.d.force == Some(k) && k in s.d.tasks && s.d.tasks[k].item.id == id
    && P.InForce(s.d.tasks[k].phase)
  }

  lemma EndHandlers(s: Sys, id: string, k: nat)
    requires PI.ForceOK(s.d) && PI.TasksDistinct(s.d) && Handlers(s) && OneLive(s) && Ending(s, id, k)
    ensures Handlers(DoForceEnd(s, id, k)) && OneLive(DoForceEnd(s, id, k))
  {
    var s' := DoForceEnd(s, id, k);
    forall j | j in s'.d.tasks ensures HandlerOK(s', j) && Live(s', j) == Live(s, j) {
      assert HandlerOK(s, j);
    }
  }

  lemma EndOwnership(s: Sys, id: string, k: nat)
    requires PI.ForceOK(s.d) && Ownership(s) && Ending(s, id, k)
    ensures Ownership(DoForceEnd(s, id, k))
  {
    var s' := DoForceEnd(s, id, k);
    forall x | x in s'.d.table.inflight ensures OwnOK(s', x) { assert OwnOK(s, x); }
    forall j | Queued(s'.d, j) ensures AttemptOK(s', s'.d.tasks[j].item) {
      assert Queued(s.d, j);
      assert AttemptOK(s, s.d.tasks[j].item);
    }
    forall i | 0 <= i < |s'.d.ch| ensures AttemptOK(s', s'.d.ch[i]) { assert AttemptOK(s, s.d.ch[i]); }
  }

  lemma EndRest(s: Sys, id: string, k: nat)
    requires Entries(s) && Procs(s) && Cmds(s) && Ending(s, id, k)
    ensures var s' := DoForceEnd(s, id, k); Entries(s') && Procs(s') && Cmds(s') && Booting(s')
  {
    var s' := DoForceEnd(s, id, k);
    assert CmdOK(s, id);
    forall x | x in s'.rows ensures EntryOK(s', x) { assert EntryOK(s, x); }
    forall j | j in s'.d.tasks ensures ProcOK(s', j) { assert ProcOK(s, j); }
    forall x | x in s'.cmds ensures CmdOK(s', x) { assert CmdOK(s, x); }
  }

  lemma ForceEndKeeps(s: Sys, id: string, k: nat)
    requires Inv(s) && ForcedBy(s, id, k) && k in s.d.tasks && P.InForce(s.d.tasks[k].phase)
    ensures Inv(DoForceEnd(s, id, k))
  {
    EndingFacts(s, id, k);
    PI.ForceQuitKeeps(s.d, k);
    EndHandlers(s, id, k);
    EndOwnership(s, id, k);
    EndRest(s, id, k);
  }

  lemma EndingFacts(s: Sys, id: string, k: nat)
    requires Cmds(s) && ForcedBy(s, id, k) && k in s.d.tasks && P.InForce(s.d.tasks[k].phase)
    ensures Ending(s, id, k)
  {
    assert CmdOK(s, id);
  }
}
