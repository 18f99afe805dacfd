/** The inductive invariant of the dispatcher and what follows from it in every
    reachable state. */
module ProtocolInvariant {
  import opened Basics
  import opened Claims
  import opened Protocol

  // ------------------------------------------------------------------
  // The invariant

  ghost predicate GoodItem(s: State, it: Item) { 1 <= it.token <= s.table.nextToken }

  ghost predicate GoodClaim(s: State, c: Claim) {
    && 1 <= c.token <= s.table.nextToken
    && (c.cancel.Some? ==> c.cancel.value < s.nextRun)
    && (c.done.Some? ==> c.done.value < s.nextRun)
  }

  ghost predicate TableOK(s: State) {
    && (forall id :: id in s.table.inflight ==> GoodClaim(s, s.table.inflight[id]))
    && (forall r :: r in s.table.cancelled ==> r < s.nextRun)
    && (forall r :: r in s.closed ==> r < s.nextRun)
  }

  ghost predicate ItemsOK(s: State) {
    && (forall k :: k in s.tasks && Carries(s.tasks[k]) ==> GoodItem(s, s.tasks[k].item))
    && (forall i :: 0 <= i < |s.ch| ==> GoodItem(s, s.ch[i]))
  }

  /** No token is carried twice, in whatever places. */
  ghost predicate TasksDistinct(s: State) {
    forall j, k | j in s.tasks && k in s.tasks && Carries(s.tasks[j]) && Carries(s.tasks[k])
      :: s.tasks[j].item.token == s.tasks[k].item.token ==> j == k
  }

  ghost predicate SlotsDistinct(s: State) {
    forall i, j :: 0 <= i < j < |s.ch| ==> s.ch[i].token != s.ch[j].token
  }

  ghost predicate Apart(s: State) {
    forall k, i | k in s.tasks && Carries(s.tasks[k]) && 0 <= i < |s.ch|
      :: s.tasks[k].item.token != s.ch[i].token
  }

  ghost predicate TaskHolds(s: State, k: nat, id: string) {
    k in s.tasks && Carries(s.tasks[k]) && s.tasks[k].item.id == id && Holds(s.table, s.tasks[k].item)
  }

  ghost predicate SlotHolds(s: State, i: nat, id: string) {
    i < |s.ch| && s.ch[i].id == id && Holds(s.table, s.ch[i])
  }

  ghost predicate HasCarrier(s: State, id: string) {
    (exists k :: TaskHolds(s, k, id)) || (exists i :: SlotHolds(s, i, id))
  }

  ghost predicate Carried(s: State) {
    forall id :: id in s.table.inflight ==> HasCarrier(s, id)
  }

  ghost predicate ForceOK(s: State) {
    && (forall k :: k in s.tasks && InForce(s.tasks[k].phase) ==> s.force == Some(k))
    && (s.force.Some? ==> s.force.value in s.tasks && InForce(s.tasks[s.force.value].phase)
                          && Holds(s.table, s.tasks[s.force.value].item))
  }

  /** Runs are distinct and open; a handler either holds the current token, and then
      the claim names its run, or its context is cancelled. */
  ghost predicate GoodRun(s: State, t: Task) {
    && (HasRun(t.phase) ==> t.phase.run < s.nextRun && t.phase.run !in s.closed)
    && (t.phase.Begun? ==> t.phase.at <= s.now)
    && (t.phase.Waiting? ==> t.phase.since <= s.now)
    && (t.phase.Handling? || t.phase.Returned? || t.phase.Deciding? ==> t.phase.start <= s.now)
    && (InHandler(t.phase) ==>
          if Holds(s.table, t.item)
          then s.table.inflight[t.item.id].cancel == Some(t.phase.run)
               && s.table.inflight[t.item.id].done == Some(t.phase.run)
          else t.phase.run in s.table.cancelled)
  }

  ghost predicate RunsOK(s: State) {
    && (forall k :: k in s.tasks ==> GoodRun(s, s.tasks[k]))
    && (forall j, k | j in s.tasks && k in s.tasks && HasRun(s.tasks[j].phase) && HasRun(s.tasks[k].phase)
          :: s.tasks[j].phase.run == s.tasks[k].phase.run ==> j == k)
  }

  ghost predicate Distinct(s: State) { TasksDistinct(s) && SlotsDistinct(s) && Apart(s) }

  ghost predicate Inv(s: State) {
    TableOK(s) && ItemsOK(s) && Distinct(s) && Carried(s) && ForceOK(s) && RunsOK(s)
  }

  // ------------------------------------------------------------------
  // Preservation, one building block at a time

  /** Advancing within the same region of the code. */
  lemma MoveKeeps(s: State, k: nat, p: Phase)
    requires Inv(s) && k in s.tasks
    requires Carries(s.tasks[k]) && !p.Exiting?
    requires InForce(p) == InForce(s.tasks[k].phase)
    requires InHandler(p) == InHandler(s.tasks[k].phase)
    requires InHandler(p) ==> p.run == s.tasks[k].phase.run
    requires GoodRun(s, s.tasks[k].(phase := p))
    ensures Inv(Move(s, k, p))
  {
    DistinctByMove(s, k, p);
    CarriedByMove(s, k, p);
    RunsByMove(s, k, p);
  }

  lemma DistinctByMove(s: State, k: nat, p: Phase)
    requires ItemsOK(s) && Distinct(s) && k in s.tasks && Carries(s.tasks[k])
    ensures ItemsOK(Move(s, k, p)) && Distinct(Move(s, k, p))
  {
  }

  lemma CarriedByMove(s: State, k: nat, p: Phase)
    requires Carried(s) && k in s.tasks && Carries(s.tasks[k]) && !p.Exiting?
    ensures Carried(Move(s, k, p))
  {
    var s' := Move(s, k, p);
    forall id | id in s'.table.inflight ensures HasCarrier(s', id) {
      if j :| TaskHolds(s, j, id) { assert TaskHolds(s', j, id); }
      else { var i: nat :| SlotHolds(s, i, id); assert SlotHolds(s', i, id); }
    }
  }

  lemma RunsByMove(s: State, k: nat, p: Phase)
    requires RunsOK(s) && k in s.tasks && GoodRun(s, s.tasks[k].(phase := p))
    requires HasRun(p) ==> HasRun(s.tasks[k].phase) && p.run == s.tasks[k].phase.run
    ensures RunsOK(Move(s, k, p))
  {
    var s' := Move(s, k, p);
    forall j | j in s'.tasks ensures GoodRun(s', s'.tasks[j]) {
      if j != k { assert GoodRun(s, s.tasks[j]); }
    }
  }

  /** The force holder hands its item to queueClaimed and the mutex is free. The
      code frees it when queueClaimed returns; freeing it here only adds runs. */
  lemma UnlockKeeps(s: State, k: nat)
    requires Inv(s) && k in s.tasks && InForce(s.tasks[k].phase)
    ensures Inv(Unlock(Move(s, k, Queueing)))
  {
    DistinctByMove(s, k, Queueing);
    CarriedByMove(s, k, Queueing);
    RunsByMove(s, k, Queueing);
    RestByUnlock(Move(s, k, Queueing));
    ForceByUnlock(s, k);
  }

  lemma ForceByUnlock(s: State, k: nat)
    requires TableOK(s) && ForceOK(s) && k in s.tasks && InForce(s.tasks[k].phase)
    ensures TableOK(Unlock(Move(s, k, Queueing))) && ForceOK(Unlock(Move(s, k, Queueing)))
  {
  }

  lemma RestByUnlock(s: State)
    requires ItemsOK(s) && Distinct(s) && Carried(s) && RunsOK(s)
    ensures ItemsOK(Unlock(s)) && Distinct(Unlock(s)) && Carried(Unlock(s)) && RunsOK(Unlock(s))
  {
    var s' := Unlock(s);
    forall id | id in s'.table.inflight ensures HasCarrier(s', id) {
      if j :| TaskHolds(s, j, id) { assert TaskHolds(s', j, id); }
      else { var i: nat :| SlotHolds(s, i, id); assert SlotHolds(s', i, id); }
    }
    forall j | j in s'.tasks ensures GoodRun(s', s'.tasks[j]) { assert GoodRun(s, s.tasks[j]); }
  }

  /** A thread that holds no current token can be forgotten. */
  lemma EndKeeps(s: State, k: nat)
    requires Inv(s) && k in s.tasks && s.force != Some(k)
    requires !Carries(s.tasks[k]) || !Holds(s.table, s.tasks[k].item)
    ensures Inv(End(s, k))
  {
    CarriedByEnd(s, k);
    RunsByEnd(s, k);
  }

  lemma CarriedByEnd(s: State, k: nat)
    requires Carried(s) && k in s.tasks
    requires !Carries(s.tasks[k]) || !Holds(s.table, s.tasks[k].item)
    ensures Carried(End(s, k))
  {
    var s' := End(s, k);
    forall id | id in s'.table.inflight ensures HasCarrier(s', id) {
      if j :| TaskHolds(s, j, id) { assert TaskHolds(s', j, id); }
      else { var i: nat :| SlotHolds(s, i, id); assert SlotHolds(s', i, id); }
    }
  }

  lemma RunsByEnd(s: State, k: nat)
    requires RunsOK(s)
    ensures RunsOK(End(s, k))
  {
    var s' := End(s, k);
    forall j | j in s'.tasks ensures GoodRun(s', s'.tasks[j]) { assert GoodRun(s, s.tasks[j]); }
  }

  function Given(s: State, k: nat): State
    requires k in s.tasks
  {
    s.(table := Release(s.table, s.tasks[k].item))
  }

  /** Giving the claim up. */
  lemma ReleaseKeeps(s: State, k: nat)
    requires Inv(s) && k in s.tasks && Carries(s.tasks[k]) && s.force != Some(k)
    ensures Inv(Given(s, k)) && !Holds(Given(s, k).table, s.tasks[k].item)
  {
    CarriedByRelease(s, k);
    RunsByRelease(s, k);
    ForceByRelease(s, k);
    TableByRelease(s, k);
  }

  lemma ForceByRelease(s: State, k: nat)
    requires ForceOK(s) && TasksDistinct(s) && k in s.tasks && Carries(s.tasks[k]) && s.force != Some(k)
    ensures ForceOK(Given(s, k))
  {
    if s.force.Some? && Holds(s.table, s.tasks[k].item) {
      assert s.tasks[s.force.value].item.id != s.tasks[k].item.id;
    }
  }

  lemma TableByRelease(s: State, k: nat)
    requires TableOK(s) && ItemsOK(s) && Distinct(s) && k in s.tasks
    ensures TableOK(Given(s, k)) && ItemsOK(Given(s, k)) && Distinct(Given(s, k))
    ensures !Holds(Given(s, k).table, s.tasks[k].item)
  {
  }

  lemma CarriedByRelease(s: State, k: nat)
    requires Carried(s) && k in s.tasks && Carries(s.tasks[k])
    ensures Carried(Given(s, k))
  {
    var s' := Given(s, k);
    forall id | id in s'.table.inflight ensures HasCarrier(s', id) {
      assert s'.table.inflight[id] == s.table.inflight[id];
      if j :| TaskHolds(s, j, id) { assert TaskHolds(s', j, id); }
      else { var i: nat :| SlotHolds(s, i, id); assert SlotHolds(s', i, id); }
    }
  }

  lemma RunsByRelease(s: State, k: nat)
    requires RunsOK(s) && TasksDistinct(s) && k in s.tasks && Carries(s.tasks[k])
    ensures RunsOK(Given(s, k))
  {
    var s' := Given(s, k);
    forall j | j in s'.tasks ensures GoodRun(s', s'.tasks[j]) {
      assert GoodRun(s, s.tasks[j]);
      if j != k && Carries(s.tasks[j]) && Holds(s.table, s.tasks[j].item) {
        assert s.tasks[j].item.token != s.tasks[k].item.token;
        if Holds(s.table, s.tasks[k].item) { assert s.tasks[j].item.id != s.tasks[k].item.id; }
      }
    }
  }

  lemma QuitKeeps(s: State, k: nat)
    requires Inv(s) && k in s.tasks && Carries(s.tasks[k]) && s.force != Some(k)
    ensures Inv(Quit(s, k))
  {
    ReleaseKeeps(s, k);
    EndKeeps(Given(s, k), k);
  }

  /** A forced submit that is aborted, or whose callback fails. */
  lemma ForceQuitKeeps(s: State, k: nat)
    requires Inv(s) && k in s.tasks && InForce(s.tasks[k].phase)
    ensures Inv(Unlock(Quit(s, k)))
  {
    UnlockKeeps(s, k);
    var s1 := Unlock(Move(s, k, Queueing));
    QuitKeeps(s1, k);
    assert s1.tasks - {k} == s.tasks - {k};
    assert Quit(s1, k) == Unlock(Quit(s, k));
  }

  /** A handler that no longer holds its token leaves. */
  lemma LeaveKeeps(s: State, k: nat)
    requires Inv(s) && k in s.tasks && InHandler(s.tasks[k].phase)
    requires !Holds(s.table, s.tasks[k].item)
    ensures Inv(Move(s, k, Exiting(s.tasks[k].phase.run)))
  {
    var p := Exiting(s.tasks[k].phase.run);
    DistinctByMove(s, k, p);
    assert GoodRun(s, s.tasks[k]);
    RunsByMove(s, k, p);
    var s' := Move(s, k, p);
    forall id | id in s'.table.inflight ensures HasCarrier(s', id) {
      if j :| TaskHolds(s, j, id) { assert TaskHolds(s', j, id); }
      else { var i: nat :| SlotHolds(s, i, id); assert SlotHolds(s', i, id); }
    }
  }

  lemma RetireKeeps(s: State, k: nat)
    requires Inv(s) && k in s.tasks && InHandler(s.tasks[k].phase)
    ensures Inv(Move(s, k, Exiting(s.tasks[k].phase.run)).(table := Release(s.table, s.tasks[k].item)))
  {
    ReleaseKeeps(s, k);
    LeaveKeeps(Given(s, k), k);
  }

  // ------------------------------------------------------------------
  // Steps that make, move or renew tokens

  lemma ClaimKeeps(s: State, k: nat, id: string, attempt: int, sweep: bool)
    requires Inv(s) && CanClaim(s, k, id)
    ensures Inv(DoClaim(s, k, id, attempt, sweep))
  {
    CarriedByClaim(s, k, id, attempt, sweep);
    DistinctByClaim(s, k, id, attempt, sweep);
    RunsByClaim(s, k, id, attempt, sweep);
    assert TableOK(DoClaim(s, k, id, attempt, sweep));
  }

  lemma DistinctByClaim(s: State, k: nat, id: string, attempt: int, sweep: bool)
    requires ItemsOK(s) && Distinct(s) && CanClaim(s, k, id)
    ensures ItemsOK(DoClaim(s, k, id, attempt, sweep)) && Distinct(DoClaim(s, k, id, attempt, sweep))
  {
  }

  lemma RunsByClaim(s: State, k: nat, id: string, attempt: int, sweep: bool)
    requires ItemsOK(s) && RunsOK(s) && CanClaim(s, k, id)
    ensures RunsOK(DoClaim(s, k, id, attempt, sweep))
  {
    var s' := DoClaim(s, k, id, attempt, sweep);
    forall j | j in s'.tasks ensures GoodRun(s', s'.tasks[j]) {
      if j != k { assert GoodRun(s, s.tasks[j]); }
    }
  }

  lemma CarriedByClaim(s: State, k: nat, id: string, attempt: int, sweep: bool)
    requires Carried(s) && CanClaim(s, k, id)
    ensures Carried(DoClaim(s, k, id, attempt, sweep))
  {
    var s' := DoClaim(s, k, id, attempt, sweep);
    forall x | x in s'.table.inflight ensures HasCarrier(s', x) {
      if x == id { assert TaskHolds(s', k, x); }
      else if j :| TaskHolds(s, j, x) { assert TaskHolds(s', j, x); }
      else { var i: nat :| SlotHolds(s, i, x); assert SlotHolds(s', i, x); }
    }
  }

  lemma ForceClaimKeeps(c: Config, s: State, k: nat, id: string)
    requires Inv(s) && CanForceClaim(s, k)
    ensures Inv(DoForceClaim(c, s, k, id))
  {
    CarriedByForce(c, s, k, id);
    RunsByForce(c, s, k, id);
    DistinctByForce(c, s, k, id);
    TableByForce(c, s, k, id);
  }

  lemma TableByForce(c: Config, s: State, k: nat, id: string)
    requires TableOK(s) && CanForceClaim(s, k)
    ensures TableOK(DoForceClaim(c, s, k, id))
  {
    assert id in s.table.inflight ==> GoodClaim(s, s.table.inflight[id]);
  }

  lemma DistinctByForce(c: Config, s: State, k: nat, id: string)
    requires ItemsOK(s) && Distinct(s) && CanForceClaim(s, k)
    ensures ItemsOK(DoForceClaim(c, s, k, id)) && Distinct(DoForceClaim(c, s, k, id))
  {
  }

  lemma CarriedByForce(c: Config, s: State, k: nat, id: string)
    requires Carried(s) && CanForceClaim(s, k)
    ensures Carried(DoForceClaim(c, s, k, id))
  {
    var s' := DoForceClaim(c, s, k, id);
    forall x | x in s'.table.inflight ensures HasCarrier(s', x) {
      if x == id { assert TaskHolds(s', k, x); }
      else if j :| TaskHolds(s, j, x) { assert TaskHolds(s', j, x); }
      else { var i: nat :| SlotHolds(s, i, x); assert SlotHolds(s', i, x); }
    }
  }

  lemma RunsByForce(c: Config, s: State, k: nat, id: string)
    requires ItemsOK(s) && RunsOK(s) && CanForceClaim(s, k)
    ensures RunsOK(DoForceClaim(c, s, k, id))
  {
    var s' := DoForceClaim(c, s, k, id);
    forall j | j in s'.tasks ensures GoodRun(s', s'.tasks[j]) {
      if j != k { assert GoodRun(s, s.tasks[j]); }
    }
  }

  /** The item leaves its thread for the channel. */
  lemma SendKeeps(c: Config, s: State, k: nat)
    requires Inv(s) && CanSend(c, s, k)
    ensures Inv(DoSend(c, s, k))
  {
    if |s.ch| < Capacity(c) {
      var s' := DoSend(c, s, k);
      CarriedBySend(c, s, k);
      forall j | j in s'.tasks ensures GoodRun(s', s'.tasks[j]) { assert GoodRun(s, s.tasks[j]); }
    } else {
      QuitKeeps(s, k);
    }
  }

  lemma CarriedBySend(c: Config, s: State, k: nat)
    requires Carried(s) && CanSend(c, s, k) && |s.ch| < Capacity(c)
    ensures Carried(DoSend(c, s, k))
  {
    var s' := DoSend(c, s, k);
    assert s'.ch[|s.ch|] == s.tasks[k].item;
    forall x | x in s'.table.inflight ensures HasCarrier(s', x) {
      if j :| TaskHolds(s, j, x) {
        if j == k { assert SlotHolds(s', |s.ch|, x); } else { assert TaskHolds(s', j, x); }
      } else {
        var i: nat :| SlotHolds(s, i, x);
        assert SlotHolds(s', i, x);
      }
    }
  }

  /** The head of the channel goes to a worker. */
  lemma ReceiveKeeps(s: State, k: nat)
    requires Inv(s) && CanReceive(s, k)
    ensures Inv(DoReceive(s, k))
  {
    var s' := DoReceive(s, k);
    CarriedByReceive(s, k);
    assert forall i :: 0 <= i < |s'.ch| ==> s'.ch[i] == s.ch[i + 1];
    forall j | j in s'.tasks ensures GoodRun(s', s'.tasks[j]) {
      if j != k { assert GoodRun(s, s.tasks[j]); }
    }
  }

  lemma CarriedByReceive(s: State, k: nat)
    requires Carried(s) && CanReceive(s, k)
    ensures Carried(DoReceive(s, k))
  {
    var s' := DoReceive(s, k);
    forall x | x in s'.table.inflight ensures HasCarrier(s', x) {
      if j :| TaskHolds(s, j, x) { assert TaskHolds(s', j, x); }
      else {
        var i: nat :| SlotHolds(s, i, x);
        if i == 0 { assert TaskHolds(s', k, x); } else { assert s'.ch[i - 1] == s.ch[i]; assert SlotHolds(s', i - 1, x); }
      }
    }
  }

  lemma BeginRunKeeps(s: State, k: nat)
    requires Inv(s) && CanBeginRun(s, k)
    ensures Inv(DoBeginRun(s, k))
  {
    if Holds(s.table, s.tasks[k].item) {
      DistinctByMove(s, k, Begun(s.nextRun, s.now));
      CarriedByBegin(s, k);
      RunsByBegin(s, k);
      ForceByBegin(s, k);
      TableByBegin(s, k);
    } else {
      EndKeeps(s, k);
    }
  }

  lemma TableByBegin(s: State, k: nat)
    requires TableOK(s) && CanBeginRun(s, k) && Holds(s.table, s.tasks[k].item)
    ensures TableOK(DoBeginRun(s, k))
  {
    assert GoodClaim(s, s.table.inflight[s.tasks[k].item.id]);
  }

  lemma ForceByBegin(s: State, k: nat)
    requires ForceOK(s) && CanBeginRun(s, k) && Holds(s.table, s.tasks[k].item)
    ensures ForceOK(DoBeginRun(s, k))
  {
  }

  lemma CarriedByBegin(s: State, k: nat)
    requires Carried(s) && CanBeginRun(s, k) && Holds(s.table, s.tasks[k].item)
    ensures Carried(DoBeginRun(s, k))
  {
    var s' := DoBeginRun(s, k);
    forall x | x in s'.table.inflight ensures HasCarrier(s', x) {
      if j :| TaskHolds(s, j, x) { assert TaskHolds(s', j, x); }
      else { var i: nat :| SlotHolds(s, i, x); assert SlotHolds(s', i, x); }
    }
  }

  lemma RunsByBegin(s: State, k: nat)
    requires TableOK(s) && TasksDistinct(s) && RunsOK(s) && CanBeginRun(s, k) && Holds(s.table, s.tasks[k].item)
    ensures RunsOK(DoBeginRun(s, k))
  {
    var s' := DoBeginRun(s, k);
    forall j | j in s'.tasks ensures GoodRun(s', s'.tasks[j]) {
      if j != k {
        assert GoodRun(s, s.tasks[j]);
        if Carries(s.tasks[j]) && Holds(s.table, s.tasks[j].item) { assert s.tasks[j].item.id != s.tasks[k].item.id; }
      }
    }
  }

  /** The item moves from the handler to its delayed continuation. */
  lemma RedispatchKeeps(c: Config, s: State, k: nat, k2: nat)
    requires Inv(s) && CanRedispatch(c, s, k, k2)
    ensures Inv(DoRedispatch(c, s, k, k2))
  {
    if Holds(s.table, s.tasks[k].item) {
      CarriedByRedispatch(c, s, k, k2);
      RunsByRedispatch(c, s, k, k2);
      DistinctByRedispatch(c, s, k, k2);
      RestByRedispatch(c, s, k, k2);
    } else {
      LeaveKeeps(s, k);
    }
  }

  lemma RestByRedispatch(c: Config, s: State, k: nat, k2: nat)
    requires TableOK(s) && ForceOK(s) && CanRedispatch(c, s, k, k2)
    ensures TableOK(DoRedispatch(c, s, k, k2)) && ForceOK(DoRedispatch(c, s, k, k2))
  {
  }

  lemma DistinctByRedispatch(c: Config, s: State, k: nat, k2: nat)
    requires ItemsOK(s) && Distinct(s) && CanRedispatch(c, s, k, k2)
    ensures ItemsOK(DoRedispatch(c, s, k, k2)) && Distinct(DoRedispatch(c, s, k, k2))
  {
  }

  lemma CarriedByRedispatch(c: Config, s: State, k: nat, k2: nat)
    requires Carried(s) && CanRedispatch(c, s, k, k2) && Holds(s.table, s.tasks[k].item)
    ensures Carried(DoRedispatch(c, s, k, k2))
  {
    var s' := DoRedispatch(c, s, k, k2);
    forall x | x in s'.table.inflight ensures HasCarrier(s', x) {
      if j :| TaskHolds(s, j, x) {
        if j == k { assert TaskHolds(s', k2, x); } else { assert TaskHolds(s', j, x); }
      } else {
        var i: nat :| SlotHolds(s, i, x);
        assert SlotHolds(s', i, x);
      }
    }
  }

  lemma RunsByRedispatch(c: Config, s: State, k: nat, k2: nat)
    requires RunsOK(s) && CanRedispatch(c, s, k, k2)
    ensures RunsOK(DoRedispatch(c, s, k, k2))
  {
    var s' := DoRedispatch(c, s, k, k2);
    forall j | j in s'.tasks ensures GoodRun(s', s'.tasks[j]) {
      if j != k && j != k2 { assert GoodRun(s, s.tasks[j]); }
      if j == k { assert GoodRun(s, s.tasks[k]); }
    }
  }

  lemma ExitKeeps(s: State, k: nat)
    requires Inv(s) && CanExit(s, k)
    ensures Inv(DoExit(s, k))
  {
    CarriedByExit(s, k);
    RunsByExit(s, k);
    assert GoodRun(s, s.tasks[k]);
    assert TableOK(DoExit(s, k));
  }

  lemma CarriedByExit(s: State, k: nat)
    requires Carried(s) && CanExit(s, k)
    ensures Carried(DoExit(s, k))
  {
    var s' := DoExit(s, k);
    forall x | x in s'.table.inflight ensures HasCarrier(s', x) {
      if j :| TaskHolds(s, j, x) { assert TaskHolds(s', j, x); }
      else { var i: nat :| SlotHolds(s, i, x); assert SlotHolds(s', i, x); }
    }
  }

  lemma RunsByExit(s: State, k: nat)
    requires RunsOK(s) && CanExit(s, k)
    ensures RunsOK(DoExit(s, k))
  {
    var s' := DoExit(s, k);
    forall j | j in s'.tasks ensures GoodRun(s', s'.tasks[j]) { assert GoodRun(s, s.tasks[j]); }
  }

  lemma TickKeeps(s: State, dt: nat)
    requires Inv(s)
    ensures Inv(DoTick(s, dt))
  {
    var s' := DoTick(s, dt);
    forall x | x in s'.table.inflight ensures HasCarrier(s', x) {
      if j :| TaskHolds(s, j, x) { assert TaskHolds(s', j, x); }
      else { var i: nat :| SlotHolds(s, i, x); assert SlotHolds(s', i, x); }
    }
    forall j | j in s'.tasks ensures GoodRun(s', s'.tasks[j]) { assert GoodRun(s, s.tasks[j]); }
  }

  lemma CrashKeeps(s: State)
    requires Inv(s)
    ensures Inv(DoCrash(s))
  {
  }

  // ------------------------------------------------------------------
  // Every step, every run

  /** One step of any kind keeps the invariant. */
  lemma StepKeeps(c: Config, s: State, l: Label)
    requires Inv(s) && Can(c, s, l)
    ensures Inv(Do(c, s, l))
  {
    if IsForce(l) { ForceStepKeeps(c, s, l); }
    else if IsRun(l) { RunStepKeeps(c, s, l); }
    else { QueueStepKeeps(c, s, l); }
  }

  lemma QueueStepKeeps(c: Config, s: State, l: Label)
    requires Inv(s) && Can(c, s, l) && !IsForce(l) && !IsRun(l)
    ensures Inv(Do(c, s, l))
  {
    match l
    case Claim(k, id, attempt, sweep) => ClaimKeeps(s, k, id, attempt, sweep);
    case QueueCheck(k) => QueueCheckKeeps(s, k);
    case Send(k) => SendKeeps(c, s, k);
    case RunInline(k) => PlainMoveKeeps(s, k, Received);
    case Drain(k) => DrainKeeps(s, k);
    case Receive(k) => ReceiveKeeps(s, k);
    case Fire(k) => PlainMoveKeeps(s, k, Queueing);
    case Exit(k) => ExitKeeps(s, k);
    case Tick(dt) => TickKeeps(s, dt);
    case Panic(_) => CrashKeeps(s);
    case Crash => CrashKeeps(s);
  }

  lemma DrainKeeps(s: State, k: nat)
    requires Inv(s) && CanDrain(s, k)
    ensures Inv(Quit(s, k))
  {
    QuitKeeps(s, k);
  }

  predicate IsForce(l: Label) {
    l.Force? || l.WaitClean? || l.WaitTimeout? || l.WaitAbort? || l.Resume? || l.CallbackOk? || l.CallbackFails?
  }

  predicate IsRun(l: Label) {
    l.Begin? || l.StartOk? || l.StartFails? || l.Return? || l.Check? || l.Settle? || l.Redispatch?
  }

  lemma ForceStepKeeps(c: Config, s: State, l: Label)
    requires Inv(s) && Can(c, s, l) && IsForce(l)
    ensures Inv(Do(c, s, l))
  {
    match l
    case Force(k, id) => ForceClaimKeeps(c, s, k, id);
    case WaitClean(k) => PlainMoveKeeps(s, k, Resuming);
    case WaitTimeout(k) => PlainMoveKeeps(s, k, Resuming);
    case WaitAbort(k) => ForceQuitKeeps(s, k);
    case Resume(k) => ResumeKeeps(s, k);
    case CallbackOk(k) => UnlockKeeps(s, k);
    case CallbackFails(k) => ForceQuitKeeps(s, k);
  }

  lemma RunStepKeeps(c: Config, s: State, l: Label)
    requires Inv(s) && Can(c, s, l) && IsRun(l)
    ensures Inv(Do(c, s, l))
  {
    match l
    case Begin(k) => BeginRunKeeps(s, k);
    case StartOk(k, start) => StartOkKeeps(s, k, start);
    case StartFails(k) => RetireKeeps(s, k);
    case Return(k, res) => ReturnKeeps(s, k, res);
    case Check(k) => CheckKeeps(s, k);
    case Settle(k) => RetireKeeps(s, k);
    case Redispatch(k, k2) => RedispatchKeeps(c, s, k, k2);
  }

  lemma PlainMoveKeeps(s: State, k: nat, p: Phase)
    requires Inv(s) && k in s.tasks && Carries(s.tasks[k]) && !InHandler(s.tasks[k].phase)
    requires InForce(p) == InForce(s.tasks[k].phase) && !HasRun(p) && !p.Waiting?
    ensures Inv(Move(s, k, p))
  {
    MoveKeeps(s, k, p);
  }

  lemma ResumeKeeps(s: State, k: nat)
    requires Inv(s) && CanResume(s, k)
    ensures Inv(DoResume(s, k))
  {
    ForceHolds(s, k);
    assert GoodRun(s, s.tasks[k]);
    MoveKeeps(s, k, Callback);
  }

  lemma QueueCheckKeeps(s: State, k: nat)
    requires Inv(s) && CanQueueCheck(s, k)
    ensures Inv(DoQueueCheck(s, k))
  {
    assert GoodRun(s, s.tasks[k]);
    if Holds(s.table, s.tasks[k].item) { MoveKeeps(s, k, Sending); } else { EndKeeps(s, k); }
  }

  lemma StartOkKeeps(s: State, k: nat, start: int)
    requires Inv(s) && CanStartOk(s, k, start)
    ensures Inv(DoStartOk(s, k, start))
  {
    var p := Handling(s.tasks[k].phase.run, start);
    assert GoodRun(s, s.tasks[k]);
    assert GoodRun(s, s.tasks[k].(phase := p));
    MoveKeeps(s, k, p);
  }

  lemma ReturnKeeps(s: State, k: nat, res: Retry.Result)
    requires Inv(s) && CanReturn(s, k)
    ensures Inv(DoReturn(s, k, res))
  {
    var p := Returned(s.tasks[k].phase.run, s.tasks[k].phase.start, res);
    assert GoodRun(s, s.tasks[k]);
    assert GoodRun(s, s.tasks[k].(phase := p));
    MoveKeeps(s, k, p);
  }

  lemma CheckKeeps(s: State, k: nat)
    requires Inv(s) && CanCheck(s, k)
    ensures Inv(DoCheck(s, k))
  {
    assert GoodRun(s, s.tasks[k]);
    if Holds(s.table, s.tasks[k].item) {
      var p := Deciding(s.tasks[k].phase.run, s.tasks[k].phase.start, s.tasks[k].phase.res);
      assert GoodRun(s, s.tasks[k].(phase := p));
      MoveKeeps(s, k, p);
    } else {
      LeaveKeeps(s, k);
    }
  }

  lemma {:induction false} ExecKeeps(c: Config, s: State, run: seq<Label>)
    requires Inv(s) && Exec(c, s, run).Some?
    ensures Inv(Exec(c, s, run).value)
    decreases |run|
  {
    if run != [] {
      StepKeeps(c, s, run[0]);
      ExecKeeps(c, Do(c, s, run[0]), run[1..]);
    }
  }

  /** A state some run reaches from a fresh process. */
  ghost predicate Reachable(c: Config, s: State) {
    exists now: int, run: seq<Label> :: Exec(c, Initial(now), run) == Some(s)
  }

  lemma ReachableInv(c: Config, s: State)
    requires Reachable(c, s)
    ensures Inv(s)
  {
    var now: int, run: seq<Label> :| Exec(c, Initial(now), run) == Some(s);
    ExecKeeps(c, Initial(now), run);
  }

  // ------------------------------------------------------------------
  // What follows

  /** The places an item can be in. */
  datatype Place = InTask(k: nat) | InChannel(i: nat)

  ghost predicate CarriesCurrent(s: State, p: Place, id: string) {
    match p
    case InTask(k) => TaskHolds(s, k, id)
    case InChannel(i) => SlotHolds(s, i, id)
  }

  /** Every owned id has exactly one live carrier of its current token: no id is
      owned by nobody, and no current token is carried twice. */
  lemma ExactlyOneCarrier(c: Config, s: State, id: string)
    requires Reachable(c, s) && id in s.table.inflight
    ensures exists p :: CarriesCurrent(s, p, id) && forall q :: CarriesCurrent(s, q, id) ==> q == p
  {
    ReachableInv(c, s);
    if k :| TaskHolds(s, k, id) {
      assert CarriesCurrent(s, InTask(k), id);
      forall q | CarriesCurrent(s, q, id) ensures q == InTask(k) { OneCarrier(s, InTask(k), q, id); }
    } else {
      var i: nat :| SlotHolds(s, i, id);
      assert CarriesCurrent(s, InChannel(i), id);
      forall q | CarriesCurrent(s, q, id) ensures q == InChannel(i) { OneCarrier(s, InChannel(i), q, id); }
    }
  }

  lemma OneCarrier(s: State, p: Place, q: Place, id: string)
    requires Distinct(s) && CarriesCurrent(s, p, id) && CarriesCurrent(s, q, id)
    ensures p == q
  {
  }

  lemma ForceHolds(s: State, k: nat)
    requires ForceOK(s) && k in s.tasks && InForce(s.tasks[k].phase)
    ensures Holds(s.table, s.tasks[k].item) && s.force == Some(k)
  {
  }

  /** The inactive branch of ForceSubmitAfter is never taken: when the wait is over
      the forced claim is still the current one. */
  lemma ResumeNeverInactive(c: Config, s: State, k: nat)
    requires Reachable(c, s) && CanResume(s, k)
    ensures Holds(s.table, s.tasks[k].item) && Do(c, s, Resume(k)) == Move(s, k, Callback)
  {
    ReachableInv(c, s);
    ForceHolds(s, k);
  }

  /** At most one handler per id holds the current token, in any run. */
  lemma OneHandlerHolds(c: Config, s: State, j: nat, k: nat)
    requires Reachable(c, s) && j in s.tasks && k in s.tasks
    requires InHandler(s.tasks[j].phase) && InHandler(s.tasks[k].phase)
    requires s.tasks[j].item.id == s.tasks[k].item.id
    requires Holds(s.table, s.tasks[j].item) && Holds(s.table, s.tasks[k].item)
    ensures j == k
  {
    ReachableInv(c, s);
  }

  /** The running write lands only for the holder of the current token: beginRun
      checked it, and whoever replaces the claim cancels the run first. */
  lemma RunningWriteByHolder(c: Config, s: State, k: nat, start: int)
    requires Reachable(c, s) && CanStartOk(s, k, start)
    ensures Holds(s.table, s.tasks[k].item)
  {
    ReachableInv(c, s);
    assert GoodRun(s, s.tasks[k]);
  }

  /** The process dies in this step. */
  predicate Dies(l: Label) { l.Crash? || l.Panic? }

  /** A task that lost its token, or an item in the channel that did, never gets it
      back: no step makes it hold again. */
  lemma StaleStaysStale(c: Config, s: State, l: Label, it: Item)
    requires Inv(s) && Can(c, s, l) && !Dies(l)
    requires 1 <= it.token <= s.table.nextToken && !Holds(s.table, it)
    ensures it.token <= Do(c, s, l).table.nextToken && !Holds(Do(c, s, l).table, it)
  {
    if IsForce(l) { ForceLeavesStale(c, s, l, it); }
    else if IsRun(l) { RunLeavesStale(c, s, l, it); }
    else { QueueLeavesStale(c, s, l, it); }
  }

  lemma ForceLeavesStale(c: Config, s: State, l: Label, it: Item)
    requires Can(c, s, l) && IsForce(l) && it.token <= s.table.nextToken && !Holds(s.table, it)
    ensures it.token <= Do(c, s, l).table.nextToken && !Holds(Do(c, s, l).table, it)
  {
  }

  lemma RunLeavesStale(c: Config, s: State, l: Label, it: Item)
    requires Can(c, s, l) && IsRun(l) && it.token <= s.table.nextToken && !Holds(s.table, it)
    ensures it.token <= Do(c, s, l).table.nextToken && !Holds(Do(c, s, l).table, it)
  {
  }

  lemma QueueLeavesStale(c: Config, s: State, l: Label, it: Item)
    requires Can(c, s, l) && !IsForce(l) && !IsRun(l) && !Dies(l) && it.token <= s.table.nextToken && !Holds(s.table, it)
    ensures it.token <= Do(c, s, l).table.nextToken && !Holds(Do(c, s, l).table, it)
  {
  }
}
