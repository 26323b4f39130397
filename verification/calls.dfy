/** What one consent call comes to when nobody else acts and one thing goes wrong: the failure
    paths of claimCompleteAndCommit, resolveClaimConflict and handleProviderFailure
    (backend/internal/consent/decision.go) spelled out over the system of Protocol. The path
    on which nothing goes wrong is UndisturbedCall in Decisions. */
module ConsentCalls {
  import opened Outcomes
  import opened Scopes
  import opened Operations
  import opened Protocol
  import opened Decisions

  /** The plan is valid and its key and identifier are unused. */
  predicate CanClaim(s: Store, op: Operation) {
    ValidForClaim(op) && op.key !in s.claims && op.id !in s.ops
  }

  /** A system in which nothing changed but the row of one plan. */
  ghost predicate OnlyRowAdded(s: Store, t: Store, op: Operation, at: int) {
    && op.id !in s.ops && op.id in t.ops && t.ops == s.ops[op.id := t.ops[op.id]]
    && t.grants == s.grants && t.audit == s.audit
    && var row := t.ops[op.id];
       && row.key == op.key && row.kind == op.kind && row.user == op.user && row.client == op.client
       && row.createdAt == at && Elements(row.scopes) == Elements(op.scopes)
  }

  lemma ThreeSteps(sys: System, a: Action, b: Action, c: Action)
    ensures Run(sys, [a, b, c]) == Apply(Apply(Apply(sys, a), b), c)
  {
    RunOneMore(sys, [], a);
    RunOneMore(sys, [a], b);
    RunOneMore(sys, [a, b], c);
    assert [] + [a] == [a] && [a] + [b] == [a, b] && [a, b] + [c] == [a, b, c];
  }

  lemma TwoSteps(sys: System, a: Action, b: Action)
    ensures Run(sys, [a, b]) == Apply(Apply(sys, a), b)
  {
    RunOneMore(sys, [], a);
    RunOneMore(sys, [a], b);
    assert [] + [a] == [a] && [a] + [b] == [a, b];
  }

  /** A won claim, as a step. */
  lemma ClaimWon(sys: System, c: nat, op: Operation, at: int)
    requires Inv(sys) && c !in sys.callers && CanClaim(sys.store, op)
    ensures var t := Apply(sys, DoClaim(c, op, Works, at));
      && t.provider == sys.provider && OnlyRowAdded(sys.store, t.store, op, at)
      && t.store.ops[op.id].status.Pending? && t.store.ops[op.id].errorClass.None?
      && c in t.callers && t.callers[c] == Won(t.store.ops[op.id])
  {
    ClaimKeeps(sys.store, op, at);
    ClaimedPlanOk(sys.store, op, at);
  }

  /** The provider call failed: a known class fails the row with that class, a used-up request
      counts as decided, and an error without a known class leaves the row pending for the
      reconciler. The request is used up exactly if only the reply was lost. */
  lemma RefusedCall(sys: System, c: nat, op: Operation, outcome: CallOutcome, at: int)
    requires Inv(sys) && c !in sys.callers && CanClaim(sys.store, op)
    requires !outcome.Completed? && op.key !in sys.provider.consumed
    ensures var end := Run(sys, [DoClaim(c, op, Works, at), DoCall(c, outcome), DoFail(c, Works)]);
      var reason := outcome.errClass;
      && c in end.callers && OnlyRowAdded(sys.store, end.store, op, at)
      && (end.callers[c] == Done(if reason.None? then Unclassified
                                 else if reason.value.AlreadyCompleted? then AlreadyDecided
                                 else ProviderFailure(reason.value)))
      && (var row := end.store.ops[op.id];
          if reason.None? || reason.value.UnknownClass? then row.status.Pending? && row.errorClass.None?
          else row.status.Failed? && row.errorClass == reason)
      && (op.key in end.provider.consumed <==> outcome.LostReply?)
      && (outcome.LostReply? ==> end.provider.consumed[op.key] == Consumption(Some(op.id), op.kind.Allow?))
  {
    ThreeSteps(sys, DoClaim(c, op, Works, at), DoCall(c, outcome), DoFail(c, Works));
    ClaimWon(sys, c, op, at);
    var s1 := Apply(sys, DoClaim(c, op, Works, at));
    var s2 := Apply(s1, DoCall(c, outcome));
    assert s2.store == s1.store && s2.callers[c] == Refused(s1.store.ops[op.id], outcome.errClass);
  }

  /** A request somebody else used up: the call finds out from the provider, the row fails as
      already completed, and the caller is told that it was decided. */
  lemma UsedUpCall(sys: System, c: nat, op: Operation, at: int)
    requires Inv(sys) && c !in sys.callers && CanClaim(sys.store, op) && op.key in sys.provider.consumed
    ensures var end := Run(sys, [DoClaim(c, op, Works, at), DoCall(c, Completed), DoFail(c, Works)]);
      && c in end.callers && end.callers[c] == Done(AlreadyDecided)
      && OnlyRowAdded(sys.store, end.store, op, at) && end.provider.consumed == sys.provider.consumed
      && end.store.ops[op.id].status.Failed? && end.store.ops[op.id].errorClass == Some(AlreadyCompleted)
  {
    ThreeSteps(sys, DoClaim(c, op, Works, at), DoCall(c, Completed), DoFail(c, Works));
    ClaimWon(sys, c, op, at);
    var s1 := Apply(sys, DoClaim(c, op, Works, at));
    var s2 := Apply(s1, DoCall(c, Completed));
    assert s2.store == s1.store && s2.callers[c] == Refused(s1.store.ops[op.id], Some(AlreadyCompleted));
  }

  /** A claim that loses: the caller is told that it was decided, the provider is not called,
      and the winner's row is committed exactly if it carries the proof. */
  lemma LosingCall(sys: System, c: nat, op: Operation, gid: string, at: int)
    requires Inv(sys) && c !in sys.callers && ValidForClaim(op) && op.key in sys.store.claims
    requires GrantIdUsable(sys.store, gid)
    ensures var end := Run(sys, [DoClaim(c, op, Works, at), DoRepair(c, gid, Works, at)]);
      var winner := sys.store.ops[sys.store.claims[op.key]];
      && c in end.callers && end.callers[c] == Done(AlreadyDecided) && end.provider == sys.provider
      && (if winner.status.ProviderSucceeded? then PlanCommitted(sys.store, end.store, winner)
          else end.store == sys.store)
  {
    var winner := sys.store.ops[sys.store.claims[op.key]];
    TwoSteps(sys, DoClaim(c, op, Works, at), DoRepair(c, gid, Works, at));
    ClaimLost(sys, c, op, at);
    BeatenRepairs(sys.(callers := sys.callers[c := Beaten(winner)]), c, winner, gid, at);
    if winner.status.ProviderSucceeded? { WinnerCommits(sys.store, winner, gid, at); }
  }

  lemma ClaimLost(sys: System, c: nat, op: Operation, at: int)
    requires Inv(sys) && c !in sys.callers && ValidForClaim(op) && op.key in sys.store.claims
    ensures Apply(sys, DoClaim(c, op, Works, at)) ==
      sys.(callers := sys.callers[c := Beaten(sys.store.ops[sys.store.claims[op.key]])])
  {
    ClaimKeeps(sys.store, op, at);
  }

  lemma BeatenRepairs(sys: System, c: nat, winner: Operation, gid: string, at: int)
    requires c in sys.callers && sys.callers[c] == Beaten(winner)
    ensures var end := Apply(sys, DoRepair(c, gid, Works, at));
      && c in end.callers && end.callers[c] == Done(AlreadyDecided) && end.provider == sys.provider
      && end.store ==
         if winner.status.ProviderSucceeded? then RepairForward(sys.store, winner, gid, at).0 else sys.store
  {
  }

  lemma WinnerCommits(s: Store, winner: Operation, gid: string, at: int)
    requires StoreInv(s) && PlansOk(s) && GrantIdUsable(s, gid)
    requires winner.id in s.ops && s.ops[winner.id] == winner && winner.status.ProviderSucceeded?
    ensures PlanCommitted(s, RepairForward(s, winner, gid, at).0, winner)
  {
    ProvenPlanCommits(s, winner, gid, at);
  }

  /** The claim itself fails: an invalid plan changes nothing, and so does a store that is
      down; a claim that committed behind an error leaves its pending row. The provider is
      never called. */
  lemma UnclaimedCall(sys: System, c: nat, op: Operation, fault: Fault, at: int)
    requires Inv(sys) && c !in sys.callers && (!fault.Works? || !ValidForClaim(op))
    ensures var end := Apply(sys, DoClaim(c, op, fault, at));
      && c in end.callers && end.callers[c] == Done(StoreFailure) && end.provider == sys.provider
      && (if fault.FailsAfter? && CanClaim(sys.store, op)
          then OnlyRowAdded(sys.store, end.store, op, at) && end.store.ops[op.id].status.Pending?
          else end.store == sys.store)
  {
    ClaimKeeps(sys.store, op, at);
    if CanClaim(sys.store, op) { ClaimedPlanOk(sys.store, op, at); }
  }

  /** The callback arrived but its proof was not recorded, or not seen to be: the callback is
      withheld, the request is used up, and the row is pending, or proven behind the error. */
  lemma LostProof(sys: System, c: nat, op: Operation, fault: Fault, at: int)
    requires Inv(sys) && c !in sys.callers && CanWin(sys, op) && !fault.Works?
    ensures var end := Run(sys, [DoClaim(c, op, Works, at), DoCall(c, Completed), DoProof(c, fault, at)]);
      && c in end.callers && end.callers[c] == Done(AlreadyDecided)
      && OnlyRowAdded(sys.store, end.store, op, at)
      && op.key in end.provider.consumed
      && end.provider.consumed[op.key] == Consumption(Some(op.id), op.kind.Allow?)
      && (if fault.FailsBefore? then end.store.ops[op.id].status.Pending?
          else end.store.ops[op.id].status.ProviderSucceeded?)
  {
    ThreeSteps(sys, DoClaim(c, op, Works, at), DoCall(c, Completed), DoProof(c, fault, at));
    ClaimWon(sys, c, op, at);
    var s1 := Apply(sys, DoClaim(c, op, Works, at));
    var s2 := Apply(s1, DoCall(c, Completed));
    assert s2.store == s1.store && s2.callers[c] == Holding(s1.store.ops[op.id]);
  }

  /** The proof is there but the commit failed: the callback is returned all the same, and the
      row waits for its repair, or was committed behind the error. */
  lemma LostCommit(sys: System, c: nat, row: Operation, gid: string, fault: Fault, at: int)
    requires Inv(sys) && c in sys.callers && sys.callers[c] == Proven(row) && GrantIdUsable(sys.store, gid)
    requires row.id in sys.store.ops && sys.store.ops[row.id].status.ProviderSucceeded? && !fault.Works?
    ensures var end := Apply(sys, DoCommit(c, gid, fault, at));
      && c in end.callers && end.callers[c] == Done(Callback(row.id)) && end.provider == sys.provider
      && (if fault.FailsBefore? then end.store == sys.store else PlanCommitted(sys.store, end.store, row))
  {
    assert SamePlan(row, sys.store.ops[row.id]);
    CommitPersists(sys, c, row, gid, fault, at);
    if fault.FailsAfter? { ProvenPlanCommits(sys.store, row, gid, at); }
  }
}
