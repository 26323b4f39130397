/** The consent completion protocol as a labelled transition system
    (backend/internal/consent/decision.go, reconciler.go and fake.go): any number of
    callers, each at a point of claimCompleteAndCommit, any number of reconciler passes,
    revocations, crashes, store faults and lost provider replies, interleaved freely.
    A disabled action leaves the system as it is, so every list of actions is a run. */
module Protocol {
  import opened Outcomes
  import opened Operations
  import opened Scopes

  // ---- Store calls and the one-shot provider ----

  function Persist(s: Store, written: Written, fault: Fault): (Store, bool) {
    match fault
    case Works => (written.0, written.1.None?)
    case FailsBefore => (s, false)
    case FailsAfter => (written.0, false)
  }

  /** What becomes of a completion call: the transport works, the provider is never reached,
      or its reply is lost. An error may carry no stable class (a cancelled context, an
      empty callback URL). A request that was used up before answers already_completed. */
  datatype CallOutcome =
    | Completed
    | NotReached(errClass: Option<ErrorClass>)
    | LostReply(errClass: Option<ErrorClass>)

  datatype Reply = CallbackReply | ErrorReply(errClass: Option<ErrorClass>)

  /** Who used up a request: an operation (with a session or an error callback), or
      nobody of ours (it expired, or was finished elsewhere). */
  datatype Consumption = Consumption(owner: Option<string>, session: bool)

  datatype Call = Call(key: Key, opId: string, session: bool)

  datatype Provider = Provider(consumed: map<Key, Consumption>, calls: seq<Call>)

  function Complete(p: Provider, row: Operation, outcome: CallOutcome): (Provider, Reply) {
    var logged := p.(calls := p.calls + [Call(row.key, row.id, row.kind.Allow?)]);
    if row.key in p.consumed then
      (logged, ErrorReply(if outcome.Completed? then Some(AlreadyCompleted) else outcome.errClass))
    else
      var used := logged.(consumed := p.consumed[row.key := Consumption(Some(row.id), row.kind.Allow?)]);
      match outcome
      case Completed => (used, CallbackReply)
      case NotReached(e) => (logged, ErrorReply(e))
      case LostReply(e) => (used, ErrorReply(e))
  }

  // ---- Callers ----

  datatype CallerOutcome =
    | Callback(opId: string)
    | AlreadyDecided
    | ProviderFailure(errClass: ErrorClass)
    | Unclassified
    | StoreFailure
    | Crashed

  /** Where a caller of claimCompleteAndCommit stands. A row is the caller's own
      snapshot, taken when the claim returned. */
  datatype Pc =
    | Won(row: Operation)
    | Holding(row: Operation)
    | Refused(row: Operation, errClass: Option<ErrorClass>)
    | Proven(row: Operation)
    | Beaten(existing: Operation)
    | Done(outcome: CallerOutcome)

  datatype System = System(
    store: Store, provider: Provider, callers: map<nat, Pc>, passes: map<nat, seq<Operation>>)

  const INIT := System(EMPTY_STORE, Provider(map[], []), map[], map[])

  datatype Action =
    | DoClaim(c: nat, op: Operation, fault: Fault, at: int)
    | DoCall(c: nat, outcome: CallOutcome)
    | DoProof(c: nat, fault: Fault, at: int)
    | DoCommit(c: nat, gid: string, fault: Fault, at: int)
    | DoFail(c: nat, fault: Fault)
    | DoRepair(c: nat, gid: string, fault: Fault, at: int)
    | DoCrash(c: nat)
    | RequestGone(key: Key)
    | DoRevoke(user: string, grantId: string, fault: Fault, at: int)
    | ListPass(p: nat, ids: seq<string>)
    | ReconcileHead(p: nat, stale: bool, gid: string, fault: Fault, at: int)
    | DropPass(p: nat)

  function AfterClaim(result: ClaimResult, fault: Fault): Pc {
    if !fault.Works? then Done(StoreFailure)
    else match result
      case Claimed(row) => Won(row)
      case Conflict(existing) => Beaten(existing)
      case ClaimError(_) => Done(StoreFailure)
  }

  function ApplyClaim(sys: System, c: nat, op: Operation, fault: Fault, at: int): System {
    var (t, result) := Claim(sys.store, op, at);
    sys.(store := if fault.FailsBefore? then sys.store else t,
         callers := sys.callers[c := AfterClaim(result, fault)])
  }

  function ApplyCall(sys: System, c: nat, row: Operation, outcome: CallOutcome): System {
    var (p, reply) := Complete(sys.provider, row, outcome);
    var pc := if reply.CallbackReply? then Holding(row) else Refused(row, reply.errClass);
    sys.(provider := p, callers := sys.callers[c := pc])
  }

  function ApplyProof(sys: System, c: nat, row: Operation, fault: Fault, at: int): System {
    var (t, ok) := Persist(sys.store, RecordProof(sys.store, row.id, at), fault);
    sys.(store := t, callers := sys.callers[c := if ok then Proven(row) else Done(AlreadyDecided)])
  }

  /** The local commit; its result never withholds the callback. */
  function ApplyCommit(sys: System, c: nat, row: Operation, gid: string, fault: Fault, at: int): System {
    var t := Persist(sys.store, RepairForward(sys.store, row, gid, at), fault).0;
    sys.(store := t, callers := sys.callers[c := Done(Callback(row.id))])
  }

  function FailureOutcome(errClass: Option<ErrorClass>): CallerOutcome {
    if errClass.None? then Unclassified
    else if errClass.value.AlreadyCompleted? then AlreadyDecided
    else ProviderFailure(errClass.value)
  }

  function ApplyFail(sys: System, c: nat, pc: Pc, fault: Fault): System
    requires pc.Refused?
  {
    var t := if pc.errClass.None? then sys.store
             else Persist(sys.store, Fail(sys.store, pc.row.id, pc.errClass.value), fault).0;
    sys.(store := t, callers := sys.callers[c := Done(FailureOutcome(pc.errClass))])
  }

  function ApplyRepair(sys: System, c: nat, existing: Operation, gid: string, fault: Fault, at: int): System {
    var t := if existing.status.ProviderSucceeded?
             then Persist(sys.store, RepairForward(sys.store, existing, gid, at), fault).0
             else sys.store;
    sys.(store := t, callers := sys.callers[c := Done(AlreadyDecided)])
  }

  /** One row of a reconciler pass, judged by the status it had when it was listed. */
  function ReconcileRow(s: Store, seen: Operation, stale: bool, gid: string, at: int): Written {
    match seen.status
    case ProviderSucceeded => RepairForward(s, seen, gid, at)
    case Pending => if stale then Fail(s, seen.id, ProviderUnavailable) else (s, None)
    case _ => (s, None)
  }

  function ApplyReconcile(sys: System, p: nat, stale: bool, gid: string, fault: Fault, at: int): System
    requires p in sys.passes && sys.passes[p] != []
  {
    var t := Persist(sys.store, ReconcileRow(sys.store, sys.passes[p][0], stale, gid, at), fault).0;
    sys.(store := t, passes := sys.passes[p := sys.passes[p][1..]])
  }

  /** The next state. */
  function Apply(sys: System, a: Action): System {
    match a
    case DoClaim(c, op, fault, at) =>
      if c in sys.callers then sys else ApplyClaim(sys, c, op, fault, at)
    case DoCall(c, outcome) =>
      if c in sys.callers && sys.callers[c].Won? then ApplyCall(sys, c, sys.callers[c].row, outcome) else sys
    case DoProof(c, fault, at) =>
      if c in sys.callers && sys.callers[c].Holding? then ApplyProof(sys, c, sys.callers[c].row, fault, at) else sys
    case DoCommit(c, gid, fault, at) =>
      if c in sys.callers && sys.callers[c].Proven? then
        ApplyCommit(sys, c, sys.callers[c].row, gid, fault, at)
      else sys
    case DoFail(c, fault) =>
      if c in sys.callers && sys.callers[c].Refused? then ApplyFail(sys, c, sys.callers[c], fault) else sys
    case DoRepair(c, gid, fault, at) =>
      if c in sys.callers && sys.callers[c].Beaten? then ApplyRepair(sys, c, sys.callers[c].existing, gid, fault, at)
      else sys
    case DoCrash(c) =>
      if c in sys.callers && !sys.callers[c].Done? then sys.(callers := sys.callers[c := Done(Crashed)]) else sys
    case RequestGone(key) =>
      if key in sys.provider.consumed then sys
      else sys.(provider := sys.provider.(consumed := sys.provider.consumed[key := Consumption(None, false)]))
    case DoRevoke(user, grantId, fault, at) =>
      sys.(store := Persist(sys.store, Revoke(sys.store, user, grantId, at), fault).0)
    case ListPass(p, ids) =>
      if p !in sys.passes && forall i :: 0 <= i < |ids| ==> ids[i] in sys.store.ops then
        sys.(passes := sys.passes[p := seq(|ids|, i requires 0 <= i < |ids| => sys.store.ops[ids[i]])])
      else sys
    case ReconcileHead(p, stale, gid, fault, at) =>
      if p in sys.passes && sys.passes[p] != [] then
        ApplyReconcile(sys, p, stale, gid, fault, at)
      else sys
    case DropPass(p) => sys.(passes := sys.passes - {p})
  }

  // ---- The system invariant ----

  predicate OwnsRow(pc: Pc) { pc.Won? || pc.Holding? || pc.Refused? || pc.Proven? }

  /** The operation a caller alone may still answer for. */
  function Owner(pc: Pc): Option<string> {
    if OwnsRow(pc) then Some(pc.row.id)
    else if pc.Done? && pc.outcome.Callback? then Some(pc.outcome.opId)
    else None
  }

  predicate Forward(status: Status) { status.ProviderSucceeded? || status.Succeeded? }

  ghost predicate ConsumedBy(p: Provider, op: Operation) {
    op.key in p.consumed && p.consumed[op.key] == Consumption(Some(op.id), op.kind.Allow?)
  }

  /** Snapshots agree with the stored plan. */
  ghost predicate Snapshots(sys: System) {
    && (forall c :: c in sys.callers && OwnsRow(sys.callers[c]) ==>
          sys.callers[c].row.id in sys.store.ops && SamePlan(sys.callers[c].row, sys.store.ops[sys.callers[c].row.id]))
    && (forall c :: c in sys.callers && sys.callers[c].Beaten? ==>
          sys.callers[c].existing.id in sys.store.ops
          && SamePlan(sys.callers[c].existing, sys.store.ops[sys.callers[c].existing.id]))
    && (forall p, i :: p in sys.passes && 0 <= i < |sys.passes[p]| ==>
          sys.passes[p][i].id in sys.store.ops && SamePlan(sys.passes[p][i], sys.store.ops[sys.passes[p][i].id]))
  }

  ghost predicate OneOwner(sys: System) {
    forall c, d :: c in sys.callers && d in sys.callers
                   && Owner(sys.callers[c]).Some? && Owner(sys.callers[c]) == Owner(sys.callers[d]) ==>
      c == d
  }

  /** Every completion call is the single call of a stored operation on its own key. */
  ghost predicate CallsOnce(sys: System) {
    && (forall i :: 0 <= i < |sys.provider.calls| ==>
          && sys.provider.calls[i].opId in sys.store.ops
          && sys.provider.calls[i].key == sys.store.ops[sys.provider.calls[i].opId].key
          && sys.provider.calls[i].session == sys.store.ops[sys.provider.calls[i].opId].kind.Allow?)
    && (forall i, j :: 0 <= i < j < |sys.provider.calls| ==> sys.provider.calls[i].opId != sys.provider.calls[j].opId)
    && (forall c, i :: c in sys.callers && sys.callers[c].Won? && 0 <= i < |sys.provider.calls| ==>
          sys.provider.calls[i].opId != sys.callers[c].row.id)
  }

  /** Proof and success mean the operation itself used up its request. */
  ghost predicate ProofsTrue(sys: System) {
    && (forall id :: id in sys.store.ops && Forward(sys.store.ops[id].status) ==>
          ConsumedBy(sys.provider, sys.store.ops[id]))
    && (forall c :: c in sys.callers && sys.callers[c].Holding? ==> ConsumedBy(sys.provider, sys.callers[c].row))
  }

  /** A caller that passed the proof, or returned a callback, has a row that went forward. */
  ghost predicate WinsStand(sys: System) {
    forall c :: c in sys.callers
                && (sys.callers[c].Proven? || (sys.callers[c].Done? && sys.callers[c].outcome.Callback?)) ==>
      Owner(sys.callers[c]).value in sys.store.ops
      && Forward(sys.store.ops[Owner(sys.callers[c]).value].status)
  }

  ghost predicate Procs(sys: System) {
    Snapshots(sys) && OneOwner(sys) && CallsOnce(sys) && ProofsTrue(sys) && WinsStand(sys)
  }

  ghost predicate Inv(sys: System) {
    StoreInv(sys.store) && PlansOk(sys.store) && Procs(sys)
  }

  // ---- Preservation ----

  lemma SnapshotsMove(sys: System, t: Store)
    requires Snapshots(sys) && Moves(sys.store, t)
    ensures Snapshots(sys.(store := t))
  {
  }

  lemma CallsMove(sys: System, t: Store)
    requires CallsOnce(sys) && Moves(sys.store, t)
    ensures CallsOnce(sys.(store := t))
  {
    forall i | 0 <= i < |sys.provider.calls|
      ensures SamePlan(sys.store.ops[sys.provider.calls[i].opId], t.ops[sys.provider.calls[i].opId]) {}
  }

  lemma ProofsMove(sys: System, t: Store)
    requires ProofsTrue(sys) && Moves(sys.store, t) && NewProofsConsumed(sys, t)
    ensures ProofsTrue(sys.(store := t))
  {
    forall id | id in t.ops && Forward(t.ops[id].status) ensures ConsumedBy(sys.provider, t.ops[id]) {
      assert id in sys.store.ops && SamePlan(sys.store.ops[id], t.ops[id]);
    }
  }

  /** Every row that is proven in t was proven before, or has used up its request. */
  ghost predicate NewProofsConsumed(sys: System, t: Store) {
    forall id :: id in t.ops && Forward(t.ops[id].status) ==>
      id in sys.store.ops && (Forward(sys.store.ops[id].status) || ConsumedBy(sys.provider, sys.store.ops[id]))
  }

  /** A store transition that moves rows forward keeps the callers' facts. */
  lemma StoreStepKeeps(sys: System, t: Store)
    requires Procs(sys) && Moves(sys.store, t) && NewProofsConsumed(sys, t)
    ensures Procs(sys.(store := t))
  {
    SnapshotsMove(sys, t);
    CallsMove(sys, t);
    ProofsMove(sys, t);
  }

  /** A caller that only moves to a point owning the same row, or none, keeps the facts
      when the new point's own facts are given. */
  lemma CallerStepKeeps(sys: System, c: nat, pc: Pc)
    requires Procs(sys)
    requires Owner(pc).Some? ==> c in sys.callers && Owner(sys.callers[c]) == Owner(pc)
    requires OwnsRow(pc) ==> pc.row.id in sys.store.ops && SamePlan(pc.row, sys.store.ops[pc.row.id])
    requires pc.Beaten? ==> pc.existing.id in sys.store.ops && SamePlan(pc.existing, sys.store.ops[pc.existing.id])
    requires !pc.Won?
    requires pc.Holding? ==> ConsumedBy(sys.provider, pc.row)
    requires pc.Proven? || (pc.Done? && pc.outcome.Callback?) ==>
      Owner(pc).value in sys.store.ops && Forward(sys.store.ops[Owner(pc).value].status)
    ensures Procs(sys.(callers := sys.callers[c := pc]))
  {
  }

  /** The winner of a claim is the first and only owner of its new row. */
  lemma WinnerJoins(sys: System, c: nat, row: Operation, before: Store)
    requires Procs(sys) && c !in sys.callers
    requires row.id in sys.store.ops && sys.store.ops[row.id] == row && row.id !in before.ops
    requires OwnersIn(sys, before)
    ensures Procs(sys.(callers := sys.callers[c := Won(row)]))
  {
  }

  /** Owned rows and called rows exist in the given store. */
  ghost predicate OwnersIn(sys: System, s: Store) {
    && (forall d :: d in sys.callers && Owner(sys.callers[d]).Some? ==> Owner(sys.callers[d]).value in s.ops)
    && (forall i :: 0 <= i < |sys.provider.calls| ==> sys.provider.calls[i].opId in s.ops)
  }

  lemma ClaimStepProcs(sys: System, c: nat, t: Store, result: ClaimResult, fault: Fault)
    requires Procs(sys) && c !in sys.callers && Moves(sys.store, t) && NewProofsConsumed(sys, t)
    requires result.Claimed? ==>
      result.row.id !in sys.store.ops && result.row.id in t.ops && t.ops[result.row.id] == result.row
    requires result.Conflict? ==>
      result.existing.id in sys.store.ops && sys.store.ops[result.existing.id] == result.existing && t == sys.store
    ensures Procs(sys.(store := if fault.FailsBefore? then sys.store else t,
                       callers := sys.callers[c := AfterClaim(result, fault)]))
  {
    StoreStepKeeps(sys, t);
    var moved := sys.(store := if fault.FailsBefore? then sys.store else t);
    if AfterClaim(result, fault).Won? {
      assert OwnersIn(sys, sys.store);
      WinnerJoins(moved, c, result.row, sys.store);
    } else {
      CallerStepKeeps(moved, c, AfterClaim(result, fault));
    }
  }

  lemma ClaimStep(sys: System, c: nat, op: Operation, fault: Fault, at: int)
    requires Inv(sys) && c !in sys.callers
    ensures Inv(ApplyClaim(sys, c, op, fault, at))
  {
    var (t, result) := Claim(sys.store, op, at);
    ClaimKeeps(sys.store, op, at);
    if result.Claimed? {
      ClaimedPlanOk(sys.store, op, at);
    }
    PlansKept(sys.store, t);
    ClaimStepProcs(sys, c, t, result, fault);
  }

  /** What any faulty store write leaves behind: nothing, or the whole transaction. */
  lemma WriteStep(sys: System, written: Written, fault: Fault)
    requires Inv(sys) && StoreInv(written.0) && Moves(sys.store, written.0) && NewProofsConsumed(sys, written.0)
    requires written.0.ops.Keys == sys.store.ops.Keys
    ensures Inv(sys.(store := Persist(sys.store, written, fault).0))
  {
    PlansKept(sys.store, written.0);
    StoreStepKeeps(sys, written.0);
  }

  lemma RepairWrite(sys: System, seen: Operation, gid: string, fault: Fault, at: int)
    requires Inv(sys)
    ensures Inv(sys.(store := Persist(sys.store, RepairForward(sys.store, seen, gid, at), fault).0))
    ensures Moves(sys.store, Persist(sys.store, RepairForward(sys.store, seen, gid, at), fault).0)
  {
    RepairForwardKeeps(sys.store, seen, gid, at);
    RepairShape(sys.store, seen, gid, at);
    WriteStep(sys, RepairForward(sys.store, seen, gid, at), fault);
  }

  /** One of the three commits. */
  ghost predicate Commits(s: Store, t: Store, id: string) {
    && id in s.ops && s.ops[id].id == id && s.ops[id].status.ProviderSucceeded?
    && t.ops == s.ops[id := s.ops[id].(status := Succeeded)]
  }

  lemma AllowShape(s: Store, id: string, gid: string, at: int)
    requires Indexed(s)
    ensures var t := CommitAllow(s, id, gid, at).0; t == s || Commits(s, t, id)
  {
  }

  lemma DenyShape(s: Store, id: string)
    requires Indexed(s)
    ensures var t := CommitDeny(s, id).0; t == s || Commits(s, t, id)
  {
  }

  lemma ErrorShape(s: Store, id: string)
    requires Indexed(s)
    ensures var t := CommitError(s, id).0; t == s || Commits(s, t, id)
  {
  }

  lemma RepairCommits(s: Store, seen: Operation, gid: string, at: int)
    requires Indexed(s)
    ensures var t := RepairForward(s, seen, gid, at).0; t == s || Commits(s, t, seen.id)
  {
    match seen.kind
    case Allow => AllowShape(s, seen.id, gid, at);
    case AccessDenied => DenyShape(s, seen.id);
    case UnknownKind =>
    case _ => ErrorShape(s, seen.id);
  }

  /** A repair can only turn the proven row it names into a succeeded one. */
  lemma RepairShape(s: Store, seen: Operation, gid: string, at: int)
    requires Indexed(s)
    ensures var t := RepairForward(s, seen, gid, at).0;
            && t.ops.Keys == s.ops.Keys
            && (forall id :: id in t.ops && Forward(t.ops[id].status) ==> Forward(s.ops[id].status))
            && (t != s ==>
                  && seen.id in s.ops && s.ops[seen.id].status.ProviderSucceeded?
                  && t.ops == s.ops[seen.id := s.ops[seen.id].(status := Succeeded)])
  {
    RepairCommits(s, seen, gid, at);
  }

  /** The one call of a winner is the first call of its operation. */
  lemma CallStepOnce(sys: System, c: nat, row: Operation, outcome: CallOutcome)
    requires Procs(sys) && c in sys.callers && sys.callers[c] == Won(row)
    ensures CallsOnce(ApplyCall(sys, c, row, outcome))
  {
    var next := ApplyCall(sys, c, row, outcome);
    assert next.provider.calls == sys.provider.calls + [Call(row.key, row.id, row.kind.Allow?)];
    forall d | d in next.callers && next.callers[d].Won? ensures next.callers[d].row.id != row.id {
      assert Owner(sys.callers[d]) == Some(next.callers[d].row.id) && Owner(sys.callers[c]) == Some(row.id);
    }
  }

  lemma CallStepProofs(sys: System, c: nat, row: Operation, outcome: CallOutcome)
    requires Procs(sys) && c in sys.callers && sys.callers[c] == Won(row)
    ensures ProofsTrue(ApplyCall(sys, c, row, outcome))
  {
  }

  lemma CallStep(sys: System, c: nat, row: Operation, outcome: CallOutcome)
    requires Procs(sys) && c in sys.callers && sys.callers[c] == Won(row)
    ensures Procs(ApplyCall(sys, c, row, outcome))
  {
    var next := ApplyCall(sys, c, row, outcome);
    CallStepOnce(sys, c, row, outcome);
    CallStepProofs(sys, c, row, outcome);
    assert OneOwner(next) && Snapshots(next) && WinsStand(next);
  }

  /** The caller's half of a step: its store half already kept the invariant. */
  lemma CallerHalf(sys: System, t: Store, c: nat, pc: Pc)
    requires Inv(sys.(store := t)) && c in sys.callers
    requires Owner(pc).Some? ==> Owner(sys.callers[c]) == Owner(pc)
    requires pc.Done? || (pc.Proven? && sys.callers[c] == Holding(pc.row))
    requires Owner(pc).Some? ==> Owner(pc).value in t.ops && Forward(t.ops[Owner(pc).value].status)
    ensures Inv(sys.(store := t, callers := sys.callers[c := pc]))
  {
    CallerStepKeeps(sys.(store := t), c, pc);
    assert sys.(store := t).(callers := sys.callers[c := pc]) == sys.(store := t, callers := sys.callers[c := pc]);
  }

  /** Recording a proof moves one row only. */
  lemma ProofShape(s: Store, id: string, at: int)
    requires Indexed(s)
    ensures var t := RecordProof(s, id, at).0;
      && t.ops.Keys == s.ops.Keys
      && forall other :: other in t.ops && Forward(t.ops[other].status) ==> other == id || Forward(s.ops[other].status)
  {
  }

  lemma ProofWrite(sys: System, row: Operation, fault: Fault, at: int)
    requires Inv(sys) && row.id in sys.store.ops && ConsumedBy(sys.provider, sys.store.ops[row.id])
    ensures Inv(sys.(store := Persist(sys.store, RecordProof(sys.store, row.id, at), fault).0))
  {
    RecordProofInv(sys.store, row.id, at);
    ProofShape(sys.store, row.id, at);
    WriteStep(sys, RecordProof(sys.store, row.id, at), fault);
  }

  lemma ProofOutcome(s: Store, id: string, fault: Fault, at: int)
    ensures var (t, ok) := Persist(s, RecordProof(s, id, at), fault);
            ok ==> id in t.ops && Forward(t.ops[id].status)
  {
  }

  lemma ProofHalf(sys: System, c: nat, row: Operation, t: Store, ok: bool)
    requires c in sys.callers && sys.callers[c] == Holding(row) && Inv(sys.(store := t))
    requires ok ==> row.id in t.ops && Forward(t.ops[row.id].status)
    ensures Inv(sys.(store := t, callers := sys.callers[c := if ok then Proven(row) else Done(AlreadyDecided)]))
  {
    if ok {
      CallerHalf(sys, t, c, Proven(row));
    } else {
      CallerHalf(sys, t, c, Done(AlreadyDecided));
    }
  }

  lemma ProofStep(sys: System, c: nat, row: Operation, fault: Fault, at: int)
    requires Inv(sys) && c in sys.callers && sys.callers[c] == Holding(row)
    ensures Inv(ApplyProof(sys, c, row, fault, at))
  {
    assert SamePlan(row, sys.store.ops[row.id]);
    ProofWrite(sys, row, fault, at);
    ProofOutcome(sys.store, row.id, fault, at);
    var (t, ok) := Persist(sys.store, RecordProof(sys.store, row.id, at), fault);
    ProofHalf(sys, c, row, t, ok);
  }

  lemma ForwardStays(s: Store, t: Store, id: string)
    requires Moves(s, t) && id in s.ops && Forward(s.ops[id].status)
    ensures id in t.ops && Forward(t.ops[id].status)
  {
  }

  lemma CommitHalf(sys: System, c: nat, row: Operation, t: Store)
    requires c in sys.callers && sys.callers[c] == Proven(row) && WinsStand(sys)
    requires Inv(sys.(store := t)) && Moves(sys.store, t)
    ensures Inv(sys.(store := t, callers := sys.callers[c := Done(Callback(row.id))]))
  {
    ForwardStays(sys.store, t, row.id);
    CallerHalf(sys, t, c, Done(Callback(row.id)));
  }

  lemma CommitStep(sys: System, c: nat, row: Operation, gid: string, fault: Fault, at: int)
    requires Inv(sys) && c in sys.callers && sys.callers[c] == Proven(row)
    ensures Inv(ApplyCommit(sys, c, row, gid, fault, at))
  {
    RepairWrite(sys, row, gid, fault, at);
    CommitHalf(sys, c, row, Persist(sys.store, RepairForward(sys.store, row, gid, at), fault).0);
  }

  /** Failing a row makes no row proven. */
  lemma FailShape(s: Store, id: string, errClass: ErrorClass)
    requires Indexed(s)
    ensures var t := Fail(s, id, errClass).0;
            && t.ops.Keys == s.ops.Keys
            && (forall i :: i in t.ops && Forward(t.ops[i].status) ==> Forward(s.ops[i].status))
  {
  }

  lemma FailWrite(sys: System, id: string, errClass: ErrorClass, fault: Fault)
    requires Inv(sys)
    ensures Inv(sys.(store := Persist(sys.store, Fail(sys.store, id, errClass), fault).0))
  {
    FailInv(sys.store, id, errClass);
    FailShape(sys.store, id, errClass);
    WriteStep(sys, Fail(sys.store, id, errClass), fault);
  }

  /** A caller that ends without a callback owns nothing. */
  lemma EndHalf(sys: System, t: Store, c: nat, outcome: CallerOutcome)
    requires Inv(sys.(store := t)) && c in sys.callers && !outcome.Callback?
    ensures Inv(sys.(store := t, callers := sys.callers[c := Done(outcome)]))
  {
    CallerHalf(sys, t, c, Done(outcome));
  }

  lemma FailStep(sys: System, c: nat, fault: Fault)
    requires Inv(sys) && c in sys.callers && sys.callers[c].Refused?
    ensures Inv(ApplyFail(sys, c, sys.callers[c], fault))
  {
    var Refused(row, errClass) := sys.callers[c];
    if errClass.Some? {
      ClassifiedStep(sys, c, row, errClass.value, fault);
    } else {
      assert sys.(store := sys.store) == sys;
      EndHalf(sys, sys.store, c, FailureOutcome(None));
    }
  }

  lemma ClassifiedStep(sys: System, c: nat, row: Operation, errClass: ErrorClass, fault: Fault)
    requires Inv(sys) && c in sys.callers
    ensures Inv(ApplyFail(sys, c, Refused(row, Some(errClass)), fault))
  {
    FailWrite(sys, row.id, errClass, fault);
    EndHalf(sys, Persist(sys.store, Fail(sys.store, row.id, errClass), fault).0, c, FailureOutcome(Some(errClass)));
  }

  lemma RepairStep(sys: System, c: nat, existing: Operation, gid: string, fault: Fault, at: int)
    requires Inv(sys) && c in sys.callers && sys.callers[c] == Beaten(existing)
    ensures Inv(ApplyRepair(sys, c, existing, gid, fault, at))
  {
    var t := ApplyRepair(sys, c, existing, gid, fault, at).store;
    if existing.status.ProviderSucceeded? {
      RepairWrite(sys, existing, gid, fault, at);
    } else {
      assert sys.(store := t) == sys;
    }
    CallerHalf(sys, t, c, Done(AlreadyDecided));
  }

  lemma RevokeStep(sys: System, user: string, grantId: string, fault: Fault, at: int)
    requires Inv(sys)
    ensures Inv(sys.(store := Persist(sys.store, Revoke(sys.store, user, grantId, at), fault).0))
  {
    RevokeInv(sys.store, user, grantId, at);
    RevokeShape(sys.store, user, grantId, at);
    WriteStep(sys, Revoke(sys.store, user, grantId, at), fault);
  }

  lemma RevokeShape(s: Store, user: string, grantId: string, at: int)
    ensures Revoke(s, user, grantId, at).0.ops == s.ops
  {
  }

  lemma PassStep(sys: System, p: nat, rows: seq<Operation>)
    requires Inv(sys)
    requires forall i :: 0 <= i < |rows| ==> rows[i].id in sys.store.ops && SamePlan(rows[i], sys.store.ops[rows[i].id])
    ensures Inv(sys.(passes := sys.passes[p := rows]))
  {
    PassSnapshots(sys, p, rows);
  }

  lemma PassSnapshots(sys: System, p: nat, rows: seq<Operation>)
    requires Snapshots(sys)
    requires forall i :: 0 <= i < |rows| ==> rows[i].id in sys.store.ops && SamePlan(rows[i], sys.store.ops[rows[i].id])
    ensures Snapshots(sys.(passes := sys.passes[p := rows]))
  {
  }

  lemma ReconcileWrite(sys: System, seen: Operation, stale: bool, gid: string, fault: Fault, at: int)
    requires Inv(sys)
    ensures Inv(sys.(store := Persist(sys.store, ReconcileRow(sys.store, seen, stale, gid, at), fault).0))
  {
    match seen.status
    case ProviderSucceeded => RepairWrite(sys, seen, gid, fault, at);
    case Pending =>
      if stale {
        FailWrite(sys, seen.id, ProviderUnavailable, fault);
      } else {
        assert sys.(store := sys.store) == sys;
      }
    case _ => assert sys.(store := sys.store) == sys;
  }

  lemma ReconcileStep(sys: System, p: nat, stale: bool, gid: string, fault: Fault, at: int)
    requires Inv(sys) && p in sys.passes && sys.passes[p] != []
    ensures Inv(ApplyReconcile(sys, p, stale, gid, fault, at))
  {
    ReconcileWrite(sys, sys.passes[p][0], stale, gid, fault, at);
    var moved := sys.(store := Persist(sys.store, ReconcileRow(sys.store, sys.passes[p][0], stale, gid, at), fault).0);
    PassTail(moved, p);
  }

  lemma PassTail(sys: System, p: nat)
    requires Inv(sys) && p in sys.passes && sys.passes[p] != []
    ensures Inv(sys.(passes := sys.passes[p := sys.passes[p][1..]]))
  {
    PassStep(sys, p, sys.passes[p][1..]);
  }

  lemma CallKeeps(sys: System, c: nat, row: Operation, outcome: CallOutcome)
    requires Inv(sys) && c in sys.callers && sys.callers[c] == Won(row)
    ensures Inv(ApplyCall(sys, c, row, outcome))
  {
    CallStep(sys, c, row, outcome);
  }

  lemma CrashStep(sys: System, c: nat)
    requires Inv(sys) && c in sys.callers
    ensures Inv(sys.(callers := sys.callers[c := Done(Crashed)]))
  {
    CallerStepKeeps(sys, c, Done(Crashed));
  }

  lemma StepKeeps(sys: System, a: Action)
    requires Inv(sys)
    ensures Inv(Apply(sys, a))
  {
    if ByCaller(a) { CallersKeep(sys, a); } else { OthersKeep(sys, a); }
  }

  lemma CallersKeep(sys: System, a: Action)
    requires Inv(sys) && ByCaller(a)
    ensures Inv(Apply(sys, a))
  {
    match a
    case DoClaim(c, op, fault, at) => if c !in sys.callers { ClaimStep(sys, c, op, fault, at); }
    case DoCall(c, outcome) =>
      if c in sys.callers && sys.callers[c].Won? { CallKeeps(sys, c, sys.callers[c].row, outcome); }
    case DoProof(c, fault, at) =>
      if c in sys.callers && sys.callers[c].Holding? { ProofStep(sys, c, sys.callers[c].row, fault, at); }
    case DoCommit(c, gid, fault, at) =>
      if c in sys.callers && sys.callers[c].Proven? { CommitStep(sys, c, sys.callers[c].row, gid, fault, at); }
    case DoFail(c, fault) => if c in sys.callers && sys.callers[c].Refused? { FailStep(sys, c, fault); }
    case DoRepair(c, gid, fault, at) =>
      if c in sys.callers && sys.callers[c].Beaten? { RepairStep(sys, c, sys.callers[c].existing, gid, fault, at); }
    case DoCrash(c) => if c in sys.callers && !sys.callers[c].Done? { CrashStep(sys, c); }
  }

  lemma OthersKeep(sys: System, a: Action)
    requires Inv(sys) && !ByCaller(a)
    ensures Inv(Apply(sys, a))
  {
    match a
    case RequestGone(key) => RequestGoneStep(sys, key);
    case DoRevoke(user, grantId, fault, at) => RevokeStep(sys, user, grantId, fault, at);
    case ListPass(p, ids) => ListStep(sys, p, ids);
    case ReconcileHead(_, _, _, _, _) => HeadStep(sys, a);
    case DropPass(p) => DropStep(sys, p);
  }

  lemma HeadStep(sys: System, a: Action)
    requires Inv(sys) && a.ReconcileHead?
    ensures Inv(Apply(sys, a))
  {
    if a.p in sys.passes && sys.passes[a.p] != [] {
      ReconcileStep(sys, a.p, a.stale, a.gid, a.fault, a.at);
      assert Apply(sys, a) == ApplyReconcile(sys, a.p, a.stale, a.gid, a.fault, a.at);
    } else {
      assert Apply(sys, a) == sys;
    }
  }

  lemma RequestGoneStep(sys: System, key: Key)
    requires Inv(sys)
    ensures Inv(Apply(sys, RequestGone(key)))
  {
    if key !in sys.provider.consumed {
      UsedUpElsewhere(sys, sys.provider.(consumed := sys.provider.consumed[key := Consumption(None, false)]));
    }
  }

  /** More requests used up, no calls made: every caller's fact stays. */
  lemma UsedUpElsewhere(sys: System, p: Provider)
    requires Procs(sys) && p.calls == sys.provider.calls
    requires forall k :: k in sys.provider.consumed ==> k in p.consumed && p.consumed[k] == sys.provider.consumed[k]
    ensures Procs(sys.(provider := p))
  {
  }

  lemma ListStep(sys: System, p: nat, ids: seq<string>)
    requires Inv(sys)
    ensures Inv(Apply(sys, ListPass(p, ids)))
  {
    var next := Apply(sys, ListPass(p, ids));
    if next != sys { PassStep(sys, p, next.passes[p]); }
  }

  lemma DropStep(sys: System, p: nat)
    requires Inv(sys)
    ensures Inv(Apply(sys, DropPass(p)))
  {
  }

  // ---- Runs ----

  /** The state after a list of actions. */
  function Run(sys: System, actions: seq<Action>): System
    decreases |actions|
  {
    if actions == [] then sys else Run(Apply(sys, actions[0]), actions[1..])
  }

  lemma {:induction false} RunKeeps(sys: System, actions: seq<Action>)
    requires Inv(sys)
    ensures Inv(Run(sys, actions))
    decreases |actions|
  {
    if actions != [] {
      StepKeeps(sys, actions[0]);
      RunKeeps(Apply(sys, actions[0]), actions[1..]);
    }
  }

  /** Every state a run from the empty system reaches satisfies the invariant. */
  lemma Reachable(actions: seq<Action>)
    ensures Inv(Run(INIT, actions))
  {
    RunKeeps(INIT, actions);
  }

  lemma {:induction false} RunAppend(sys: System, first: seq<Action>, second: seq<Action>)
    ensures Run(sys, first + second) == Run(Run(sys, first), second)
    decreases |first|
  {
    if first == [] {
      assert first + second == second;
    } else {
      assert (first + second)[1..] == first[1..] + second;
      RunAppend(Apply(sys, first[0]), first[1..], second);
    }
  }

  /** How far a row may get: terminal states are final, a proven row never fails. */
  predicate Onward(s: Status, t: Status) {
    s == t || s.Pending? || (s.ProviderSucceeded? && t.Succeeded?)
  }

  ghost predicate StoreOnward(s: Store, t: Store) {
    forall id :: id in s.ops ==>
      id in t.ops && SamePlan(s.ops[id], t.ops[id]) && Onward(s.ops[id].status, t.ops[id].status)
  }

  lemma WriteMoves(s: Store, written: Written, fault: Fault)
    requires Moves(s, written.0)
    ensures Moves(s, Persist(s, written, fault).0)
  {
  }

  lemma RepairMoves(s: Store, seen: Operation, gid: string, fault: Fault, at: int)
    requires StoreInv(s)
    ensures Moves(s, Persist(s, RepairForward(s, seen, gid, at), fault).0)
  {
    RepairForwardKeeps(s, seen, gid, at);
    WriteMoves(s, RepairForward(s, seen, gid, at), fault);
  }

  lemma FailMoves(s: Store, id: string, errClass: ErrorClass, fault: Fault)
    requires StoreInv(s)
    ensures Moves(s, Persist(s, Fail(s, id, errClass), fault).0)
  {
    FailInv(s, id, errClass);
    WriteMoves(s, Fail(s, id, errClass), fault);
  }

  lemma ReconcileMoves(s: Store, seen: Operation, stale: bool, gid: string, fault: Fault, at: int)
    requires StoreInv(s)
    ensures Moves(s, Persist(s, ReconcileRow(s, seen, stale, gid, at), fault).0)
  {
    match seen.status
    case ProviderSucceeded => RepairMoves(s, seen, gid, fault, at);
    case Pending => FailMoves(s, seen.id, ProviderUnavailable, fault);
    case _ =>
  }

  lemma ProofMoves(s: Store, id: string, fault: Fault, at: int)
    requires StoreInv(s)
    ensures Moves(s, Persist(s, RecordProof(s, id, at), fault).0)
  {
    RecordProofInv(s, id, at);
    WriteMoves(s, RecordProof(s, id, at), fault);
  }

  lemma RevokeMoves(s: Store, user: string, grantId: string, fault: Fault, at: int)
    requires StoreInv(s)
    ensures Moves(s, Persist(s, Revoke(s, user, grantId, at), fault).0)
  {
    RevokeInv(s, user, grantId, at);
    WriteMoves(s, Revoke(s, user, grantId, at), fault);
  }

  lemma ClaimMoves(s: Store, op: Operation, at: int)
    requires StoreInv(s)
    ensures Moves(s, Claim(s, op, at).0)
  {
    ClaimKeeps(s, op, at);
  }

  predicate ByCaller(a: Action) {
    a.DoClaim? || a.DoCall? || a.DoProof? || a.DoCommit? || a.DoFail? || a.DoRepair? || a.DoCrash?
  }

  lemma CallerMoves(sys: System, a: Action)
    requires StoreInv(sys.store) && ByCaller(a) && !a.DoClaim?
    ensures Moves(sys.store, Apply(sys, a).store)
  {
    var c := a.c;
    if c in sys.callers {
      var pc := sys.callers[c];
      if a.DoProof? && pc.Holding? {
        ProofMoves(sys.store, pc.row.id, a.fault, a.at);
      } else if a.DoCommit? && pc.Proven? {
        RepairMoves(sys.store, pc.row, a.gid, a.fault, a.at);
      } else if a.DoFail? && pc.Refused? && pc.errClass.Some? {
        FailMoves(sys.store, pc.row.id, pc.errClass.value, a.fault);
      } else if a.DoRepair? && pc.Beaten? && pc.existing.status.ProviderSucceeded? {
        RepairMoves(sys.store, pc.existing, a.gid, a.fault, a.at);
      } else {
        assert Apply(sys, a).store == sys.store;
      }
    }
  }

  lemma OthersMove(sys: System, a: Action)
    requires StoreInv(sys.store) && (a.DoClaim? || !ByCaller(a))
    ensures Moves(sys.store, Apply(sys, a).store)
  {
    if a.DoClaim? {
      ClaimMoves(sys.store, a.op, a.at);
    } else if a.DoRevoke? {
      RevokeMoves(sys.store, a.user, a.grantId, a.fault, a.at);
    } else if a.ReconcileHead? && a.p in sys.passes && sys.passes[a.p] != [] {
      ReconcileMoves(sys.store, sys.passes[a.p][0], a.stale, a.gid, a.fault, a.at);
    } else {
      assert Apply(sys, a).store == sys.store;
    }
  }

  lemma StepMoves(sys: System, a: Action)
    requires StoreInv(sys.store)
    ensures Moves(sys.store, Apply(sys, a).store)
  {
    if ByCaller(a) && !a.DoClaim? { CallerMoves(sys, a); } else { OthersMove(sys, a); }
  }

  /** Over any run: plans are immutable, terminal states final, and what a finished
      caller returned stays returned. */
  lemma {:induction false} RunsMoveForward(sys: System, actions: seq<Action>)
    requires Inv(sys)
    ensures StoreOnward(sys.store, Run(sys, actions).store)
    ensures DoneKept(sys, Run(sys, actions))
    decreases |actions|
  {
    if actions != [] {
      var mid := Apply(sys, actions[0]);
      StepKeeps(sys, actions[0]);
      StepMoves(sys, actions[0]);
      DoneStays(sys, actions[0]);
      RunsMoveForward(mid, actions[1..]);
      OnwardTwice(sys.store, mid.store, Run(mid, actions[1..]).store);
    }
  }

  /** What a finished caller returned. */
  ghost predicate DoneKept(sys: System, t: System) {
    forall c :: c in sys.callers && sys.callers[c].Done? ==> c in t.callers && t.callers[c] == sys.callers[c]
  }

  lemma DoneStays(sys: System, a: Action)
    ensures DoneKept(sys, Apply(sys, a))
  {
  }

  lemma OnwardTwice(s: Store, t: Store, u: Store)
    requires Moves(s, t) && StoreOnward(t, u)
    ensures StoreOnward(s, u)
  {
  }

  // ---- Main results: every reachable state ----

  /** The caller returned a callback, for an operation on the given key. */
  ghost predicate Returned(sys: System, c: nat, key: Key) {
    && c in sys.callers && sys.callers[c].Done? && sys.callers[c].outcome.Callback?
    && sys.callers[c].outcome.opId in sys.store.ops && sys.store.ops[sys.callers[c].outcome.opId].key == key
  }

  /** One winner: no key sees two completion calls, and no two callers return a
      callback for the same key. */
  lemma SingleWinner(actions: seq<Action>)
    ensures var sys := Run(INIT, actions);
      && (forall i, j :: 0 <= i < j < |sys.provider.calls| ==> sys.provider.calls[i].key != sys.provider.calls[j].key)
      && (forall c, d, key :: Returned(sys, c, key) && Returned(sys, d, key) ==> c == d)
  {
    Reachable(actions);
    var sys := Run(INIT, actions);
    forall c, d, key | Returned(sys, c, key) && Returned(sys, d, key) ensures c == d {
      assert Owner(sys.callers[c]) == Some(sys.callers[c].outcome.opId);
      assert Owner(sys.callers[d]) == Some(sys.callers[d].outcome.opId);
    }
  }

  /** A callback that was returned stands: whatever happens afterwards, its row is
      proven or succeeded, its request was used up by it, and it never fails. */
  lemma ReturnedCallbackStands(before: seq<Action>, after: seq<Action>, c: nat)
    ensures var sys := Run(INIT, before);
      var later := Run(INIT, before + after);
      c in sys.callers && sys.callers[c].Done? && sys.callers[c].outcome.Callback? ==>
        && c in later.callers && later.callers[c] == sys.callers[c]
        && sys.callers[c].outcome.opId in later.store.ops
        && Forward(later.store.ops[sys.callers[c].outcome.opId].status)
        && ConsumedBy(later.provider, later.store.ops[sys.callers[c].outcome.opId])
  {
    Reachable(before);
    Reachable(before + after);
    RunAppend(INIT, before, after);
    RunsMoveForward(Run(INIT, before), after);
    var later := Run(INIT, before + after);
    assert WinsStand(later) && ProofsTrue(later);
  }

  /** A grant is active exactly when the last consent event of its pair, in commit
      order, is an Allow commit; it then carries that operation's claimed scopes, and
      the operation itself completed its request with a session. */
  lemma GrantsFollowTrail(actions: seq<Action>, user: string, client: string)
    ensures var store := Run(INIT, actions).store;
      var latest := LatestConsent(store.audit, user, client);
      ((user, client) in store.grants && store.grants[(user, client)].active)
      <==> (latest.Some? && latest.value.eventType.GrantAllowed?)
    ensures var sys := Run(INIT, actions);
      (user, client) in sys.store.grants ==>
        var allow := LatestAllow(sys.store.audit, user, client);
        && allow.Some? && allow.value.requestId in sys.store.ops
        && var op := sys.store.ops[allow.value.requestId];
        && op.kind.Allow? && op.user == user && op.client == client && op.status.Succeeded?
        && sys.store.grants[(user, client)].scopes == op.scopes
        && Canonical(op.scopes) && op.scopes != []
        && op.key in sys.provider.consumed && sys.provider.consumed[op.key] == Consumption(Some(op.id), true)
  {
    Reachable(actions);
    var sys := Run(INIT, actions);
    assert GrantFollowsTrail(sys.store, user, client);
    LatestInTrail(sys.store.audit, user, client);
    var allow := LatestAllow(sys.store.audit, user, client);
    if allow.Some? {
      var i :| 0 <= i < |sys.store.audit| && sys.store.audit[i] == allow.value;
      assert IsCompletion(sys.store.audit[i]);
      var op := sys.store.ops[allow.value.requestId];
      assert PlanOk(op) && ConsumedBy(sys.provider, op);
      CanonicalIsFixedPoint(op.scopes);
    }
  }

  lemma {:induction false} LatestInTrail(audit: seq<AuditEvent>, user: string, client: string)
    ensures var allow := LatestAllow(audit, user, client);
      allow.Some? ==>
        && (exists i :: 0 <= i < |audit| && audit[i] == allow.value)
        && Concerns(allow.value, user, client) && allow.value.eventType.GrantAllowed?
  {
    if audit != [] { LatestInTrail(audit[..|audit| - 1], user, client); }
  }

  /** Exactly one completion event for a succeeded operation, none for any other, and
      every completion event is the canonical one of its row. */
  lemma OneAuditPerSuccess(actions: seq<Action>, id: string)
    ensures var store := Run(INIT, actions).store;
      && CompletionCount(store.audit, id) == (if id in store.ops && store.ops[id].status.Succeeded? then 1 else 0)
      && forall i :: 0 <= i < |store.audit| && IsCompletion(store.audit[i]) && store.audit[i].requestId == id ==>
           id in store.ops && store.audit[i] == CanonicalAudit(store.ops[id])
  {
    Reachable(actions);
    assert Audited(Run(INIT, actions).store);
  }

  /** A row that failed (refused, lost reply, or stale) stays failed, never enters the
      trail and never backs a grant, whatever happens later. */
  lemma FailedRowsNeverGrant(before: seq<Action>, after: seq<Action>, id: string, user: string, client: string)
    ensures var sys := Run(INIT, before);
      var later := Run(INIT, before + after);
      id in sys.store.ops && sys.store.ops[id].status.Failed? ==>
        && id in later.store.ops && later.store.ops[id].status.Failed?
        && CompletionCount(later.store.audit, id) == 0
        && (LatestAllow(later.store.audit, user, client).Some? ==>
              LatestAllow(later.store.audit, user, client).value.requestId != id)
  {
    Reachable(before);
    Reachable(before + after);
    RunAppend(INIT, before, after);
    RunsMoveForward(Run(INIT, before), after);
    var later := Run(INIT, before + after);
    if id in later.store.ops && later.store.ops[id].status.Failed? { FailedUnused(later.store, id, user, client); }
  }

  lemma FailedUnused(s: Store, id: string, user: string, client: string)
    requires StoreInv(s) && id in s.ops && s.ops[id].status.Failed?
    ensures CompletionCount(s.audit, id) == 0
    ensures LatestAllow(s.audit, user, client).Some? ==> LatestAllow(s.audit, user, client).value.requestId != id
  {
    LatestInTrail(s.audit, user, client);
    assert Audited(s);
  }

  /** Every Allow row ever claimed, in whatever state, holds a non-empty scope list that
      NormalizeScopes leaves as it is. */
  lemma AllowRowsCanonical(actions: seq<Action>, id: string)
    ensures var ops := Run(INIT, actions).store.ops;
      id in ops && ops[id].kind.Allow? ==> Normalize(ops[id].scopes) == Success(ops[id].scopes) && ops[id].scopes != []
  {
    Reachable(actions);
    var ops := Run(INIT, actions).store.ops;
    if id in ops && ops[id].kind.Allow? {
      assert PlanOk(ops[id]);
      CanonicalIsFixedPoint(ops[id].scopes);
    }
  }
}
