/** DecisionService (backend/internal/consent/decision.go): the three entry points and the
    single sequence claim, provider completion, proof, commit. Each statement that touches
    the store or the provider is a step of the system in Protocol, and between any two of
    them everybody else may act; so a whole call is one caller's part of a run. */
module Decisions {
  import opened Outcomes
  import opened Scopes
  import opened Operations
  import opened Protocol
  import opened Resolution
  import opened Backend

  /** The faults and clock readings one call meets, and what everybody else does before
      the claim and while the call is waiting. */
  datatype Steps = Steps(
    claimFault: Fault, proofFault: Fault, failFault: Fault, commitFault: Fault,
    grantId: string, claimAt: int, proofAt: int, commitAt: int,
    before: seq<Action>, afterClaim: seq<Action>, afterCall: seq<Action>, afterProof: seq<Action>)

  /** The caller an action belongs to. */
  function Actor(a: Action): Option<nat> {
    match a
    case DoClaim(c, _, _, _) => Some(c)
    case DoCall(c, _) => Some(c)
    case DoProof(c, _, _) => Some(c)
    case DoCommit(c, _, _, _) => Some(c)
    case DoFail(c, _) => Some(c)
    case DoRepair(c, _, _, _) => Some(c)
    case DoCrash(c) => Some(c)
    case _ => None
  }

  predicate Elsewhere(actions: seq<Action>, c: nat) {
    forall i :: 0 <= i < |actions| ==> Actor(actions[i]) != Some(c)
  }

  predicate AllElsewhere(steps: Steps, c: nat) {
    Elsewhere(steps.before, c) && Elsewhere(steps.afterClaim, c)
    && Elsewhere(steps.afterCall, c) && Elsewhere(steps.afterProof, c)
  }

  /** A caller stands still while only others act. */
  ghost predicate SameCaller(s: System, t: System, c: nat) {
    (c in s.callers <==> c in t.callers) && (c in s.callers ==> t.callers[c] == s.callers[c])
  }

  lemma StepElsewhere(sys: System, a: Action, c: nat)
    requires Actor(a) != Some(c)
    ensures SameCaller(sys, Apply(sys, a), c)
  {
  }

  lemma {:induction false} RunElsewhere(sys: System, actions: seq<Action>, c: nat)
    requires Elsewhere(actions, c)
    ensures SameCaller(sys, Run(sys, actions), c)
    decreases |actions|
  {
    if actions != [] {
      StepElsewhere(sys, actions[0], c);
      RunElsewhere(Apply(sys, actions[0]), actions[1..], c);
    }
  }

  lemma RunOneMore(sys: System, actions: seq<Action>, a: Action)
    ensures Run(sys, actions + [a]) == Apply(Run(sys, actions), a)
  {
    RunAppend(sys, actions, [a]);
    assert [a][1..] == [];
    assert Run(Apply(Run(sys, actions), a), []) == Apply(Run(sys, actions), a);
  }

  datatype Decision = DecisionAllow | DecisionDeny
  {
    function Kind(): CompletionKind { if DecisionAllow? then Allow else AccessDenied }
  }

  /** readAllowCredential: the sealed credential of the session. */
  datatype Credential = Usable | Unusable | ReadFailed

  datatype DecisionResult =
    | Rejected(error: ConsentError)
    | NotAnErrorKind
    | CredentialRequired
    | CredentialFailed
    | Finished(outcome: CallerOutcome)

  /** What a decision call reads besides the provider and the store. */
  datatype Inputs = Inputs(
    client: Result<ClientFacts, ClientReadError>, grantsReadable: bool, now: int,
    credential: Credential, operationId: string)

  /** The caller makes no completion call from the given position of a trace on. */
  ghost predicate NoCallFrom(trace: seq<Action>, from: nat, c: nat) {
    forall i :: from <= i < |trace| && trace[i].DoCall? ==> trace[i].c != c
  }

  class DecisionService {
    const provider: FakeAuthRequestProvider
    const grants: GrantStore

    constructor (requestProvider: FakeAuthRequestProvider, store: GrantStore)
      ensures provider == requestProvider && grants == store
    {
      provider, grants := requestProvider, store;
    }

    /** The value-level system describes the store and the provider as they are. */
    ghost predicate Mirrors(sys: System)
      reads provider, grants
    {
      provider.Valid() && sys.store == grants.Contents() && sys.provider == provider.ledger
    }

    /** Everybody else acts. */
    method Wait(sys: System, actions: seq<Action>) returns (next: System)
      modifies provider`completed, provider`ledger, grants
      ensures next == Run(sys, actions) && Mirrors(next)
    {
      next := Run(sys, actions);
      grants.Overtake(next.store);
      provider.Overtake(next.provider);
    }

    /** resolveClaimConflict: the loser repairs a proven row and never calls the provider. */
    method ResolveClaimConflict(existing: Operation, steps: Steps) returns (outcome: CallerOutcome)
      modifies grants
      ensures outcome == AlreadyDecided
      ensures grants.Contents() ==
        if existing.status.ProviderSucceeded?
        then Persist(old(grants.Contents()),
                     RepairForward(old(grants.Contents()), existing, steps.grantId, steps.commitAt),
                     steps.commitFault).0
        else old(grants.Contents())
    {
      if existing.status.ProviderSucceeded? {
        var _ := grants.RepairCompletionForward(existing, steps.grantId, steps.commitFault, steps.commitAt);
      }
      outcome := AlreadyDecided;
    }

    /** handleProviderFailure: a classified failure fails the pending row; an
        unclassified one leaves it for the reconciler. */
    method HandleProviderFailure(id: string, errClass: Option<ErrorClass>, steps: Steps)
      returns (outcome: CallerOutcome)
      modifies grants
      ensures outcome == FailureOutcome(errClass)
      ensures grants.Contents() ==
        if errClass.None? then old(grants.Contents())
        else Persist(old(grants.Contents()), Fail(old(grants.Contents()), id, errClass.value), steps.failFault).0
    {
      if errClass.None? { return Unclassified; }
      var _ := grants.FailDecisionOperation(id, errClass.value, steps.failFault);
      outcome := if errClass.value.AlreadyCompleted? then AlreadyDecided else ProviderFailure(errClass.value);
    }

    /** The step just taken, entered in the description of the system. */
    method Log(ghost start: System, sys: System, ghost trace: seq<Action>, a: Action)
      returns (next: System, ghost longer: seq<Action>)
      requires sys == Run(start, trace)
      ensures next == Apply(sys, a) == Run(start, longer) && longer == trace + [a]
    {
      next := Apply(sys, a);
      RunOneMore(start, trace, a);
      longer := trace + [a];
    }

    method WaitFor(ghost start: System, sys: System, ghost trace: seq<Action>, actions: seq<Action>, c: nat)
      returns (next: System, ghost longer: seq<Action>)
      requires sys == Run(start, trace) && Elsewhere(actions, c)
      modifies provider`completed, provider`ledger, grants
      ensures next == Run(start, longer) && longer == trace + actions
      ensures Mirrors(next) && SameCaller(sys, next, c)
    {
      next := Wait(sys, actions);
      longer := trace + actions;
      RunAppend(start, trace, actions);
      RunElsewhere(sys, actions, c);
    }

    /** The proof and the commit, once the provider handed out a callback. A lost proof
        withholds the callback; a failed commit does not. */
    method ProveAndCommit(stored: Operation, steps: Steps, c: nat, ghost start: System, sys: System,
        ghost trace: seq<Action>)
      returns (outcome: CallerOutcome, last: System, ghost longer: seq<Action>)
      requires Mirrors(sys) && sys == Run(start, trace) && Elsewhere(steps.afterProof, c)
      requires c in sys.callers && sys.callers[c] == Holding(stored)
      modifies provider`completed, provider`ledger, grants
      ensures Mirrors(last) && last == Run(start, longer) && trace <= longer
      ensures c in last.callers && last.callers[c] == Done(outcome)
      ensures outcome ==
        if Persist(sys.store, RecordProof(sys.store, stored.id, steps.proofAt), steps.proofFault).1
        then Callback(stored.id) else AlreadyDecided
      ensures NoCallFrom(longer, |trace|, c)
    {
      var proven := grants.RecordProviderSucceeded(stored.id, steps.proofFault, steps.proofAt);
      last, longer := Log(start, sys, trace, DoProof(c, steps.proofFault, steps.proofAt));
      if !proven { return AlreadyDecided, last, longer; }
      outcome, last, longer := CommitProven(stored, steps, c, start, last, longer);
    }

    /** repairCompletionForward after the caller's own proof. */
    method CommitProven(stored: Operation, steps: Steps, c: nat, ghost start: System, sys: System,
        ghost trace: seq<Action>)
      returns (outcome: CallerOutcome, last: System, ghost longer: seq<Action>)
      requires Mirrors(sys) && sys == Run(start, trace) && Elsewhere(steps.afterProof, c)
      requires c in sys.callers && sys.callers[c] == Proven(stored)
      modifies provider`completed, provider`ledger, grants
      ensures Mirrors(last) && last == Run(start, longer) && outcome == Callback(stored.id)
      ensures longer == trace + (steps.afterProof + [DoCommit(c, steps.grantId, steps.commitFault, steps.commitAt)])
      ensures c in last.callers && last.callers[c] == Done(outcome)
    {
      last, longer := WaitFor(start, sys, trace, steps.afterProof, c);
      var _ := grants.RepairCompletionForward(stored, steps.grantId, steps.commitFault, steps.commitAt);
      last, longer := Log(start, last, longer, DoCommit(c, steps.grantId, steps.commitFault, steps.commitAt));
      outcome := Callback(stored.id);
    }

    /** The winner's part: exactly one completion call, then the proof and the commit, or
        the failure. */
    method CompleteWon(stored: Operation, handleUsable: bool, steps: Steps, c: nat,
        ghost start: System, sys: System, ghost trace: seq<Action>)
      returns (outcome: CallerOutcome, last: System, ghost longer: seq<Action>)
      requires Mirrors(sys) && sys == Run(start, trace)
      requires Elsewhere(steps.afterCall, c) && Elsewhere(steps.afterProof, c)
      requires c in sys.callers && sys.callers[c] == Won(stored) && stored.key == provider.KeyOf(stored.key.request)
      modifies provider`completed, provider`completionAttempts, provider`ledger, grants
      ensures Mirrors(last) && last == Run(start, longer) && trace <= longer
      ensures c in last.callers && last.callers[c] == Done(outcome)
      ensures outcome.Callback? ==> outcome.opId == stored.id
      ensures |trace| < |longer| && longer[|trace|].DoCall? && longer[|trace|].c == c
      ensures NoCallFrom(longer, |trace| + 1, c)
      ensures provider.completionAttempts ==
        old(provider.completionAttempts) + (if stored.kind.Allow? && !handleUsable then 0 else 1)
    {
      var reply;
      reply, last, longer := CallProvider(stored, handleUsable, c, start, sys, trace);
      last, longer := WaitFor(start, last, longer, steps.afterCall, c);
      if reply.CallbackReply? {
        outcome, last, longer := ProveAndCommit(stored, steps, c, start, last, longer);
      } else {
        outcome, last, longer := EndRefused(stored, reply.errClass, steps, c, start, last, longer);
      }
    }

    /** The one completion call. */
    method CallProvider(stored: Operation, handleUsable: bool, c: nat,
        ghost start: System, sys: System, ghost trace: seq<Action>)
      returns (reply: Reply, last: System, ghost longer: seq<Action>)
      requires Mirrors(sys) && sys == Run(start, trace)
      requires c in sys.callers && sys.callers[c] == Won(stored) && stored.key == provider.KeyOf(stored.key.request)
      modifies provider`completed, provider`completionAttempts, provider`ledger
      ensures Mirrors(last) && last == Run(start, longer)
      ensures |longer| == |trace| + 1 && trace <= longer && longer[|trace|].DoCall? && longer[|trace|].c == c
      ensures c in last.callers
        && last.callers[c] == if reply.CallbackReply? then Holding(stored) else Refused(stored, reply.errClass)
      ensures provider.completionAttempts ==
        old(provider.completionAttempts) + (if stored.kind.Allow? && !handleUsable then 0 else 1)
    {
      var how;
      reply, how := provider.CompleteRequest(stored.key.request, stored.kind.Allow?, handleUsable, stored);
      last, longer := Log(start, sys, trace, DoCall(c, how));
    }

    /** handleProviderFailure, as the caller's last step. */
    method EndRefused(stored: Operation, errClass: Option<ErrorClass>, steps: Steps, c: nat,
        ghost start: System, sys: System, ghost trace: seq<Action>)
      returns (outcome: CallerOutcome, last: System, ghost longer: seq<Action>)
      requires Mirrors(sys) && sys == Run(start, trace)
      requires c in sys.callers && sys.callers[c] == Refused(stored, errClass)
      modifies grants
      ensures Mirrors(last) && last == Run(start, longer)
      ensures longer == trace + [DoFail(c, steps.failFault)]
      ensures c in last.callers && last.callers[c] == Done(outcome) && !outcome.Callback?
    {
      outcome := HandleProviderFailure(stored.id, errClass, steps);
      last, longer := Log(start, sys, trace, DoFail(c, steps.failFault));
    }

    /** The global claim. */
    method ClaimFirst(op: Operation, steps: Steps, c: nat, ghost start: System, sys: System, ghost trace: seq<Action>)
      returns (result: ClaimResult, last: System, ghost longer: seq<Action>)
      requires Mirrors(sys) && sys == Run(start, trace) && c !in sys.callers
      modifies grants
      ensures Mirrors(last) && last == Run(start, longer)
      ensures longer == trace + [DoClaim(c, op, steps.claimFault, steps.claimAt)]
      ensures c in last.callers && last.callers[c] == AfterClaim(result, Works)
      ensures result.Claimed? ==> result.row.key == op.key
    {
      result := grants.ClaimDecisionOperation(op, steps.claimFault, steps.claimAt);
      last, longer := Log(start, sys, trace, DoClaim(c, op, steps.claimFault, steps.claimAt));
    }

    /** resolveClaimConflict, as the caller's last step. */
    method LoseClaim(existing: Operation, steps: Steps, c: nat, ghost start: System, sys: System,
        ghost trace: seq<Action>)
      returns (outcome: CallerOutcome, last: System, ghost longer: seq<Action>)
      requires Mirrors(sys) && sys == Run(start, trace) && c in sys.callers && sys.callers[c] == Beaten(existing)
      modifies grants
      ensures Mirrors(last) && last == Run(start, longer) && trace <= longer
      ensures c in last.callers && last.callers[c] == Done(outcome)
    {
      outcome := ResolveClaimConflict(existing, steps);
      last, longer := Log(start, sys, trace, DoRepair(c, steps.grantId, steps.commitFault, steps.commitAt));
    }

    /** claimCompleteAndCommit. Whatever the faults and whatever everybody else does in
        between, the call is a run of the system in which this caller ends where the
        result says, and its first own step is the claim of the given plan. */
    method ClaimCompleteAndCommit(op: Operation, handleUsable: bool, steps: Steps, c: nat, sys: System)
      returns (outcome: CallerOutcome, last: System, ghost trace: seq<Action>)
      requires Mirrors(sys) && c !in sys.callers && AllElsewhere(steps, c)
      requires op.key == provider.KeyOf(op.key.request)
      modifies provider`completed, provider`completionAttempts, provider`ledger, grants
      ensures Mirrors(last) && last == Run(sys, trace)
      ensures c in last.callers && last.callers[c] == Done(outcome)
      ensures steps.before + [DoClaim(c, op, steps.claimFault, steps.claimAt)] <= trace
      ensures old(provider.completionAttempts) <= provider.completionAttempts <= old(provider.completionAttempts) + 1
    {
      last := Wait(sys, steps.before);
      RunElsewhere(sys, steps.before, c);
      var result;
      result, last, trace := ClaimFirst(op, steps, c, sys, last, steps.before);
      if result.ClaimError? { return StoreFailure, last, trace; }
      last, trace := WaitFor(sys, last, trace, steps.afterClaim, c);
      if result.Conflict? {
        outcome, last, trace := LoseClaim(result.existing, steps, c, sys, last, trace);
      } else {
        outcome, last, trace := CompleteWon(result.row, handleUsable, steps, c, sys, last, trace);
      }
    }

    // ---- The entry points ----

    function PlanFor(id: string, request: string, kind: CompletionKind, user: string, client: string,
        scopes: seq<string>)
      : Operation
    {
      Operation(id, provider.KeyOf(request), kind, user, client, scopes, Pending, None, None, 0)
    }

    /** A plan names the provider's own request and carries what it is asked to complete. */
    lemma PlanExactly(id: string, request: string, kind: CompletionKind, user: string, client: string,
        scopes: seq<string>)
      ensures var plan := PlanFor(id, request, kind, user, client, scopes);
        && plan.key.provider == provider.name && plan.key.tenant == provider.tenant && plan.key.request == request
        && plan.id == id && plan.kind == kind && plan.user == user && plan.client == client && plan.scopes == scopes
    {
    }

    /** Everything an entry point judges by, as it stands when the call starts. */
    ghost function Seen(request: string, inputs: Inputs): World
      reads provider, grants
    {
      World(provider.Answer(request), inputs.client, grants.grants, inputs.grantsReadable, inputs.now)
    }

    /** The same, as it will stand once the system has got to the given state. */
    ghost function SeenIn(sys: System, request: string, inputs: Inputs): World
      reads provider
    {
      World(provider.AnswerUnder(sys.provider, request), inputs.client, sys.store.grants, inputs.grantsReadable,
        inputs.now)
    }

    /** The last lines of every entry point: a plan enters claimCompleteAndCommit. */
    ghost predicate Entered(plan: Operation, steps: Steps, c: nat, outcome: CallerOutcome,
        sys: System, last: System, trace: seq<Action>)
    {
      && last == Run(sys, trace)
      && c in last.callers && last.callers[c] == Done(outcome)
      && steps.before + [DoClaim(c, plan, steps.claimFault, steps.claimAt)] <= trace
    }

    /** Decide. Nothing is claimed unless every check of DecideChecks passes and an Allow
        has its credential; the claimed plan is then the judged request. */
    method Decide(request: string, decision: Decision, session: Option<Session>, inputs: Inputs,
        steps: Steps, c: nat, sys: System)
      returns (result: DecisionResult, last: System, ghost trace: seq<Action>)
      requires Mirrors(sys) && c !in sys.callers && AllElsewhere(steps, c)
      modifies provider`completed, provider`completionAttempts, provider`ledger, grants
      ensures Mirrors(last)
      ensures var checks := DecideChecks(old(Seen(request, inputs)), request, session);
        match result
        case Rejected(e) => checks == Failure(e) && last == sys
        case NotAnErrorKind => false
        case CredentialRequired => checks.Success? && decision.DecisionAllow? && inputs.credential.Unusable?
            && last == sys
        case CredentialFailed => checks.Success? && decision.DecisionAllow? && inputs.credential.ReadFailed?
            && last == sys
        case Finished(outcome) =>
          && checks.Success? && (decision.DecisionAllow? ==> inputs.credential.Usable?)
          && Entered(PlanFor(inputs.operationId, request, decision.Kind(), session.value.user, checks.value.0.clientId,
                             if decision.DecisionAllow? then checks.value.1 else []),
                     steps, c, outcome, sys, last, trace)
      ensures result.Finished? ==>
        var answer := old(provider.Answer(request));
        && answer.Success? && session.Some? && inputs.client.Success?
        && exists plan ::
             && Entered(plan, steps, c, result.outcome, sys, last, trace)
             && plan.id == inputs.operationId && plan.key == Key(provider.name, provider.tenant, request)
             && plan.user == session.value.user && plan.client == inputs.client.value.clientId
             && (if decision == DecisionAllow
                 then plan.kind == Allow && Elements(plan.scopes) == Elements(answer.value.scopes)
                 else plan.kind == AccessDenied && plan.scopes == [])
    {
      last, trace := sys, [];
      if !ValidRequestId(request) { return Rejected(InvalidInput), last, trace; }
      if !SignedIn(session) { return Rejected(InvalidInput), last, trace; }
      var view := provider.GetAuthRequest(request);
      if view.Failure? {
        return Rejected(if AlreadyGone(view.error) then RequestExpired else ProviderReadError(view.error)), last, trace;
      }
      if !InteractivePromptsOk(view.value) { return Rejected(RequestExpired), last, trace; }
      var facts := BusinessFacts(inputs.client, view.value);
      if facts.Failure? { return Rejected(facts.error), last, trace; }
      if view.value.Has(PromptNone) { return Rejected(NotInteractive), last, trace; }
      if !AuthenticationSatisfied(view.value, session, inputs.now) { return Rejected(RequestExpired), last, trace; }
      if decision.DecisionAllow? {
        if inputs.credential.ReadFailed? { return CredentialFailed, last, trace; }
        if inputs.credential.Unusable? { return CredentialRequired, last, trace; }
      }
      var scopes := if decision.DecisionAllow? then facts.value.1 else [];
      var plan := PlanFor(inputs.operationId, request, decision.Kind(), session.value.user, facts.value.0.clientId,
          scopes);
      var outcome;
      outcome, last, trace := ClaimCompleteAndCommit(plan, true, steps, c, sys);
      result := Finished(outcome);
      DecideMeaning(old(Seen(request, inputs)), request, session);
      assert Entered(plan, steps, c, outcome, sys, last, trace);
    }

    /** DecideSilently. The grant is read again here, before anything is claimed. */
    method DecideSilently(request: string, session: Option<Session>, inputs: Inputs, steps: Steps, c: nat, sys: System)
      returns (result: DecisionResult, last: System, ghost trace: seq<Action>)
      requires Mirrors(sys) && c !in sys.callers && AllElsewhere(steps, c)
      modifies provider`completed, provider`completionAttempts, provider`ledger, grants
      ensures Mirrors(last)
      ensures var checks := SilentChecks(old(Seen(request, inputs)), request, session);
        match result
        case Rejected(e) => checks == Failure(e) && last == sys
        case NotAnErrorKind => false
        case CredentialRequired => checks.Success? && inputs.credential.Unusable? && last == sys
        case CredentialFailed => checks.Success? && inputs.credential.ReadFailed? && last == sys
        case Finished(outcome) =>
          && checks.Success? && inputs.credential.Usable?
          && Entered(PlanFor(inputs.operationId, request, Allow, session.value.user, checks.value.0.clientId,
              checks.value.1),
                     steps, c, outcome, sys, last, trace)
      ensures result.Finished? ==>
        var answer := old(provider.Answer(request));
        && answer.Success? && session.Some? && inputs.client.Success?
        && exists plan ::
             && Entered(plan, steps, c, result.outcome, sys, last, trace)
             && plan.id == inputs.operationId && plan.key == Key(provider.name, provider.tenant, request)
             && plan.user == session.value.user && plan.client == inputs.client.value.clientId
             && plan.kind == Allow && Elements(plan.scopes) == Elements(answer.value.scopes)
    {
      last, trace := sys, [];
      if !ValidRequestId(request) || !SignedIn(session) { return Rejected(InvalidInput), last, trace; }
      var view := provider.GetAuthRequest(request);
      if view.Failure? {
        return Rejected(if AlreadyGone(view.error) then RequestExpired else ProviderReadError(view.error)), last, trace;
      }
      if !PromptStructureOk(view.value) { return Rejected(NotInteractive), last, trace; }
      if !view.value.Has(PromptNone) { return Rejected(NotInteractive), last, trace; }
      var facts := BusinessFacts(inputs.client, view.value);
      if facts.Failure? { return Rejected(facts.error), last, trace; }
      if !AuthenticationSatisfied(view.value, session, inputs.now) { return Rejected(RequestExpired), last, trace; }
      var reusable := GrantReusable(grants.grants, inputs.grantsReadable, session, view.value, facts.value.0,
          facts.value.1);
      if reusable.Failure? { return Rejected(reusable.error), last, trace; }
      if !reusable.value { return Rejected(SilentReuseUnavailable), last, trace; }
      if inputs.credential.ReadFailed? { return CredentialFailed, last, trace; }
      if inputs.credential.Unusable? { return CredentialRequired, last, trace; }
      var plan := PlanFor(inputs.operationId, request, Allow, session.value.user, facts.value.0.clientId,
          facts.value.1);
      var outcome;
      outcome, last, trace := ClaimCompleteAndCommit(plan, true, steps, c, sys);
      result := Finished(outcome);
      SilentMeaning(old(Seen(request, inputs)), request, session);
      assert Entered(plan, steps, c, outcome, sys, last, trace);
    }

    /** CompleteWithErrorCallback. User decisions never pass here, so no grant can follow. */
    method CompleteWithErrorCallback(request: string, kind: CompletionKind, session: Option<Session>, client: string,
        inputs: Inputs, steps: Steps, c: nat, sys: System)
      returns (result: DecisionResult, last: System, ghost trace: seq<Action>)
      requires Mirrors(sys) && c !in sys.callers && AllElsewhere(steps, c)
      modifies provider`completed, provider`completionAttempts, provider`ledger, grants
      ensures Mirrors(last)
      ensures var answer := old(provider.Answer(request));
        match result
        case Rejected(e) => last == sys &&
          e == (if !ValidRequestId(request) then InvalidInput
                else if answer.Failure? && !AlreadyGone(answer.error) then ProviderReadError(answer.error)
                else RequestExpired)
          && (ValidRequestId(request) ==> answer.Failure?)
        case NotAnErrorKind => last == sys && (!kind.Valid() || kind.IsUserDecision())
        case CredentialRequired => false
        case CredentialFailed => false
        case Finished(outcome) =>
          && kind.Valid() && !kind.IsUserDecision() && answer.Success?
          && Entered(PlanFor(inputs.operationId, request, kind,
                             if session.Some? then session.value.user else "", client, []),
                     steps, c, outcome, sys, last, trace)
    {
      last, trace := sys, [];
      if !kind.Valid() || kind.IsUserDecision() { return NotAnErrorKind, last, trace; }
      if !ValidRequestId(request) { return Rejected(InvalidInput), last, trace; }
      var view := provider.GetAuthRequest(request);
      if view.Failure? {
        return Rejected(if AlreadyGone(view.error) then RequestExpired else ProviderReadError(view.error)), last, trace;
      }
      var user := if session.Some? then session.value.user else "";
      var plan := PlanFor(inputs.operationId, request, kind, user, client, []);
      var outcome;
      outcome, last, trace := ClaimCompleteAndCommit(plan, true, steps, c, sys);
      result := Finished(outcome);
    }
  }

  // ---- What a call achieves when nothing goes wrong ----

  function Undisturbed(c: nat, op: Operation, gid: string, at: int): seq<Action> {
    [DoClaim(c, op, Works, at), DoCall(c, Completed), DoProof(c, Works, at), DoCommit(c, gid, Works, at)]
  }

  /** The succeeded row of a plan. */
  ghost predicate Fulfils(row: Operation, op: Operation, at: int) {
    && row.status.Succeeded? && row.provenAt == Some(at) && row.createdAt == at && row.errorClass.None?
    && row.id == op.id && row.key == op.key && row.kind == op.kind && row.user == op.user && row.client == op.client
    && Elements(row.scopes) == Elements(op.scopes)
  }

  /** The audit event of a completed plan. */
  predicate Tells(e: AuditEvent, op: Operation) {
    && e.actor == op.user && e.client == op.client && e.requestId == op.id
    && (e.eventType == if op.kind == Allow then GrantAllowed
                       else if op.kind == AccessDenied then AccessDeniedRecorded else ErrorCompleted)
    && (e.operation == if op.kind == Allow then "consent_allow"
                       else if op.kind == AccessDenied then "consent_deny" else "consent_error_completion")
    && (e.success <==> op.kind == Allow)
    && (e.failureClass == if op.kind in {Allow, AccessDenied} then None else Some(op.kind))
  }

  predicate CanWin(sys: System, op: Operation) {
    ValidForClaim(op) && op.key !in sys.store.claims && op.id !in sys.store.ops && op.key !in sys.provider.consumed
  }

  /** A call that nobody disturbs and nothing fails returns a callback exactly when its plan
      is valid, its request is unclaimed and open and its identifier is new; the row is then
      succeeded, and for an Allow the grant of its pair is active with exactly its scopes. */
  lemma UndisturbedCall(sys: System, c: nat, op: Operation, gid: string, at: int)
    requires Inv(sys) && c !in sys.callers && IsGrantId(gid) && gid !in sys.store.grantIds
    ensures var end := Run(sys, Undisturbed(c, op, gid, at));
      && c in end.callers
      && (end.callers[c] == Done(Callback(op.id)) <==> CanWin(sys, op))
      && (CanWin(sys, op) ==>
            && op.id in end.store.ops && Fulfils(end.store.ops[op.id], op, at)
            && |end.store.audit| == |sys.store.audit| + 1 && sys.store.audit <= end.store.audit
            && Tells(end.store.audit[|sys.store.audit|], op)
            && (if op.kind.Allow? then
                  && (op.user, op.client) in end.store.grants && end.store.grants[(op.user, op.client)].active
                  && Elements(end.store.grants[(op.user, op.client)].scopes) == Elements(op.scopes)
                else end.store.grants == sys.store.grants))
  {
    FourSteps(sys, DoClaim(c, op, Works, at), DoCall(c, Completed), DoProof(c, Works, at), DoCommit(c, gid, Works, at));
    if CanWin(sys, op) {
      var row := Claim(sys.store, op, at).1.row;
      ClaimKeeps(sys.store, op, at);
      ClaimedPlanOk(sys.store, op, at);
      WinUpToProof(sys, c, op, at);
      var s3 := Apply(Apply(Apply(sys, DoClaim(c, op, Works, at)), DoCall(c, Completed)), DoProof(c, Works, at));
      CommitOfProven(s3, c, row, gid, at);
    } else {
      LoseStaysLost(sys, c, op, gid, at);
    }
  }

  lemma WinUpToProof(sys: System, c: nat, op: Operation, at: int)
    requires Inv(sys) && c !in sys.callers && CanWin(sys, op)
    ensures var row := Claim(sys.store, op, at).1.row;
      var s3 := Apply(Apply(Apply(sys, DoClaim(c, op, Works, at)), DoCall(c, Completed)), DoProof(c, Works, at));
      && Inv(s3) && c in s3.callers && s3.callers[c] == Proven(row)
      && row.id in s3.store.ops && s3.store.ops[row.id] == row.(status := ProviderSucceeded, provenAt := Some(at))
      && SameGrants(sys.store, s3.store) && s3.store.audit == sys.store.audit
  {
    var row := Claim(sys.store, op, at).1.row;
    var s1 := Apply(sys, DoClaim(c, op, Works, at));
    StepKeeps(sys, DoClaim(c, op, Works, at));
    CallOfWon(s1, c, row);
    ProofOfHolding(Apply(s1, DoCall(c, Completed)), c, row, at);
  }

  lemma CallOfWon(sys: System, c: nat, row: Operation)
    requires Inv(sys) && c in sys.callers && sys.callers[c] == Won(row) && row.key !in sys.provider.consumed
    ensures var next := Apply(sys, DoCall(c, Completed));
      Inv(next) && next.store == sys.store && c in next.callers && next.callers[c] == Holding(row)
  {
    StepKeeps(sys, DoCall(c, Completed));
  }

  lemma ProofOfHolding(sys: System, c: nat, row: Operation, at: int)
    requires Inv(sys) && c in sys.callers && sys.callers[c] == Holding(row)
    requires row.id in sys.store.ops && sys.store.ops[row.id] == row && row.status.Pending?
    ensures var next := Apply(sys, DoProof(c, Works, at));
      && Inv(next) && c in next.callers && next.callers[c] == Proven(row)
      && row.id in next.store.ops && next.store.ops[row.id] == row.(status := ProviderSucceeded, provenAt := Some(at))
      && SameGrants(sys.store, next.store) && next.store.audit == sys.store.audit
  {
    StepKeeps(sys, DoProof(c, Works, at));
  }

  lemma CommitOfProven(sys: System, c: nat, row: Operation, gid: string, at: int)
    requires Inv(sys) && c in sys.callers && sys.callers[c] == Proven(row) && GrantIdUsable(sys.store, gid)
    requires row.id in sys.store.ops && sys.store.ops[row.id].status.ProviderSucceeded?
    ensures var end := Apply(sys, DoCommit(c, gid, Works, at));
      && c in end.callers && end.callers[c] == Done(Callback(row.id))
      && PlanCommitted(sys.store, end.store, row)
  {
    assert SamePlan(row, sys.store.ops[row.id]);
    CommitPersists(sys, c, row, gid, Works, at);
    ProvenPlanCommits(sys.store, row, gid, at);
  }

  lemma CommitPersists(sys: System, c: nat, row: Operation, gid: string, fault: Fault, at: int)
    requires c in sys.callers && sys.callers[c] == Proven(row)
    ensures Apply(sys, DoCommit(c, gid, fault, at)) ==
      sys.(store := if fault.FailsBefore? then sys.store else RepairForward(sys.store, row, gid, at).0,
           callers := sys.callers[c := Done(Callback(row.id))])
  {
  }

  /** The commit of a proven row by whoever knows its plan. */
  lemma ProvenPlanCommits(s: Store, row: Operation, gid: string, at: int)
    requires StoreInv(s) && PlansOk(s) && GrantIdUsable(s, gid)
    requires row.id in s.ops && s.ops[row.id].status.ProviderSucceeded? && SamePlan(row, s.ops[row.id])
    ensures PlanCommitted(s, RepairForward(s, row, gid, at).0, row)
  {
    assert RepairForward(s, row, gid, at) == RepairForward(s, s.ops[row.id], gid, at);
    ProvenRowsCommit(s, row.id, gid, at);
    RepairCommits(s, row, gid, at);
    match row.kind
    case Allow => CommitAllowKeeps(s, row.id, gid, at);
    case AccessDenied => CommitDenyKeeps(s, row.id);
    case _ => CommitErrorKeeps(s, row.id);
  }

  ghost predicate PlanCommitted(s: Store, t: Store, row: Operation) {
    && row.id in s.ops && row.id in t.ops && t.ops[row.id] == s.ops[row.id].(status := Succeeded)
    && t.audit == s.audit + [CanonicalAudit(row)]
    && (if row.kind.Allow? then
          && (row.user, row.client) in t.grants && t.grants[(row.user, row.client)].active
          && t.grants[(row.user, row.client)].scopes == row.scopes
        else t.grants == s.grants)
  }

  lemma LoseStaysLost(sys: System, c: nat, op: Operation, gid: string, at: int)
    requires c !in sys.callers && !CanWin(sys, op)
    ensures var end := Apply(Apply(Apply(Apply(sys, DoClaim(c, op, Works, at)), DoCall(c, Completed)),
                                   DoProof(c, Works, at)), DoCommit(c, gid, Works, at));
      c in end.callers && end.callers[c] != Done(Callback(op.id))
  {
    var s1 := Apply(sys, DoClaim(c, op, Works, at));
    var s2 := Apply(s1, DoCall(c, Completed));
    assert c in s2.callers && !s2.callers[c].Holding? && !s2.callers[c].Proven?
      && (s2.callers[c].Done? ==> !s2.callers[c].outcome.Callback?);
  }

  lemma FourSteps(sys: System, a: Action, b: Action, c: Action, d: Action)
    ensures Run(sys, [a, b, c, d]) == Apply(Apply(Apply(Apply(sys, a), b), c), d)
  {
    RunOneMore(sys, [], a);
    RunOneMore(sys, [a], b);
    RunOneMore(sys, [a, b], c);
    RunOneMore(sys, [a, b, c], d);
    assert [] + [a] == [a] && [a] + [b] == [a, b] && [a, b] + [c] == [a, b, c] && [a, b, c] + [d] == [a, b, c, d];
  }
}
