/** The interaction gateway (backend/internal/consent/gateway.go): where an arriving
    authorization request is sent, and which completion, if any, it triggers. The gateway
    judges a prompt=none request on a first look and the decision service judges it again
    on a second one; anything may happen in between. */
module Gateway {
  import opened Outcomes
  import opened Scopes
  import opened Operations
  import opened Protocol
  import opened Resolution
  import opened Backend
  import opened Decisions

  datatype GatewayAction =
    | RedirectLogin
    | RedirectAuthorize
    | ProviderCallback(opId: string)
    | ExpiredPage
    | BadRequestPage

  /** None stands for an error the gateway does not classify. */
  type Routed = Option<GatewayAction>

  /** The one completion an arrival may start: none, one that could not read its request, or
      one that entered the claim with a plan, and how that ended. */
  datatype Attempt =
    | Nothing
    | Gone(kind: CompletionKind, reason: Option<ErrorClass>)
    | Tried(plan: Operation, outcome: CallerOutcome)

  function AttemptKind(a: Attempt): Option<CompletionKind> {
    match a
    case Nothing => None
    case Gone(kind, _) => Some(kind)
    case Tried(plan, _) => Some(plan.kind)
  }

  /** The two looks, and what others do between them and before an error completion. */
  datatype Looks = Looks(first: Inputs, between: seq<Action>, second: Inputs, later: seq<Action>)

  predicate LooksElsewhere(looks: Looks, c: nat) {
    Elsewhere(looks.between, c) && Elsewhere(looks.later, c)
  }

  ghost predicate Recorded(attempt: Attempt, steps: Steps, c: nat, sys: System, last: System, trace: seq<Action>) {
    && last == Run(sys, trace)
    && match attempt
       case Nothing => c !in last.callers
       case Gone(_, _) => c !in last.callers
       case Tried(plan, outcome) =>
         && c in last.callers && last.callers[c] == Done(outcome)
         && DoClaim(c, plan, steps.claimFault, steps.claimAt) in trace
  }

  /** What a completion is answered with. */
  function PageAfter(result: DecisionResult): Routed {
    match result
    case Finished(Callback(id)) => Some(ProviderCallback(id))
    case Finished(AlreadyDecided) => Some(ExpiredPage)
    case Rejected(RequestExpired) => Some(ExpiredPage)
    case _ => None
  }

  /** The page of every completion that was started: what the provider answered when it
      started, and then how it ended. */
  ghost predicate Shown(attempt: Attempt, action: Routed, answer: Result<View, Option<ErrorClass>>) {
    match attempt
    case Nothing => true
    case Gone(_, reason) =>
      answer == Failure(reason) && action == if AlreadyGone(reason) then Some(ExpiredPage) else None
    case Tried(_, outcome) =>
      && answer.Success?
      && action == if outcome.Callback? then Some(ProviderCallback(outcome.opId))
                   else if outcome.AlreadyDecided? then Some(ExpiredPage) else None
  }

  lemma EnteredRecorded(plan: Operation, steps: Steps, c: nat, outcome: CallerOutcome,
      start: System, before: seq<Action>, sys: System, last: System, trace: seq<Action>)
    requires sys == Run(start, before)
    requires last == Run(sys, trace) && c in last.callers && last.callers[c] == Done(outcome)
    requires steps.before + [DoClaim(c, plan, steps.claimFault, steps.claimAt)] <= trace
    ensures Recorded(Tried(plan, outcome), steps, c, start, last, before + trace)
  {
    RunAppend(start, before, trace);
    var claim := DoClaim(c, plan, steps.claimFault, steps.claimAt);
    assert (steps.before + [claim])[|steps.before|] == claim;
    assert trace[|steps.before|] == claim;
    assert (before + trace)[|before| + |steps.before|] == claim;
  }

  /** The page of an interactive arrival. */
  function PageFor(resolved: Result<ResolutionStatus, ConsentError>): Routed {
    if resolved in {Success(Valid), Success(AlreadyAuthorized)} then Some(RedirectAuthorize)
    else if resolved == Success(Unauthenticated) then Some(RedirectLogin)
    else if resolved == Success(ExpiredRequest) then Some(ExpiredPage)
    else if resolved.Failure? && !resolved.error.NotInteractive? then None
    else Some(BadRequestPage)
  }

  /** The first look already calls for an error completion. */
  ghost predicate FirstDecides(first: World, request: string, session: Option<Session>)
    requires first.provider.Success?
  {
    || !AuthenticationSatisfied(first.provider.value, session, first.now)
    || SilentChecks(first, request, session) == Failure(SilentReuseUnavailable)
  }

  /** What others did before the completion of a prompt=none arrival started. */
  ghost function Lead(first: World, second: World, request: string, session: Option<Session>, looks: Looks): seq<Action>
    requires first.provider.Success?
  {
    if FirstDecides(first, request, session) then looks.later
    else if SilentChecks(second, request, session).Success? && looks.second.credential.Usable? then looks.between
    else looks.between + looks.later
  }

  /** What the second look calls for. */
  ghost function SecondKind(checks: Result<(ClientFacts, seq<string>), ConsentError>, credential: Credential)
    : Option<CompletionKind>
  {
    match checks
    case Failure(SilentReuseUnavailable) => Some(ConsentRequired)
    case Failure(_) => None
    case Success(_) =>
      match credential
      case Usable => Some(Allow)
      case Unusable => Some(LoginRequired)
      case ReadFailed => None
  }

  ghost function SecondPage(checks: Result<(ClientFacts, seq<string>), ConsentError>): Routed {
    match checks
    case Failure(e) => if e.RequestExpired? || e.NotInteractive? then Some(ExpiredPage) else None
    case Success(_) => None
  }

  /** The completion a prompt=none arrival starts, in terms of the two looks through the eyes
      of DecideSilently. */
  ghost function NoneKind(first: World, second: World, request: string, session: Option<Session>,
      credential: Credential)
    : Option<CompletionKind>
    requires first.provider.Success?
  {
    if !AuthenticationSatisfied(first.provider.value, session, first.now) then Some(LoginRequired)
    else
      match SilentChecks(first, request, session)
      case Failure(SilentReuseUnavailable) => Some(ConsentRequired)
      case Failure(_) => None
      case Success(_) => SecondKind(SilentChecks(second, request, session), credential)
  }

  /** The page a prompt=none arrival gets when it starts no completion. */
  ghost function NonePage(first: World, second: World, request: string, session: Option<Session>): Routed {
    match SilentChecks(first, request, session)
    case Failure(e) => if e.RequestExpired? then Some(BadRequestPage) else None
    case Success(_) => SecondPage(SilentChecks(second, request, session))
  }

  predicate NeverAForm(action: Routed) { action !in {Some(RedirectLogin), Some(RedirectAuthorize)} }

  /** An Allow claims the client and the scopes that were judged. */
  ghost predicate AllowsJudged(plan: Operation, checks: Result<(ClientFacts, seq<string>), ConsentError>,
      session: Option<Session>)
  {
    && checks.Success? && session.Some? && plan.user == session.value.user
    && plan.client == checks.value.0.clientId && plan.scopes == checks.value.1
  }

  /** What a prompt=none arrival did, exactly: which completion it started or which page it
      got, and that an Allow claims what the second look judged. */
  ghost predicate NoneJudged(first: World, second: World, request: string, session: Option<Session>,
      looks: Looks, attempt: Attempt, action: Routed)
    requires first.provider.Success?
  {
    && AttemptKind(attempt) == NoneKind(first, second, request, session, looks.second.credential)
    && (attempt.Nothing? ==> action == NonePage(first, second, request, session))
    && (attempt.Tried? && attempt.plan.kind.Allow? ==>
          AllowsJudged(attempt.plan, SilentChecks(second, request, session), session))
  }

  lemma FirstLookJudged(first: World, second: World, request: string, session: Option<Session>, looks: Looks,
      attempt: Attempt, action: Routed)
    requires first.provider.Success? && FirstDecides(first, request, session)
    requires AttemptKind(attempt) ==
      Some(if AuthenticationSatisfied(first.provider.value, session, first.now) then ConsentRequired else LoginRequired)
    ensures NoneJudged(first, second, request, session, looks, attempt, action)
    ensures Lead(first, second, request, session, looks) == looks.later
  {
  }

  lemma FirstLookStopped(first: World, second: World, request: string, session: Option<Session>, looks: Looks,
      action: Routed)
    requires first.provider.Success? && AuthenticationSatisfied(first.provider.value, session, first.now)
    requires SilentChecks(first, request, session).Failure?
    requires !SilentChecks(first, request, session).error.SilentReuseUnavailable?
    requires action == NonePage(first, second, request, session)
    ensures NoneJudged(first, second, request, session, looks, Nothing, action)
  {
  }

  lemma SecondLookJudged(first: World, second: World, request: string, session: Option<Session>, looks: Looks,
      attempt: Attempt, action: Routed)
    requires first.provider.Success? && AuthenticationSatisfied(first.provider.value, session, first.now)
    requires SilentChecks(first, request, session).Success?
    requires var checks := SilentChecks(second, request, session);
      && AttemptKind(attempt) == SecondKind(checks, looks.second.credential)
      && (attempt.Nothing? ==> action == SecondPage(checks))
      && (attempt.Tried? && attempt.plan.kind.Allow? ==> AllowsJudged(attempt.plan, checks, session))
    ensures NoneJudged(first, second, request, session, looks, attempt, action)
    ensures Lead(first, second, request, session, looks) ==
      if SilentChecks(second, request, session).Success? && looks.second.credential.Usable? then looks.between
      else looks.between + looks.later
  {
  }

  /** The page of an interactive request, in terms of what the request, its client, the
      session and the stored consent are: login exactly for a servable request whose session
      is absent or stale, the consent page exactly for one whose session will do and whose
      stored consent can be judged, expired exactly for a request the provider no longer
      serves, bad request for what can never be served. Anything unreadable is no page. */
  lemma PageMeaning(w: World, request: string, s: Option<Session>)
    requires w.provider.Success? ==> PromptNone !in w.provider.value.prompts
    ensures var page := PageFor(Resolve(w, request, s));
      var servable := Servable(w, request);
      var live := servable && AuthenticationSatisfied(w.provider.value, s, w.now);
      var named := 1 <= |request| <= 200;
      && (page == Some(RedirectLogin) <==> servable && !live)
      && (page == Some(RedirectAuthorize) <==> live && (w.grantsReadable || !GrantMatters(w)))
      && (page == Some(ExpiredPage) <==> named && w.provider.Failure? && ReadsAsGone(w.provider.error))
      && (page == Some(BadRequestPage) <==>
            && named && w.provider.Success? && !servable
            && (PromptsServable(w.provider.value) ==> w.client != Failure(ClientReadFailed)))
      && (page.None? <==>
            || !named || (w.provider.Failure? && !ReadsAsGone(w.provider.error))
            || (w.provider.Success? && PromptsServable(w.provider.value) && w.client == Failure(ClientReadFailed))
            || (live && GrantMatters(w) && !w.grantsReadable))
  {
    ResolveFreshCases(w, request, s);
    ResolveRefuses(w, request, s);
  }

  /** The silent authorization may go ahead as far as this look can tell. */
  ghost predicate Passes(w: World, request: string, s: Option<Session>) {
    && Servable(w, request) && w.provider.value.prompts == [PromptNone]
    && AuthenticationSatisfied(w.provider.value, s, w.now) && Reusable(w, s.value.user)
  }

  /** Only the stored consent stands in the way. */
  ghost predicate ConsentMissing(w: World, request: string, s: Option<Session>) {
    && Servable(w, request) && w.provider.value.prompts == [PromptNone]
    && AuthenticationSatisfied(w.provider.value, s, w.now)
    && (w.grantsReadable || !GrantMatters(w)) && !Reusable(w, s.value.user)
  }

  /** Which completion a prompt=none arrival starts: an Allow exactly if both looks pass and the
      credential is usable; login_required exactly for a session that will not do at the first
      look or an unusable credential after both; consent_required exactly if only the consent
      is missing at a look that is reached. */
  lemma NoneMeaning(first: World, second: World, request: string, s: Option<Session>, credential: Credential)
    requires ValidRequestId(request) && first.provider.Success? && first.provider.value.prompts == [PromptNone]
    ensures var kind := NoneKind(first, second, request, s, credential);
      var both := Passes(first, request, s) && Passes(second, request, s);
      && (kind == Some(Allow) <==> both && credential == Usable)
      && (kind == Some(LoginRequired) <==>
            || !AuthenticationSatisfied(first.provider.value, s, first.now)
            || (both && credential == Unusable))
      && (kind == Some(ConsentRequired) <==>
            || ConsentMissing(first, request, s)
            || (Passes(first, request, s) && ConsentMissing(second, request, s)))
      && (kind.Some? ==> kind.value in {Allow, LoginRequired, ConsentRequired})
  {
    SilentCases(first, request, s);
    SilentRefuses(first, request, s);
    SilentCases(second, request, s);
    SilentRefuses(second, request, s);
  }

  /** And the page it gets without one: bad request exactly for a request that cannot be served
      at the first look, expired exactly if the second look finds it gone or no longer
      servable, and no page for anything unreadable. */
  lemma NonePageMeaning(first: World, second: World, request: string, s: Option<Session>, credential: Credential)
    requires ValidRequestId(request) && first.provider.Success? && first.provider.value.prompts == [PromptNone]
    requires NoneKind(first, second, request, s, credential).None?
    ensures var page := NonePage(first, second, request, s);
      var readable := second.provider.Success? || ReadsAsGone(second.provider.error);
      && (page == Some(BadRequestPage) <==>
            !Servable(first, request) && first.client != Failure(ClientReadFailed))
      && (page == Some(ExpiredPage) <==>
            && Passes(first, request, s) && readable
            && (second.provider.Success? && second.provider.value.prompts == [PromptNone] ==>
                  && second.client != Failure(ClientReadFailed)
                  && !(Servable(second, request) && AuthenticationSatisfied(second.provider.value, s, second.now))))
      && page in {None, Some(BadRequestPage), Some(ExpiredPage)}
  {
    SilentCases(first, request, s);
    SilentRefuses(first, request, s);
    SilentCases(second, request, s);
    SilentRefuses(second, request, s);
  }

  /** A revocation, or anything else that leaves the consent unusable, between the two
      looks: whatever the first look saw, no Allow is claimed; and if nothing else changed,
      the answer is consent_required. */
  lemma RevokedBetweenLooks(first: World, second: World, request: string, session: Option<Session>,
      looks: Looks, attempt: Attempt, action: Routed)
    requires first.provider.Success? && NoneJudged(first, second, request, session, looks, attempt, action)
    requires SignedIn(session) && !Reusable(second, session.value.user)
    ensures AttemptKind(attempt) != Some(Allow)
    ensures SilentChecks(first, request, session).Success? && second.grantsReadable
            && second == first.(grants := second.grants, now := second.now, grantsReadable := true)
            && AuthenticationSatisfied(first.provider.value, session, second.now) ==>
      AttemptKind(attempt) == Some(ConsentRequired)
  {
    SilentMeaning(second, request, session);
    SilentMeaning(first, request, session);
  }

  /** In particular: the owner revokes the consent between the two looks, and nothing else
      that matters changes. The second look is what Route judges by. */
  lemma RevocationInBetween(sys: System, grantId: string, at: int, first: World, second: World,
      request: string, session: Option<Session>, looks: Looks, attempt: Attempt, action: Routed)
    requires first.provider.Success? && NoneJudged(first, second, request, session, looks, attempt, action)
    requires first.grants == sys.store.grants && SilentChecks(first, request, session).Success?
    requires IsGrantId(grantId) && grantId in sys.store.grantIds
    requires sys.store.grantIds[grantId] == (session.value.user, first.client.value.clientId)
    requires looks.between == [DoRevoke(session.value.user, grantId, Works, at)]
    requires second == first.(grants := Run(sys, looks.between).store.grants, now := second.now)
    requires AuthenticationSatisfied(first.provider.value, session, second.now)
    ensures AttemptKind(attempt) == Some(ConsentRequired)
  {
    SilentMeaning(first, request, session);
    assert Run(sys, looks.between) == Apply(sys, looks.between[0]) by {
      assert looks.between[1..] == [];
      assert Run(Apply(sys, looks.between[0]), []) == Apply(sys, looks.between[0]);
    }
    RevokedBetweenLooks(first, second, request, session, looks, attempt, action);
  }

  class InteractionGateway {
    const decisions: DecisionService

    constructor (service: DecisionService)
      ensures decisions == service
    {
      decisions := service;
    }

    /** What the second look will see, after others have acted. */
    ghost function SecondLook(sys: System, looks: Looks, request: string): World
      reads decisions.provider
    {
      decisions.SeenIn(Run(sys, looks.between), request, looks.second)
    }

    ghost function AnswerAfter(sys: System, actions: seq<Action>, request: string): Result<View, Option<ErrorClass>>
      reads decisions.provider
    {
      decisions.provider.AnswerUnder(Run(sys, actions).provider, request)
    }

    /** completeError: at most one claim, of exactly the given kind. */
    method CompleteError(request: string, kind: CompletionKind, session: Option<Session>, client: string,
        inputs: Inputs, steps: Steps, c: nat, ghost start: System, ghost before: seq<Action>, sys: System)
      returns (action: Routed, ghost attempt: Attempt, last: System, ghost trace: seq<Action>)
      requires decisions.Mirrors(sys) && c !in sys.callers && AllElsewhere(steps, c) && sys == Run(start, before)
      requires kind.Valid() && !kind.IsUserDecision() && ValidRequestId(request)
      modifies decisions.provider`completed, decisions.provider`completionAttempts, decisions.provider`ledger
      modifies decisions.grants
      ensures decisions.Mirrors(last) && Recorded(attempt, steps, c, start, last, before + trace)
      ensures AttemptKind(attempt) == Some(kind) && Shown(attempt, action, old(AnswerAfter(start, before, request)))
      ensures attempt.Gone? ==> last == sys
    {
      ghost var answer := decisions.provider.Answer(request);
      var result;
      result, last, trace := decisions.CompleteWithErrorCallback(request, kind, session, client, inputs, steps, c, sys);
      action := PageAfter(result);
      assert before + [] == before;
      if result.Finished? {
        ghost var user := if session.Some? then session.value.user else "";
        attempt := Tried(decisions.PlanFor(inputs.operationId, request, kind, user, client, []), result.outcome);
        EnteredRecorded(attempt.plan, steps, c, result.outcome, start, before, sys, last, trace);
      } else {
        attempt, trace := Gone(kind, answer.error), [];
      }
    }

    /** Others act, and then the error completion starts. */
    method LaterError(request: string, kind: CompletionKind, session: Option<Session>, client: string,
        looks: Looks, steps: Steps, c: nat, ghost start: System, ghost before: seq<Action>, sys: System)
      returns (action: Routed, ghost attempt: Attempt, last: System, ghost trace: seq<Action>)
      requires decisions.Mirrors(sys) && c !in sys.callers && AllElsewhere(steps, c) && sys == Run(start, before)
      requires kind.Valid() && !kind.IsUserDecision() && ValidRequestId(request) && Elsewhere(looks.later, c)
      modifies decisions.provider`completed, decisions.provider`completionAttempts, decisions.provider`ledger
      modifies decisions.grants
      ensures decisions.Mirrors(last) && Recorded(attempt, steps, c, start, last, trace)
      ensures AttemptKind(attempt) == Some(kind)
      ensures Shown(attempt, action, old(AnswerAfter(start, before + looks.later, request)))
    {
      last := decisions.Wait(sys, looks.later);
      RunElsewhere(sys, looks.later, c);
      RunAppend(start, before, looks.later);
      ghost var rest;
      action, attempt, last, rest :=
        CompleteError(request, kind, session, client, looks.second, steps, c, start, before + looks.later, last);
      trace := before + looks.later + rest;
    }

    /** The silent part of executeNone: the second look decides. */
    method TrySilently(request: string, session: Option<Session>, client: string, looks: Looks,
        steps: Steps, c: nat, sys: System)
      returns (action: Routed, ghost attempt: Attempt, last: System, ghost trace: seq<Action>)
      requires decisions.Mirrors(sys) && c !in sys.callers && AllElsewhere(steps, c) && LooksElsewhere(looks, c)
      requires ValidRequestId(request)
      modifies decisions.provider`completed, decisions.provider`completionAttempts, decisions.provider`ledger
      modifies decisions.grants
      ensures decisions.Mirrors(last) && Recorded(attempt, steps, c, sys, last, trace)
      ensures var checks := SilentChecks(old(SecondLook(sys, looks, request)), request, session);
        && AttemptKind(attempt) == SecondKind(checks, looks.second.credential)
        && (attempt.Nothing? ==> action == SecondPage(checks))
        && (attempt.Tried? && attempt.plan.kind.Allow? ==> AllowsJudged(attempt.plan, checks, session))
        && Shown(attempt, action,
                 old(AnswerAfter(sys,
                       if checks.Success? && looks.second.credential.Usable? then looks.between
                       else looks.between + looks.later,
                       request)))
    {
      last := decisions.Wait(sys, looks.between);
      RunElsewhere(sys, looks.between, c);
      ghost var mid, judged := last, SilentChecks(decisions.Seen(request, looks.second), request, session);
      ghost var rest;
      var result;
      result, last, rest := decisions.DecideSilently(request, session, looks.second, steps, c, last);
      match result {
        case Finished(outcome) =>
          attempt := Tried(decisions.PlanFor(looks.second.operationId, request, Allow, session.value.user,
                                             judged.value.0.clientId, judged.value.1), outcome);
          EnteredRecorded(attempt.plan, steps, c, outcome, sys, looks.between, mid, last, rest);
          trace := looks.between + rest;
          action := PageAfter(result);
        case Rejected(SilentReuseUnavailable) =>
          action, attempt, last, trace :=
            LaterError(request, ConsentRequired, session, client, looks, steps, c, sys, looks.between, last);
        case CredentialRequired =>
          action, attempt, last, trace :=
            LaterError(request, LoginRequired, session, "", looks, steps, c, sys, looks.between, last);
        case Rejected(error) =>
          attempt, trace := Nothing, looks.between;
          action := if error.RequestExpired? || error.NotInteractive? then Some(ExpiredPage) else None;
        case _ =>
          attempt, trace, action := Nothing, looks.between, None;
      }
    }

    /** executeNone: no login and no consent page, ever. An Allow needs both looks to allow
        it; consent_required and login_required have their reason in one of the looks. */
    method ExecuteNone(request: string, view: View, session: Option<Session>, looks: Looks, steps: Steps, c: nat,
        sys: System)
      returns (action: Routed, ghost attempt: Attempt, last: System, ghost trace: seq<Action>)
      requires decisions.Mirrors(sys) && c !in sys.callers && AllElsewhere(steps, c) && LooksElsewhere(looks, c)
      requires ValidRequestId(request) && decisions.provider.Answer(request) == Success(view)
      requires PromptStructureOk(view) && view.Has(PromptNone)
      modifies decisions.provider`completed, decisions.provider`completionAttempts, decisions.provider`ledger
      modifies decisions.grants
      ensures decisions.Mirrors(last) && Recorded(attempt, steps, c, sys, last, trace)
      ensures var first, second := old(decisions.Seen(request, looks.first)), old(SecondLook(sys, looks, request));
        && NoneJudged(first, second, request, session, looks, attempt, action)
        && Shown(attempt, action, old(AnswerAfter(sys, Lead(first, second, request, session, looks), request)))
    {
      assert [] + looks.later == looks.later;
      ghost var first, second := decisions.Seen(request, looks.first), SecondLook(sys, looks, request);
      if !SignedIn(session) || !AuthenticationSatisfied(view, session, looks.first.now) {
        action, attempt, last, trace := LaterError(request, LoginRequired, session, "", looks, steps, c, sys, [], sys);
        FirstLookJudged(first, second, request, session, looks, attempt, action);
        return;
      }
      var facts := BusinessFacts(looks.first.client, view);
      if facts.Failure? {
        action := if facts.error.RequestExpired? then Some(BadRequestPage) else None;
        FirstLookStopped(first, second, request, session, looks, action);
        return action, Nothing, sys, [];
      }
      var reusable := GrantReusable(decisions.grants.grants, looks.first.grantsReadable, session, view,
                                    facts.value.0, facts.value.1);
      if reusable.Failure? {
        FirstLookStopped(first, second, request, session, looks, None);
        return None, Nothing, sys, [];
      }
      if !reusable.value {
        action, attempt, last, trace :=
          LaterError(request, ConsentRequired, session, facts.value.0.clientId, looks, steps, c, sys, [], sys);
        FirstLookJudged(first, second, request, session, looks, attempt, action);
        return;
      }
      action, attempt, last, trace := TrySilently(request, session, facts.value.0.clientId, looks, steps, c, sys);
      SecondLookJudged(first, second, request, session, looks, attempt, action);
    }

    /** routeInteractive: the single resolution judgment; nothing is claimed or completed. */
    method RouteInteractive(request: string, session: Option<Session>, looks: Looks, sys: System)
      returns (action: Routed, last: System)
      requires decisions.Mirrors(sys)
      modifies decisions.provider`completed, decisions.provider`ledger, decisions.grants
      ensures decisions.Mirrors(last) && last == Run(sys, looks.between)
      ensures action == PageFor(Resolve(old(SecondLook(sys, looks, request)), request, session))
    {
      last := decisions.Wait(sys, looks.between);
      var view := decisions.provider.GetAuthRequest(request);
      var inputs := looks.second;
      var resolved := Resolve(World(view, inputs.client, decisions.grants.grants, inputs.grantsReadable, inputs.now),
                              request, session);
      match resolved {
        case Failure(error) => action := if error.NotInteractive? then Some(BadRequestPage) else None;
        case Success(Valid) => action := Some(RedirectAuthorize);
        case Success(AlreadyAuthorized) => action := Some(RedirectAuthorize);
        case Success(Unauthenticated) => action := Some(RedirectLogin);
        case Success(ExpiredRequest) => action := Some(ExpiredPage);
        case _ => action := Some(BadRequestPage);
      }
    }

    /** Route. A prompt=none request never reaches a page with a form; every completion is a
        caller's part of a run of the system; and requests that are interactive, unreadable
        or structurally wrong complete nothing. */
    method Route(request: string, session: Option<Session>, looks: Looks, steps: Steps, c: nat, sys: System)
      returns (action: Routed, ghost attempt: Attempt, last: System, ghost trace: seq<Action>)
      requires decisions.Mirrors(sys) && c !in sys.callers && AllElsewhere(steps, c) && LooksElsewhere(looks, c)
      modifies decisions.provider`completed, decisions.provider`completionAttempts, decisions.provider`ledger
      modifies decisions.grants
      ensures decisions.Mirrors(last) && Recorded(attempt, steps, c, sys, last, trace)
      ensures var answer := old(decisions.provider.Answer(request));
        var first, second := old(decisions.Seen(request, looks.first)), old(SecondLook(sys, looks, request));
        if !ValidRequestId(request) then attempt.Nothing? && action == Some(BadRequestPage)
        else if answer.Failure? then
          attempt.Nothing? && action == if AlreadyGone(answer.error) then Some(ExpiredPage) else None
        else if !PromptStructureOk(answer.value) then attempt.Nothing? && action == Some(BadRequestPage)
        else if answer.value.Has(PromptNone) then
          && NeverAForm(action)
          && NoneJudged(first, second, request, session, looks, attempt, action)
          && Shown(attempt, action, old(AnswerAfter(sys, Lead(first, second, request, session, looks), request)))
        else if answer.value.Has(PromptCreate) then
          && AttemptKind(attempt) == Some(RequestNotSupported)
          && Shown(attempt, action, old(AnswerAfter(sys, looks.later, request)))
        else if answer.value.Has(PromptSelectAccount) then
          && AttemptKind(attempt) == Some(AccountSelectionRequired)
          && Shown(attempt, action, old(AnswerAfter(sys, looks.later, request)))
        else
          && attempt.Nothing? && trace == looks.between
          && action == PageFor(Resolve(second, request, session))
    {
      attempt, last, trace := Nothing, sys, [];
      if !ValidRequestId(request) { return Some(BadRequestPage), attempt, last, trace; }
      var answer := decisions.provider.GetAuthRequest(request);
      if answer.Failure? {
        action := if AlreadyGone(answer.error) then Some(ExpiredPage) else None;
        return;
      }
      var view := answer.value;
      if !PromptStructureOk(view) { return Some(BadRequestPage), attempt, last, trace; }
      assert [] + looks.later == looks.later;
      if view.Has(PromptNone) {
        action, attempt, last, trace := ExecuteNone(request, view, session, looks, steps, c, sys);
      } else if view.Has(PromptCreate) {
        action, attempt, last, trace :=
          LaterError(request, RequestNotSupported, session, "", looks, steps, c, sys, [], sys);
      } else if view.Has(PromptSelectAccount) {
        action, attempt, last, trace :=
          LaterError(request, AccountSelectionRequired, session, "", looks, steps, c, sys, [], sys);
      } else {
        action, last := RouteInteractive(request, session, looks, sys);
        RunElsewhere(sys, looks.between, c);
        trace := looks.between;
      }
    }
  }
}
