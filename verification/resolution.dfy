/** The three derivations of what may happen to an authorization request
    (backend/internal/consent/resolution.go, and the checks of Decide and DecideSilently
    in decision.go) and their agreement. Prompt and max_age follow section 3.1.2.1 of
    OpenID Connect Core 1.0. */
module Resolution {
  import opened Outcomes
  import opened Scopes
  import opened Operations

  // ---- What a request, a client and a session look like ----

  datatype Prompt =
    | PromptUnspecified | PromptNone | PromptLogin | PromptConsent
    | PromptSelectAccount | PromptCreate | PromptOutOfRange(raw: int)

  /** maxAge is absent when the client sent none; createdAt is absent for a zero time. */
  datatype View = View(
    clientId: string, scopes: seq<string>, redirectUri: string,
    prompts: seq<Prompt>, maxAge: Option<int>, createdAt: Option<int>)
  {
    predicate Has(p: Prompt) { p in prompts }
  }

  datatype Session = Session(user: string, authenticatedAt: int)

  datatype ConsentMode = Always | FirstAuthorization

  datatype ClientFacts = ClientFacts(
    clientId: string, applicationActive: bool, clientActive: bool,
    redirectUris: seq<string>, scopes: seq<string>, consentMode: ConsentMode)

  datatype ClientReadError = ClientUnknown | ClientReadFailed

  /** Everything the services read, at one moment. */
  datatype World = World(
    provider: Result<View, Option<ErrorClass>>,
    client: Result<ClientFacts, ClientReadError>,
    grants: map<(string, string), Grant>, grantsReadable: bool,
    now: int)

  datatype ConsentError =
    | InvalidInput | ProviderReadError(errClass: Option<ErrorClass>) | ClientError
    | GrantReadError | NotInteractive | RequestExpired | SilentReuseUnavailable

  datatype ResolutionStatus =
    | Valid | ExpiredRequest | ClientNotFound | RedirectMismatch
    | Unauthenticated | ScopeNotAllowed | AlreadyAuthorized

  // ---- The shared judgments ----

  /** validatePromptStructure: known values only, and none never combined. */
  predicate PromptStructureOk(v: View) {
    && (forall i :: 0 <= i < |v.prompts| ==> !v.prompts[i].PromptUnspecified? && !v.prompts[i].PromptOutOfRange?)
    && (v.Has(PromptNone) ==> |v.prompts| <= 1)
  }

  /** validateInteractivePrompts. */
  predicate InteractivePromptsOk(v: View) {
    PromptStructureOk(v) && !v.Has(PromptCreate) && !v.Has(PromptSelectAccount)
  }

  predicate SignedIn(s: Option<Session>) { s.Some? && s.value.user != "" }

  predicate ForcesLogin(v: View) { v.Has(PromptLogin) || (v.maxAge.Some? && v.maxAge.value <= 0) }

  /** authenticationSatisfied. */
  predicate AuthenticationSatisfied(v: View, s: Option<Session>, now: int) {
    if !SignedIn(s) then false
    else if ForcesLogin(v) then v.createdAt.Some? && s.value.authenticatedAt > v.createdAt.value
    else if v.maxAge.Some? then now - s.value.authenticatedAt <= v.maxAge.value
    else true
  }

  predicate ScopesContain(granted: seq<string>, requested: seq<string>) {
    forall i :: 0 <= i < |requested| ==> requested[i] in granted
  }

  /** Whether grantReusable reads the grant at all. */
  predicate ConsultsGrant(v: View, client: ClientFacts) {
    !v.Has(PromptConsent) && client.consentMode.FirstAuthorization?
  }

  /** grantReusable. */
  function GrantReusable(grants: map<(string, string), Grant>, readable: bool,
      s: Option<Session>, v: View, client: ClientFacts, requested: seq<string>)
    : Result<bool, ConsentError>
  {
    if !SignedIn(s) || !ConsultsGrant(v, client) then Success(false)
    else if !readable then Failure(GrantReadError)
    else
      var pair := (s.value.user, client.clientId);
      Success(pair in grants && grants[pair].active && ScopesContain(grants[pair].scopes, requested))
  }

  predicate AlreadyGone(errClass: Option<ErrorClass>) {
    errClass.Some? && (errClass.value.NotFound? || errClass.value.Expired? || errClass.value.AlreadyCompleted?)
  }

  predicate EffectivelyActive(client: ClientFacts) { client.applicationActive && client.clientActive }

  predicate AllAllowed(requested: seq<string>, catalog: seq<string>) {
    forall i :: 0 <= i < |requested| ==> requested[i] in catalog
  }

  // ---- Resolve ----

  /** Resolve, in its fixed order of checks. */
  function Resolve(w: World, requestId: string, s: Option<Session>): Result<ResolutionStatus, ConsentError> {
    if !ValidRequestId(requestId) then Failure(InvalidInput)
    else if w.provider.Failure? then
      if AlreadyGone(w.provider.error) then Success(ExpiredRequest) else Failure(ProviderReadError(w.provider.error))
    else
      var v := w.provider.value;
      if !InteractivePromptsOk(v) then Failure(NotInteractive)
      else if w.client.Failure? then
        if w.client.error.ClientUnknown? then Success(ClientNotFound) else Failure(ClientError)
      else
        var client := w.client.value;
        if !EffectivelyActive(client) then Success(ClientNotFound)
        else if v.redirectUri !in client.redirectUris then Success(RedirectMismatch)
        else
          var requested := Normalize(v.scopes);
          if requested.Failure? || requested.value == [] then Success(ScopeNotAllowed)
          else if !AllAllowed(requested.value, client.scopes) then Success(ScopeNotAllowed)
          else if v.Has(PromptNone) then ResolveSilent(w, s, v, client, requested.value)
          else if !SignedIn(s) || !AuthenticationSatisfied(v, s, w.now) then Success(Unauthenticated)
          else
            match GrantReusable(w.grants, w.grantsReadable, s, v, client, requested.value)
            case Failure(e) => Failure(e)
            case Success(reusable) => Success(if reusable then AlreadyAuthorized else Valid)
  }

  function ResolveSilent(w: World, s: Option<Session>, v: View, client: ClientFacts, requested: seq<string>)
    : Result<ResolutionStatus, ConsentError>
  {
    if !SignedIn(s) || !AuthenticationSatisfied(v, s, w.now) then Failure(NotInteractive)
    else
      match GrantReusable(w.grants, w.grantsReadable, s, v, client, requested)
      case Failure(e) => Failure(e)
      case Success(reusable) => if reusable then Success(AlreadyAuthorized) else Failure(NotInteractive)
  }

  // ---- The checks of the two decision entry points, before the credential is read ----

  /** validateBusinessFacts; an unknown client comes back as an expired request. */
  function BusinessFacts(facts: Result<ClientFacts, ClientReadError>, v: View)
    : Result<(ClientFacts, seq<string>), ConsentError>
  {
    if facts.Failure? then Failure(if facts.error.ClientUnknown? then RequestExpired else ClientError)
    else
      var client := facts.value;
      var requested := Normalize(v.scopes);
      if !EffectivelyActive(client) || v.redirectUri !in client.redirectUris
         || requested.Failure? || requested.value == [] || !AllAllowed(requested.value, client.scopes)
      then Failure(RequestExpired)
      else Success((client, requested.value))
  }

  /** Decide, up to and including the freshness check. */
  function DecideChecks(w: World, requestId: string, s: Option<Session>)
    : Result<(ClientFacts, seq<string>), ConsentError>
  {
    if !ValidRequestId(requestId) || !SignedIn(s) then Failure(InvalidInput)
    else if w.provider.Failure? then
      Failure(if AlreadyGone(w.provider.error) then RequestExpired else ProviderReadError(w.provider.error))
    else
      var v := w.provider.value;
      if !InteractivePromptsOk(v) then Failure(RequestExpired)
      else
        var facts := BusinessFacts(w.client, v);
        if facts.Failure? then Failure(facts.error)
        else if v.Has(PromptNone) then Failure(NotInteractive)
        else if !AuthenticationSatisfied(v, s, w.now) then Failure(RequestExpired)
        else Success(facts.value)
  }

  /** DecideSilently, up to and including the authoritative grant re-check. */
  function SilentChecks(w: World, requestId: string, s: Option<Session>)
    : Result<(ClientFacts, seq<string>), ConsentError>
  {
    if !ValidRequestId(requestId) || !SignedIn(s) then Failure(InvalidInput)
    else if w.provider.Failure? then
      Failure(if AlreadyGone(w.provider.error) then RequestExpired else ProviderReadError(w.provider.error))
    else
      var v := w.provider.value;
      if !PromptStructureOk(v) || !v.Has(PromptNone) then Failure(NotInteractive)
      else
        var facts := BusinessFacts(w.client, v);
        if facts.Failure? then Failure(facts.error)
        else if !AuthenticationSatisfied(v, s, w.now) then Failure(RequestExpired)
        else
          match GrantReusable(w.grants, w.grantsReadable, s, v, facts.value.0, facts.value.1)
          case Failure(e) => Failure(e)
          case Success(reusable) => if reusable then Success(facts.value) else Failure(SilentReuseUnavailable)
  }

  // ---- What the judgments mean, without the order of checks ----

  /** The prompts the consent pages can serve: none alone, or any of login and consent. */
  ghost predicate PromptsServable(v: View) {
    && (forall p :: p in v.prompts ==> p in {PromptNone, PromptLogin, PromptConsent})
    && (PromptNone in v.prompts ==> v.prompts == [PromptNone])
  }

  ghost predicate ClientServes(client: ClientFacts) { client.applicationActive && client.clientActive }

  ghost predicate ScopesServable(v: View, client: ClientFacts) {
    && 1 <= |v.scopes| <= 32 && AllValid(v.scopes) && Elements(v.scopes) <= Elements(client.scopes)
  }

  /** The request itself can be served: everything but the session and the grant. */
  ghost predicate Servable(w: World, requestId: string) {
    && 1 <= |requestId| <= 200
    && w.provider.Success? && w.client.Success?
    && PromptsServable(w.provider.value) && ClientServes(w.client.value)
    && w.provider.value.redirectUri in w.client.value.redirectUris
    && ScopesServable(w.provider.value, w.client.value)
  }

  /** Whether the stored consent matters to the request at all. */
  ghost predicate GrantMatters(w: World)
    requires w.provider.Success? && w.client.Success?
  {
    PromptConsent !in w.provider.value.prompts && w.client.value.consentMode == FirstAuthorization
  }

  ghost predicate ReadsAsGone(e: Option<ErrorClass>) { e in {Some(NotFound), Some(Expired), Some(AlreadyCompleted)} }

  /** The stored consent covers the request and may be reused silently. */
  ghost predicate Reusable(w: World, user: string) {
    && w.provider.Success? && w.client.Success?
    && var v := w.provider.value; var client := w.client.value;
    && PromptConsent !in v.prompts && client.consentMode == FirstAuthorization
    && w.grantsReadable && (user, client.clientId) in w.grants
    && var grant := w.grants[(user, client.clientId)];
    && grant.active && Elements(v.scopes) <= Elements(grant.scopes)
  }

  lemma CoveredBy(requested: seq<string>, raw: seq<string>, catalog: seq<string>)
    requires Elements(requested) == Elements(raw)
    ensures (forall i :: 0 <= i < |requested| ==> requested[i] in catalog) <==> Elements(raw) <= Elements(catalog)
  {
    assert forall i :: 0 <= i < |requested| ==> requested[i] in Elements(requested);
    forall x | x in Elements(requested) ensures exists i :: 0 <= i < |requested| && requested[i] == x {}
  }

  /** A session will do exactly if somebody is signed in, after the request was made if it
      forces a login, and recently enough if it sets a positive max_age. */
  lemma FreshnessMeaning(v: View, s: Option<Session>, now: int)
    ensures var forced := PromptLogin in v.prompts || (v.maxAge.Some? && v.maxAge.value <= 0);
      AuthenticationSatisfied(v, s, now) <==>
        && s.Some? && s.value.user != ""
        && (forced ==> v.createdAt.Some? && v.createdAt.value < s.value.authenticatedAt)
        && (!forced && v.maxAge.Some? ==> s.value.authenticatedAt + v.maxAge.value >= now)
  {
  }

  lemma PromptsMeaning(v: View)
    ensures InteractivePromptsOk(v) <==> PromptsServable(v)
    ensures PromptStructureOk(v) && v.Has(PromptNone) <==> v.prompts == [PromptNone]
  {
    if PromptsServable(v) {
      forall i | 0 <= i < |v.prompts| ensures v.prompts[i] in {PromptNone, PromptLogin, PromptConsent} {
        assert v.prompts[i] in v.prompts;
      }
    }
    if InteractivePromptsOk(v) {
      forall p | p in v.prompts ensures p in {PromptNone, PromptLogin, PromptConsent} {
        var i :| 0 <= i < |v.prompts| && v.prompts[i] == p;
      }
    }
  }

  lemma BusinessFactsMeaning(w: World, requestId: string)
    requires w.provider.Success? && PromptsServable(w.provider.value) && ValidRequestId(requestId)
    ensures BusinessFacts(w.client, w.provider.value).Success? <==> Servable(w, requestId)
    ensures BusinessFacts(w.client, w.provider.value).Success? ==>
      && BusinessFacts(w.client, w.provider.value).value.0 == w.client.value
      && Canonical(BusinessFacts(w.client, w.provider.value).value.1)
      && BusinessFacts(w.client, w.provider.value).value.1 != []
      && Elements(BusinessFacts(w.client, w.provider.value).value.1) == Elements(w.provider.value.scopes)
  {
    var v := w.provider.value;
    NormalizeSpec(v.scopes);
    if w.client.Success? { ScopesMeaning(v, w.client.value); }
  }

  lemma ReusableMeaning(w: World, s: Option<Session>, requested: seq<string>)
    requires w.provider.Success? && w.client.Success? && SignedIn(s)
    requires Elements(requested) == Elements(w.provider.value.scopes)
    ensures GrantReusable(w.grants, w.grantsReadable, s, w.provider.value, w.client.value, requested) == Success(true)
            <==> Reusable(w, s.value.user)
  {
    var pair := (s.value.user, w.client.value.clientId);
    if pair in w.grants {
      CoveredBy(requested, w.provider.value.scopes, w.grants[pair].scopes);
    }
  }

  // ---- Main results ----

  /** Decide passes its checks exactly for a servable request without prompt=none under a
      fresh session, and goes on with its client and exactly the scopes it asked for. */
  lemma DecideMeaning(w: World, requestId: string, s: Option<Session>)
    ensures DecideChecks(w, requestId, s).Success? <==>
      && Servable(w, requestId) && PromptNone !in w.provider.value.prompts
      && AuthenticationSatisfied(w.provider.value, s, w.now)
    ensures DecideChecks(w, requestId, s).Success? ==> JudgedRight(w, DecideChecks(w, requestId, s).value)
  {
    if w.provider.Success? {
      PromptsMeaning(w.provider.value);
      if PromptsServable(w.provider.value) && ValidRequestId(requestId) { BusinessFactsMeaning(w, requestId); }
    }
  }

  /** What a decision goes on with: the client, and the requested scopes in canonical form. */
  ghost predicate JudgedRight(w: World, judged: (ClientFacts, seq<string>)) {
    && w.provider.Success? && w.client == Success(judged.0)
    && Canonical(judged.1) && judged.1 != [] && Elements(judged.1) == Elements(w.provider.value.scopes)
  }

  /** Why Decide stops: each error in its own terms. */
  lemma DecideRefuses(w: World, requestId: string, s: Option<Session>)
    ensures var checks := DecideChecks(w, requestId, s);
      var entered := 1 <= |requestId| <= 200 && s.Some? && s.value.user != "";
      var readable := entered && w.provider.Success?;
      && (checks == Failure(InvalidInput) <==> !entered)
      && (forall e ::
            checks == Failure(ProviderReadError(e)) <==> entered && w.provider == Failure(e) && !ReadsAsGone(e))
      && (checks == Failure(ClientError) <==>
            readable && PromptsServable(w.provider.value) && w.client == Failure(ClientReadFailed))
      && (checks == Failure(NotInteractive) <==>
            readable && Servable(w, requestId) && PromptNone in w.provider.value.prompts)
      && (checks.Failure? ==>
            !checks.error.GrantReadError? && !checks.error.SilentReuseUnavailable?)
  {
    if w.provider.Success? {
      PromptsMeaning(w.provider.value);
      if PromptsServable(w.provider.value) && ValidRequestId(requestId) { BusinessFactsMeaning(w, requestId); }
    }
  }

  /** DecideSilently passes its checks exactly for a servable prompt=none request under a
      fresh session whose stored consent may be reused, and goes on as Decide does. */
  lemma SilentMeaning(w: World, requestId: string, s: Option<Session>)
    ensures SilentChecks(w, requestId, s).Success? <==>
      && Servable(w, requestId) && w.provider.value.prompts == [PromptNone]
      && AuthenticationSatisfied(w.provider.value, s, w.now) && Reusable(w, s.value.user)
    ensures SilentChecks(w, requestId, s).Success? ==> JudgedRight(w, SilentChecks(w, requestId, s).value)
  {
    SilentCases(w, requestId, s);
  }

  lemma SilentCases(w: World, requestId: string, s: Option<Session>)
    ensures SilentChecks(w, requestId, s).Success? <==>
      && Servable(w, requestId) && w.provider.value.prompts == [PromptNone]
      && AuthenticationSatisfied(w.provider.value, s, w.now) && Reusable(w, s.value.user)
    ensures SilentChecks(w, requestId, s).Success? ==> JudgedRight(w, SilentChecks(w, requestId, s).value)
    ensures var checks := SilentChecks(w, requestId, s);
      var live := Servable(w, requestId) && w.provider.value.prompts == [PromptNone]
                   && AuthenticationSatisfied(w.provider.value, s, w.now);
      && (checks == Failure(SilentReuseUnavailable) <==>
            live && (w.grantsReadable || !GrantMatters(w)) && !Reusable(w, s.value.user))
      && (checks == Failure(GrantReadError) <==> live && GrantMatters(w) && !w.grantsReadable)
  {
    if w.provider.Success? {
      PromptsMeaning(w.provider.value);
      if w.provider.value.prompts == [PromptNone] && ValidRequestId(requestId) {
        BusinessFactsMeaning(w, requestId);
        var facts := BusinessFacts(w.client, w.provider.value);
        if facts.Success? && SignedIn(s) { ReusableMeaning(w, s, facts.value.1); }
      }
    }
  }

  /** Why DecideSilently stops, besides what SilentCases says of the stored consent. */
  lemma SilentRefuses(w: World, requestId: string, s: Option<Session>)
    ensures var checks := SilentChecks(w, requestId, s);
      var entered := 1 <= |requestId| <= 200 && s.Some? && s.value.user != "";
      var silent := entered && w.provider.Success? && w.provider.value.prompts == [PromptNone];
      && (checks == Failure(InvalidInput) <==> !entered)
      && (forall e ::
            checks == Failure(ProviderReadError(e)) <==> entered && w.provider == Failure(e) && !ReadsAsGone(e))
      && (checks == Failure(NotInteractive) <==>
            entered && w.provider.Success? && w.provider.value.prompts != [PromptNone])
      && (checks == Failure(ClientError) <==> silent && w.client == Failure(ClientReadFailed))
      && (checks == Failure(RequestExpired) <==>
            || (entered && w.provider.Failure? && ReadsAsGone(w.provider.error))
            || (silent && w.client != Failure(ClientReadFailed)
                && !(Servable(w, requestId) && AuthenticationSatisfied(w.provider.value, s, w.now))))
  {
    SilentCases(w, requestId, s);
    if w.provider.Success? {
      PromptsMeaning(w.provider.value);
      if w.provider.value.prompts == [PromptNone] && ValidRequestId(requestId) { BusinessFactsMeaning(w, requestId); }
    }
  }

  /** Resolve reports an authorization exactly for a servable request, a fresh session
      and a reusable consent, with or without prompt=none. */
  lemma ResolveMeaning(w: World, requestId: string, s: Option<Session>)
    ensures Resolve(w, requestId, s) == Success(AlreadyAuthorized) <==>
      && Servable(w, requestId) && AuthenticationSatisfied(w.provider.value, s, w.now) && Reusable(w, s.value.user)
    ensures Resolve(w, requestId, s) == Success(Valid) <==>
      && Servable(w, requestId) && PromptNone !in w.provider.value.prompts
      && AuthenticationSatisfied(w.provider.value, s, w.now)
      && (w.grantsReadable || !GrantMatters(w)) && !Reusable(w, s.value.user)
  {
    ResolveFreshCases(w, requestId, s);
  }

  /** Every answer that depends on the session or the stored consent. */
  lemma ResolveFreshCases(w: World, requestId: string, s: Option<Session>)
    ensures var r := Resolve(w, requestId, s);
      var servable := Servable(w, requestId);
      var live := servable && AuthenticationSatisfied(w.provider.value, s, w.now);
      && (r == Success(AlreadyAuthorized) <==> live && Reusable(w, s.value.user))
      && (r == Success(Valid) <==>
            && live && PromptNone !in w.provider.value.prompts
            && (w.grantsReadable || !GrantMatters(w)) && !Reusable(w, s.value.user))
      && (r == Success(Unauthenticated) <==> servable && PromptNone !in w.provider.value.prompts && !live)
      && (r == Failure(GrantReadError) <==> live && GrantMatters(w) && !w.grantsReadable)
      && (servable && PromptNone in w.provider.value.prompts
            && (!live || ((w.grantsReadable || !GrantMatters(w)) && !Reusable(w, s.value.user)))
          ==> r == Failure(NotInteractive))
  {
    if w.provider.Success? {
      PromptsMeaning(w.provider.value);
      if PromptsServable(w.provider.value) && ValidRequestId(requestId) {
        BusinessFactsMeaning(w, requestId);
        var facts := BusinessFacts(w.client, w.provider.value);
        if facts.Success? && SignedIn(s) { ReusableMeaning(w, s, facts.value.1); }
      }
    }
  }

  /** Every answer that does not: the request, its client, its redirect and its scopes, in this
      order. */
  lemma ResolveRefuses(w: World, requestId: string, s: Option<Session>)
    ensures var r := Resolve(w, requestId, s);
      var named := 1 <= |requestId| <= 200;
      var prompted := named && w.provider.Success? && PromptsServable(w.provider.value);
      var served := prompted && w.client.Success? && ClientServes(w.client.value);
      var returned := served && w.provider.value.redirectUri in w.client.value.redirectUris;
      && (r == Failure(InvalidInput) <==> !named)
      && (r == Success(ExpiredRequest) <==> named && w.provider.Failure? && ReadsAsGone(w.provider.error))
      && (forall e :: r == Failure(ProviderReadError(e)) <==> named && w.provider == Failure(e) && !ReadsAsGone(e))
      && (named && w.provider.Success? && !prompted ==> r == Failure(NotInteractive))
      && (r == Failure(ClientError) <==> prompted && w.client == Failure(ClientReadFailed))
      && (r == Success(ClientNotFound) <==> prompted && !served && w.client != Failure(ClientReadFailed))
      && (r == Success(RedirectMismatch) <==> served && !returned)
      && (r == Success(ScopeNotAllowed) <==> returned && !ScopesServable(w.provider.value, w.client.value))
  {
    ResolveFreshCases(w, requestId, s);
    if w.provider.Success? {
      PromptsMeaning(w.provider.value);
      if PromptsServable(w.provider.value) && ValidRequestId(requestId) && w.client.Success? {
        ScopesMeaning(w.provider.value, w.client.value);
      }
    }
  }

  lemma ScopesMeaning(v: View, client: ClientFacts)
    ensures ScopesServable(v, client) <==>
      && Normalize(v.scopes).Success? && Normalize(v.scopes).value != []
      && AllAllowed(Normalize(v.scopes).value, client.scopes)
  {
    NormalizeSpec(v.scopes);
    if Normalize(v.scopes).Success? {
      var requested := Normalize(v.scopes).value;
      CoveredBy(requested, v.scopes, client.scopes);
      if requested != [] { assert requested[0] in Elements(requested); }
      if v.scopes != [] { assert v.scopes[0] in Elements(v.scopes); }
    }
  }

  /** The interactive decision goes on exactly where the advisory resolution would, except
      that resolution also needs the grant table when the client allows reuse. */
  lemma DecideAgreesWithResolve(w: World, requestId: string, s: Option<Session>)
    ensures
      (Resolve(w, requestId, s) in {Success(Valid), Success(AlreadyAuthorized)} && !w.provider.value.Has(PromptNone))
      <==>
      (DecideChecks(w, requestId, s).Success?
       && (w.grantsReadable || !GrantMatters(w)))
  {
    ResolveMeaning(w, requestId, s);
    DecideMeaning(w, requestId, s);
  }

  /** The silent decision goes on exactly where resolution says already_authorized for a
      prompt=none request. */
  lemma SilentAgreesWithResolve(w: World, requestId: string, s: Option<Session>)
    ensures
      (Resolve(w, requestId, s) == Success(AlreadyAuthorized) && w.provider.value.Has(PromptNone))
      <==> SilentChecks(w, requestId, s).Success?
  {
    ResolveMeaning(w, requestId, s);
    SilentMeaning(w, requestId, s);
  }

  /** The exception of DecideAgreesWithResolve in general: while the grant table cannot be
      read, the decision still accepts what resolution can only report as a failed read. */
  lemma GrantOutageSplits(w: World, requestId: string, s: Option<Session>)
    requires DecideChecks(w, requestId, s).Success? && GrantMatters(w)
    ensures var out := w.(grantsReadable := false);
      DecideChecks(out, requestId, s).Success? && Resolve(out, requestId, s) == Failure(GrantReadError)
  {
    DecideMeaning(w, requestId, s);
    DecideMeaning(w.(grantsReadable := false), requestId, s);
    BusinessFactsMeaning(w, requestId);
  }

  /** And such requests exist. */
  lemma DecideIgnoresGrantOutage() returns (w: World, s: Option<Session>)
    ensures DecideChecks(w, "r", s).Success? && Resolve(w, "r", s) == Failure(GrantReadError)
  {
    var v := View("c", ["a"], "u", [], None, None);
    var client := ClientFacts("c", true, true, ["u"], ["a"], FirstAuthorization);
    w := World(Success(v), Success(client), map[], false, 0);
    s := Some(Session("x", 0));
    assert "u" in client.redirectUris && "a" in Elements(v.scopes);
    assert Servable(w, "r");
    DecideMeaning(w, "r", s);
    GrantOutageSplits(w, "r", s);
  }

  /** prompt=none never leads resolution to a page: not to consent, not to login. */
  lemma NoneNeverShowsUi(w: World, requestId: string, s: Option<Session>)
    ensures w.provider.Success? && w.provider.value.Has(PromptNone) ==>
      Resolve(w, requestId, s) !in {Success(Valid), Success(Unauthenticated)}
  {
  }

  /** A login that a request asked for is asked for once. After the resolution demanded one
      and the user logged in, whatever became of the grants meanwhile, it demands another
      exactly if the request forces a login and has no creation time or one not before that
      login, or if its max_age has run out again; otherwise the request goes on. */
  lemma LoginAskedOnce(w: World, requestId: string, s: Option<Session>, later: World, user: string, at: int)
    requires Resolve(w, requestId, s) == Success(Unauthenticated) && user != ""
    requires later == w.(grants := later.grants, grantsReadable := later.grantsReadable, now := later.now)
    ensures var v, again := w.provider.value, Resolve(later, requestId, Some(Session(user, at)));
      && (again == Success(Unauthenticated) <==>
            if ForcesLogin(v) then v.createdAt.None? || at <= v.createdAt.value
            else v.maxAge.Some? && later.now - at > v.maxAge.value)
      && again in {Success(Unauthenticated), Success(Valid), Success(AlreadyAuthorized), Failure(GrantReadError)}
  {
  }
}
