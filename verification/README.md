# United Pass backend: models and proofs

This project models the parts of United Pass that have to stay right when things go wrong,
and proves what they keep:

- **Consent** (`backend/internal/consent`). A durable single-winner protocol over a one-shot
  authorization provider: claim, provider completion, proof, local commit. Callers race with
  each other, with a reconciler, with revocations, crashes, store faults and lost replies.
  `operations.dfy` holds rows, grants, the audit trail and every store transaction as values;
  `protocol.dfy` is the labelled transition system; `backend.dfy` has the store and the fake
  provider as classes whose methods are shown to be its transitions; `decision.dfy`,
  `reconciler.dfy` and `gateway.dfy` are the services on top, with everybody else acting
  between any two of their steps; `calls.dfy` says what each failure of one call comes to.
  `resolution.dfy` proves that the three derivations of what a request may do agree, and
  `scopes.dfy` that scope lists have one canonical form. Prompt and max_age follow section
  3.1.2.1 of OpenID Connect Core 1.0.
- **Applications** (`backend/internal/applications`). A saga over a local store and a remote
  provider without a shared transaction (`applications.dfy`, `application_service.dfy`), and the
  durable gate around secret rotation (`rotation.dfy`).
- **Idempotent mutations** (`adminroles`, `adminstepup`): `roles.dfy`, `stepup.dfy`. One
  transaction holds the receipt, the mutation and its audit row.
- **The cross-system outbox** (`dreamupadmin`, `adminstore`): `outbox.dfy`, with the first delivery of
  a mutation, the receipt reconciler behind it, and any number of both at once.
- **Smaller algorithms**: the PHC printer and parser (`phc.dfy` on `decimals.dfy` and
  `base64.dfy`), the duplicate-member JSON check (`keyring.dfy`), the restartable cleanup loop
  (`worker.dfy`), and the proof-of-work search (`cost.dfy`). `powers.dfy` has the powers of two that
  the last and the outbox backoff use.

Conventions. A *run* is any list of actions applied to a start state; a disabled action leaves
the state as it is, so every list is a run and "reachable" means "after some list". Store calls
work, fail without effect, or commit while the caller sees an error. Clocks, random identifiers
and the outcome of every call into another system are parameters. Text characters stand for
the bytes of Go strings.

Where the code and its documentation, or the obvious expectation, part ways, the code is modelled
and the exact condition is proved:

- `Decide` and `Resolve` agree except when the grant table cannot be read while resolution would
  consult it (`Resolution.DecideAgreesWithResolve`, `Resolution.GrantOutageSplits`).
- One unrepairable row cannot stall the consent reconciler, and neither can fewer than a batch of
  them; a full batch of old ones starves it for good (`Reconciling.OldPoisonStarves`).
- A provider client is in line with its application or named by a reconciliation job, exactly unless
  the mark for its deletion committed while the caller saw an error and no job names it: then an
  application switch skips it silently (`Applications.DriftExactly`,
  `ApplicationService.TornDeletionDrifts`). A fault-free application switch repairs everything it can
  reach, and succeeds exactly when the provider still knows every target; an ambiguous creation can
  leave one it does not know (`ApplicationService.AmbiguousCompletionBlocksSwitch`).
- An outbox row is not always settled by a receipt: the first delivery settles it with the answer it
  got. A settled row has its own receipt exactly if the holder of its first claim did not settle it
  (`Outbox.ReceiptUnlessDelivered`, `Outbox.DeliveryNeedsNoReceipt`).
- An outbox row is deferred by passes at most 18 times before its deadline, and 18 is reached
  (`Outbox.EighteenIsReached`).
- A login that a request forces is asked for again and again when the request has no creation time
  (`Resolution.LoginAskedOnce`).
- `parsePHC` accepts more than `encodePHC` prints: line breaks and unused bits in the base64 parts
  give second spellings, the parameters never do (`Phc.PrintParsed`).

## Model

| member | source | states |
|---|---|---|
| `Scopes.NormalizeSpec` | backend/internal/consent/grants.go:56-84 | A scope list is accepted exactly when it has at most 32 tokens and every token is valid; the result is then strictly increasing and has exactly the input's tokens |
| `Scopes.NormalizeDependsOnSet` | backend/internal/consent/grants.go:56-84 | Order and repetition of at most 32 tokens never matter: equal sets give equal results |
| `Scopes.CanonicalIsFixedPoint` | backend/internal/consent/grants.go:86-103 | A list is canonical exactly when normalization returns it unchanged, and every result is such a list |
| `Scopes.IncreasingUnique` | backend/internal/consent/grants.go:76-84 | A set of tokens has only one strictly increasing list, so the sorted result is determined by the set |
| `Scopes.NormalizeScopes` | backend/internal/consent/grants.go:56-84 | The loop with its seen map and final sort returns exactly the canonical list of the input's set, or the error of the first bad token |
| `Scopes.ScopesAreCanonical` | backend/internal/consent/grants.go:86-103 | Normalizing again and comparing position by position decides exactly whether a list is canonical |
| `Scopes.DisallowedScopes` | backend/internal/consent/resolution.go:486-508 | The requested tokens outside the catalog, each once, in increasing order |
| `Operations.ClaimedPlanOk` | backend/internal/adapters/postgres/consent_repo.go:57-113 | A won claim stores a valid plan whose scopes are canonical and have the tokens of the requested ones |
| `Operations.ClaimKeeps` | backend/internal/consent/grants.go:476-484 | A claim keeps the store invariant; it is won exactly by a valid plan with an unused key and identifier, and then adds one pending row with the plan's kind, user, client and time and nothing else; a later plan for the key gets the winner's row |
| `Operations.ValidPlans` | backend/internal/consent/grants.go:334-378 | Which plans are valid: the form of the identifiers, both parties for a user decision, 1 to 32 valid scopes for an Allow and none for any other kind |
| `Operations.RecordProofKeeps` | backend/internal/consent/grants.go:490-495 | Recording the proof keeps the invariant; it succeeds exactly for a pending row, moves that row alone to provider_succeeded with its time, and touches no grant and no audit row |
| `Operations.FailKeeps` | backend/internal/consent/grants.go:523-528 | Failing an operation keeps the invariant; it succeeds exactly for a pending row and a known class, so never for a row with the proof, and changes that row alone |
| `Operations.CommitAllowKeeps` | backend/internal/adapters/postgres/consent_repo.go:166-208 | An Allow commit keeps the invariant: its row succeeds, its one canonical audit row ends the trail, the grant of its pair is active with the claimed scopes and keeps its identifier, every other row and pair is as it was; a failed commit changes nothing |
| `Operations.CommitDenyKeeps` | backend/internal/adapters/postgres/consent_repo.go:215-241 | A deny commit keeps the invariant: its row succeeds, its one canonical audit row ends the trail, no grant changes; a failed commit changes nothing |
| `Operations.CommitErrorKeeps` | backend/internal/adapters/postgres/consent_repo.go:249-275 | An error-callback commit keeps the invariant: its row succeeds, its one canonical audit row ends the trail, no grant changes; a failed commit changes nothing |
| `Operations.RevokeKeeps` | backend/internal/adapters/postgres/consent_repo.go:442-498 | A revocation keeps the invariant and succeeds exactly for the owner's grant: the pair's grant is inactive, its latest consent event is a revocation, every other pair is as it was, and one audit row is added exactly if the grant was active |
| `Operations.RevokeIdempotent` | backend/internal/consent/grant_management.go:168-180 | A second revocation by the owner succeeds and changes nothing, not even the audit trail |
| `Operations.ProvenRowsCommit` | backend/internal/consent/decision.go:611-628 | The forward repair of a proven row succeeds exactly when it is no Allow, or its pair has a grant, or the new grant identifier is usable; its plan never stands in the way |
| `Protocol.StepKeeps` | backend/internal/consent/decision.go:489-526 | Every step of every caller, reconciler, crash, revocation and provider fault keeps the system invariant |
| `Protocol.Reachable` | backend/internal/consent/decision.go:489-526 | Every state of every run from the empty system satisfies the invariant |
| `Protocol.SingleWinner` | backend/internal/consent/decision.go:481-526 | In every reachable state no key has seen two completion calls and no two callers returned a callback for one key |
| `Protocol.ReturnedCallbackStands` | backend/internal/consent/decision.go:511-526 | Once a callback is returned its row is proven or succeeded in every later state, its request was used up by that row, and it never fails |
| `Protocol.GrantsFollowTrail` | backend/internal/consent/grants.go:475-533 | A grant is active exactly when its pair's latest consent event in commit order is an Allow commit; it has that operation's claimed, canonical scopes, and that operation used up its request with a session |
| `Protocol.OneAuditPerSuccess` | backend/internal/adapters/postgres/consent_repo.go:277-295 | Exactly one completion event for a succeeded operation and none for any other, and it is the canonical one of its row |
| `Protocol.FailedRowsNeverGrant` | backend/internal/consent/grants.go:523-528 | A row that failed stays failed, never enters the trail and never backs a grant, whatever happens later |
| `Protocol.AllowRowsCanonical` | backend/internal/consent/decision.go:267-279 | Every Allow row in every reachable state holds a non-empty scope list that normalization leaves unchanged |
| `Protocol.RunsMoveForward` | backend/internal/consent/grants.go:470-533 | Over any run plans are immutable, terminal states final, a proven row never fails, and what a finished caller returned stays |
| `Resolution.BusinessFactsMeaning` | backend/internal/consent/decision.go:534-558 | The business re-validation passes exactly for a servable request and then yields its client and its canonical scopes |
| `Resolution.DecideMeaning` | backend/internal/consent/decision.go:195-249 | Decide reaches the credential read exactly for a servable request without prompt=none under a fresh session, and goes on with the client of the request and exactly the scopes it asked for |
| `Resolution.SilentMeaning` | backend/internal/consent/decision.go:308-375 | DecideSilently reaches the credential read exactly for a servable prompt=none request under a fresh session whose stored consent is reusable, and goes on with the client and exactly the requested scopes |
| `Resolution.FreshnessMeaning` | backend/internal/consent/resolution.go:417-430 | A session will do exactly if somebody is signed in, after the request was made if it forces a login, and recently enough if it sets a positive max_age |
| `Resolution.DecideRefuses` | backend/internal/consent/decision.go:195-249 | Why Decide stops, each error in terms of the request, the client and the session |
| `Resolution.SilentRefuses` | backend/internal/consent/decision.go:308-375 | Why DecideSilently stops, each error in terms of the request, the client and the session |
| `Resolution.ResolveFreshCases` | backend/internal/consent/resolution.go:294-349 | Which answers of the resolution depend on the session and the stored consent: unauthenticated exactly for a servable request whose session is absent or stale, and so on for the others |
| `Resolution.ResolveRefuses` | backend/internal/consent/resolution.go:210-293 | Which answers do not, each exactly: invalid, expired, unknown or disabled client, wrong redirect, disallowed scopes, unreadable facts |
| `Resolution.ResolveMeaning` | backend/internal/consent/resolution.go:210-349 | What already_authorized and valid mean, independent of the order of checks |
| `Resolution.DecideAgreesWithResolve` | backend/internal/consent/resolution.go:210-349 | Resolve reports valid or already_authorized without prompt=none exactly where Decide goes on, except where only resolution consults an unreadable grant table |
| `Resolution.SilentAgreesWithResolve` | backend/internal/consent/resolution.go:299-312 | Resolve reports already_authorized for prompt=none exactly where DecideSilently goes on |
| `Resolution.GrantOutageSplits` | backend/internal/consent/resolution.go:390-396 | While grants cannot be read, every request Decide accepts and resolution would look up is answered with a read error by resolution only |
| `Resolution.DecideIgnoresGrantOutage` | backend/internal/consent/resolution.go:390-396 | A concrete request for which the two differ |
| `Resolution.NoneNeverShowsUi` | backend/internal/consent/resolution.go:294-312 | prompt=none never resolves to the consent page or to a login |
| `Resolution.LoginAskedOnce` | backend/internal/consent/resolution.go:294-349 | After a login the resolution asked for, it asks for another exactly if the request forces one and has no creation time or one not before that login, or if max_age ran out again; otherwise the request goes on |
| `Backend.ListOne` | backend/internal/adapters/postgres/consent_repo.go:319-354 | Taking the oldest remaining row keeps a listing oldest first, without repetition and without a gap |
| `Backend.GrantStore.ClaimDecisionOperation` | backend/internal/adapters/postgres/consent_repo.go:57-113 | The claim is the Claim transition: the first plan of a key wins, every other caller gets the winner's row back, under every fault |
| `Backend.GrantStore.RecordProviderSucceeded` | backend/internal/adapters/postgres/consent_repo.go:142-155 | A compare-and-set from pending, as the RecordProof transition states it |
| `Backend.GrantStore.FailDecisionOperation` | backend/internal/adapters/postgres/consent_repo.go:301-317 | A compare-and-set from pending with a known error class, as the Fail transition states it |
| `Backend.GrantStore.CommitAllowDecision` | backend/internal/adapters/postgres/consent_repo.go:166-208 | The upsert, the scope replacement, the audit row and the terminal state happen together or not at all, from the stored plan only |
| `Backend.GrantStore.CommitDenyDecision` | backend/internal/adapters/postgres/consent_repo.go:215-241 | The deny transaction, from the stored plan only |
| `Backend.GrantStore.CommitErrorCompletion` | backend/internal/adapters/postgres/consent_repo.go:249-275 | The error-completion transaction, from the stored plan only |
| `Backend.GrantStore.RepairCompletionForward` | backend/internal/consent/decision.go:611-628 | The dispatch on the completion kind is the RepairForward transition |
| `Backend.GrantStore.RevokeGrant` | backend/internal/adapters/postgres/consent_repo.go:442-498 | Bound to the owner; a revoked grant stays as it is |
| `Backend.GrantStore.ListInFlightDecisionOperations` | backend/internal/adapters/postgres/consent_repo.go:319-354 | Rows with the proof and stale pending rows, oldest first; a row is left out only when the listing is full of rows that are no younger |
| `Backend.FakeAuthRequestProvider.GetAuthRequest` | backend/internal/consent/fake.go:108-125 | A request is served exactly while it is known, in range and not used up; every other reason reads as not_found |
| `Backend.FakeAuthRequestProvider.CompleteOnce` | backend/internal/consent/fake.go:155-181 | A completion call is one step of the one-shot provider and goes through exactly for a known, open request without an injected fault |
| `Backend.FakeAuthRequestProvider.CompleteRequest` | backend/internal/consent/fake.go:127-153 | Session and error completions share the one-shot step; an unusable session handle never reaches it |
| `Decisions.DecisionService.ClaimCompleteAndCommit` | backend/internal/consent/decision.go:481-526 | Under every fault and with anything happening between its steps, the call is one caller's part of a run, its first step is the claim of the given plan, and the caller ends where the result says |
| `Decisions.DecisionService.CompleteWon` | backend/internal/consent/decision.go:506-525 | The winner makes exactly one completion call, as its first step, and none after it (and does not reach the provider at all with an unusable session handle); a returned callback is the one of its own row |
| `Decisions.DecisionService.ProveAndCommit` | backend/internal/consent/decision.go:511-525 | The callback is returned exactly if the proof was recorded, whatever the commit does |
| `Decisions.DecisionService.ResolveClaimConflict` | backend/internal/consent/decision.go:580-589 | The loser repairs a proven row forward, answers already_decided and never calls the provider |
| `Decisions.DecisionService.HandleProviderFailure` | backend/internal/consent/decision.go:591-609 | A classified failure fails the pending row, an unclassified one leaves it, already_completed is the stable conflict |
| `Decisions.DecisionService.Decide` | backend/internal/consent/decision.go:195-291 | Nothing is claimed unless every check passes and an Allow has a usable credential; then exactly the plan of the judged request is claimed |
| `Decisions.DecisionService.DecideSilently` | backend/internal/consent/decision.go:308-400 | Nothing is claimed unless every check passes, the grant re-check included, and the credential is usable |
| `Decisions.DecisionService.CompleteWithErrorCallback` | backend/internal/consent/decision.go:411-453 | Only non-decision kinds are claimed, without scopes, and only while the request still answers |
| `Decisions.UndisturbedCall` | backend/internal/consent/decision.go:481-526 | A call that meets no fault and no one else returns a callback exactly when its plan is valid and its key, identifier and request are unused; its row has then succeeded with the plan's kind, parties and scopes, the trail ends with the event of just that kind, and grants change only for an Allow, to exactly its scopes |
| `ConsentCalls.RefusedCall` | backend/internal/consent/decision.go:591-609 | After a failed provider call a known class fails the row with that class, a used-up request counts as decided, an error without a class leaves the row pending, and the request is used up exactly if only the reply was lost |
| `ConsentCalls.UsedUpCall` | backend/internal/consent/decision.go:591-609 | A request somebody else used up: the row fails as already completed, the caller is told it was decided, and nothing is granted |
| `ConsentCalls.LosingCall` | backend/internal/consent/decision.go:580-589 | A losing claim never reaches the provider and commits the winner's row exactly if it carries the proof |
| `ConsentCalls.UnclaimedCall` | backend/internal/consent/decision.go:489-505 | A claim that fails ends the call before the provider; its row is there only if the claim committed behind the error |
| `ConsentCalls.LostProof` | backend/internal/consent/decision.go:511-518 | A callback whose proof was not recorded, or not seen to be, is withheld; the request stays used up and the row is pending, or proven behind the error |
| `ConsentCalls.LostCommit` | backend/internal/consent/decision.go:519-526 | A failed local commit never withholds the callback; the row waits for its repair or was committed behind the error |
| `Reconciling.Reconciler.RunOnce` | backend/internal/consent/reconciler.go:152-199 | A pass lists at most a batch, oldest first, judges every listed row by its own horizon, and no row's failure stops it; a cancelled pass did a prefix |
| `Reconciling.Reconciler.JudgeRow` | backend/internal/consent/reconciler.go:167-196 | A proven row is repaired forward, a stale pending row failed, anything else left |
| `Reconciling.RowJudged` | backend/internal/consent/reconciler.go:167-196 | The judgment spelled out: a row with the proof is committed with its event and grant, a pending one from before the horizon fails as unavailable, any other is left |
| `Reconciling.ListedExactly` | backend/internal/adapters/postgres/consent_repo.go:319-354 | A listing that is not full has exactly the proven rows and the pending ones from before the horizon |
| `Reconciling.YoungRowsLeft` | backend/internal/consent/reconciler.go:177-190 | A pending row that is not past the horizon is never touched by a pass |
| `Reconciling.PassIsRun` | backend/internal/consent/reconciler.go:157-199 | A whole pass is part of a run of the protocol, so every result on reachable states holds around it |
| `Reconciling.OnePass` | backend/internal/consent/reconciler.go:157-199 | With every in-flight row past the horizon, exactly the listed rows that can be written leave the in-flight set, proven ones succeeded and the others failed |
| `Reconciling.PassDrains` | backend/internal/consent/reconciler.go:157-199 | Without unwritable rows a pass lowers the in-flight count by exactly min(batch, count) |
| `Reconciling.PassProgresses` | backend/internal/consent/reconciler.go:152-156 | With k unwritable rows a pass settles at least min(batch - k, rest) of the others |
| `Reconciling.PassesSettleEverything` | backend/internal/consent/reconciler.go:152-199 | With k < batch unwritable rows, passes covering the others batch - k at a time settle every one of them according to its proof and touch nothing else |
| `Reconciling.OldPoisonStarves` | backend/internal/consent/reconciler.go:157-199 | A full batch of unwritable rows that are older than all others is all that is ever listed: no pass changes anything again |
| `Gateway.InteractionGateway.Route` | backend/internal/consent/gateway.go:138-185 | A prompt=none arrival never gets a login or consent page and starts exactly the completion its two looks call for; create and select_account arrivals start their error completion; every started completion has the page of what the provider answered and how it ended; everything else completes nothing and gets exactly the page of its resolution |
| `Gateway.InteractionGateway.ExecuteNone` | backend/internal/consent/gateway.go:192-253 | Which completion starts, or which page is shown, as a function of the first look and of the second one, which is what the run in between leaves; an Allow claims the client and scopes the second look judged; an operation that ended in a callback gets it |
| `Gateway.NoneMeaning` | backend/internal/consent/gateway.go:192-253 | Which completion a prompt=none arrival starts, in terms of what both looks saw: Allow exactly if both would let it pass and the credential is usable, login_required and consent_required exactly for their reasons |
| `Gateway.NonePageMeaning` | backend/internal/consent/gateway.go:192-253 | Which page it gets when it starts none |
| `Gateway.InteractionGateway.TrySilently` | backend/internal/consent/gateway.go:227-252 | What the second look decides: Allow exactly after all of its checks with a usable credential, consent_required exactly when reuse became unavailable, login_required exactly for an unusable credential |
| `Gateway.InteractionGateway.RouteInteractive` | backend/internal/consent/gateway.go:261-290 | Each page is shown exactly for its resolution; nothing is claimed or completed |
| `Gateway.PageMeaning` | backend/internal/consent/gateway.go:261-290 | Which worlds give which page: login exactly for a servable request without a fresh session, consent exactly for a live one whose grants can be judged, expired exactly for a request the provider no longer serves, bad request for one that can never be served, none for what cannot be read |
| `Gateway.InteractionGateway.CompleteError` | backend/internal/consent/gateway.go:295-311 | At most one claim, of exactly the given kind; a callback is passed on, a decided or gone request shows the expired page, a request that could not be read is an unclassified error |
| `Gateway.RevokedBetweenLooks` | backend/internal/consent/gateway.go:234-240 | If the consent is not reusable at the second look, whatever the first one saw, no Allow is claimed; if only the consent changed, the answer is consent_required |
| `Gateway.RevocationInBetween` | backend/internal/consent/gateway.go:227-240 | A revocation by the owner as the only event between the two looks turns a silent authorization into consent_required |
| `Applications.SwitchRestores` | backend/internal/applications/service.go:817-891 | From any consistent state one application switch without faults brings every client the provider knows in line with the effective status |
| `Applications.SwitchedExactly` | backend/internal/applications/service.go:823-891 | A complete switch, client by client at the provider: exactly the visible clients of the application that its row knows, without the disabled ones when enabling, and nothing else |
| `Applications.ClientSwitchedExactly` | backend/internal/applications/service.go:619-683 | A switch of one client changes its row and its provider client only, and is allowed exactly from the other status |
| `Applications.SwitchKeeps` | backend/internal/applications/service.go:823-891 | A completed switch leaves no silent drift and keeps disabled clients of disabled applications disabled at the provider |
| `Applications.InterruptedKeeps` | backend/internal/applications/service.go:893-926 | An interrupted switch leaves no silent drift: what changed is named by a job or disabled under a disabled application |
| `Applications.ClientSwitchKeeps` | backend/internal/applications/service.go:619-683 | Switching one client in both stores keeps the invariant, given that enabling needs an active application |
| `Applications.ProvisionedKeeps` | backend/internal/applications/service.go:386-489 | A client that becomes visible together with its enabled provider resource agrees with it |
| `Applications.DriftExactly` | backend/internal/applications/service.go:893-1034 | A provider client is out of line without a job exactly if the deletion mark of its row was torn and no job names it |
| `ApplicationService.RecoveredKeeps` | backend/internal/applications/service.go:905-926 | Rolling back a partial enable, and keeping a partial disable, with jobs for what could not be undone, leaves no silent drift |
| `ApplicationService.FakeProvisioner.ProvisionClient` | backend/internal/applications/fakeprovisioner.go:80-132 | A known idempotency key gets its first answer again; a new one gets one fresh enabled client unless the call failed before taking effect |
| `ApplicationService.FakeProvisioner.SwitchClient` | backend/internal/applications/fakeprovisioner.go:157-201 | Enabling and disabling change exactly the named client, or nothing when they fail or do not know it |
| `ApplicationService.FakeProvisioner.DeleteClient` | backend/internal/applications/fakeprovisioner.go:203-217 | Deletion is idempotent; a failed one may or may not have taken effect |
| `ApplicationService.ApplicationStore.ListClients` | backend/internal/adapters/postgres/oauth_client_repo.go:154-228 | Exactly the rows of the application that are provisioned, or not deleted, each once |
| `ApplicationService.Service.SetStatus` | backend/internal/applications/service.go:823-891 | A success is the complete switch; a fan-out that stops short leaves the local status, undoes a partial enabling and leaves a job for every client it could not switch back or had disabled; a commit that was not confirmed leaves one job per target for the new status; no other jobs; without faults it succeeds exactly when the transition is allowed and the provider knows every target |
| `ApplicationService.Service.FanOut` | backend/internal/applications/service.go:854-878 | The loop switches a set of targets and nothing else, and all of them unless it stops at one the provider refuses |
| `ApplicationService.Service.RecoverPartialStatusSwitch` | backend/internal/applications/service.go:893-926 | Every client switched before the failure is switched back off or has a job to be disabled, a partial disabling stays with a job for each, and there are no other jobs |
| `ApplicationService.Service.SetClientStatus` | backend/internal/applications/service.go:619-683 | A success changes the row and the provider client together; enabling under a disabled application is refused; nothing changes unless the local commit was tried, and then the provider is switched; a commit that was not confirmed leaves exactly its job |
| `ApplicationService.Service.CreateWithInitialClient` | backend/internal/applications/service.go:193-318 | A success is a visible, active application with a visible client enabled at the provider; a refusal by the provider leaves failed rows and no job, an unknown outcome leaves the job that names the client, and a failed completion at most the job of the client it could not remove |
| `ApplicationService.Service.CreateClient` | backend/internal/applications/service.go:386-489 | Never under a disabled application; a success is a visible client enabled at the provider |
| `ApplicationService.Service.FinishProvisioning` | backend/internal/applications/service.go:266-317 | Provision, then complete or compensate: only the new client's rows, its provider resource and jobs change, with exactly the job each failure calls for |
| `ApplicationService.Service.RemoveOrphan` | backend/internal/applications/service.go:351-374 | The compensation removes the provider client or leaves a job that names it |
| `ApplicationService.Service.DeleteClient` | backend/internal/applications/service.go:716-735 | A success deletes the row; a mark that failed changes nothing; a failure after the mark leaves exactly its job; a mark that committed behind an error leaves the row deleting and nothing else |
| `ApplicationService.Service.DeleteLive` | backend/internal/applications/service.go:962-1034 | The delete state machine of one client; its row is torn exactly when the mark of a row that was not yet deleting commits behind an error |
| `ApplicationService.Service.Delete` | backend/internal/applications/service.go:932-956 | The application row changes only by its deletion, and only when none of its clients is left; a success changed it |
| `ApplicationService.Administer` | backend/internal/applications/service.go:193-1034 | Over any sequence of calls with any faults: every provider client is enabled exactly when its application and row are active, or is named by a job, and otherwise its deletion mark was torn, in both directions; and disabled clients of disabled applications are disabled at the provider |
| `ApplicationService.RestoreAfter` | backend/internal/applications/service.go:817-891 | After any such sequence, a successful switch of an application restores every client of it that the provider knows |
| `ApplicationService.TornDeletionDrifts` | backend/internal/applications/service.go:979-995 | The torn case is reachable: a disabled application whose client is still enabled at the provider, with no job |
| `ApplicationService.AmbiguousCompletionBlocksSwitch` | backend/internal/applications/service.go:304-311 | An ambiguous completion followed by its compensation leaves a client that no fault-free switch gets past |
| `SecretRotation.IdleMeansAgreement` | backend/internal/applications/service.go:1036-1163 | In every interleaving, while the gate is idle the provider's secret version is the number of records and exactly the newest is unstamped; the provider is never more than one ahead |
| `SecretRotation.UnknownAdmitsNoRotation` | backend/internal/adapters/postgres/oauth_client_repo.go:623-649 | After an unknown outcome no later step of any interleaving rotates the secret or its records |
| `SecretRotation.SecretsHandedOutOnce` | backend/internal/applications/service.go:1151-1163 | Every secret version handed out is covered by the records and handed to one caller only |
| `SecretRotation.StampKeeps` | backend/internal/adapters/postgres/oauth_client_repo.go:545-592 | Stamping the previous record and adding the new one leaves exactly the newest unstamped |
| `SecretRotation.StepKeeps` | backend/internal/applications/service.go:1046-1163 | Every step, fault, crash and unrelated write keeps the rotation invariant |
| `SecretRotation.RotatingClient.RotateClientSecret` | backend/internal/applications/service.go:1046-1164 | Under every fault and with anything happening in between, the call is one caller's part of a run and ends where its result says; alone, it fails plainly exactly after a refusal, is stranded after no answer, and hands the secret out only after a committed renewal |
| `SecretRotation.RotatingClient.BeginSecretRotation` | backend/internal/adapters/postgres/oauth_client_repo.go:508-543 | The gate is taken exactly from idle at the expected version |
| `SecretRotation.RotatingClient.CompleteSecretRotation` | backend/internal/adapters/postgres/oauth_client_repo.go:545-592 | Stamp, insert and release happen together, for the operation that holds the gate only |
| `SecretRotation.UndisturbedRotation` | backend/internal/applications/service.go:1046-1163 | From any reachable state a rotation without faults or company hands out the next secret exactly when the gate is idle and its identifiers are new; it then stamps the one unstamped record, adds one, and releases the gate |
| `SecretRotation.RefusedRotation` | backend/internal/applications/service.go:1106-1121 | A definite refusal by the provider opens the gate again, changes no record and no secret, and is a plain error |
| `SecretRotation.UnansweredRotation` | backend/internal/applications/service.go:1106-1125 | Without an answer the outcome is unknown for good, whether or not the secret was renewed |
| `SecretRotation.UncommittedRotation` | backend/internal/applications/service.go:1138-1163 | A renewal whose local commit failed withholds the secret; the outcome is unknown, or recorded behind the error |
| `SecretRotation.BusyRotation` | backend/internal/adapters/postgres/oauth_client_repo.go:508-543 | A rotation that cannot take the gate is refused and changes nothing |
| `SecretRotation.LostBegin` | backend/internal/applications/service.go:1085-1104 | A gate taken behind an error stays in progress and its caller is refused |
| `Roles.DecodeEncoded` | backend/internal/adminroles/service.go:384-404 | A stored result decodes to itself exactly when its binding has the role prefix and its version is positive |
| `Roles.DecodeExact` | backend/internal/adminroles/service.go:390-404 | A stored result decodes exactly if its code is the wanted one, its fields are a role binding and a positive version, and its digest is the one of just these three |
| `Roles.MutationsAtMostOnce` | backend/internal/adminroles/service.go:275-335 | Over any run at most one mutation per idempotency key and per protected reason, versions count mutations, and no user has two active bindings for an event |
| `Roles.RetriesAgree` | backend/internal/adminroles/service.go:306-313 | Any two successful answers under one key are the same binding and version |
| `Roles.LostCommitIsReplayed` | backend/internal/adminroles/service.go:302-335 | A retry after a commit lost from sight is answered with the applied result and applies nothing |
| `Roles.MutationTakesEffect` | backend/internal/adminroles/service.go:168-271 | An applied mutation did what it answers: the named binding has the answered version and requested role or is disabled, one trail row and one receipt record it, the reason is spent, and every other binding and reason is untouched |
| `Roles.ChangeSucceedsExactly` | backend/internal/adminroles/service.go:192-271 | An update or disabling under a new key succeeds exactly for an admissible call on the active ordinary binding of that user and event, at the version the caller saw, with a reason that can be spent; a refusal changes nothing |
| `Roles.CreateSucceedsExactly` | backend/internal/adminroles/service.go:168-192 | A creation under a new key succeeds exactly for an admissible call with an unused identifier, where the user has no active binding for the event, with a reason that can be spent |
| `Roles.AnswersAreAdmissible` | backend/internal/adminroles/service.go:337-371 | Over any run, whoever was answered, even from a receipt, or changed anything was authorized twice, is not the target, named a known event, filled in every field, used a key of the right form and asked for an ordinary role |
| `Roles.KeyBoundToRequest` | backend/internal/adminroles/service.go:302-313 | Over any run, once a call under a key was answered or took effect behind an error, every later call under it for another request is refused and changes nothing |
| `Roles.FingerprintCovers` | backend/internal/adminroles/service.go:178-256 | As far as digests do not collide, equal fingerprints are exactly the same actor, reason and mutation, whatever identifier was drawn for it |
| `Roles.ExecuteKeeps` | backend/internal/adminroles/service.go:275-335 | Every call, refused, rolled back, ambiguous or applied, keeps receipts, trail, reasons and versions consistent |
| `Roles.RoleTables.Run` | backend/internal/adminroles/service.go:275-335 | The call with its rollback is exactly the Execute transition |
| `Roles.RoleTables.RunBody` | backend/internal/adminroles/service.go:291-330 | The callback yields the answer of Body, and its tables whenever it succeeds |
| `Roles.RoleTables.CreateOrReplay` | backend/internal/adapters/postgres/admin_unit_of_work.go:483-530 | The first request of a key leaves a pending receipt; later ones get it back or a conflict |
| `StepUp.DecodeEncoded` | backend/internal/adminstepup/service.go:809-832 | A receipt decodes to its version and state exactly when the version is positive |
| `StepUp.DecodeEncodedChange` | backend/internal/adminstepup/service.go:815-864 | A credential receipt decodes to its two versions exactly when both are positive |
| `StepUp.DecodeExact` | backend/internal/adminstepup/service.go:822-850 | A receipt decodes exactly if its fields are a positive version and a known state and its digest is the one of its code and just these two |
| `StepUp.OneOutcomePerKey` | backend/internal/adminstepup/service.go:477-579 | Over any run a key has at most one audit row, so at most one recorded failure, and one exactly when it has a receipt |
| `StepUp.RetriesAgree` | backend/internal/adminstepup/service.go:482-486 | Two calls of one key and operation that reach an outcome reach the same one; the second never carries a bearer |
| `StepUp.OneBearerPerKey` | backend/internal/adminstepup/service.go:526-579 | At most one answer under a key carries a bearer, by whatever operations it is used |
| `StepUp.LostCommitIsReplayed` | backend/internal/adminstepup/service.go:477-579 | A retry after a commit lost from sight gets the stored outcome without the bearer and records nothing |
| `StepUp.NeverASixthFailure` | backend/internal/adapters/postgres/admin_stepup_repo.go:89-101 | Under a clock that never runs backwards no failure window counts a sixth failure |
| `StepUp.FailureBounded` | backend/internal/adapters/postgres/admin_stepup_repo.go:93 | The fifth failure of a window locks for thirty minutes |
| `StepUp.LockedStandsStill` | backend/internal/adminstepup/service.go:498-500 | While locked a call on a new key changes nothing, whatever its answer |
| `StepUp.WrongAnswerCounts` | backend/internal/adapters/postgres/admin_stepup_repo.go:86-101 | A wrong answer counts on within fifteen minutes of the first of its window and starts a new window after them; the fifth locks for thirty minutes; only the version changes besides |
| `StepUp.FifthGuessLocks` | backend/internal/adapters/postgres/admin_stepup_repo.go:86-101 | Of five wrong answers on new keys within fifteen minutes, by verifying or rotating, four are told so and the fifth locks the challenge for thirty minutes from then |
| `StepUp.LockHolds` | backend/internal/adminstepup/service.go:498-500 | Until the lock ends every call on a new key fails and changes nothing, however many there are |
| `StepUp.VerifyExactly` | backend/internal/adminstepup/service.go:487-570 | A new key is verified exactly for the right answer that was compared at all, with a bearer exactly for a high-risk action; a wrong one counts one failure; the receipt says which; nothing else touches the challenge |
| `StepUp.RotateExactly` | backend/internal/adminstepup/service.go:635-698 | A rotation under a new key replaces the credential exactly for the right old answer at the expected version, and lifts every lock and mark |
| `StepUp.EnrolExactly` | backend/internal/adminstepup/service.go:362-439 | An enrolment under a new key succeeds exactly if there is no challenge, and starts an active one without failures or lock |
| `StepUp.ExecuteSettles` | backend/internal/adminstepup/service.go:441-707 | A call changes the tables only by settling its own new key, with a receipt that replays its outcome |
| `StepUp.ChallengeTables.Run` | backend/internal/adminstepup/service.go:477-579 | The call with its rollback is exactly the Execute transition; grants are never rolled back |
| `StepUp.ChallengeTables.VerifyAnswer` | backend/internal/adminstepup/service.go:487-570 | The verification callback, branch by branch |
| `StepUp.ChallengeTables.RotateAnswer` | backend/internal/adminstepup/service.go:635-698 | The rotation callback, branch by branch |
| `Outbox.ReceiptUnlessDelivered` | backend/internal/dreamupadmin/service.go:808-822 | In every run of deliveries, passes, crashes and expired leases, a settled row has a receipt of its own event, request, action and target exactly if the holder of its first claim did not settle it, and exactly if it was claimed again |
| `Outbox.DeliveryNeedsNoReceipt` | backend/internal/dreamupadmin/service.go:519-533 | The first delivery does settle a row without any receipt: created, delivered, answered |
| `Outbox.OnceQueuedOnlyReceipts` | backend/internal/dreamupadmin/reconciler.go:80-146 | A row that was ever back in the queue, deferred or reclaimed, is settled only by its own receipt |
| `Outbox.NeverDeliveredTwice` | backend/internal/dreamupadmin/service.go:743-787 | Once a row exists, whatever became of it, beginning its delivery again is refused and changes nothing |
| `Outbox.TerminalRowsAreFinal` | backend/internal/adapters/postgres/admin_unit_of_work.go:741-819 | Settled, failed and handed-over rows never change again |
| `Outbox.PassDecides` | backend/internal/dreamupadmin/reconciler.go:80-146 | A pass changes nothing if its row moved on or no identifier was drawn; otherwise it settles the row exactly by an own, timely receipt, puts it off by the delay exactly for silence before the deadline, and hands it to an operator in every other case |
| `Outbox.DelayTable` | backend/internal/dreamupadmin/reconciler.go:148-153 | The delay doubles from one second with every attempt and stays at sixty-four |
| `Outbox.BeginDecides` | backend/internal/dreamupadmin/service.go:743-787 | Beginning makes exactly the new, claimed and marked row, or nothing if there is a row already or no claim can be made |
| `Outbox.ClaimDecides` | backend/internal/adapters/postgres/admin_unit_of_work.go:626-672 | A pass claims exactly rows in the queue whose time has come, for its lease, with one more attempt |
| `Outbox.LeaseDecides` | backend/internal/adapters/postgres/admin_unit_of_work.go:626-672 | A running lease is extended by its holder only; one that ran out puts the row back into the queue |
| `Outbox.OnlyTheHolderWrites` | backend/internal/adapters/postgres/admin_unit_of_work.go:675-819 | In every run, while a claim stands only its holder changes the row; anyone else has to wait for the end of its lease |
| `Outbox.DeliveryDecides` | backend/internal/dreamupadmin/service.go:801-843 | The end of a first delivery changes nothing if the row moved on or the lease ran out; otherwise it settles, fails, defers or aborts as its outcome says |
| `Outbox.DeferredAtMostEighteenTimes` | backend/internal/dreamupadmin/reconciler.go:100-106 | In every run under a clock that does not run backwards, with any number of passes and expired leases, passes defer a row at most 18 times |
| `Outbox.EighteenIsReached` | backend/internal/dreamupadmin/reconciler.go:148-153 | From its first claim on, attempted as soon as it is due, a row is deferred by passes 18 times |
| `Outbox.LateSilenceEnds` | backend/internal/dreamupadmin/reconciler.go:100-104 | After the deadline a pass without an answer hands its row to an operator |
| `Outbox.CarryForward` | backend/internal/dreamupadmin/reconciler.go:80-159 | A verdict is carried out only on the claimed version, only forward, and settles only what matches |
| `Outbox.StepKeeps` | backend/internal/adapters/postgres/admin_unit_of_work.go:551-819 | Every step keeps: rows are claimed at least once, a success under the first claim is an answer and under a later one a receipt, and a held copy is its row or older |
| `Outbox.OutboxTable.BeginMutation` | backend/internal/dreamupadmin/service.go:743-787 | The row is created, claimed and marked in one transaction, or nothing happens |
| `Outbox.OutboxTable.FinishMutation` | backend/internal/dreamupadmin/service.go:801-843 | Each end of a delivery is carried out on the row if its claim still holds, its two updates together or not at all |
| `Outbox.OutboxTable.RenewMutationClaim` | backend/internal/dreamupadmin/service.go:845-854 | The lease is renewed if the claim still holds the row |
| `Outbox.OutboxTable.ReconcileOne` | backend/internal/dreamupadmin/reconciler.go:80-113 | The verdict of the item and the upstream answer is carried out on the row if its claim still holds |
| `Outbox.OutboxTable.SettleItem` | backend/internal/dreamupadmin/reconciler.go:131-146 | An indeterminate item is marked sent and settled in one transaction with consecutive versions, or left as it was |
| `Outbox.OutboxTable.ClaimReceiptsDue` | backend/internal/adapters/postgres/admin_unit_of_work.go:626-672 | Expired claims go back to the queue, every listed row is claimed, and no other row changes |
| `Outbox.OutboxTable.RunOnce` | backend/internal/dreamupadmin/reconciler.go:58-78 | Every listed row is claimed and reconciled on its own; every row is counted as processed or failed; no other row changes, except that expired claims go back to the queue |
| `Decimals.PrintOfValue` | backend/internal/adminstepup/hasher.go:174-178 | Printing what was read gives the text back exactly when it has no superfluous zero |
| `Base64.RoundTrip` | backend/internal/adminstepup/hasher.go:135-137 | Decoding what was encoded gives the bytes back |
| `Base64.DecodeThenEncode` | backend/internal/adminstepup/hasher.go:155-162 | Encoding what was decoded gives the text back exactly when it has no line break and no unused bit set |
| `Base64.UnusedBitsIgnored` | backend/internal/adminstepup/hasher.go:155-162 | Two-symbol texts that differ only in unused bits decode alike; one is canonical |
| `Base64.LineBreakIgnored` | backend/internal/adminstepup/hasher.go:155-162 | One more line break anywhere in any text does not change what it decodes to, and makes the text another spelling |
| `Base64.EncodedSymbols` | backend/internal/adminstepup/hasher.go:135-137 | n bytes take the least number of symbols with room for 8n bits, and each symbol stands for its six bits of the 24-bit number of its three bytes, with zeros after the end |
| `Phc.FieldExact` | backend/internal/adminstepup/hasher.go:170-180 | A field is accepted exactly when it is its name and the canonical decimal of a number in range |
| `Phc.ParseExact` | backend/internal/adminstepup/hasher.go:139-168 | A text is accepted exactly when it is the printed form with accepted spellings of salt and key and safe parameters |
| `Phc.ParsePrinted` | backend/internal/adminstepup/hasher.go:135-168 | Parsing what was printed gives parameters, salt and key back |
| `Phc.PrintedForm` | backend/internal/adminstepup/hasher.go:127-137 | The printed form, character by character around the numbers and the two encodings |
| `Phc.PrintedAccepted` | backend/internal/adminstepup/hasher.go:139-168 | Which printed forms are read again: those whose parameters and lengths are in the safe ranges, and to what |
| `Phc.PrintParsed` | backend/internal/adminstepup/hasher.go:135-168 | Printing what was parsed gives the text back exactly when salt and key are spelled canonically |
| `Phc.SplitJoined` | backend/internal/adminstepup/hasher.go:140 | Splitting joined parts that lack the separator gives the parts back |
| `Phc.AnswerHasher.Acquire` | backend/internal/adminstepup/hasher.go:109-125 | A full semaphore makes the call wait; only a cancellation refuses, and then no slot is kept; the capacity is never passed |
| `Phc.AnswerHasher.Hash` | backend/internal/adminstepup/hasher.go:67-86 | Stores the derivation under the current pepper and returns the slot on every path |
| `Phc.AnswerHasher.Verify` | backend/internal/adminstepup/hasher.go:88-107 | Compares the derivation under the named pepper with the stored key and returns the slot on every path |
| `Phc.HashThenVerify` | backend/internal/adminstepup/hasher.go:67-107 | What Hash stored, Verify accepts after any number of new peppers; another answer exactly when its derivation collides |
| `KeyringJson.AcceptsExactly` | backend/internal/dreamupdelegation/keyring.go:125-187 | A token stream is accepted exactly when it is one value, no deeper than sixteen levels, in which no object repeats a name |
| `KeyringJson.ConsumeSound` | backend/internal/dreamupdelegation/keyring.go:137-187 | An accepted value is well formed and exactly its own tokens were consumed |
| `KeyringJson.ConsumeComplete` | backend/internal/dreamupdelegation/keyring.go:137-187 | A well-formed value is accepted wherever it stands |
| `KeyringJson.Decoder.ConsumeUniqueValue` | backend/internal/dreamupdelegation/keyring.go:137-187 | The recursion over the decoder accepts what the specification accepts, stops after it, and terminates |
| `KeyringJson.Decoder.ConsumeObject` | backend/internal/dreamupdelegation/keyring.go:150-172 | The member loop with its seen map |
| `KeyringJson.RejectDuplicateMembers` | backend/internal/dreamupdelegation/keyring.go:125-135 | One value and then the end of the text |
| `CleanupWorker.OneLoop` | backend/internal/dreamupadmin/protected_reason_cleanup.go:114-173 | In every interleaving at most one loop is live and the fields are set exactly while it is |
| `CleanupWorker.StopWaits` | backend/internal/dreamupadmin/protected_reason_cleanup.go:129-148 | Stop returns only after the loop it saw has exited |
| `CleanupWorker.LateStopClearsNothing` | backend/internal/dreamupadmin/protected_reason_cleanup.go:143-147 | The final clearing of a Stop never touches a newer generation |
| `CleanupWorker.WaitingStopIsWoken` | backend/internal/dreamupadmin/protected_reason_cleanup.go:150-173 | A waiting Stop can always be woken once the sweep is over |
| `CleanupWorker.RestartIsNew` | backend/internal/dreamupadmin/protected_reason_cleanup.go:114-127 | A stopped or naturally cancelled worker starts a new generation |
| `CleanupWorker.OnlyCancelledLoopsEnd` | backend/internal/dreamupadmin/protected_reason_cleanup.go:150-173 | Only a cancellation ends a loop, and never in the middle of a sweep |
| `CleanupWorker.Worker.StartLoop` | backend/internal/dreamupadmin/protected_reason_cleanup.go:118-126 | A loop is launched exactly when none is live |
| `CleanupWorker.Worker.Stop` | backend/internal/dreamupadmin/protected_reason_cleanup.go:129-148 | With anything happening while it waits, the call is one part of a run and returns with the generation it saw closed and gone from the fields |
| `CleanupWorker.Worker.ClearGeneration` | backend/internal/dreamupadmin/protected_reason_cleanup.go:143-161 | The fields are cleared only if they still belong to the generation |
| `AutomationCost.HasLeadingZeroBits` | frontend/public/up-automation-cost-worker.js:42-51 | Holds exactly when the big-endian number of the digest is below 2^(8n - d) |
| `AutomationCost.MaskTest` | frontend/public/up-automation-cost-worker.js:47-50 | A byte passes the mask of its r highest bits exactly when it is below 2^(8-r) |
| `AutomationCost.FirstByte` | frontend/public/up-automation-cost-worker.js:42-51 | Below a power of two exactly when the first byte is small enough |
| `AutomationCost.SearchBatch` | frontend/public/up-automation-cost-worker.js:26-36 | The first counter of a batch that passes, or that none does |
| `AutomationCost.Base36Reads` | frontend/public/up-automation-cost-worker.js:25-35 | The nonce reads back as its counter in base 36, in digits and small letters without a leading zero |
| `AutomationCost.Solve` | frontend/public/up-automation-cost-worker.js:14-40 | The nonce of the least passing counter; it gives up only when no counter below 2^53 - 256 passes |

## Left out

- HTTP handlers, SQL, Redis, cookies, configuration, logging and redaction: the store contracts are modelled as the Postgres adapters keep them, and each transaction is taken to be atomic and serializable.
- Cryptography (Argon2id, HMAC, SHA-256, AES-GCM, Ed25519), random identifiers and Unicode normalization: functions or parameters; fresh identifiers are parameters whose collision is an ordinary failure.
- Provider expiry in the fake provider: a request that is gone without being used by an operation is a step of the protocol model instead.
- The in-flight listing reads rows without their scopes; the modelled rows carry them, and nothing in a pass looks at them.
- A revocation between the silent re-check and the Allow commit is overwritten by that commit, as in the code; grant properties are stated in commit order.
- Consent `Reconciler.Start` and `Stop`, and those of the outbox reconciler: the restartable lifecycle is proved for the cleanup worker.
- `ListAuthorizedApplications` and the display data of `Resolve`: they would add easy members.
- Concurrent `SetStatus` and `SetClientStatus`: the code does not serialise them; the saga results are for sequences of calls.
- Enable and disable calls with an unknown outcome: taken to have had no effect, since nothing records them for the failing client.
- Reconciliation-job writes are taken to succeed, and the client's reconciliation flag, which repeats them, is not kept; failed reads, which end a call before it does anything, are not modelled.
- `UpdateClient`, `UpdateApplication`, owner lookup and input validation of the applications service: they change no status.
- Clearing an unknown secret rotation: no code does it yet.
- Recovery of a challenge (`recovery_pending`), approvals and Redis purges of a rotation: the first has no path in the modelled services, the others are rows written in the same transaction.
- Enrolment from the bootstrap command: its record identifier differs from the one the step-up service decrypts with.
- The identifier and pattern checks of an outbox row that never change are one boolean, `wellFormed`; the payload allowlist check at creation is not repeated at settlement.
- `ClaimDue`, `ReleaseExpiredClaim`, `MarkAuditReconciled` and `PurgePayload` of the outbox: no service calls them. The HTTP status stored with a failed or answered delivery is kept for answers only.
- `buildKeyring` and `decodeExactBase64URL`: validation of fields one by one; only the structural check is modelled.
- The JSON lexer: tokens are taken as the standard decoder yields them, with one token for the place where the text stops being JSON.
- Ticker timing and scheduling fairness of the cleanup loop: every interleaving is allowed, so only safety and the absence of deadlock are stated.
- Outbox.DeferredAtMostEighteenTimes: counts deferrals by passes; the first delivery may add one of its own, of one second, which EighteenIsReached includes.
- Resolution.NoneNeverShowsUi: says nothing about the pages the gateway may choose; that is part of Gateway.InteractionGateway.Route.
