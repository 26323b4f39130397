/** Decision operations, grants and the audit trail as values, and the effect of
    every grant-store transaction on them (backend/internal/consent/grants.go and
    backend/internal/adapters/postgres/consent_repo.go). A transaction either
    yields the new store and no error, or an error and the store it started from. */
module Operations {
  import opened Outcomes
  import opened Scopes

  // ---- Completion kinds ----

  datatype CompletionKind =
    | Allow | AccessDenied
    | LoginRequired | ConsentRequired | AccountSelectionRequired
    | RequestNotSupported | ServerError | TemporarilyUnavailable
    | UnknownKind
  {
    predicate Valid() { !UnknownKind? }

    predicate IsUserDecision() { Allow? || AccessDenied? }
  }

  datatype ErrorClass =
    | NotFound | Expired | AlreadyCompleted | InvalidRedirect | InvalidScope
    | ProviderConflict | ProviderUnavailable | RateLimited | Internal | UserNotEligible
    | UnknownClass

  datatype AuditType = GrantAllowed | AccessDeniedRecorded | ErrorCompleted | GrantRevoked

  /** One audit row. requestId is the operation it completes, or the grant it revokes. */
  datatype AuditEvent = AuditEvent(
    eventType: AuditType, actor: string, client: string, requestId: string,
    operation: string, success: bool, failureClass: Option<CompletionKind>)

  // ---- Operations ----

  datatype Key = Key(provider: string, tenant: string, request: string)

  datatype Status = Pending | ProviderSucceeded | Succeeded | Failed
  {
    predicate InFlight() { Pending? || ProviderSucceeded? }
  }

  datatype Operation = Operation(
    id: string, key: Key,
    kind: CompletionKind, user: string, client: string, scopes: seq<string>,
    status: Status, errorClass: Option<ErrorClass>, provenAt: Option<int>, createdAt: int)

  const MAX_PROVIDER_NAME_LEN := 64
  const MAX_AUTH_REQUEST_ID_LEN := 200

  predicate HasPrefix(s: string, prefix: string) { |s| > |prefix| && s[..|prefix|] == prefix }

  predicate IsOperationId(id: string) { HasPrefix(id, "dop_") }

  predicate IsGrantId(id: string) { HasPrefix(id, "grt_") }

  predicate ValidRequestId(id: string) { 0 < |id| <= MAX_AUTH_REQUEST_ID_LEN }

  predicate ValidKey(k: Key) {
    0 < |k.provider| <= MAX_PROVIDER_NAME_LEN && ValidRequestId(k.request)
  }

  /** ValidateForClaim. */
  predicate ValidForClaim(op: Operation) {
    && IsOperationId(op.id)
    && ValidKey(op.key)
    && op.kind.Valid()
    && (op.kind.IsUserDecision() ==> op.user != "" && op.client != "")
    && (op.kind.Allow? ==>
          Normalize(op.scopes).Success? && Normalize(op.scopes).value != [])
    && (!op.kind.Allow? ==> op.scopes == [])
  }

  predicate SamePlan(a: Operation, b: Operation) {
    && a.id == b.id && a.key == b.key && a.kind == b.kind
    && a.user == b.user && a.client == b.client && a.scopes == b.scopes
    && a.createdAt == b.createdAt
  }

  /** The one audit event of a completed operation, built from its row alone. */
  function CanonicalAudit(op: Operation): AuditEvent {
    match op.kind
    case Allow =>
      AuditEvent(GrantAllowed, op.user, op.client, op.id, "consent_allow", true, None)
    case AccessDenied =>
      AuditEvent(AccessDeniedRecorded, op.user, op.client, op.id, "consent_deny", false, None)
    case _ =>
      AuditEvent(ErrorCompleted, op.user, op.client, op.id, "consent_error_completion", false, Some(op.kind))
  }

  function RevocationAudit(grant: Grant): AuditEvent {
    AuditEvent(GrantRevoked, grant.user, grant.client, grant.id, "consent_revoke", true, None)
  }

  // ---- Grants and the store ----

  datatype Grant = Grant(
    id: string, user: string, client: string, active: bool,
    scopes: seq<string>, grantedAt: int, revokedAt: Option<int>)

  datatype Store = Store(
    ops: map<string, Operation>,
    claims: map<Key, string>,
    grants: map<(string, string), Grant>,
    grantIds: map<string, (string, string)>,
    audit: seq<AuditEvent>)

  const EMPTY_STORE := Store(map[], map[], map[], map[], [])

  datatype StoreError =
    | InvalidPlan | ClaimConflict | StateConflict | OperationNotFound | GrantNotFound
    | InvalidClass | UnknownCompletionKind | Unavailable

  datatype ClaimResult =
    | Claimed(row: Operation)
    | Conflict(existing: Operation)
    | ClaimError(error: StoreError)

  type Written = (Store, Option<StoreError>)

  /** The primary and unique keys of the two tables. */
  ghost predicate Indexed(s: Store) {
    && (forall g :: g in s.grantIds ==> s.grantIds[g] in s.grants && s.grants[s.grantIds[g]].id == g)
    && (forall p :: p in s.grants ==>
          && p == (s.grants[p].user, s.grants[p].client)
          && s.grants[p].id in s.grantIds && s.grantIds[s.grants[p].id] == p)
    && (forall k :: k in s.claims ==> s.claims[k] in s.ops && s.ops[s.claims[k]].key == k)
    && (forall id :: id in s.ops ==>
          s.ops[id].id == id && s.ops[id].key in s.claims && s.claims[s.ops[id].key] == id)
  }

  /** ClaimDecisionOperation: insert the plan as a pending row, or read back the
      row that already owns the key. */
  function Claim(s: Store, op: Operation, at: int): (Store, ClaimResult) {
    if !ValidForClaim(op) then (s, ClaimError(InvalidPlan))
    else if op.key in s.claims then
      if s.claims[op.key] in s.ops then (s, Conflict(s.ops[s.claims[op.key]]))
      else (s, ClaimError(OperationNotFound))
    else if op.id in s.ops then (s, ClaimError(Unavailable))
    else
      var scopes := if op.kind.Allow? then Normalize(op.scopes).value else [];
      var row := op.(scopes := scopes, status := Pending, errorClass := None, provenAt := None, createdAt := at);
      (s.(ops := s.ops[op.id := row], claims := s.claims[op.key := op.id]), Claimed(row))
  }

  /** RecordProviderSucceeded: pending to provider_succeeded, or a state conflict. */
  function RecordProof(s: Store, id: string, at: int): Written {
    if id in s.ops && s.ops[id].status.Pending? then
      (s.(ops := s.ops[id := s.ops[id].(status := ProviderSucceeded, provenAt := Some(at))]), None)
    else (s, Some(StateConflict))
  }

  /** FailDecisionOperation: pending to failed, or a state conflict. */
  function Fail(s: Store, id: string, errClass: ErrorClass): Written {
    if errClass.UnknownClass? then (s, Some(InvalidClass))
    else if id in s.ops && s.ops[id].status.Pending? then
      (s.(ops := s.ops[id := s.ops[id].(status := Failed, errorClass := Some(errClass))]), None)
    else (s, Some(StateConflict))
  }

  function Terminalize(s: Store, op: Operation): Store {
    s.(ops := s.ops[op.id := op.(status := Succeeded)], audit := s.audit + [CanonicalAudit(op)])
  }

  predicate GrantIdUsable(s: Store, gid: string) {
    IsGrantId(gid) && gid !in s.grantIds
  }

  predicate AllowCommittable(op: Operation) {
    && op.status.ProviderSucceeded? && op.kind.Allow?
    && op.user != "" && op.client != "" && op.scopes != []
    && Normalize(op.scopes) == Success(op.scopes)
  }

  function Granted(s: Store, op: Operation, grantId: string, at: int): Store {
    var pair := (op.user, op.client);
    var grant := Grant(grantId, op.user, op.client, true, op.scopes, at, None);
    Terminalize(s.(grants := s.grants[pair := grant], grantIds := s.grantIds[grantId := pair]), op)
  }

  /** CommitAllowDecision: grant upsert, scope replacement, audit and terminal state. */
  function CommitAllow(s: Store, id: string, gid: string, at: int): Written {
    if !IsOperationId(id) || id !in s.ops then (s, Some(OperationNotFound))
    else
      var op := s.ops[id];
      var pair := (op.user, op.client);
      if !AllowCommittable(op) then (s, Some(StateConflict))
      else if pair !in s.grants && !GrantIdUsable(s, gid) then (s, Some(Unavailable))
      else
        (Granted(s, op, if pair in s.grants then s.grants[pair].id else gid, at), None)
  }

  /** CommitDenyDecision. */
  function CommitDeny(s: Store, id: string): Written {
    if !IsOperationId(id) || id !in s.ops then (s, Some(OperationNotFound))
    else
      var op := s.ops[id];
      if op.status.ProviderSucceeded? && op.kind.AccessDenied? && op.user != "" && op.scopes == [] then
        (Terminalize(s, op), None)
      else (s, Some(StateConflict))
  }

  /** CommitErrorCompletion. */
  function CommitError(s: Store, id: string): Written {
    if !IsOperationId(id) || id !in s.ops then (s, Some(OperationNotFound))
    else
      var op := s.ops[id];
      if op.status.ProviderSucceeded? && op.kind.Valid() && !op.kind.IsUserDecision() && op.scopes == [] then
        (Terminalize(s, op), None)
      else (s, Some(StateConflict))
  }

  /** repairCompletionForward: dispatch on the kind of the row as it was read. */
  function RepairForward(s: Store, seen: Operation, gid: string, at: int): Written {
    match seen.kind
    case Allow => CommitAllow(s, seen.id, gid, at)
    case AccessDenied => CommitDeny(s, seen.id)
    case UnknownKind => (s, Some(UnknownCompletionKind))
    case _ => CommitError(s, seen.id)
  }

  /** RevokeGrant: bound to the owner, idempotent, one audit event per real revocation. */
  function Revoke(s: Store, user: string, gid: string, at: int): Written {
    if !IsGrantId(gid) || gid !in s.grantIds || s.grantIds[gid].0 != user || s.grantIds[gid] !in s.grants then
      (s, Some(GrantNotFound))
    else
      var pair := s.grantIds[gid];
      var grant := s.grants[pair];
      if !grant.active then (s, None)
      else
        var revoked := grant.(active := false, revokedAt := Some(at));
        (s.(grants := s.grants[pair := revoked], audit := s.audit + [RevocationAudit(grant)]), None)
  }

  // ---- What the audit trail says ----

  predicate IsCompletion(e: AuditEvent) { !e.eventType.GrantRevoked? }

  /** How many completion events the trail holds for an operation. */
  function CompletionCount(audit: seq<AuditEvent>, id: string): nat {
    if audit == [] then 0
    else
      var e := audit[|audit| - 1];
      CompletionCount(audit[..|audit| - 1], id) + (if IsCompletion(e) && e.requestId == id then 1 else 0)
  }

  predicate Concerns(e: AuditEvent, user: string, client: string) {
    e.actor == user && e.client == client && (e.eventType.GrantAllowed? || e.eventType.GrantRevoked?)
  }

  /** The last consent event of a user and client, in commit order. */
  function LatestConsent(audit: seq<AuditEvent>, user: string, client: string): Option<AuditEvent> {
    if audit == [] then None
    else
      var e := audit[|audit| - 1];
      if Concerns(e, user, client) then Some(e) else LatestConsent(audit[..|audit| - 1], user, client)
  }

  /** The last Allow commit of a user and client. */
  function LatestAllow(audit: seq<AuditEvent>, user: string, client: string): Option<AuditEvent> {
    if audit == [] then None
    else
      var e := audit[|audit| - 1];
      if Concerns(e, user, client) && e.eventType.GrantAllowed? then Some(e)
      else LatestAllow(audit[..|audit| - 1], user, client)
  }

  // ---- The store invariant ----

  /** The plan part of a stored row; the claim checked it and nothing changes it. */
  ghost predicate PlanOk(op: Operation) {
    ValidForClaim(op) && Canonical(op.scopes)
  }

  ghost predicate PlansOk(s: Store) {
    forall id :: id in s.ops ==> PlanOk(s.ops[id])
  }

  /** The proof time and the error class are set in exactly the states they belong to. */
  ghost predicate Marked(op: Operation) {
    && (op.status.ProviderSucceeded? || op.status.Succeeded? <==> op.provenAt.Some?)
    && (op.status.Failed? <==> op.errorClass.Some?)
  }

  /** Each succeeded operation has its one canonical event, every other none. */
  ghost predicate Audited(s: Store) {
    && (forall id {:trigger CompletionCount(s.audit, id)} ::
          CompletionCount(s.audit, id) == if id in s.ops && s.ops[id].status.Succeeded? then 1 else 0)
    && (forall i :: 0 <= i < |s.audit| && IsCompletion(s.audit[i]) ==>
          && s.audit[i].requestId in s.ops
          && s.ops[s.audit[i].requestId].status.Succeeded?
          && s.audit[i] == CanonicalAudit(s.ops[s.audit[i].requestId]))
  }

  /** The grant of one pair is what the trail, read in commit order, says. */
  ghost predicate GrantFollowsTrail(s: Store, user: string, client: string) {
    var allow := LatestAllow(s.audit, user, client);
    && ((user, client) in s.grants <==> allow.Some?)
    && (allow.Some? ==>
          && allow.value.requestId in s.ops
          && s.grants[(user, client)].scopes == s.ops[allow.value.requestId].scopes
          && LatestConsent(s.audit, user, client).Some?
          && (s.grants[(user, client)].active <==>
                LatestConsent(s.audit, user, client).value.eventType.GrantAllowed?))
    && (LatestConsent(s.audit, user, client).Some? ==> allow.Some?)
  }

  ghost predicate AllMarked(s: Store) {
    forall id :: id in s.ops ==> Marked(s.ops[id])
  }

  ghost predicate Trailed(s: Store) {
    forall user, client {:trigger GrantFollowsTrail(s, user, client)} :: GrantFollowsTrail(s, user, client)
  }

  ghost predicate StoreInv(s: Store) {
    Indexed(s) && AllMarked(s) && Audited(s) && Trailed(s)
  }

  /** Rows only move forward, and their plans never change. */
  ghost predicate Moves(s: Store, t: Store) {
    forall id :: id in s.ops ==>
      && id in t.ops
      && SamePlan(s.ops[id], t.ops[id])
      && (t.ops[id].status != s.ops[id].status ==>
            || (s.ops[id].status.Pending? && (t.ops[id].status.ProviderSucceeded? || t.ops[id].status.Failed?))
            || (s.ops[id].status.ProviderSucceeded? && t.ops[id].status.Succeeded?))
  }

  /** A transaction touches at most one row, and no claim. */
  ghost predicate OnlyRow(s: Store, t: Store, id: string) {
    id in s.ops && id in t.ops && t.ops == s.ops[id := t.ops[id]] && t.claims == s.claims
  }

  ghost predicate SameGrants(s: Store, t: Store) { t.grants == s.grants && t.grantIds == s.grantIds }

  /** A commit: its row succeeds, and its one event ends the trail. */
  ghost predicate CommitsRow(s: Store, t: Store, id: string) {
    && OnlyRow(s, t, id) && s.ops[id].status.ProviderSucceeded? && t.ops[id].status.Succeeded?
    && t.audit == s.audit + [CanonicalAudit(s.ops[id])] && CompletionCount(t.audit, id) == 1
  }

  // ---- Every transaction keeps the invariant and moves rows forward ----

  /** A transaction that touches no grant and no audit row, and leaves every
      succeeded row as it was and makes none, keeps the trail facts. */
  lemma TrailUntouched(s: Store, t: Store)
    requires Audited(s) && Trailed(s) && Moves(s, t)
    requires t.audit == s.audit && t.grants == s.grants
    requires forall id :: id in t.ops ==> (t.ops[id].status.Succeeded? <==> id in s.ops && s.ops[id].status.Succeeded?)
    ensures Audited(t) && Trailed(t)
  {
    forall user, client ensures GrantFollowsTrail(t, user, client) {
      assert GrantFollowsTrail(s, user, client);
    }
    forall id ensures CompletionCount(t.audit, id) == if id in t.ops && t.ops[id].status.Succeeded? then 1 else 0 {
      assert CompletionCount(s.audit, id) == if id in s.ops && s.ops[id].status.Succeeded? then 1 else 0;
    }
    forall i | 0 <= i < |t.audit| && IsCompletion(t.audit[i])
      ensures t.audit[i].requestId in t.ops && t.ops[t.audit[i].requestId].status.Succeeded?
      ensures t.audit[i] == CanonicalAudit(t.ops[t.audit[i].requestId])
    {
      assert SamePlan(s.ops[s.audit[i].requestId], t.ops[s.audit[i].requestId]);
    }
  }

  /** The claim stores the canonical scope set of a valid plan. */
  lemma ClaimedPlanOk(s: Store, op: Operation, at: int)
    requires Claim(s, op, at).1.Claimed?
    ensures PlanOk(Claim(s, op, at).1.row)
    ensures Elements(Claim(s, op, at).1.row.scopes) == Elements(op.scopes)
  {
    NormalizeSpec(op.scopes);
    CanonicalIsFixedPoint(op.scopes);
    CanonicalIsFixedPoint(Claim(s, op, at).1.row.scopes);
  }

  lemma SamePlanOk(a: Operation, b: Operation)
    requires SamePlan(a, b) && PlanOk(a)
    ensures PlanOk(b)
  {
  }

  /** Plans stay valid when rows only move and every new row has a valid plan. */
  lemma PlansKept(s: Store, t: Store)
    requires PlansOk(s) && Moves(s, t)
    requires forall id :: id in t.ops && id !in s.ops ==> PlanOk(t.ops[id])
    ensures PlansOk(t)
  {
    forall id | id in t.ops ensures PlanOk(t.ops[id]) {
      if id in s.ops { SamePlanOk(s.ops[id], t.ops[id]); }
    }
  }

  function Inserted(s: Store, row: Operation): Store {
    s.(ops := s.ops[row.id := row], claims := s.claims[row.key := row.id])
  }

  lemma InsertedIndexed(s: Store, row: Operation)
    requires Indexed(s) && row.id !in s.ops && row.key !in s.claims
    ensures Indexed(Inserted(s, row)) && Moves(s, Inserted(s, row))
  {
  }

  lemma InsertKeeps(s: Store, row: Operation)
    requires StoreInv(s) && row.id !in s.ops && row.key !in s.claims
    requires row.status.Pending? && row.errorClass.None? && row.provenAt.None?
    ensures StoreInv(Inserted(s, row))
  {
    InsertedIndexed(s, row);
    TrailUntouched(s, Inserted(s, row));
  }

  lemma ClaimKeeps(s: Store, op: Operation, at: int)
    requires StoreInv(s)
    ensures StoreInv(Claim(s, op, at).0) && Moves(s, Claim(s, op, at).0)
    ensures Claim(s, op, at).1.Claimed? ==>
      && op.id !in s.ops && op.key !in s.claims
      && Claim(s, op, at).0.ops == s.ops[op.id := Claim(s, op, at).1.row]
      && Claim(s, op, at).0.claims == s.claims[op.key := op.id]
      && Claim(s, op, at).1.row.key == op.key && Claim(s, op, at).1.row.id == op.id
      && Claim(s, op, at).1.row.status.Pending?
    ensures Claim(s, op, at).1.Claimed? ==>
      var row := Claim(s, op, at).1.row;
      && row.kind == op.kind && row.user == op.user && row.client == op.client
      && row.createdAt == at && row.provenAt.None? && row.errorClass.None?
    ensures var (t, result) := Claim(s, op, at);
      && (result.Claimed? <==> ValidForClaim(op) && op.key !in s.claims && op.id !in s.ops)
      && (result.Conflict? <==> ValidForClaim(op) && op.key in s.claims)
      && (result.Conflict? ==> result.existing == s.ops[s.claims[op.key]])
      && (!result.Claimed? ==> t == s)
  {
    if Claim(s, op, at).1.Claimed? {
      InsertKeeps(s, Claim(s, op, at).1.row);
    }
  }

  /** What a plan must be to be claimed. */
  lemma ValidPlans(op: Operation)
    ensures ValidForClaim(op) <==>
      && |op.id| > 4 && op.id[..4] == "dop_"
      && 1 <= |op.key.provider| <= 64 && 1 <= |op.key.request| <= 200
      && op.kind != UnknownKind
      && (op.kind in {Allow, AccessDenied} ==> op.user != "" && op.client != "")
      && (if op.kind == Allow then 1 <= |op.scopes| <= 32 && AllValid(op.scopes) else op.scopes == [])
  {
    NormalizeSpec(op.scopes);
    if op.scopes != [] { assert op.scopes[0] in Elements(op.scopes); }
    if Normalize(op.scopes).Success? && Normalize(op.scopes).value != [] {
      assert Normalize(op.scopes).value[0] in Elements(Normalize(op.scopes).value);
    }
  }

  lemma StatusChangeKeeps(s: Store, row: Operation)
    requires StoreInv(s) && row.id in s.ops && s.ops[row.id].status.Pending?
    requires SamePlan(row, s.ops[row.id]) && (row.status.ProviderSucceeded? || row.status.Failed?)
    requires row.status.ProviderSucceeded? <==> row.provenAt.Some?
    requires row.status.Failed? <==> row.errorClass.Some?
    ensures StoreInv(s.(ops := s.ops[row.id := row])) && Moves(s, s.(ops := s.ops[row.id := row]))
  {
    assert Marked(s.ops[row.id]);
    TrailUntouched(s, s.(ops := s.ops[row.id := row]));
  }

  lemma RecordProofInv(s: Store, id: string, at: int)
    requires StoreInv(s)
    ensures StoreInv(RecordProof(s, id, at).0) && Moves(s, RecordProof(s, id, at).0)
  {
    if id in s.ops && s.ops[id].status.Pending? {
      assert Marked(s.ops[id]);
      StatusChangeKeeps(s, s.ops[id].(status := ProviderSucceeded, provenAt := Some(at)));
    }
  }

  lemma RecordProofKeeps(s: Store, id: string, at: int)
    requires StoreInv(s)
    ensures StoreInv(RecordProof(s, id, at).0) && Moves(s, RecordProof(s, id, at).0)
    ensures var (t, error) := RecordProof(s, id, at);
      && (error.None? <==> id in s.ops && s.ops[id].status.Pending?)
      && (error.None? ==>
            && OnlyRow(s, t, id) && SameGrants(s, t) && t.audit == s.audit
            && t.ops[id].status.ProviderSucceeded? && t.ops[id].provenAt == Some(at))
      && (error.Some? ==> t == s)
  {
    RecordProofInv(s, id, at);
  }

  lemma FailInv(s: Store, id: string, errClass: ErrorClass)
    requires StoreInv(s)
    ensures StoreInv(Fail(s, id, errClass).0) && Moves(s, Fail(s, id, errClass).0)
  {
    if id in s.ops && s.ops[id].status.Pending? && !errClass.UnknownClass? {
      assert Marked(s.ops[id]);
      StatusChangeKeeps(s, s.ops[id].(status := Failed, errorClass := Some(errClass)));
    }
  }

  lemma FailKeeps(s: Store, id: string, errClass: ErrorClass)
    requires StoreInv(s)
    ensures StoreInv(Fail(s, id, errClass).0) && Moves(s, Fail(s, id, errClass).0)
    ensures var (t, error) := Fail(s, id, errClass);
      && (error.None? <==> id in s.ops && s.ops[id].status.Pending? && !errClass.UnknownClass?)
      && (error.None? ==>
            && OnlyRow(s, t, id) && SameGrants(s, t) && t.audit == s.audit
            && t.ops[id].status.Failed? && t.ops[id].errorClass == Some(errClass))
      && (error.Some? ==> t == s)
  {
    FailInv(s, id, errClass);
  }

  lemma TerminalizeAudits(s: Store, op: Operation)
    requires Audited(s) && op.id in s.ops && s.ops[op.id] == op && op.status.ProviderSucceeded?
    ensures Audited(Terminalize(s, op))
  {
    var t := Terminalize(s, op);
    assert t.audit[..|t.audit| - 1] == s.audit;
    forall id ensures CompletionCount(t.audit, id) == if id in t.ops && t.ops[id].status.Succeeded? then 1 else 0 {
      assert CompletionCount(s.audit, id) == if id in s.ops && s.ops[id].status.Succeeded? then 1 else 0;
    }
  }

  /** The grant upsert of an Allow commit makes its pair active with the plan's
      scopes, and no other pair changes. */
  lemma AllowTrail(s: Store, t: Store, op: Operation, grant: Grant)
    requires Indexed(s) && Trailed(s) && op.id in s.ops && s.ops[op.id] == op && op.kind.Allow?
    requires t.ops == s.ops[op.id := op.(status := Succeeded)] && t.audit == s.audit + [CanonicalAudit(op)]
    requires t.grants == s.grants[(op.user, op.client) := grant] && grant.active && grant.scopes == op.scopes
    ensures Trailed(t)
  {
    assert t.audit[..|t.audit| - 1] == s.audit;
    forall user, client ensures GrantFollowsTrail(t, user, client) {
      assert GrantFollowsTrail(s, user, client);
    }
  }

  lemma GrantedKeeps(s: Store, op: Operation, grantId: string, at: int)
    requires StoreInv(s) && op.id in s.ops && s.ops[op.id] == op && op.status.ProviderSucceeded? && op.kind.Allow?
    requires if (op.user, op.client) in s.grants then grantId == s.grants[(op.user, op.client)].id
             else grantId !in s.grantIds
    ensures StoreInv(Granted(s, op, grantId, at)) && Moves(s, Granted(s, op, grantId, at))
  {
    var t := Granted(s, op, grantId, at);
    assert Marked(op);
    TerminalizeAudits(s, op);
    assert t.ops == Terminalize(s, op).ops && t.audit == Terminalize(s, op).audit;
    AllowTrail(s, t, op, t.grants[(op.user, op.client)]);
  }

  lemma OtherKeeps(s: Store, op: Operation)
    requires StoreInv(s) && op.id in s.ops && s.ops[op.id] == op && op.status.ProviderSucceeded? && !op.kind.Allow?
    ensures StoreInv(Terminalize(s, op)) && Moves(s, Terminalize(s, op))
  {
    var t := Terminalize(s, op);
    assert Marked(op);
    TerminalizeAudits(s, op);
    assert t.audit[..|t.audit| - 1] == s.audit;
    forall user, client ensures GrantFollowsTrail(t, user, client) {
      assert GrantFollowsTrail(s, user, client);
    }
  }

  lemma CommitAllowCases(s: Store, id: string, gid: string, at: int)
    requires Indexed(s) && CommitAllow(s, id, gid, at).1.None?
    ensures id in s.ops && s.ops[id].id == id && s.ops[id].status.ProviderSucceeded? && s.ops[id].kind.Allow?
    ensures var pair := (s.ops[id].user, s.ops[id].client);
            var grantId := if pair in s.grants then s.grants[pair].id else gid;
            && (pair !in s.grants ==> gid !in s.grantIds)
            && CommitAllow(s, id, gid, at).0 == Granted(s, s.ops[id], grantId, at)
  {
  }

  lemma CommitAllowInv(s: Store, id: string, gid: string, at: int)
    requires StoreInv(s)
    ensures StoreInv(CommitAllow(s, id, gid, at).0) && Moves(s, CommitAllow(s, id, gid, at).0)
  {
    var (t, error) := CommitAllow(s, id, gid, at);
    if error.Some? {
      assert t == s;
    } else {
      CommitAllowCases(s, id, gid, at);
      var pair := (s.ops[id].user, s.ops[id].client);
      GrantedKeeps(s, s.ops[id], if pair in s.grants then s.grants[pair].id else gid, at);
    }
  }

  lemma CommitAllowKeeps(s: Store, id: string, gid: string, at: int)
    requires StoreInv(s)
    ensures StoreInv(CommitAllow(s, id, gid, at).0) && Moves(s, CommitAllow(s, id, gid, at).0)
    ensures var (t, error) := CommitAllow(s, id, gid, at);
      && (error.Some? ==> t == s)
      && (error.None? ==>
            && CommitsRow(s, t, id)
            && var pair := (s.ops[id].user, s.ops[id].client);
               && pair in t.grants && t.grants == s.grants[pair := t.grants[pair]]
               && t.grants[pair].active && t.grants[pair].scopes == s.ops[id].scopes
               && t.grants[pair].grantedAt == at && t.grants[pair].revokedAt.None?
               && (pair in s.grants ==> t.grants[pair].id == s.grants[pair].id))
  {
    CommitAllowInv(s, id, gid, at);
    if CommitAllow(s, id, gid, at).1.None? { CommitAllowCases(s, id, gid, at); }
  }

  lemma CommitDenyInv(s: Store, id: string)
    requires StoreInv(s)
    ensures StoreInv(CommitDeny(s, id).0) && Moves(s, CommitDeny(s, id).0)
  {
    if CommitDeny(s, id).1.None? { OtherKeeps(s, s.ops[id]); }
  }

  lemma CommitDenyKeeps(s: Store, id: string)
    requires StoreInv(s)
    ensures StoreInv(CommitDeny(s, id).0) && Moves(s, CommitDeny(s, id).0)
    ensures var (t, error) := CommitDeny(s, id);
      && (error.Some? ==> t == s)
      && (error.None? ==> CommitsRow(s, t, id) && SameGrants(s, t))
  {
    CommitDenyInv(s, id);
  }

  lemma CommitErrorInv(s: Store, id: string)
    requires StoreInv(s)
    ensures StoreInv(CommitError(s, id).0) && Moves(s, CommitError(s, id).0)
  {
    if CommitError(s, id).1.None? { OtherKeeps(s, s.ops[id]); }
  }

  lemma CommitErrorKeeps(s: Store, id: string)
    requires StoreInv(s)
    ensures StoreInv(CommitError(s, id).0) && Moves(s, CommitError(s, id).0)
    ensures var (t, error) := CommitError(s, id);
      && (error.Some? ==> t == s)
      && (error.None? ==> CommitsRow(s, t, id) && SameGrants(s, t))
  {
    CommitErrorInv(s, id);
  }

  lemma RepairForwardKeeps(s: Store, seen: Operation, gid: string, at: int)
    requires StoreInv(s)
    ensures StoreInv(RepairForward(s, seen, gid, at).0) && Moves(s, RepairForward(s, seen, gid, at).0)
  {
    match seen.kind
    case Allow => CommitAllowInv(s, seen.id, gid, at);
    case AccessDenied => CommitDenyInv(s, seen.id);
    case UnknownKind =>
    case _ => CommitErrorInv(s, seen.id);
  }

  function Revoked(s: Store, pair: (string, string), at: int): Store
    requires pair in s.grants
  {
    s.(grants := s.grants[pair := s.grants[pair].(active := false, revokedAt := Some(at))],
       audit := s.audit + [RevocationAudit(s.grants[pair])])
  }

  lemma RevocationAudits(s: Store, pair: (string, string), at: int)
    requires Audited(s) && pair in s.grants
    ensures Audited(Revoked(s, pair, at))
  {
    var t := Revoked(s, pair, at);
    assert t.audit[..|t.audit| - 1] == s.audit;
    forall id ensures CompletionCount(t.audit, id) == if id in t.ops && t.ops[id].status.Succeeded? then 1 else 0 {
      assert CompletionCount(s.audit, id) == if id in s.ops && s.ops[id].status.Succeeded? then 1 else 0;
    }
  }

  lemma RevocationTrail(s: Store, pair: (string, string), at: int)
    requires Indexed(s) && Trailed(s) && pair in s.grants
    ensures Trailed(Revoked(s, pair, at))
  {
    var t := Revoked(s, pair, at);
    assert t.audit[..|t.audit| - 1] == s.audit;
    forall user, client ensures GrantFollowsTrail(t, user, client) {
      assert GrantFollowsTrail(s, user, client);
    }
  }

  lemma {:induction false} LatestConcerns(audit: seq<AuditEvent>, user: string, client: string)
    ensures var latest := LatestConsent(audit, user, client); latest.Some? ==> Concerns(latest.value, user, client)
  {
    if audit != [] { LatestConcerns(audit[..|audit| - 1], user, client); }
  }

  lemma RevokeInv(s: Store, user: string, gid: string, at: int)
    requires StoreInv(s)
    ensures StoreInv(Revoke(s, user, gid, at).0) && Moves(s, Revoke(s, user, gid, at).0)
  {
    var (t, error) := Revoke(s, user, gid, at);
    if error.None? {
      var pair := s.grantIds[gid];
      if t != s {
        assert t == Revoked(s, pair, at);
        RevocationAudits(s, pair, at);
        RevocationTrail(s, pair, at);
      }
    }
  }

  lemma RevokeKeeps(s: Store, user: string, gid: string, at: int)
    requires StoreInv(s)
    ensures StoreInv(Revoke(s, user, gid, at).0) && Moves(s, Revoke(s, user, gid, at).0)
    ensures var (t, error) := Revoke(s, user, gid, at);
      && t.ops == s.ops && t.claims == s.claims && t.grantIds == s.grantIds
      && (error.None? <==> IsGrantId(gid) && gid in s.grantIds && s.grantIds[gid].0 == user)
      && (error.Some? ==> t == s)
      && (error.None? ==>
            && var pair := s.grantIds[gid];
               && pair in t.grants && t.grants == s.grants[pair := t.grants[pair]]
               && !t.grants[pair].active && t.grants[pair].scopes == s.grants[pair].scopes
               && LatestConsent(t.audit, user, pair.1).Some?
               && LatestConsent(t.audit, user, pair.1).value.eventType.GrantRevoked?
               && (s.grants[pair].active <==> t != s)
               && (t != s ==> t.grants[pair].revokedAt == Some(at))
               && (t != s ==>
                     var told := AuditEvent(GrantRevoked, user, pair.1, gid, "consent_revoke", true, None);
                     t.audit == s.audit + [told]))
  {
    RevokeInv(s, user, gid, at);
    var t := Revoke(s, user, gid, at).0;
    if Revoke(s, user, gid, at).1.None? {
      var pair := s.grantIds[gid];
      assert GrantFollowsTrail(s, pair.0, pair.1);
      LatestConcerns(s.audit, pair.0, pair.1);
      if t != s { assert t.audit[|t.audit| - 1] == RevocationAudit(s.grants[pair]); }
    }
  }

  /** A second revocation of the same grant succeeds and changes nothing. */
  lemma RevokeIdempotent(s: Store, user: string, gid: string, at: int, later: int)
    requires StoreInv(s) && Revoke(s, user, gid, at).1.None?
    ensures StoreInv(Revoke(s, user, gid, at).0)
    ensures Revoke(Revoke(s, user, gid, at).0, user, gid, later) == (Revoke(s, user, gid, at).0, None)
  {
    RevokeKeeps(s, user, gid, at);
  }

  /** Without corruption from outside, a proven row always commits: only the row's
      own state and a usable new grant identifier decide, never its plan. */
  lemma ProvenRowsCommit(s: Store, id: string, gid: string, at: int)
    requires StoreInv(s) && PlansOk(s) && id in s.ops && s.ops[id].status.ProviderSucceeded?
    ensures RepairForward(s, s.ops[id], gid, at).1.None? <==>
      !s.ops[id].kind.Allow? || (s.ops[id].user, s.ops[id].client) in s.grants || GrantIdUsable(s, gid)
    ensures RepairForward(s, s.ops[id], gid, at).1.None? ==>
      RepairForward(s, s.ops[id], gid, at).0.ops[id].status.Succeeded?
  {
    CanonicalIsFixedPoint(s.ops[id].scopes);
  }
}
