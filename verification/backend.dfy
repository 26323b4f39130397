/** The two stateful collaborators of the consent services: the grant store
    (the GrantStore contract of backend/internal/consent/grants.go, as
    backend/internal/adapters/postgres/consent_repo.go keeps it) and the one-shot provider
    of backend/internal/consent/fake.go. Every method is shown to be one transition of the
    value-level specification in Operations and Protocol. */
module Backend {
  import opened Outcomes
  import opened Scopes
  import opened Operations
  import opened Protocol
  import opened Resolution

  /** What ListInFlightDecisionOperations selects. */
  predicate NeedsAttention(op: Operation, staleBefore: int) {
    op.status.ProviderSucceeded? || (op.status.Pending? && op.createdAt < staleBefore)
  }

  ghost predicate OldestFirst(rows: seq<Operation>) {
    forall i, j :: 0 <= i < j < |rows| ==> rows[i].createdAt <= rows[j].createdAt
  }

  ghost predicate DistinctIds(rows: seq<Operation>) {
    forall i, j :: 0 <= i < j < |rows| ==> rows[i].id != rows[j].id
  }

  /** The in-flight listing: stored rows that need attention, oldest first, at most limit,
      and a row that needs attention is left out only when the listing is full of rows that
      are no younger. */
  ghost predicate IsInFlightList(ops: map<string, Operation>, staleBefore: int, limit: nat, rows: seq<Operation>) {
    && |rows| <= limit
    && OldestFirst(rows) && DistinctIds(rows)
    && (forall i :: 0 <= i < |rows| ==>
          rows[i].id in ops && ops[rows[i].id] == rows[i] && NeedsAttention(rows[i], staleBefore))
    && (forall id :: id in ops && NeedsAttention(ops[id], staleBefore) && ops[id] !in rows ==>
          |rows| == limit && forall i :: 0 <= i < |rows| ==> rows[i].createdAt <= ops[id].createdAt)
  }

  /** A listing under construction: the rows taken so far and the identifiers left. */
  ghost predicate Listed(ops: map<string, Operation>, staleBefore: int, rows: seq<Operation>, rest: set<string>) {
    && OldestFirst(rows) && DistinctIds(rows)
    && (forall i :: 0 <= i < |rows| ==>
          rows[i].id in ops && ops[rows[i].id] == rows[i] && NeedsAttention(rows[i], staleBefore)
            && rows[i].id !in rest)
    && (forall id :: id in rest ==> id in ops && NeedsAttention(ops[id], staleBefore))
    && (forall id, i :: id in rest && 0 <= i < |rows| ==> rows[i].createdAt <= ops[id].createdAt)
    && (forall id :: id in ops && NeedsAttention(ops[id], staleBefore) ==> id in rest || ops[id] in rows)
  }

  lemma ListOne(ops: map<string, Operation>, staleBefore: int, rows: seq<Operation>, rest: set<string>, id: string)
    requires Listed(ops, staleBefore, rows, rest) && id in rest && ops[id].id == id
    requires forall other :: other in rest ==> ops[id].createdAt <= ops[other].createdAt
    ensures Listed(ops, staleBefore, rows + [ops[id]], rest - {id})
  {
    var more := rows + [ops[id]];
    assert more[|rows|] == ops[id];
    forall k | k in ops && NeedsAttention(ops[k], staleBefore) ensures k in rest - {id} || ops[k] in more {
      assert k in rest || ops[k] in rows;
    }
  }

  class GrantStore {
    var ops: map<string, Operation>
    var claims: map<Key, string>
    var grants: map<(string, string), Grant>
    var grantIds: map<string, (string, string)>
    var audit: seq<AuditEvent>

    ghost function Contents(): Store
      reads this
    {
      Store(ops, claims, grants, grantIds, audit)
    }

    constructor ()
      ensures Contents() == EMPTY_STORE
    {
      ops, claims, grants, grantIds, audit := map[], map[], map[], map[], [];
    }

    /** Transactions of other processes commit. */
    method Overtake(t: Store)
      modifies this
      ensures Contents() == t
    {
      ops, claims, grants, grantIds, audit := t.ops, t.claims, t.grants, t.grantIds, t.audit;
    }

    /** ClaimDecisionOperation: the insert loses against the unique key of the request and
        then reads the winning row back. */
    method ClaimDecisionOperation(op: Operation, fault: Fault, at: int) returns (result: ClaimResult)
      modifies this
      ensures Contents() == if fault.FailsBefore? then old(Contents()) else Claim(old(Contents()), op, at).0
      ensures result == if fault.Works? then Claim(old(Contents()), op, at).1 else ClaimError(Unavailable)
    {
      if fault.FailsBefore? { return ClaimError(Unavailable); }
      if !ValidForClaim(op) {
        result := ClaimError(InvalidPlan);
      } else if op.key in claims {
        var owner := claims[op.key];
        result := if owner in ops then Conflict(ops[owner]) else ClaimError(OperationNotFound);
      } else if op.id in ops {
        result := ClaimError(Unavailable);
      } else {
        var scopes := if op.kind.Allow? then Normalize(op.scopes).value else [];
        var row := op.(scopes := scopes, status := Pending, errorClass := None, provenAt := None, createdAt := at);
        ops := ops[row.id := row];
        claims := claims[row.key := row.id];
        result := Claimed(row);
      }
      if fault.FailsAfter? { result := ClaimError(Unavailable); }
    }

    method RecordProviderSucceeded(id: string, fault: Fault, at: int) returns (ok: bool)
      modifies this
      ensures (Contents(), ok) == Persist(old(Contents()), RecordProof(old(Contents()), id, at), fault)
    {
      if fault.FailsBefore? || id !in ops || !ops[id].status.Pending? { return false; }
      ops := ops[id := ops[id].(status := ProviderSucceeded, provenAt := Some(at))];
      ok := fault.Works?;
    }

    method FailDecisionOperation(id: string, errClass: ErrorClass, fault: Fault) returns (ok: bool)
      modifies this
      ensures (Contents(), ok) == Persist(old(Contents()), Fail(old(Contents()), id, errClass), fault)
    {
      if fault.FailsBefore? || errClass.UnknownClass? || id !in ops || !ops[id].status.Pending? { return false; }
      ops := ops[id := ops[id].(status := Failed, errorClass := Some(errClass))];
      ok := fault.Works?;
    }

    /** The common tail of the three commits: the audit row and the terminal transition. */
    method FinishCommit(op: Operation)
      modifies this
      ensures Contents() == Terminalize(old(Contents()), op)
    {
      audit := audit + [CanonicalAudit(op)];
      ops := ops[op.id := op.(status := Succeeded)];
    }

    /** CommitAllowDecision: the locked row alone decides what is written. */
    method CommitAllowDecision(id: string, newGrantId: string, fault: Fault, at: int) returns (ok: bool)
      modifies this
      ensures (Contents(), ok) == Persist(old(Contents()), CommitAllow(old(Contents()), id, newGrantId, at), fault)
    {
      if fault.FailsBefore? || !IsOperationId(id) || id !in ops { return false; }
      var op := ops[id];
      if !op.status.ProviderSucceeded? || !op.kind.Allow? || op.user == "" || op.client == "" || |op.scopes| == 0 {
        return false;
      }
      var canonical := ScopesAreCanonical(op.scopes);
      assert canonical <==> Normalize(op.scopes) == Success(op.scopes) by { CanonicalIsFixedPoint(op.scopes); }
      if !canonical { return false; }
      var pair := (op.user, op.client);
      var grantId := newGrantId;
      if pair in grants {
        grantId := grants[pair].id;
      } else if !IsGrantId(newGrantId) || newGrantId in grantIds {
        return false;
      }
      grants := grants[pair := Grant(grantId, op.user, op.client, true, op.scopes, at, None)];
      grantIds := grantIds[grantId := pair];
      FinishCommit(op);
      ok := fault.Works?;
    }

    method CommitDenyDecision(id: string, fault: Fault) returns (ok: bool)
      modifies this
      ensures (Contents(), ok) == Persist(old(Contents()), CommitDeny(old(Contents()), id), fault)
    {
      if fault.FailsBefore? || !IsOperationId(id) || id !in ops { return false; }
      var op := ops[id];
      if !op.status.ProviderSucceeded? || !op.kind.AccessDenied? || op.user == "" || |op.scopes| != 0 { return false; }
      FinishCommit(op);
      ok := fault.Works?;
    }

    method CommitErrorCompletion(id: string, fault: Fault) returns (ok: bool)
      modifies this
      ensures (Contents(), ok) == Persist(old(Contents()), CommitError(old(Contents()), id), fault)
    {
      if fault.FailsBefore? || !IsOperationId(id) || id !in ops { return false; }
      var op := ops[id];
      if !op.status.ProviderSucceeded? || !op.kind.Valid() || op.kind.IsUserDecision() || |op.scopes| != 0 {
        return false;
      }
      FinishCommit(op);
      ok := fault.Works?;
    }

    /** repairCompletionForward: dispatch on the kind of the row as it was read. */
    method RepairCompletionForward(seen: Operation, newGrantId: string, fault: Fault, at: int) returns (ok: bool)
      modifies this
      ensures (Contents(), ok) == Persist(old(Contents()), RepairForward(old(Contents()), seen, newGrantId, at), fault)
    {
      if seen.kind.Allow? {
        ok := CommitAllowDecision(seen.id, newGrantId, fault, at);
      } else if seen.kind.AccessDenied? {
        ok := CommitDenyDecision(seen.id, fault);
      } else if seen.kind.Valid() {
        ok := CommitErrorCompletion(seen.id, fault);
      } else {
        ok := false;
      }
    }

    method Oldest(ids: set<string>) returns (id: string)
      requires ids != {} && ids <= ops.Keys
      ensures id in ids && forall other :: other in ids ==> ops[id].createdAt <= ops[other].createdAt
    {
      id :| id in ids;
      var rest := ids - {id};
      while rest != {}
        invariant id in ids && rest <= ids
        invariant forall other :: other in ids - rest ==> ops[id].createdAt <= ops[other].createdAt
        decreases rest
      {
        var next :| next in rest;
        if ops[next].createdAt < ops[id].createdAt { id := next; }
        rest := rest - {next};
      }
    }

    /** ListInFlightDecisionOperations; a limit of zero falls back to 100. */
    method ListInFlightDecisionOperations(staleBefore: int, limit: nat) returns (rows: seq<Operation>)
      requires Indexed(Contents())
      ensures IsInFlightList(ops, staleBefore, if limit == 0 then 100 else limit, rows)
    {
      var cap := if limit == 0 then 100 else limit;
      var rest := set id | id in ops && NeedsAttention(ops[id], staleBefore);
      rows := [];
      while |rows| < cap && rest != {}
        invariant |rows| <= cap && Listed(ops, staleBefore, rows, rest)
        decreases rest
      {
        var id := Oldest(rest);
        ListOne(ops, staleBefore, rows, rest, id);
        rows := rows + [ops[id]];
        rest := rest - {id};
      }
    }

    method RevokeGrant(user: string, grantId: string, fault: Fault, at: int) returns (ok: bool)
      modifies this
      ensures (Contents(), ok) == Persist(old(Contents()), Revoke(old(Contents()), user, grantId, at), fault)
    {
      if fault.FailsBefore? || !IsGrantId(grantId) || grantId !in grantIds { return false; }
      var pair := grantIds[grantId];
      if pair.0 != user || pair !in grants { return false; }
      var grant := grants[pair];
      if grant.active {
        grants := grants[pair := grant.(active := false, revokedAt := Some(at))];
        audit := audit + [RevocationAudit(grant)];
      }
      ok := fault.Works?;
    }
  }

  /** FakeAuthRequestProvider, serving one provider name and tenant. */
  class FakeAuthRequestProvider {
    const name: string
    const tenant: string
    var requests: map<string, View>
    var completed: map<string, nat>
    var getErr: Option<Option<ErrorClass>>
    var compErr: Option<Option<ErrorClass>>
    var lostErr: Option<Option<ErrorClass>>
    var completionAttempts: nat

    /** Who used up which request, and every call ever made. */
    ghost var ledger: Provider

    function KeyOf(request: string): Key { Key(name, tenant, request) }

    function Count(id: string): nat
      reads this
    {
      if id in completed then completed[id] else 0
    }

    ghost predicate Valid()
      reads this
    {
      forall id ::
        && (id in completed <==> KeyOf(id) in ledger.consumed)
        && (id in completed ==> completed[id] == 1)
    }

    constructor (providerName: string, tenantId: string)
      ensures Valid() && name == providerName && tenant == tenantId
      ensures ledger == Provider(map[], []) && requests == map[] && completionAttempts == 0
      ensures getErr == compErr == lostErr == None
    {
      name, tenant := providerName, tenantId;
      requests, completed, completionAttempts := map[], map[], 0;
      getErr, compErr, lostErr := None, None, None;
      ledger := Provider(map[], []);
    }

    /** Requests are used up, or called, by other processes. */
    method Overtake(p: Provider)
      modifies this`completed, this`ledger
      ensures Valid() && ledger == p
    {
      completed := map k | k in p.consumed && k.provider == name && k.tenant == tenant :: k.request := 1;
      ledger := p;
      forall id ensures id in completed <==> KeyOf(id) in ledger.consumed {
        assert KeyOf(id) in ledger.consumed ==> KeyOf(id).request == id;
      }
    }

    /** A request answers exactly while it is known, in range and not used up; the reasons
        for not answering all read as not_found. */
    ghost function Answer(id: string): Result<View, Option<ErrorClass>>
      reads this
    {
      AnswerUnder(ledger, id)
    }

    /** The same, once the given requests have been used up. */
    ghost function AnswerUnder(p: Provider, id: string): Result<View, Option<ErrorClass>>
      reads this`requests, this`getErr
    {
      if getErr.Some? then Failure(getErr.value)
      else if ValidRequestId(id) && id in requests && KeyOf(id) !in p.consumed then Success(requests[id])
      else Failure(Some(NotFound))
    }

    method GetAuthRequest(id: string) returns (r: Result<View, Option<ErrorClass>>)
      requires Valid()
      ensures r == Answer(id)
      ensures r.Success? <==>
        getErr.None? && ValidRequestId(id) && id in requests && KeyOf(id) !in ledger.consumed
      ensures r.Success? ==> r.value == requests[id]
      ensures r.Failure? ==> r.error == if getErr.Some? then getErr.value else Some(NotFound)
    {
      if getErr.Some? { return Failure(getErr.value); }
      if !ValidRequestId(id) { return Failure(Some(NotFound)); }
      if id in completed { return Failure(Some(NotFound)); }
      if id !in requests { return Failure(Some(NotFound)); }
      r := Success(requests[id]);
    }

    /** complete: the shared part of both completion calls. None means the call went through;
        outcome is what really became of it, which the caller may not be able to see. */
    method CompleteOnce(id: string, ghost row: Operation)
      returns (failure: Option<Option<ErrorClass>>, outcome: CallOutcome)
      requires Valid() && row.key == KeyOf(id)
      modifies this`completed, this`completionAttempts, this`ledger
      ensures Valid() && completionAttempts == old(completionAttempts) + 1
      ensures (ledger, if failure.None? then CallbackReply else ErrorReply(failure.value))
              == Complete(old(ledger), row, outcome)
      ensures failure.None? <==>
        ValidRequestId(id) && id in requests && KeyOf(id) !in old(ledger).consumed && compErr.None? && lostErr.None?
    {
      completionAttempts := completionAttempts + 1;
      if !ValidRequestId(id) || id !in requests {
        outcome := NotReached(Some(NotFound));
        ledger := Complete(ledger, row, outcome).0;
        return Some(Some(NotFound)), outcome;
      }
      if Count(id) > 0 {
        outcome := Completed;
        ledger := Complete(ledger, row, outcome).0;
        return Some(Some(AlreadyCompleted)), outcome;
      }
      if compErr.Some? {
        outcome := NotReached(compErr.value);
        ledger := Complete(ledger, row, outcome).0;
        return compErr, outcome;
      }
      completed := completed[id := Count(id) + 1];
      outcome := if lostErr.Some? then LostReply(lostErr.value) else Completed;
      ledger := Complete(ledger, row, outcome).0;
      failure := lostErr;
    }

    /** CompleteWithSession (Allow) and CompleteWithError (every other kind). An unusable
        session handle is refused before the provider is reached. */
    method CompleteRequest(id: string, withSession: bool, handleUsable: bool, ghost row: Operation)
      returns (reply: Reply, outcome: CallOutcome)
      requires Valid() && row.key == KeyOf(id) && (withSession <==> row.kind.Allow?)
      modifies this`completed, this`completionAttempts, this`ledger
      ensures Valid() && (ledger, reply) == Complete(old(ledger), row, outcome)
      ensures reply.CallbackReply? <==>
        && (withSession ==> handleUsable)
        && ValidRequestId(id) && id in requests && KeyOf(id) !in old(ledger).consumed
        && compErr.None? && lostErr.None?
      ensures completionAttempts == old(completionAttempts) + (if withSession && !handleUsable then 0 else 1)
    {
      if withSession && !handleUsable {
        outcome := NotReached(Some(Internal));
        ledger := Complete(ledger, row, outcome).0;
        return ErrorReply(Some(Internal)), outcome;
      }
      var failure;
      failure, outcome := CompleteOnce(id, row);
      reply := if failure.None? then CallbackReply else ErrorReply(failure.value);
    }
  }
}
