/** Role mutations under idempotency keys (backend/internal/adminroles/service.go): the
    receipt, the mutation, the consumed reason and the completed result commit in one
    serializable transaction (adapters/postgres/admin_unit_of_work.go) or not at all. */
module Roles {
  import opened Outcomes
  import opened Decimals

  // ---- Stored results ----

  /** AllowlistedResult, with the two payload fields of a role result. */
  datatype StoredResult = StoredResult(code: string, digest: string, payload: map<string, string>)

  datatype RoleResult = RoleResult(binding: string, version: int)

  /** SHA-256 in raw URL base64. */
  type Hash = string -> string

  predicate HasPrefix(s: string, prefix: string) { |s| >= |prefix| && s[..|prefix|] == prefix }

  function Digest(sha: Hash, code: string, binding: string, version: string): string {
    sha(code + "\0" + binding + "\0" + version)
  }

  /** encodeStoredRoleResult. */
  function Encode(sha: Hash, code: string, r: RoleResult): StoredResult
    requires r.version >= 0
  {
    StoredResult(code, Digest(sha, code, r.binding, Print(r.version)),
                 map["binding_id" := r.binding, "version" := Print(r.version)])
  }

  function Field(s: StoredResult, key: string): string { if key in s.payload then s.payload[key] else "" }

  /** decodeStoredRoleResult. */
  function Decode(sha: Hash, s: StoredResult, code: string): Option<RoleResult> {
    var version := ParseInt64(Field(s, "version"));
    if s.code != code || version.None? || !HasPrefix(Field(s, "binding_id"), "arb_") || version.value <= 0 then None
    else
      var r := RoleResult(Field(s, "binding_id"), version.value);
      if s.digest != Encode(sha, code, r).digest then None else Some(r)
  }

  /** A result survives storage exactly when its binding has the role prefix and its
      version is a positive 64-bit number. */
  lemma DecodeEncoded(sha: Hash, code: string, r: RoleResult)
    requires 0 <= r.version < INT64_LIMIT
    ensures Decode(sha, Encode(sha, code, r), code) ==
      if HasPrefix(r.binding, "arb_") && r.version > 0 then Some(r) else None
  {
    ParsePrinted(r.version, INT64_LIMIT);
  }

  /** A stored result decodes exactly if its code is the wanted one, its fields are a role
      binding and a positive version, and its digest is the one of just these three: nothing
      of it can change behind its digest. */
  lemma DecodeExact(sha: Hash, s: StoredResult, code: string, r: RoleResult)
    ensures Decode(sha, s, code) == Some(r) <==>
      && s.code == code && Field(s, "binding_id") == r.binding && |r.binding| >= 4 && r.binding[..4] == "arb_"
      && ParseInt64(Field(s, "version")) == Some(r.version) && r.version > 0
      && s.digest == sha(code + "\0" + r.binding + "\0" + Print(r.version))
  {
  }

  // ---- The tables one transaction touches ----

  datatype Role = SuperAdmin | TopAdmin | SeniorAdmin | Admin | OtherRole

  datatype Binding = Binding(id: string, user: string, event: string, role: Role, version: nat, enabled: bool)

  datatype Reason = Reason(owner: string, kind: string, consumed: bool)

  datatype Receipt = Receipt(fingerprint: string, result: Option<StoredResult>)

  /** One audit row of a mutation. */
  datatype Entry = Entry(key: string, reason: string, binding: string, version: nat)

  datatype State = State(
    bindings: map<string, Binding>, reasons: map<string, Reason>, receipts: map<string, Receipt>, trail: seq<Entry>)

  function Start(reasons: map<string, Reason>): State { State(map[], reasons, map[], []) }

  // ---- Requests ----

  datatype Mutation =
    | Create(user: string, event: string, role: Role, newId: string)
    | Update(user: string, event: string, binding: string, expected: int, role: Role)
    | Disable(user: string, event: string, binding: string, expected: int)
  {
    function Code(): string {
      match this
      case Create(_, _, _, _) => "role.created"
      case Update(_, _, _, _, _) => "role.updated"
      case Disable(_, _, _, _) => "role.disabled"
    }

    /** What is fingerprinted: everything the caller sent, not the identifier drawn for it. */
    function Canonical(): Mutation { if Create? then this.(newId := "") else this }
  }

  /** One call, with what it finds: the two authorization checks, whether the event is
      registered, and what becomes of its commit. */
  datatype Request = Request(
    actor: string, reason: string, requestId: string, key: string, mutation: Mutation,
    allowed: bool, eventKnown: bool, stillAuthorized: bool, commit: Fault)

  datatype RoleError =
    | IfMatchRequired | InvalidMutation | SelfMutation | InvalidKey | SuperAdminMutation | Forbidden
    | EventUnknown | KeyConflict | InvalidStored | BindingNotFound | BindingConflict | ReasonConflict | CommitFailed

  datatype Answer = Done(result: RoleResult) | Refused(error: RoleError)

  /** The digest functions. */
  datatype Config = Config(sha: Hash, fingerprint: (Mutation, string, string) -> string)

  function FingerprintOf(cfg: Config, r: Request): string {
    cfg.fingerprint(r.mutation.Canonical(), r.actor, r.reason)
  }

  /** Whether two mutations ask for the same, whatever identifiers were drawn for them. */
  predicate SameMutation(a: Mutation, b: Mutation) {
    && a.user == b.user && a.event == b.event
    && match a
       case Create(_, _, role, _) => b.Create? && b.role == role
       case Update(_, _, binding, expected, role) =>
         b.Update? && b.binding == binding && b.expected == expected && b.role == role
       case Disable(_, _, binding, expected) => b.Disable? && b.binding == binding && b.expected == expected
  }

  ghost predicate NoCollisions(cfg: Config) {
    forall m, actor, reason, n, other, why ::
      cfg.fingerprint(m, actor, reason) == cfg.fingerprint(n, other, why) ==>
        m == n && actor == other && reason == why
  }

  /** As far as digests do not collide, a fingerprint is the actor, the reason and the whole
      mutation, and nothing else. */
  lemma FingerprintCovers(cfg: Config, a: Request, b: Request)
    requires NoCollisions(cfg)
    ensures FingerprintOf(cfg, a) == FingerprintOf(cfg, b) <==>
      a.actor == b.actor && a.reason == b.reason && SameMutation(a.mutation, b.mutation)
  {
  }

  predicate KeyChar(c: char) {
    'A' <= c <= 'Z' || 'a' <= c <= 'z' || '0' <= c <= '9' || c == '_' || c == '-'
  }

  predicate ValidKey(key: string) { 32 <= |key| <= 160 && forall i :: 0 <= i < |key| ==> KeyChar(key[i]) }

  /** unicode.IsSpace. */
  predicate IsSpace(c: char) {
    || '\t' <= c <= '\r' || c == ' ' || c == '\U{85}' || c == '\U{A0}' || c == '\U{1680}'
    || '\U{2000}' <= c <= '\U{200A}' || c == '\U{2028}' || c == '\U{2029}' || c == '\U{202F}' || c == '\U{205F}'
    || c == '\U{3000}'
  }

  /** Nothing is left of it once its spaces are trimmed. */
  predicate Blank(text: string) { forall i :: 0 <= i < |text| ==> IsSpace(text[i]) }

  /** The checks before the transaction; None means they pass. */
  function Rejected(r: Request): Option<RoleError> {
    var m := r.mutation;
    if !m.Create? && m.expected <= 0 then Some(IfMatchRequired)
    else if r.actor == "" || m.user == "" || Blank(m.event) || Blank(r.reason) || Blank(r.requestId) then
      Some(InvalidMutation)
    else if r.actor == m.user then Some(SelfMutation)
    else if !ValidKey(r.key) then Some(InvalidKey)
    else if !m.Create? && Blank(m.binding) then Some(InvalidMutation)
    else if !m.Disable? && (m.role.SuperAdmin? || m.role.TopAdmin?) then Some(SuperAdminMutation)
    else if !m.Disable? && m.role.OtherRole? then Some(InvalidMutation)
    else if !r.allowed then Some(Forbidden)
    else None
  }

  // ---- The transaction ----

  /** GetForScope: the enabled binding of a user for an event. */
  predicate IsActive(b: Binding, user: string, event: string) { b.enabled && b.user == user && b.event == event }

  /** The role repository: creation fails on a taken identifier or an active binding of the
      same scope; the other two are guarded by identifier, version and activity. */
  function Mutate(bindings: map<string, Binding>, m: Mutation): Result<Binding, RoleError> {
    match m
    case Create(user, event, role, newId) =>
      if newId in bindings || (exists id :: id in bindings && IsActive(bindings[id], user, event))
      then Failure(BindingConflict)
      else Success(Binding(newId, user, event, role, 1, true))
    case Update(user, event, id, expected, role) =>
      if !(exists any :: any in bindings && IsActive(bindings[any], user, event)) then Failure(BindingNotFound)
      else if id !in bindings || !IsActive(bindings[id], user, event) || bindings[id].version != expected
              || expected + 1 >= INT64_LIMIT
      then Failure(BindingConflict)
      else if bindings[id].role.SuperAdmin? || bindings[id].role.TopAdmin? then Failure(SuperAdminMutation)
      else Success(bindings[id].(role := role, version := bindings[id].version + 1))
    case Disable(user, event, id, expected) =>
      if !(exists any :: any in bindings && IsActive(bindings[any], user, event)) then Failure(BindingNotFound)
      else if id !in bindings || !IsActive(bindings[id], user, event) || bindings[id].version != expected
              || expected + 1 >= INT64_LIMIT
      then Failure(BindingConflict)
      else if bindings[id].role.SuperAdmin? || bindings[id].role.TopAdmin? then Failure(SuperAdminMutation)
      else Success(bindings[id].(enabled := false, version := bindings[id].version + 1))
  }

  /** validResultID for role bindings. */
  predicate ValidBindingId(id: string) {
    HasPrefix(id, "arb_") && 4 < |id| <= 160 && forall i :: 0 <= i < |id| ==> KeyChar(id[i])
  }

  predicate Consumable(reasons: map<string, Reason>, reason: string, owner: string) {
    reason in reasons && reasons[reason].owner == owner && reasons[reason].kind == "role" && !reasons[reason].consumed
  }

  /** What the callback of execute leaves in its transaction. */
  function Body(cfg: Config, s: State, r: Request): (State, Answer) {
    if !r.eventKnown then (s, Refused(EventUnknown))
    else if !r.stillAuthorized then (s, Refused(Forbidden))
    else if r.key in s.receipts then
      if s.receipts[r.key].fingerprint != FingerprintOf(cfg, r) then (s, Refused(KeyConflict))
      else if s.receipts[r.key].result.None? then (s, Refused(InvalidStored))
      else
        match Decode(cfg.sha, s.receipts[r.key].result.value, r.mutation.Code())
        case None => (s, Refused(InvalidStored))
        case Some(stored) => (s, Done(stored))
    else
      match Mutate(s.bindings, r.mutation)
      case Failure(e) => (s, Refused(e))
      case Success(b) =>
        if b.id == "" then (s, Refused(InvalidStored))
        else if !Consumable(s.reasons, r.reason, r.actor) then (s, Refused(ReasonConflict))
        else if !ValidBindingId(b.id) then (s, Refused(InvalidStored))
        else (Applied(cfg, s, r, b), Done(RoleResult(b.id, b.version)))
  }

  function Applied(cfg: Config, s: State, r: Request, b: Binding): State
    requires r.reason in s.reasons
  {
    State(s.bindings[b.id := b],
          s.reasons[r.reason := s.reasons[r.reason].(consumed := true)],
          s.receipts[r.key := Receipt(FingerprintOf(cfg, r),
            Some(Encode(cfg.sha, r.mutation.Code(), RoleResult(b.id, b.version))))],
          s.trail + [Entry(r.key, r.reason, b.id, b.version)])
  }

  /** One call: the checks, then the transaction with its commit. */
  function Execute(cfg: Config, s: State, r: Request): (State, Answer) {
    if Rejected(r).Some? then (s, Refused(Rejected(r).value))
    else
      var (t, answer) := Body(cfg, s, r);
      if answer.Refused? then (s, answer)
      else
        match r.commit
        case Works => (t, answer)
        case FailsBefore => (s, Refused(CommitFailed))
        case FailsAfter => (t, Refused(CommitFailed))
  }

  function Serve(cfg: Config, s: State, requests: seq<Request>): State
    decreases |requests|
  {
    if requests == [] then s else Serve(cfg, Execute(cfg, s, requests[0]).0, requests[1..])
  }

  /** The answer to the i-th request of a run. */
  function AnswerAt(cfg: Config, s: State, requests: seq<Request>, i: nat): Answer
    requires i < |requests|
  {
    Execute(cfg, Serve(cfg, s, requests[..i]), requests[i]).1
  }

  // ---- The invariant ----

  function CountBinding(trail: seq<Entry>, binding: string): nat {
    if trail == [] then 0
    else CountBinding(trail[..|trail| - 1], binding) + (if trail[|trail| - 1].binding == binding then 1 else 0)
  }

  ghost predicate HasKey(trail: seq<Entry>, key: string) {
    exists i :: 0 <= i < |trail| && trail[i].key == key
  }

  /** The receipt is complete and decodes to the result the trail row records. */
  ghost predicate Records(cfg: Config, receipt: Receipt, e: Entry) {
    && receipt.result.Some?
    && Decode(cfg.sha, receipt.result.value, receipt.result.value.code) == Some(RoleResult(e.binding, e.version))
  }

  ghost predicate TrailStored(cfg: Config, receipts: map<string, Receipt>, trail: seq<Entry>) {
    forall i :: 0 <= i < |trail| ==> trail[i].key in receipts && Records(cfg, receipts[trail[i].key], trail[i])
  }

  /** Every receipt belongs to one trail row, and to no second one. */
  ghost predicate ReceiptsTraced(receipts: map<string, Receipt>, trail: seq<Entry>) {
    && (forall k :: k in receipts ==> HasKey(trail, k))
    && (forall i, j :: 0 <= i < j < |trail| ==> trail[i].key != trail[j].key)
  }

  /** A protected reason backs at most one mutation. */
  ghost predicate ReasonsOnce(s: State) {
    && (forall i :: 0 <= i < |s.trail| ==> s.trail[i].reason in s.reasons && s.reasons[s.trail[i].reason].consumed)
    && (forall i, j :: 0 <= i < j < |s.trail| ==> s.trail[i].reason != s.trail[j].reason)
  }

  /** A binding's version counts its mutations, and no user has two active bindings for an
      event. */
  ghost predicate VersionsCount(s: State) {
    && (forall id :: id in s.bindings ==>
          s.bindings[id].id == id && ValidBindingId(id) && 0 < s.bindings[id].version < INT64_LIMIT)
    && (forall id {:trigger CountBinding(s.trail, id)} ::
          CountBinding(s.trail, id) == if id in s.bindings then s.bindings[id].version else 0)
    && (forall a, b :: (a in s.bindings && b in s.bindings && s.bindings[a].enabled && s.bindings[b].enabled
                        && s.bindings[a].user == s.bindings[b].user && s.bindings[a].event == s.bindings[b].event)
                        ==> a == b)
  }

  ghost predicate Inv(cfg: Config, s: State) {
    TrailStored(cfg, s.receipts, s.trail) && ReceiptsTraced(s.receipts, s.trail) && ReasonsOnce(s) && VersionsCount(s)
  }

  lemma MutateVersions(s: State, m: Mutation, b: Binding, entry: Entry)
    requires VersionsCount(s) && Mutate(s.bindings, m) == Success(b) && ValidBindingId(b.id)
    requires entry.binding == b.id
    ensures VersionsCount(s.(bindings := s.bindings[b.id := b], trail := s.trail + [entry]))
    ensures 0 < b.version < INT64_LIMIT
  {
    var t := s.(bindings := s.bindings[b.id := b], trail := s.trail + [entry]);
    assert t.trail[..|t.trail| - 1] == s.trail;
    forall id ensures CountBinding(t.trail, id) == if id in t.bindings then t.bindings[id].version else 0 {
      assert CountBinding(s.trail, id) == if id in s.bindings then s.bindings[id].version else 0;
    }
  }

  lemma StoredMore(cfg: Config, receipts: map<string, Receipt>, trail: seq<Entry>, receipt: Receipt, e: Entry)
    requires TrailStored(cfg, receipts, trail) && e.key !in receipts && Records(cfg, receipt, e)
    ensures TrailStored(cfg, receipts[e.key := receipt], trail + [e])
  {
  }

  lemma TracedMore(receipts: map<string, Receipt>, trail: seq<Entry>, receipt: Receipt, e: Entry)
    requires ReceiptsTraced(receipts, trail) && e.key !in receipts
    requires forall i :: 0 <= i < |trail| ==> trail[i].key in receipts
    ensures ReceiptsTraced(receipts[e.key := receipt], trail + [e])
  {
    var longer := trail + [e];
    forall k | k in receipts[e.key := receipt] ensures HasKey(longer, k) {
      if k == e.key {
        assert longer[|trail|].key == k;
      } else {
        var i :| 0 <= i < |trail| && trail[i].key == k;
        assert longer[i].key == k;
      }
    }
  }

  lemma AppliedKeeps(cfg: Config, s: State, r: Request, b: Binding)
    requires Inv(cfg, s) && r.key !in s.receipts && Mutate(s.bindings, r.mutation) == Success(b)
    requires Consumable(s.reasons, r.reason, r.actor) && ValidBindingId(b.id)
    ensures Inv(cfg, Applied(cfg, s, r, b))
  {
    var t := Applied(cfg, s, r, b);
    var e := Entry(r.key, r.reason, b.id, b.version);
    MutateVersions(s, r.mutation, b, e);
    AppliedRecords(cfg, s, r, b);
    StoredMore(cfg, s.receipts, s.trail, t.receipts[r.key], e);
    TracedMore(s.receipts, s.trail, t.receipts[r.key], e);
    AppliedReasons(cfg, s, r, b);
    SameVersions(s.(bindings := s.bindings[b.id := b], trail := s.trail + [e]), t);
  }

  lemma AppliedRecords(cfg: Config, s: State, r: Request, b: Binding)
    requires r.reason in s.reasons && ValidBindingId(b.id) && 0 < b.version < INT64_LIMIT
    ensures Records(cfg, Applied(cfg, s, r, b).receipts[r.key], Entry(r.key, r.reason, b.id, b.version))
  {
    DecodeEncoded(cfg.sha, r.mutation.Code(), RoleResult(b.id, b.version));
  }

  lemma AppliedReasons(cfg: Config, s: State, r: Request, b: Binding)
    requires ReasonsOnce(s) && Consumable(s.reasons, r.reason, r.actor)
    ensures ReasonsOnce(Applied(cfg, s, r, b))
  {
  }

  lemma SameVersions(u: State, t: State)
    requires VersionsCount(u) && t.bindings == u.bindings && t.trail == u.trail
    ensures VersionsCount(t)
  {
    forall id ensures CountBinding(t.trail, id) == if id in t.bindings then t.bindings[id].version else 0 {
      assert CountBinding(u.trail, id) == if id in u.bindings then u.bindings[id].version else 0;
    }
  }

  /** A call changes nothing, or applies its mutation under a key that had no receipt. */
  lemma ExecuteCases(cfg: Config, s: State, r: Request)
    ensures var (t, answer) := Execute(cfg, s, r);
      || t == s
      || (&& r.key !in s.receipts && Mutate(s.bindings, r.mutation).Success? && r.reason in s.reasons
          && Consumable(s.reasons, r.reason, r.actor) && ValidBindingId(Mutate(s.bindings, r.mutation).value.id)
          && t == Applied(cfg, s, r, Mutate(s.bindings, r.mutation).value)
          && (answer.Done? ==>
                answer.result == RoleResult(Mutate(s.bindings, r.mutation).value.id,
                  Mutate(s.bindings, r.mutation).value.version)))
  {
  }

  lemma ExecuteKeeps(cfg: Config, s: State, r: Request)
    requires Inv(cfg, s)
    ensures Inv(cfg, Execute(cfg, s, r).0)
  {
    ExecuteCases(cfg, s, r);
    if Execute(cfg, s, r).0 != s {
      AppliedKeeps(cfg, s, r, Mutate(s.bindings, r.mutation).value);
    }
  }

  lemma {:induction false} ServeKeeps(cfg: Config, s: State, requests: seq<Request>)
    requires Inv(cfg, s)
    ensures Inv(cfg, Serve(cfg, s, requests))
    decreases |requests|
  {
    if requests != [] {
      ExecuteKeeps(cfg, s, requests[0]);
      ServeKeeps(cfg, Execute(cfg, s, requests[0]).0, requests[1..]);
    }
  }

  // ---- Main results ----

  lemma StartInv(cfg: Config, reasons: map<string, Reason>)
    ensures Inv(cfg, Start(reasons))
  {
  }

  /** Over any run: at most one mutation per idempotency key and per protected reason; every
      version is the number of mutations its binding has seen; and no user has two active
      bindings for an event. */
  lemma MutationsAtMostOnce(cfg: Config, reasons: map<string, Reason>, requests: seq<Request>)
    ensures var s := Serve(cfg, Start(reasons), requests);
      && (forall i, j :: 0 <= i < j < |s.trail| ==>
          s.trail[i].key != s.trail[j].key && s.trail[i].reason != s.trail[j].reason)
      && (forall id :: id in s.bindings ==> s.bindings[id].version == CountBinding(s.trail, id))
      && (forall k :: k in s.receipts <==> HasKey(s.trail, k))
      && (forall a, b :: (a in s.bindings && b in s.bindings && s.bindings[a].enabled && s.bindings[b].enabled
                          && s.bindings[a].user == s.bindings[b].user
                              && s.bindings[a].event == s.bindings[b].event) ==> a == b)
  {
    StartInv(cfg, reasons);
    ServeKeeps(cfg, Start(reasons), requests);
  }

  /** A receipt decodes to the given result under the given code. */
  ghost predicate Holds(cfg: Config, s: State, key: string, result: RoleResult) {
    && key in s.receipts && s.receipts[key].result.Some?
    && Decode(cfg.sha, s.receipts[key].result.value, s.receipts[key].result.value.code) == Some(result)
  }

  /** The receipt of an applied mutation decodes to its result. */
  lemma AppliedHolds(cfg: Config, s: State, r: Request, b: Binding)
    requires Inv(cfg, s) && Mutate(s.bindings, r.mutation) == Success(b) && ValidBindingId(b.id)
      && r.reason in s.reasons
    ensures Holds(cfg, Applied(cfg, s, r, b), r.key, RoleResult(b.id, b.version))
  {
    MutateVersions(s, r.mutation, b, Entry(r.key, r.reason, b.id, b.version));
    DecodeEncoded(cfg.sha, r.mutation.Code(), RoleResult(b.id, b.version));
  }

  /** A key with a receipt is answered from it. */
  lemma ReplayHolds(cfg: Config, s: State, r: Request)
    requires r.key in s.receipts && Execute(cfg, s, r).1.Done?
    ensures Execute(cfg, s, r).0 == s && Holds(cfg, s, r.key, Execute(cfg, s, r).1.result)
  {
    if s.receipts[r.key].result.Some? {
      CodeOfStored(cfg.sha, s.receipts[r.key].result.value, r.mutation.Code());
    }
  }

  lemma CodeOfStored(sha: string -> string, stored: StoredResult, code: string)
    requires Decode(sha, stored, code).Some?
    ensures stored.code == code
  {
  }

  /** A successful answer is what the receipt of its key holds from then on. */
  lemma DoneHolds(cfg: Config, s: State, r: Request)
    requires Inv(cfg, s) && Execute(cfg, s, r).1.Done?
    ensures Holds(cfg, Execute(cfg, s, r).0, r.key, Execute(cfg, s, r).1.result)
  {
    if r.key in s.receipts {
      ReplayHolds(cfg, s, r);
    } else {
      ExecuteCases(cfg, s, r);
      AppliedIsNew(cfg, s, r);
      AppliedHolds(cfg, s, r, Mutate(s.bindings, r.mutation).value);
    }
  }

  lemma AppliedIsNew(cfg: Config, s: State, r: Request)
    requires r.key !in s.receipts && Execute(cfg, s, r).1.Done?
    ensures r.key in Execute(cfg, s, r).0.receipts
  {
  }

  lemma {:induction false} ReceiptStays(cfg: Config, s: State, requests: seq<Request>, key: string)
    requires key in s.receipts
    ensures key in Serve(cfg, s, requests).receipts && Serve(cfg, s, requests).receipts[key] == s.receipts[key]
    decreases |requests|
  {
    if requests != [] {
      ExecuteCases(cfg, s, requests[0]);
      ReceiptStays(cfg, Execute(cfg, s, requests[0]).0, requests[1..], key);
    }
  }

  lemma {:induction false} ServeAppend(cfg: Config, s: State, first: seq<Request>, second: seq<Request>)
    ensures Serve(cfg, s, first + second) == Serve(cfg, Serve(cfg, s, first), second)
    decreases |first|
  {
    if first == [] {
      assert first + second == second;
    } else {
      assert (first + second)[1..] == first[1..] + second;
      ServeAppend(cfg, Execute(cfg, s, first[0]).0, first[1..], second);
    }
  }

  lemma PrefixSplit(cfg: Config, s: State, requests: seq<Request>, i: nat, j: nat)
    requires i < j <= |requests|
    ensures Serve(cfg, s, requests[..j]) ==
      Serve(cfg, Execute(cfg, Serve(cfg, s, requests[..i]), requests[i]).0, requests[i + 1..j])
  {
    assert requests[..j] == requests[..i] + requests[i..j];
    ServeAppend(cfg, s, requests[..i], requests[i..j]);
    assert requests[i..j][1..] == requests[i + 1..j];
  }

  /** Any two successful answers under one key are the same binding and version, whatever
      happened in between and whichever call the mutation was applied by. */
  lemma RetriesAgree(cfg: Config, reasons: map<string, Reason>, requests: seq<Request>, i: nat, j: nat)
    requires i < j < |requests| && requests[i].key == requests[j].key
    requires AnswerAt(cfg, Start(reasons), requests, i).Done? && AnswerAt(cfg, Start(reasons), requests, j).Done?
    ensures AnswerAt(cfg, Start(reasons), requests, i) == AnswerAt(cfg, Start(reasons), requests, j)
  {
    var s := Serve(cfg, Start(reasons), requests[..i]);
    var key := requests[i].key;
    StartInv(cfg, reasons);
    ServeKeeps(cfg, Start(reasons), requests[..i]);
    DoneHolds(cfg, s, requests[i]);
    PrefixSplit(cfg, Start(reasons), requests, i, j);
    ReceiptStays(cfg, Execute(cfg, s, requests[i]).0, requests[i + 1..j], key);
    SecondAnswer(cfg, Serve(cfg, Start(reasons), requests[..j]), requests[j],
      AnswerAt(cfg, Start(reasons), requests, i).result);
  }

  lemma SecondAnswer(cfg: Config, s: State, r: Request, result: RoleResult)
    requires Holds(cfg, s, r.key, result) && Execute(cfg, s, r).1.Done?
    ensures Execute(cfg, s, r).1.result == result && Execute(cfg, s, r).0 == s
  {
  }

  /** The same call again after its commit was lost from sight: it is answered with the
      result of the mutation that was applied, and nothing is applied twice. */
  lemma LostCommitIsReplayed(cfg: Config, s: State, r: Request)
    requires Inv(cfg, s) && r.key !in s.receipts && r.commit.FailsAfter? && Execute(cfg, s, r).0 != s
    ensures var (t, answer) := Execute(cfg, s, r);
      && answer == Refused(CommitFailed)
      && Execute(cfg, t, r.(commit := Works)) == (t, Body(cfg, s, r).1)
  {
    ExecuteCases(cfg, s, r);
    AppliedHolds(cfg, s, r, Mutate(s.bindings, r.mutation).value);
  }

  /** What an applied mutation does: exactly the requested binding changes, to what was asked
      for, at the next version, and its reason is spent. */
  lemma MutationTakesEffect(cfg: Config, s: State, r: Request)
    requires Inv(cfg, s) && Execute(cfg, s, r).1.Done? && r.key !in s.receipts
    ensures var (t, answer) := Execute(cfg, s, r);
      var id := answer.result.binding;
      && t.trail == s.trail + [Entry(r.key, r.reason, id, answer.result.version)]
      && t.receipts.Keys == s.receipts.Keys + {r.key} && t.receipts[r.key].result.Some?
      && t.receipts[r.key].result.value.code == (match r.mutation
                                                 case Create(_, _, _, _) => "role.created"
                                                 case Update(_, _, _, _, _) => "role.updated"
                                                 case Disable(_, _, _, _) => "role.disabled")
      && (r.mutation.Disable? ==> id in s.bindings && t.bindings[id].role == s.bindings[id].role)
      && id in t.bindings && t.bindings[id].version == answer.result.version
      && t.bindings[id].user == r.mutation.user && t.bindings[id].event == r.mutation.event
      && (t.bindings[id].enabled <==> !r.mutation.Disable?)
      && (!r.mutation.Disable? ==> t.bindings[id].role == r.mutation.role)
      && (if r.mutation.Create? then id == r.mutation.newId && id !in s.bindings && answer.result.version == 1
          else id == r.mutation.binding && answer.result.version == r.mutation.expected + 1)
      && (forall other :: other in s.bindings && other != id ==>
          other in t.bindings && t.bindings[other] == s.bindings[other])
      && t.reasons[r.reason].consumed
      && (forall other :: other in s.reasons && other != r.reason ==> t.reasons[other] == s.reasons[other])
  {
    ExecuteCases(cfg, s, r);
    DoneChanges(cfg, s, r);
  }

  lemma DoneChanges(cfg: Config, s: State, r: Request)
    requires Inv(cfg, s) && Execute(cfg, s, r).1.Done? && r.key !in s.receipts
    ensures Execute(cfg, s, r).0 != s
  {
    assert r.key in Execute(cfg, s, r).0.receipts;
  }

  /** What every answered call must bring: an authorized actor who is not the target, a known
      event, all of its fields, a key of the right form and an ordinary role. */
  predicate Admissible(r: Request) {
    && r.allowed && r.stillAuthorized && r.eventKnown
    && r.actor != "" && r.mutation.user != "" && !Blank(r.mutation.event) && !Blank(r.reason) && !Blank(r.requestId)
    && r.actor != r.mutation.user && ValidKey(r.key)
    && match r.mutation
       case Create(_, _, role, _) => role == Admin || role == SeniorAdmin
       case Update(_, _, binding, expected, role) =>
         !Blank(binding) && expected > 0 && (role == Admin || role == SeniorAdmin)
       case Disable(_, _, binding, expected) => !Blank(binding) && expected > 0
  }

  /** A text is blank exactly if it has no character other than spaces. */
  lemma BlankText()
    ensures Blank("") && Blank(" \t\n") && !Blank("a") && !Blank(" a ")
  {
    assert !IsSpace("a"[0]) && !IsSpace(" a "[1]);
  }

  /** Nothing is answered, not even from a receipt, and nothing changes for any other call. */
  lemma OnlyAdmissible(cfg: Config, s: State, r: Request)
    ensures Rejected(r).None? && r.eventKnown && r.stillAuthorized <==> Admissible(r)
    ensures !Admissible(r) ==> Execute(cfg, s, r).0 == s && Execute(cfg, s, r).1.Refused?
  {
  }

  /** Over any run: a call that was answered, or that changed the tables, was admissible. */
  lemma AnswersAreAdmissible(cfg: Config, reasons: map<string, Reason>, requests: seq<Request>, i: nat)
    requires i < |requests|
    requires || AnswerAt(cfg, Start(reasons), requests, i).Done?
             || Serve(cfg, Start(reasons), requests[..i + 1]) != Serve(cfg, Start(reasons), requests[..i])
    ensures Admissible(requests[i])
  {
    ServeOneMore(cfg, Start(reasons), requests, i);
    OnlyAdmissible(cfg, Serve(cfg, Start(reasons), requests[..i]), requests[i]);
  }

  /** When a creation under a new key succeeds: exactly for an unused identifier, where the user
      has no active binding for the event, if the reason can be spent. */
  lemma CreateSucceedsExactly(cfg: Config, s: State, r: Request)
    requires r.key !in s.receipts && r.mutation.Create? && r.commit.Works?
    ensures Execute(cfg, s, r).1.Done? <==>
      && Admissible(r) && r.mutation.newId !in s.bindings && ValidBindingId(r.mutation.newId)
      && (forall id :: id in s.bindings ==>
            !(s.bindings[id].enabled && s.bindings[id].user == r.mutation.user
              && s.bindings[id].event == r.mutation.event))
      && r.reason in s.reasons && s.reasons[r.reason] == Reason(r.actor, "role", false)
    ensures Execute(cfg, s, r).1.Refused? ==> Execute(cfg, s, r).0 == s
  {
    OnlyAdmissible(cfg, s, r);
  }

  /** When an update or a disabling under a new key succeeds: exactly on the active binding
      of that user and event, at the version the caller saw, if it is an ordinary one and
      the reason can be spent. */
  lemma ChangeSucceedsExactly(cfg: Config, s: State, r: Request)
    requires Inv(cfg, s) && r.key !in s.receipts && !r.mutation.Create? && r.commit.Works?
    requires r.mutation.expected + 1 < INT64_LIMIT
    ensures Execute(cfg, s, r).1.Done? <==>
      && Admissible(r) && r.mutation.binding in s.bindings
      && (var b := s.bindings[r.mutation.binding];
          && b.enabled && b.user == r.mutation.user && b.event == r.mutation.event
          && b.version == r.mutation.expected && b.role != SuperAdmin && b.role != TopAdmin)
      && r.reason in s.reasons && s.reasons[r.reason] == Reason(r.actor, "role", false)
    ensures Execute(cfg, s, r).1.Refused? ==> Execute(cfg, s, r).0 == s
  {
    OnlyAdmissible(cfg, s, r);
    if r.mutation.binding in s.bindings { assert ValidBindingId(s.bindings[r.mutation.binding].id); }
  }

  /** A call that is answered, or that changed anything, leaves its fingerprint with its key. */
  lemma FingerprintKept(cfg: Config, s: State, r: Request)
    requires Execute(cfg, s, r).1.Done? || Execute(cfg, s, r).0 != s
    ensures var t := Execute(cfg, s, r).0; r.key in t.receipts && t.receipts[r.key].fingerprint == FingerprintOf(cfg, r)
  {
    ExecuteCases(cfg, s, r);
  }

  /** One key never serves two different requests: once a call under it was answered, or took
      effect behind an error, every later call under it with another fingerprint is refused
      and changes nothing, whatever happened in between. */
  lemma KeyBoundToRequest(cfg: Config, reasons: map<string, Reason>, requests: seq<Request>, i: nat, j: nat)
    requires i < j < |requests| && requests[i].key == requests[j].key
    requires FingerprintOf(cfg, requests[i]) != FingerprintOf(cfg, requests[j])
    requires || AnswerAt(cfg, Start(reasons), requests, i).Done?
             || Serve(cfg, Start(reasons), requests[..i + 1]) != Serve(cfg, Start(reasons), requests[..i])
    ensures AnswerAt(cfg, Start(reasons), requests, j).Refused?
    ensures Serve(cfg, Start(reasons), requests[..j + 1]) == Serve(cfg, Start(reasons), requests[..j])
  {
    var s := Serve(cfg, Start(reasons), requests[..i]);
    ServeOneMore(cfg, Start(reasons), requests, i);
    ServeOneMore(cfg, Start(reasons), requests, j);
    FingerprintKept(cfg, s, requests[i]);
    PrefixSplit(cfg, Start(reasons), requests, i, j);
    ReceiptStays(cfg, Execute(cfg, s, requests[i]).0, requests[i + 1..j], requests[i].key);
  }

  lemma ServeOneMore(cfg: Config, s: State, requests: seq<Request>, i: nat)
    requires i < |requests|
    ensures Serve(cfg, s, requests[..i + 1]) == Execute(cfg, Serve(cfg, s, requests[..i]), requests[i]).0
  {
    assert requests[..i + 1] == requests[..i] + [requests[i]];
    ServeAppend(cfg, s, requests[..i], [requests[i]]);
    assert [requests[i]][1..] == [];
    var next := Execute(cfg, Serve(cfg, s, requests[..i]), requests[i]).0;
    assert Serve(cfg, next, []) == next;
  }

  // ---- The service over its tables ----

  class RoleTables {
    var bindings: map<string, Binding>
    var reasons: map<string, Reason>
    var receipts: map<string, Receipt>
    var trail: seq<Entry>

    function Contents(): State
      reads this
    {
      State(bindings, reasons, receipts, trail)
    }

    constructor (protectedReasons: map<string, Reason>)
      ensures Contents() == Start(protectedReasons)
    {
      bindings, reasons, receipts, trail := map[], protectedReasons, map[], [];
    }

    method Restore(s: State)
      modifies this
      ensures Contents() == s
    {
      bindings, reasons, receipts, trail := s.bindings, s.reasons, s.receipts, s.trail;
    }

    /** CreateOrReplay: the pending receipt, or the one the key already has. */
    method CreateOrReplay(key: string, fingerprint: string) returns (r: Result<Option<Receipt>, RoleError>)
      modifies this`receipts
      ensures if key in old(receipts) then
                && receipts == old(receipts)
                && r == (if old(receipts)[key].fingerprint != fingerprint then Failure(KeyConflict)
                         else Success(Some(old(receipts)[key])))
              else r == Success(None) && receipts == old(receipts)[key := Receipt(fingerprint, None)]
    {
      if key in receipts {
        if receipts[key].fingerprint != fingerprint { return Failure(KeyConflict); }
        return Success(Some(receipts[key]));
      }
      receipts := receipts[key := Receipt(fingerprint, None)];
      r := Success(None);
    }

    /** The callback of execute. A refusal may leave the tables half changed. */
    method RunBody(cfg: Config, r: Request) returns (answer: Answer)
      modifies this
      ensures answer == Body(cfg, old(Contents()), r).1
      ensures answer.Done? ==> Contents() == Body(cfg, old(Contents()), r).0
    {
      if !r.eventKnown { return Refused(EventUnknown); }
      if !r.stillAuthorized { return Refused(Forbidden); }
      var fingerprint := FingerprintOf(cfg, r);
      var started := CreateOrReplay(r.key, fingerprint);
      if started.Failure? { return Refused(started.error); }
      if started.value.Some? {
        var receipt := started.value.value;
        if receipt.result.None? { return Refused(InvalidStored); }
        var stored := Decode(cfg.sha, receipt.result.value, r.mutation.Code());
        return if stored.None? then Refused(InvalidStored) else Done(stored.value);
      }
      var changed := Mutate(bindings, r.mutation);
      if changed.Failure? { return Refused(changed.error); }
      var b := changed.value;
      bindings := bindings[b.id := b];
      trail := trail + [Entry(r.key, r.reason, b.id, b.version)];
      if b.id == "" { return Refused(InvalidStored); }
      if !Consumable(reasons, r.reason, r.actor) { return Refused(ReasonConflict); }
      reasons := reasons[r.reason := reasons[r.reason].(consumed := true)];
      if !ValidBindingId(b.id) { return Refused(InvalidStored); }
      var result := RoleResult(b.id, b.version);
      receipts := receipts[r.key := Receipt(fingerprint, Some(Encode(cfg.sha, r.mutation.Code(), result)))];
      answer := Done(result);
    }

    /** execute: a refused callback and a failed commit both roll everything back. */
    method Run(cfg: Config, r: Request) returns (answer: Answer)
      modifies this
      ensures (Contents(), answer) == Execute(cfg, old(Contents()), r)
    {
      var rejected := Rejected(r);
      if rejected.Some? { return Refused(rejected.value); }
      var before := Contents();
      answer := RunBody(cfg, r);
      if answer.Refused? || r.commit.FailsBefore? { Restore(before); }
      if answer.Done? && !r.commit.Works? { answer := Refused(CommitFailed); }
    }
  }
}
