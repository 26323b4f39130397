/** The administrator challenge (backend/internal/adminstepup/service.go): enrolment,
    verification and rotation under idempotency keys, with the lockout of
    adapters/postgres/admin_stepup_repo.go. Everything of one call commits with its receipt
    or not at all, except the one-shot grant, which lives in another store. */
module StepUp {
  import opened Outcomes
  import opened Decimals

  type Hash = string -> string

  // ---- Receipts ----

  datatype ChallengeState = ActiveState | MustRotateState

  datatype StoredResult = StoredResult(code: string, digest: string, payload: map<string, string>)

  function StateText(st: ChallengeState): string {
    match st
    case ActiveState => "active"
    case MustRotateState => "must_rotate"
  }

  function StateOf(text: string): Option<ChallengeState> {
    if text == "active" then Some(ActiveState) else if text == "must_rotate" then Some(MustRotateState) else None
  }

  /** encodeReceipt. */
  function Encode(sha: Hash, code: string, version: nat, st: ChallengeState): StoredResult {
    StoredResult(code, sha("adminstepup-receipt/v1\0" + code + "\0" + Print(version) + "\0" + StateText(st)),
                 map["version" := Print(version), "status" := StateText(st)])
  }

  function Field(s: StoredResult, key: string): string { if key in s.payload then s.payload[key] else "" }

  /** decodeReceiptVersion, with the state decodeVerifyReplay reads next to it. */
  function Decode(sha: Hash, s: StoredResult): Option<(nat, ChallengeState)> {
    var version := ParseInt64(Field(s, "version"));
    var st := StateOf(Field(s, "status"));
    if version.None? || version.value <= 0 || st.None? then None
    else if Encode(sha, s.code, version.value, st.value).digest != s.digest then None
    else Some((version.value, st.value))
  }

  lemma DecodeEncoded(sha: Hash, code: string, version: nat, st: ChallengeState)
    requires version < INT64_LIMIT
    ensures Decode(sha, Encode(sha, code, version, st)) == if version > 0 then Some((version, st)) else None
  {
    ParsePrinted(version, INT64_LIMIT);
    assert StateOf(StateText(st)) == Some(st);
  }

  /** A receipt decodes exactly if its fields are a positive version and a known state and its
      digest is the one of its code and just these two. */
  lemma DecodeExact(sha: Hash, s: StoredResult, version: nat, st: ChallengeState)
    ensures Decode(sha, s) == Some((version, st)) <==>
      && ParseInt64(Field(s, "version")) == Some(version) && version > 0
      && Field(s, "status") == (if st == ActiveState then "active" else "must_rotate")
      && s.digest == sha("adminstepup-receipt/v1\0" + s.code + "\0" + Print(version) + "\0" + Field(s, "status"))
  {
  }

  /** encodeChallengeReceipt, of a challenge that is active. */
  function EncodeChanged(sha: Hash, code: string, version: nat, credentialVersion: nat): StoredResult {
    StoredResult(code,
                 sha("adminstepup-challenge-receipt/v1\0" + code + "\0" + Print(version) + "\0" +
                   Print(credentialVersion)
                     + "\0" + StateText(ActiveState)),
                 map["version" := Print(version), "credential_version" := Print(credentialVersion),
                     "status" := StateText(ActiveState)])
  }

  /** decodeChallengeReceipt. */
  function DecodeChanged(sha: Hash, s: StoredResult): Option<(nat, nat)> {
    var version, credential := ParseInt64(Field(s, "version")), ParseInt64(Field(s, "credential_version"));
    if version.None? || credential.None? || version.value <= 0 || credential.value <= 0
       || StateOf(Field(s, "status")) != Some(ActiveState)
    then None
    else if EncodeChanged(sha, s.code, version.value, credential.value).digest != s.digest then None
    else Some((version.value, credential.value))
  }

  lemma DecodeEncodedChange(sha: Hash, code: string, version: nat, credentialVersion: nat)
    requires version < INT64_LIMIT && credentialVersion < INT64_LIMIT
    ensures DecodeChanged(sha, EncodeChanged(sha, code, version, credentialVersion)) ==
      if version > 0 && credentialVersion > 0 then Some((version, credentialVersion)) else None
  {
    ParsePrinted(version, INT64_LIMIT);
    ParsePrinted(credentialVersion, INT64_LIMIT);
  }

  lemma DecodeChangedExact(sha: Hash, s: StoredResult, version: nat, credential: nat)
    ensures DecodeChanged(sha, s) == Some((version, credential)) <==>
      && ParseInt64(Field(s, "version")) == Some(version) && version > 0
      && ParseInt64(Field(s, "credential_version")) == Some(credential) && credential > 0
      && Field(s, "status") == "active"
      && s.digest == sha("adminstepup-challenge-receipt/v1\0" + s.code + "\0" + Print(version) + "\0"
                         + Print(credential) + "\0" + "active")
  {
  }

  // ---- The challenge and its lockout ----

  datatype Challenge = Challenge(
    credential: string, credentialVersion: nat, mustRotate: bool,
    failures: nat, windowStart: Option<int>, lockedUntil: Option<int>, version: nat)
  {
    function State(): ChallengeState { if mustRotate then MustRotateState else ActiveState }

    predicate LockedAt(now: int) { lockedUntil.Some? && lockedUntil.value > now }
  }

  const FAILURE_WINDOW := 900
  const LOCKOUT := 1800
  const MAX_FAILURES := 5

  predicate WindowOver(c: Challenge, now: int) {
    c.windowStart.None? || c.windowStart.value < now - FAILURE_WINDOW
  }

  /** RecordFailure: the fifth failure of one window locks the challenge. */
  function RecordFailure(c: Challenge, now: int): Challenge {
    var count := if WindowOver(c, now) then 1 else c.failures + 1;
    c.(failures := count,
       windowStart := if WindowOver(c, now) then Some(now) else c.windowStart,
       lockedUntil := if count >= MAX_FAILURES then Some(now + LOCKOUT) else c.lockedUntil,
       version := c.version + 1)
  }

  // ---- State, requests and answers ----

  datatype Receipt = Receipt(fingerprint: string, result: StoredResult)

  /** One audit row: the key of the receipt it belongs to, and whether a failure was recorded. */
  datatype Entry = Entry(key: string, denied: bool)

  /** grants are the one-shot bearers created so far; they are outside the transaction. */
  datatype State = State(
    challenge: Option<Challenge>, receipts: map<string, Receipt>, trail: seq<Entry>, grants: seq<string>)

  const START := State(None, map[], [], [])

  datatype Limiter = Within | Exceeded | LimiterDown

  datatype Operation =
    | Enroll(answer: string)
    | Verify(answer: string, session: string, action: string, target: string, client: string, highRisk: bool,
      rotates: bool)
    | Rotate(oldAnswer: string, newAnswer: string, client: string, expected: nat)

  /** One call with what it meets: the clock, the limiter, the identifiers drawn, and which
      of its later writes fail. */
  datatype Request = Request(
    key: string, op: Operation, now: int, limiter: Limiter, credential: string, bearer: string,
    grantStored: bool, finishes: bool, commit: Fault)

  datatype Error =
    | KeyConflict | InvalidStored | EnrollmentNotAllowed | EnrollmentRequired | RotationRequired
    | Locked | RateLimited | RateLimitUnavailable | VersionConflict | WriteFailed | CommitFailed

  /** How a call ended: verified (with a bearer only the first time), a wrong answer, the
      wrong answer that locked, a changed credential, or an error that leaves no receipt. */
  datatype Answer =
    | Verified(version: nat, st: ChallengeState, bearer: Option<string>)
    | WrongAnswer
    | NowLocked
    | Changed(version: nat, credentialVersion: nat)
    | Failed(error: Error)

  /** SHA-256, the request fingerprint, and the comparison of an answer with a credential. */
  datatype Config = Config(sha: Hash, fingerprint: Operation -> string, matches: (string, string) -> bool)

  // ---- One transaction ----

  /** decodeVerifyReplay, decodeRotateReplay and decodeChallengeReceipt. */
  function Replay(cfg: Config, stored: StoredResult, op: Operation): Answer {
    var code := stored.code;
    if (code == "challenge.enrolled" && op.Enroll?) || (code == "challenge.rotated" && op.Rotate?) then
      match DecodeChanged(cfg.sha, stored)
      case None => Failed(InvalidStored)
      case Some((version, credential)) => Changed(version, credential)
    else if op.Enroll? then Failed(InvalidStored)
    else
      match Decode(cfg.sha, stored)
      case None => Failed(InvalidStored)
      case Some((version, st)) =>
        if code == "challenge.rejected" then WrongAnswer
        else if code == "challenge.locked" then NowLocked
        else if code == "challenge.verified" && op.Verify? then Verified(version, st, None)
        else Failed(InvalidStored)
  }

  /** The audit row and the completed receipt, the last writes of every outcome. */
  function Settle(cfg: Config, s: State, r: Request, c: Challenge, denied: bool, stored: StoredResult): State {
    State(Some(c), s.receipts[r.key := Receipt(cfg.fingerprint(r.op), stored)], s.trail + [Entry(r.key, denied)],
      s.grants)
  }

  function Deny(cfg: Config, s: State, r: Request, c: Challenge): (State, Answer) {
    var failed := RecordFailure(c, r.now);
    var locked := failed.LockedAt(r.now);
    var code := if locked then "challenge.locked" else "challenge.rejected";
    if !r.finishes || failed.version >= INT64_LIMIT then (s, Failed(WriteFailed))
    else (Settle(cfg, s, r, failed, true, Encode(cfg.sha, code, failed.version, failed.State())),
          if locked then NowLocked else WrongAnswer)
  }

  /** The checks Verify and Rotate share before the answer is compared. */
  function Gate(c: Challenge, r: Request): Option<Error> {
    if c.LockedAt(r.now) then Some(Locked)
    else match r.limiter
      case Within => None
      case Exceeded => Some(RateLimited)
      case LimiterDown => Some(RateLimitUnavailable)
  }

  function VerifyBody(cfg: Config, s: State, r: Request, c: Challenge): (State, Answer)
    requires r.op.Verify?
  {
    if c.mustRotate && !r.op.rotates then (s, Failed(RotationRequired))
    else if Gate(c, r).Some? then (s, Failed(Gate(c, r).value))
    else if !cfg.matches(r.op.answer, c.credential) then Deny(cfg, s, r, c)
    else if r.op.highRisk && !r.grantStored then (s, Failed(WriteFailed))
    else
      var granted := if r.op.highRisk then s.(grants := s.grants + [r.bearer]) else s;
      if !r.finishes || c.credentialVersion >= INT64_LIMIT then (granted, Failed(WriteFailed))
      else (Settle(cfg, granted, r, c, false, Encode(cfg.sha, "challenge.verified", c.credentialVersion, c.State())),
            Verified(c.credentialVersion, c.State(), if r.op.highRisk then Some(r.bearer) else None))
  }

  function RotateBody(cfg: Config, s: State, r: Request, c: Challenge): (State, Answer)
    requires r.op.Rotate?
  {
    if c.version != r.op.expected then (s, Failed(VersionConflict))
    else if Gate(c, r).Some? then (s, Failed(Gate(c, r).value))
    else if !cfg.matches(r.op.oldAnswer, c.credential) then Deny(cfg, s, r, c)
    else if !r.finishes || c.version + 1 >= INT64_LIMIT || c.credentialVersion + 1 >= INT64_LIMIT then
      (s, Failed(WriteFailed))
    else
      var next := Challenge(r.credential, c.credentialVersion + 1, false, 0, None, None, c.version + 1);
      (Settle(cfg, s, r, next, false,
        EncodeChanged(cfg.sha, "challenge.rotated", next.version, next.credentialVersion)),
       Changed(next.version, next.credentialVersion))
  }

  function EnrollBody(cfg: Config, s: State, r: Request): (State, Answer) {
    if s.challenge.Some? then (s, Failed(EnrollmentNotAllowed))
    else if !r.finishes then (s, Failed(WriteFailed))
    else
      var c := Challenge(r.credential, 1, false, 0, None, None, 1);
      (Settle(cfg, s, r, c, false, EncodeChanged(cfg.sha, "challenge.enrolled", 1, 1)), Changed(1, 1))
  }

  function Body(cfg: Config, s: State, r: Request): (State, Answer) {
    if r.key in s.receipts then
      if s.receipts[r.key].fingerprint != cfg.fingerprint(r.op) then (s, Failed(KeyConflict))
      else (s, Replay(cfg, s.receipts[r.key].result, r.op))
    else if r.op.Enroll? then EnrollBody(cfg, s, r)
    else if s.challenge.None? then (s, Failed(EnrollmentRequired))
    else if r.op.Verify? then VerifyBody(cfg, s, r, s.challenge.value)
    else RotateBody(cfg, s, r, s.challenge.value)
  }

  /** A failed callback or commit rolls back the tables, never the grant store. */
  function Execute(cfg: Config, s: State, r: Request): (State, Answer) {
    var (t, answer) := Body(cfg, s, r);
    if answer.Failed? then (s.(grants := t.grants), answer)
    else match r.commit
      case Works => (t, answer)
      case FailsBefore => (s.(grants := t.grants), Failed(CommitFailed))
      case FailsAfter => (t, Failed(CommitFailed))
  }

  function Serve(cfg: Config, s: State, requests: seq<Request>): State
    decreases |requests|
  {
    if requests == [] then s else Serve(cfg, Execute(cfg, s, requests[0]).0, requests[1..])
  }

  function AnswerAt(cfg: Config, s: State, requests: seq<Request>, i: nat): Answer
    requires i < |requests|
  {
    Execute(cfg, Serve(cfg, s, requests[..i]), requests[i]).1
  }

  // ---- What every call keeps ----

  ghost predicate HasKey(trail: seq<Entry>, key: string) {
    exists i :: 0 <= i < |trail| && trail[i].key == key
  }

  /** One audit row per receipt. */
  ghost predicate OnePerKey(s: State) {
    && (forall k :: k in s.receipts ==> HasKey(s.trail, k))
    && (forall i :: 0 <= i < |s.trail| ==> s.trail[i].key in s.receipts)
    && (forall i, j :: 0 <= i < j < |s.trail| ==> s.trail[i].key != s.trail[j].key)
  }

  /** A receipt answers every replay of its own operation, with the outcome it was written
      for and without a bearer. */
  ghost predicate Answers(cfg: Config, stored: StoredResult, op: Operation, outcome: Answer) {
    && !outcome.Failed?
    && Replay(cfg, stored, op) == (if outcome.Verified? then outcome.(bearer := None) else outcome)
  }

  ghost predicate GoodChallenge(s: State) {
    s.challenge.Some? ==>
      0 < s.challenge.value.version < INT64_LIMIT && 0 < s.challenge.value.credentialVersion < INT64_LIMIT
  }

  /** What one call does to the tables: nothing, or it settles its key, which had no receipt,
      with an outcome its receipt will replay. */
  ghost predicate Settles(cfg: Config, s: State, t: State, r: Request, outcome: Answer) {
    && r.key !in s.receipts && r.key in t.receipts && t.challenge.Some?
    && t.receipts == s.receipts[r.key := t.receipts[r.key]]
    && t.receipts[r.key].fingerprint == cfg.fingerprint(r.op)
    && t.trail == s.trail + [Entry(r.key, outcome.WrongAnswer? || outcome.NowLocked?)]
    && Answers(cfg, t.receipts[r.key].result, r.op, outcome)
  }

  lemma DenySettles(cfg: Config, s: State, r: Request, c: Challenge)
    requires r.key !in s.receipts && !r.op.Enroll? && c.version > 0
    ensures var (t, answer) := Deny(cfg, s, r, c);
      if answer.Failed? then t == s else Settles(cfg, s, t, r, answer) && t.challenge == Some(RecordFailure(c, r.now))
  {
    var failed := RecordFailure(c, r.now);
    if failed.version < INT64_LIMIT {
      DecodeEncoded(cfg.sha, if failed.LockedAt(r.now) then "challenge.locked" else "challenge.rejected",
                    failed.version, failed.State());
    }
  }

  lemma VerifySettles(cfg: Config, s: State, r: Request, c: Challenge)
    requires r.op.Verify? && r.key !in s.receipts && c.version > 0 && 0 < c.credentialVersion < INT64_LIMIT
    ensures var (t, answer) := VerifyBody(cfg, s, r, c);
      if answer.Failed? then t == s.(grants := t.grants) else Settles(cfg, s, t, r, answer)
  {
    if Gate(c, r).None? && cfg.matches(r.op.answer, c.credential) {
      VerifiedSettles(cfg, s, r, c);
    } else {
      DenySettles(cfg, s, r, c);
    }
  }

  lemma VerifiedSettles(cfg: Config, s: State, r: Request, c: Challenge)
    requires r.op.Verify? && r.key !in s.receipts && 0 < c.credentialVersion < INT64_LIMIT
    requires Gate(c, r).None? && cfg.matches(r.op.answer, c.credential)
    ensures var (t, answer) := VerifyBody(cfg, s, r, c);
      if answer.Failed? then t == s.(grants := t.grants) else Settles(cfg, s, t, r, answer)
  {
    DecodeEncoded(cfg.sha, "challenge.verified", c.credentialVersion, c.State());
  }

  lemma RotateSettles(cfg: Config, s: State, r: Request, c: Challenge)
    requires r.op.Rotate? && r.key !in s.receipts && c.version > 0
    ensures var (t, answer) := RotateBody(cfg, s, r, c);
      if answer.Failed? then t == s else Settles(cfg, s, t, r, answer)
  {
    if Gate(c, r).None? && cfg.matches(r.op.oldAnswer, c.credential) {
      RotatedSettles(cfg, s, r, c);
    } else {
      DenySettles(cfg, s, r, c);
    }
  }

  lemma RotatedSettles(cfg: Config, s: State, r: Request, c: Challenge)
    requires r.op.Rotate? && r.key !in s.receipts && c.version > 0
    requires Gate(c, r).None? && cfg.matches(r.op.oldAnswer, c.credential)
    ensures var (t, answer) := RotateBody(cfg, s, r, c);
      if answer.Failed? then t == s else Settles(cfg, s, t, r, answer)
  {
    if c.version + 1 < INT64_LIMIT && c.credentialVersion + 1 < INT64_LIMIT {
      DecodeEncodedChange(cfg.sha, "challenge.rotated", c.version + 1, c.credentialVersion + 1);
    }
  }

  /** The callback of any call on a new key. */
  lemma BodySettles(cfg: Config, s: State, r: Request)
    requires GoodChallenge(s) && r.key !in s.receipts
    ensures var (t, answer) := Body(cfg, s, r);
      if answer.Failed? then t == s.(grants := t.grants) else Settles(cfg, s, t, r, answer)
  {
    if r.op.Enroll? {
      DecodeEncodedChange(cfg.sha, "challenge.enrolled", 1, 1);
    } else if s.challenge.Some? {
      if r.op.Verify? {
        VerifySettles(cfg, s, r, s.challenge.value);
      } else {
        RotateSettles(cfg, s, r, s.challenge.value);
      }
    }
  }

  /** One call changes the tables only by settling its own, new key; an outcome other than
      an error is then the one its receipt replays. */
  lemma ExecuteSettles(cfg: Config, s: State, r: Request)
    requires GoodChallenge(s)
    ensures var (t, answer) := Execute(cfg, s, r);
      && (t.(grants := s.grants) == s || Settles(cfg, s, t, r, Body(cfg, s, r).1))
      && (r.key !in s.receipts && !answer.Failed? ==> Settles(cfg, s, t, r, answer))
      && (r.key in s.receipts ==> t == s)
  {
    if r.key !in s.receipts { BodySettles(cfg, s, r); }
  }

  lemma SettlesKeepsKeys(cfg: Config, s: State, t: State, r: Request, outcome: Answer)
    requires OnePerKey(s) && Settles(cfg, s, t, r, outcome)
    ensures OnePerKey(t)
  {
    forall k | k in t.receipts ensures HasKey(t.trail, k) {
      if k == r.key {
        assert t.trail[|s.trail|].key == k;
      } else {
        var i :| 0 <= i < |s.trail| && s.trail[i].key == k;
        assert t.trail[i].key == k;
      }
    }
  }

  lemma ChallengeStaysGood(cfg: Config, s: State, r: Request)
    requires GoodChallenge(s)
    ensures GoodChallenge(Execute(cfg, s, r).0)
  {
    BodyStaysGood(cfg, s, r);
  }

  lemma BodyStaysGood(cfg: Config, s: State, r: Request)
    requires GoodChallenge(s)
    ensures GoodChallenge(Body(cfg, s, r).0)
  {
    if r.key !in s.receipts && s.challenge.Some? && !r.op.Enroll? {
      if r.op.Verify? {
        VerifyStaysGood(cfg, s, r, s.challenge.value);
      } else {
        RotateStaysGood(cfg, s, r, s.challenge.value);
      }
    }
  }

  lemma VerifyStaysGood(cfg: Config, s: State, r: Request, c: Challenge)
    requires GoodChallenge(s) && s.challenge == Some(c) && r.op.Verify?
    ensures GoodChallenge(VerifyBody(cfg, s, r, c).0)
  {
  }

  lemma RotateStaysGood(cfg: Config, s: State, r: Request, c: Challenge)
    requires GoodChallenge(s) && s.challenge == Some(c) && r.op.Rotate?
    ensures GoodChallenge(RotateBody(cfg, s, r, c).0)
  {
  }

  lemma ExecuteKeeps(cfg: Config, s: State, r: Request)
    requires OnePerKey(s) && GoodChallenge(s)
    ensures OnePerKey(Execute(cfg, s, r).0) && GoodChallenge(Execute(cfg, s, r).0)
  {
    ExecuteSettles(cfg, s, r);
    ChallengeStaysGood(cfg, s, r);
    var t := Execute(cfg, s, r).0;
    if t.(grants := s.grants) != s { SettlesKeepsKeys(cfg, s, t, r, Body(cfg, s, r).1); }
  }

  lemma {:induction false} ServeKeeps(cfg: Config, s: State, requests: seq<Request>)
    requires OnePerKey(s) && GoodChallenge(s)
    ensures OnePerKey(Serve(cfg, s, requests)) && GoodChallenge(Serve(cfg, s, requests))
    decreases |requests|
  {
    if requests != [] {
      ExecuteKeeps(cfg, s, requests[0]);
      ServeKeeps(cfg, Execute(cfg, s, requests[0]).0, requests[1..]);
    }
  }

  lemma {:induction false} ReceiptStays(cfg: Config, s: State, requests: seq<Request>, key: string)
    requires GoodChallenge(s) && key in s.receipts
    ensures key in Serve(cfg, s, requests).receipts && Serve(cfg, s, requests).receipts[key] == s.receipts[key]
    decreases |requests|
  {
    if requests != [] {
      ExecuteSettles(cfg, s, requests[0]);
      ChallengeStaysGood(cfg, s, requests[0]);
      ReceiptStays(cfg, Execute(cfg, s, requests[0]).0, requests[1..], key);
    }
  }

  lemma {:induction false} ServeAppend(cfg: Config, s: State, first: seq<Request>, second: seq<Request>)
    ensures Serve(cfg, s, first + second) == Serve(cfg, Serve(cfg, s, first), second)
    decreases |first|
  {
    if first == [] {
      assert first + second == second;
    } else {
      assert (first + second)[1..] == first[1..] + second;
      ServeAppend(cfg, Execute(cfg, s, first[0]).0, first[1..], second);
    }
  }

  lemma PrefixSplit(cfg: Config, s: State, requests: seq<Request>, i: nat, j: nat)
    requires i < j <= |requests|
    ensures Serve(cfg, s, requests[..j]) ==
      Serve(cfg, Execute(cfg, Serve(cfg, s, requests[..i]), requests[i]).0, requests[i + 1..j])
  {
    assert requests[..j] == requests[..i] + requests[i..j];
    ServeAppend(cfg, s, requests[..i], requests[i..j]);
    assert requests[i..j][1..] == requests[i + 1..j];
  }

  // ---- Main results ----

  /** Over any run a key has at most one audit row, so at most one failure is recorded for
      it, and it has one exactly when it has a receipt. */
  lemma OneOutcomePerKey(cfg: Config, requests: seq<Request>)
    ensures var s := Serve(cfg, START, requests);
      && (forall i, j :: 0 <= i < j < |s.trail| ==> s.trail[i].key != s.trail[j].key)
      && (forall k :: k in s.receipts <==> HasKey(s.trail, k))
  {
    ServeKeeps(cfg, START, requests);
  }

  /** A receipt of the key replays the outcome. */
  ghost predicate Remembers(cfg: Config, s: State, r: Request, outcome: Answer) {
    && r.key in s.receipts && s.receipts[r.key].fingerprint == cfg.fingerprint(r.op)
    && Answers(cfg, s.receipts[r.key].result, r.op, outcome)
  }

  lemma OutcomeRemembered(cfg: Config, s: State, r: Request)
    requires GoodChallenge(s) && !Execute(cfg, s, r).1.Failed?
    ensures Remembers(cfg, Execute(cfg, s, r).0, r, Execute(cfg, s, r).1)
  {
    ExecuteSettles(cfg, s, r);
  }

  /** What a call concluded is still remembered when a later call starts. */
  lemma StillRemembered(cfg: Config, requests: seq<Request>, i: nat, j: nat)
    requires i < j < |requests| && !AnswerAt(cfg, START, requests, i).Failed?
    ensures Remembers(cfg, Serve(cfg, START, requests[..j]), requests[i], AnswerAt(cfg, START, requests, i))
  {
    var s := Serve(cfg, START, requests[..i]);
    ServeKeeps(cfg, START, requests[..i]);
    OutcomeRemembered(cfg, s, requests[i]);
    ChallengeStaysGood(cfg, s, requests[i]);
    PrefixSplit(cfg, START, requests, i, j);
    ReceiptStays(cfg, Execute(cfg, s, requests[i]).0, requests[i + 1..j], requests[i].key);
  }

  lemma RememberedAnswer(cfg: Config, s: State, first: Request, second: Request, outcome: Answer)
    requires Remembers(cfg, s, first, outcome) && first.key == second.key
    ensures Execute(cfg, s, second).1.Verified? ==> Execute(cfg, s, second).1.bearer.None?
    ensures first.op == second.op ==>
      Execute(cfg, s, second).1 ==
        if !second.commit.Works? then Failed(CommitFailed) else if outcome.Verified? then outcome.(bearer := None)
          else outcome
  {
  }

  /** Two calls with the same key and the same operation that both reach an outcome reach
      the same one, and the second never carries a bearer; only its commit can fail. */
  lemma RetriesAgree(cfg: Config, requests: seq<Request>, i: nat, j: nat)
    requires i < j < |requests| && requests[i].key == requests[j].key && requests[i].op == requests[j].op
    requires !AnswerAt(cfg, START, requests, i).Failed?
    ensures var first := AnswerAt(cfg, START, requests, i);
      AnswerAt(cfg, START, requests, j) ==
        if !requests[j].commit.Works? then Failed(CommitFailed) else if first.Verified? then first.(bearer := None)
          else first
  {
    StillRemembered(cfg, requests, i, j);
    RememberedAnswer(cfg, Serve(cfg, START, requests[..j]), requests[i], requests[j],
      AnswerAt(cfg, START, requests, i));
  }

  /** However often a key is used, by whatever operation, at most one answer carries a bearer. */
  lemma OneBearerPerKey(cfg: Config, requests: seq<Request>, i: nat, j: nat)
    requires i < j < |requests| && requests[i].key == requests[j].key
    requires AnswerAt(cfg, START, requests, i).Verified? && AnswerAt(cfg, START, requests, i).bearer.Some?
    ensures AnswerAt(cfg, START, requests, j).Verified? ==> AnswerAt(cfg, START, requests, j).bearer.None?
  {
    StillRemembered(cfg, requests, i, j);
    RememberedAnswer(cfg, Serve(cfg, START, requests[..j]), requests[i], requests[j],
      AnswerAt(cfg, START, requests, i));
  }

  /** A call whose commit was lost from sight: its retry gets the outcome that was stored,
      without the bearer nobody received, and nothing is recorded twice. */
  lemma LostCommitIsReplayed(cfg: Config, s: State, r: Request)
    requires GoodChallenge(s) && r.key !in s.receipts && r.commit.FailsAfter? && !Body(cfg, s, r).1.Failed?
    ensures var (t, answer) := Execute(cfg, s, r);
      var outcome := Body(cfg, s, r).1;
      && answer == Failed(CommitFailed)
      && Execute(cfg, t, r.(commit := Works)) == (t, if outcome.Verified? then outcome.(bearer := None) else outcome)
  {
    BodySettles(cfg, s, r);
  }

  /** When a verification under a new key succeeds, and when it is denied: both need a
      challenge that is not locked and a caller within the limits; the answer decides. A
      bearer comes exactly with a high-risk action. */
  lemma VerifyExactly(cfg: Config, s: State, r: Request)
    requires GoodChallenge(s) && r.op.Verify? && r.key !in s.receipts && r.commit.Works? && r.finishes
    requires s.challenge.Some? && s.challenge.value.version + 1 < INT64_LIMIT
    ensures var c := s.challenge.value;
      var (t, answer) := Execute(cfg, s, r);
      var compared := (c.mustRotate ==> r.op.rotates) && !c.LockedAt(r.now) && r.limiter.Within?;
      && (answer.Verified? <==> compared && cfg.matches(r.op.answer, c.credential) && (r.op.highRisk ==> r.grantStored))
      && (answer.Verified? ==> t.challenge == s.challenge && (answer.bearer.Some? <==> r.op.highRisk))
      && (answer.Verified? ==>
            && answer.version == c.credentialVersion
            && answer.st == (if c.mustRotate then MustRotateState else ActiveState)
            && (r.op.highRisk ==> answer.bearer == Some(r.bearer) && t.grants == s.grants + [r.bearer]))
      && (answer.WrongAnswer? || answer.NowLocked? <==> compared && !cfg.matches(r.op.answer, c.credential))
      && (answer.WrongAnswer? || answer.NowLocked? ==> t.challenge == Some(RecordFailure(c, r.now)))
      && (answer.NowLocked? ==> t.challenge.value.LockedAt(r.now))
      && (!answer.Failed? ==>
            r.key in t.receipts
            && t.receipts[r.key].result.code == (if answer.Verified? then "challenge.verified"
                                                 else if answer.NowLocked? then "challenge.locked"
                                                 else "challenge.rejected"))
  {
  }

  /** An enrolment under a new key succeeds exactly if there is no challenge yet, and starts an
      active one without any failure or lock. */
  lemma EnrolExactly(cfg: Config, s: State, r: Request)
    requires r.op.Enroll? && r.key !in s.receipts && r.commit.Works? && r.finishes
    ensures var (t, answer) := Execute(cfg, s, r);
      && (answer.Changed? <==> s.challenge.None?)
      && (answer.Changed? ==>
            && answer == Changed(1, 1)
            && t.challenge == Some(Challenge(r.credential, 1, false, 0, None, None, 1))
            && r.key in t.receipts && t.receipts[r.key].result.code == "challenge.enrolled")
      && (!answer.Changed? ==> t == s && answer == Failed(EnrollmentNotAllowed))
  {
  }

  /** Without a challenge there is nothing to verify and nothing to rotate. */
  lemma EnrolmentFirst(cfg: Config, s: State, r: Request)
    requires s.challenge.None? && !r.op.Enroll? && r.key !in s.receipts
    ensures Execute(cfg, s, r) == (s, Failed(EnrollmentRequired))
  {
  }

  /** A rotation under a new key replaces the credential exactly for the right old answer at
      the version the caller saw, and lifts every lock and mark. */
  lemma RotateExactly(cfg: Config, s: State, r: Request)
    requires GoodChallenge(s) && r.op.Rotate? && r.key !in s.receipts && r.commit.Works? && r.finishes
    requires s.challenge.Some? && s.challenge.value.version + 1 < INT64_LIMIT
    requires s.challenge.value.credentialVersion + 1 < INT64_LIMIT
    ensures var c := s.challenge.value;
      var (t, answer) := Execute(cfg, s, r);
      && (answer.Changed? <==>
            c.version == r.op.expected && !c.LockedAt(r.now) && r.limiter.Within?
              && cfg.matches(r.op.oldAnswer, c.credential))
      && (answer.Changed? ==>
            && answer == Changed(c.version + 1, c.credentialVersion + 1)
            && t.challenge ==
               Some(Challenge(r.credential, c.credentialVersion + 1, false, 0, None, None, c.version + 1))
            && r.key in t.receipts && t.receipts[r.key].result.code == "challenge.rotated")
      && (!answer.Changed? ==> t.challenge == s.challenge || t.challenge == Some(RecordFailure(c, r.now)))
  {
  }

  // ---- The lockout ----

  /** The failure count never passes the limit, and at the limit the challenge is locked
      until the window is long over. */
  ghost predicate Bounded(c: Challenge, now: int) {
    && c.failures <= MAX_FAILURES
    && (c.failures > 0 ==> c.windowStart.Some?) && (c.windowStart.Some? ==> c.windowStart.value <= now)
    && (c.failures == MAX_FAILURES ==> c.lockedUntil.Some? && c.lockedUntil.value >= c.windowStart.value + LOCKOUT)
  }

  ghost predicate BoundedState(s: State, now: int) { s.challenge.Some? ==> Bounded(s.challenge.value, now) }

  lemma FailureBounded(c: Challenge, before: int, now: int)
    requires Bounded(c, before) && before <= now && !c.LockedAt(now)
    ensures Bounded(RecordFailure(c, now), now)
    ensures RecordFailure(c, now).failures == MAX_FAILURES ==> RecordFailure(c, now).LockedAt(now + LOCKOUT - 1)
  {
  }

  /** A call whose answer gets compared with an unlocked challenge, and is wrong. */
  predicate IsWrong(cfg: Config, c: Challenge, r: Request) {
    && r.limiter.Within? && r.finishes && r.commit.Works?
    && match r.op
       case Enroll(_) => false
       case Verify(answer, _, _, _, _, _, rotates) => (c.mustRotate ==> rotates) && !cfg.matches(answer, c.credential)
       case Rotate(answer, _, _, expected) => expected == c.version && !cfg.matches(answer, c.credential)
  }

  /** One wrong answer: it counts on within fifteen minutes of the first of its window and
      starts a new window after them; the fifth locks for thirty minutes; nothing else about
      the challenge changes but its version. */
  lemma WrongAnswerCounts(cfg: Config, s: State, r: Request)
    requires GoodChallenge(s) && s.challenge.Some? && r.key !in s.receipts
    requires !s.challenge.value.LockedAt(r.now) && IsWrong(cfg, s.challenge.value, r)
    requires s.challenge.value.version + 1 < INT64_LIMIT
    ensures var c := s.challenge.value;
      var (t, answer) := Execute(cfg, s, r);
      var goesOn := c.windowStart.Some? && r.now <= c.windowStart.value + 15 * 60;
      var count := if goesOn then c.failures + 1 else 1;
      && t.challenge.Some?
      && (var d := t.challenge.value;
          && d.failures == count && d.windowStart == (if goesOn then c.windowStart else Some(r.now))
          && d.lockedUntil == (if count >= 5 then Some(r.now + 30 * 60) else c.lockedUntil)
          && d.version == c.version + 1 && d.credential == c.credential
          && d.credentialVersion == c.credentialVersion && d.mustRotate == c.mustRotate)
      && answer == (if count >= 5 then NowLocked else WrongAnswer)
      && t.receipts.Keys == s.receipts.Keys + {r.key} && t.grants == s.grants
  {
  }

  /** Five wrong answers on new keys in one window. */
  ghost predicate Guessing(cfg: Config, s: State, requests: seq<Request>)
    requires |requests| == 5 && s.challenge.Some?
  {
    && (forall i, j :: 0 <= i < j < 5 ==> requests[i].key != requests[j].key)
    && (forall i :: 0 <= i < 5 ==>
          && requests[i].key !in s.receipts
          && requests[0].now <= requests[i].now <= requests[0].now + FAILURE_WINDOW
          && IsWrong(cfg, s.challenge.value.(version := s.challenge.value.version + i), requests[i]))
  }

  /** What the first i of them leave: a count of i, and only the version moves on. */
  ghost predicate Guessed(s: State, t: State, requests: seq<Request>, i: nat)
    requires i <= |requests| && s.challenge.Some?
  {
    && t.challenge.Some?
    && t.challenge.value.version == s.challenge.value.version + i
    && t.challenge.value.credential == s.challenge.value.credential
    && t.challenge.value.credentialVersion == s.challenge.value.credentialVersion
    && t.challenge.value.mustRotate == s.challenge.value.mustRotate
    && t.challenge.value.lockedUntil == s.challenge.value.lockedUntil
    && (if i == 0 then t.challenge.value.windowStart.None?
        else t.challenge.value.failures == i && t.challenge.value.windowStart == Some(requests[0].now))
    && (forall j :: i <= j < |requests| ==> requests[j].key !in t.receipts)
  }

  /** An unlocked challenge without a window, in a table whose versions have room. */
  ghost predicate Untried(s: State, now: int) {
    && s.challenge.Some? && GoodChallenge(s)
    && s.challenge.value.windowStart.None? && !s.challenge.value.LockedAt(now)
    && s.challenge.value.version + 5 < INT64_LIMIT
  }

  lemma OneMoreGuess(cfg: Config, s: State, t: State, requests: seq<Request>, i: nat)
    requires i < 4 && |requests| == 5 && Untried(s, requests[0].now)
    requires Guessing(cfg, s, requests) && Guessed(s, t, requests, i)
    ensures Guessed(s, Execute(cfg, t, requests[i]).0, requests, i + 1)
    ensures Execute(cfg, t, requests[i]).1 == WrongAnswer
  {
    GuessIsWrong(cfg, s, t, requests, i);
    WrongAnswerCounts(cfg, t, requests[i]);
    KeysAfter(cfg, t, requests, i);
  }

  lemma GuessIsWrong(cfg: Config, s: State, t: State, requests: seq<Request>, i: nat)
    requires i < 5 && |requests| == 5 && Untried(s, requests[0].now)
    requires Guessing(cfg, s, requests) && Guessed(s, t, requests, i)
    ensures GoodChallenge(t) && IsWrong(cfg, t.challenge.value, requests[i])
    ensures !t.challenge.value.LockedAt(requests[i].now) && t.challenge.value.version + 1 < INT64_LIMIT
  {
    assert IsWrong(cfg, s.challenge.value.(version := s.challenge.value.version + i), requests[i]);
  }

  lemma KeysAfter(cfg: Config, t: State, requests: seq<Request>, i: nat)
    requires i < |requests| && Execute(cfg, t, requests[i]).0.receipts.Keys == t.receipts.Keys + {requests[i].key}
    requires forall j :: i <= j < |requests| ==> requests[j].key !in t.receipts
    requires forall j :: i < j < |requests| ==> requests[i].key != requests[j].key
    ensures forall j :: i < j < |requests| ==> requests[j].key !in Execute(cfg, t, requests[i]).0.receipts
  {
    var after := Execute(cfg, t, requests[i]).0.receipts;
    forall j | i < j < |requests| ensures requests[j].key !in after {
      assert requests[j].key !in after.Keys;
    }
  }

  lemma GuessServed(cfg: Config, s: State, requests: seq<Request>, i: nat)
    requires i < 4 && |requests| == 5 && Untried(s, requests[0].now) && Guessing(cfg, s, requests)
    requires Guessed(s, Serve(cfg, s, requests[..i]), requests, i)
    ensures Guessed(s, Serve(cfg, s, requests[..i + 1]), requests, i + 1)
    ensures AnswerAt(cfg, s, requests, i) == WrongAnswer
  {
    ServeOneMore(cfg, s, requests, i);
    OneMoreGuess(cfg, s, Serve(cfg, s, requests[..i]), requests, i);
  }

  lemma {:induction false} GuessesCount(cfg: Config, s: State, requests: seq<Request>, i: nat)
    requires i <= 4 && |requests| == 5 && Untried(s, requests[0].now) && Guessing(cfg, s, requests)
    ensures Guessed(s, Serve(cfg, s, requests[..i]), requests, i)
    ensures forall j :: 0 <= j < i ==> AnswerAt(cfg, s, requests, j) == WrongAnswer
  {
    if i == 0 {
      assert requests[..0] == [];
    } else {
      GuessesCount(cfg, s, requests, i - 1);
      GuessServed(cfg, s, requests, i - 1);
    }
  }

  lemma ServeOneMore(cfg: Config, s: State, requests: seq<Request>, i: nat)
    requires i < |requests|
    ensures Serve(cfg, s, requests[..i + 1]) == Execute(cfg, Serve(cfg, s, requests[..i]), requests[i]).0
  {
    assert requests[..i + 1] == requests[..i] + [requests[i]];
    ServeAppend(cfg, s, requests[..i], [requests[i]]);
    assert [requests[i]][1..] == [];
    var next := Execute(cfg, Serve(cfg, s, requests[..i]), requests[i]).0;
    assert Serve(cfg, next, []) == next;
  }

  /** Guessing ends: of five wrong answers within fifteen minutes the first four are told so
      and the fifth locks the challenge for thirty minutes from then. */
  lemma FifthGuessLocks(cfg: Config, s: State, requests: seq<Request>)
    requires |requests| == 5 && Untried(s, requests[0].now) && Guessing(cfg, s, requests)
    ensures forall i :: 0 <= i < 4 ==> AnswerAt(cfg, s, requests, i) == WrongAnswer
    ensures AnswerAt(cfg, s, requests, 4) == NowLocked
    ensures var t := Serve(cfg, s, requests);
      t.challenge.Some? && t.challenge.value.failures == 5
      && t.challenge.value.lockedUntil == Some(requests[4].now + 30 * 60)
  {
    GuessesCount(cfg, s, requests, 4);
    ServeOneMore(cfg, s, requests, 4);
    assert requests[..5] == requests;
    LastGuess(cfg, s, Serve(cfg, s, requests[..4]), requests);
  }

  lemma LastGuess(cfg: Config, s: State, t: State, requests: seq<Request>)
    requires |requests| == 5 && Untried(s, requests[0].now)
    requires Guessing(cfg, s, requests) && Guessed(s, t, requests, 4)
    ensures var (u, answer) := Execute(cfg, t, requests[4]);
      && answer == NowLocked && u.challenge.Some? && u.challenge.value.failures == 5
      && u.challenge.value.lockedUntil == Some(requests[4].now + 30 * 60)
  {
    GuessIsWrong(cfg, s, t, requests, 4);
    WrongAnswerCounts(cfg, t, requests[4]);
  }

  /** And the lock holds: until it ends, every call on a new key fails and changes nothing,
      whatever it is, however many there are. */
  lemma {:induction false} LockHolds(cfg: Config, s: State, requests: seq<Request>)
    requires s.challenge.Some? && s.challenge.value.lockedUntil.Some?
    requires forall i :: 0 <= i < |requests| ==>
      requests[i].now < s.challenge.value.lockedUntil.value && requests[i].key !in s.receipts
    ensures Serve(cfg, s, requests) == s
    ensures forall i :: 0 <= i < |requests| ==> Execute(cfg, s, requests[i]) == (s, Execute(cfg, s, requests[i]).1)
                                                && Execute(cfg, s, requests[i]).1.Failed?
    decreases |requests|
  {
    if requests != [] {
      LockedStandsStill(cfg, s, requests[0]);
      LockHolds(cfg, s, requests[1..]);
      forall i | 1 <= i < |requests| ensures requests[i] == requests[1..][i - 1] {}
    }
  }

  /** What a call may do to the challenge. */
  lemma ChallengeCases(cfg: Config, s: State, r: Request)
    ensures var t := Execute(cfg, s, r).0;
      || t.challenge == s.challenge
      || (s.challenge.Some? && !s.challenge.value.LockedAt(r.now)
          && t.challenge == Some(RecordFailure(s.challenge.value, r.now)))
      || (t.challenge.Some? && t.challenge.value.failures == 0 && t.challenge.value.windowStart.None?)
  {
  }

  lemma ExecuteBounded(cfg: Config, s: State, r: Request, before: int)
    requires BoundedState(s, before) && before <= r.now
    ensures BoundedState(Execute(cfg, s, r).0, r.now)
  {
    ChallengeCases(cfg, s, r);
    BoundedCases(s, Execute(cfg, s, r).0, before, r.now);
  }

  lemma BoundedCases(s: State, t: State, before: int, now: int)
    requires BoundedState(s, before) && before <= now
    requires || t.challenge == s.challenge
             || (s.challenge.Some? && !s.challenge.value.LockedAt(now)
                 && t.challenge == Some(RecordFailure(s.challenge.value, now)))
             || (t.challenge.Some? && t.challenge.value.failures == 0 && t.challenge.value.windowStart.None?)
    ensures BoundedState(t, now)
  {
    if s.challenge.Some? && !s.challenge.value.LockedAt(now) {
      FailureBounded(s.challenge.value, before, now);
    }
  }

  ghost predicate ClockRuns(requests: seq<Request>, from: int)
    decreases |requests|
  {
    requests == [] || (from <= requests[0].now && ClockRuns(requests[1..], requests[0].now))
  }

  /** Under a clock that never runs backwards no window ever counts a sixth failure. */
  lemma {:induction false} NeverASixthFailure(cfg: Config, s: State, requests: seq<Request>, from: int)
    requires BoundedState(s, from) && ClockRuns(requests, from)
    ensures var t := Serve(cfg, s, requests); t.challenge.Some? ==> t.challenge.value.failures <= MAX_FAILURES
    decreases |requests|
  {
    if requests != [] {
      ExecuteBounded(cfg, s, requests[0], from);
      NeverASixthFailure(cfg, Execute(cfg, s, requests[0]).0, requests[1..], requests[0].now);
    }
  }

  /** While locked, no answer is compared: whatever the answer is, a call on a new key
      changes nothing at all. */
  lemma LockedStandsStill(cfg: Config, s: State, r: Request)
    requires s.challenge.Some? && s.challenge.value.LockedAt(r.now) && r.key !in s.receipts
    ensures Execute(cfg, s, r).0 == s && Execute(cfg, s, r).1.Failed?
  {
  }

  // ---- The service over its tables ----

  class ChallengeTables {
    var challenge: Option<Challenge>
    var receipts: map<string, Receipt>
    var trail: seq<Entry>
    var grants: seq<string>

    function Contents(): State
      reads this
    {
      State(challenge, receipts, trail, grants)
    }

    constructor ()
      ensures Contents() == START
    {
      challenge, receipts, trail, grants := None, map[], [], [];
    }

    /** Rolls the tables back; the grant store has no rollback. */
    method Restore(s: State)
      modifies this`challenge, this`receipts, this`trail
      ensures Contents() == s.(grants := old(grants))
    {
      challenge, receipts, trail := s.challenge, s.receipts, s.trail;
    }

    /** The audit row and CompleteLocal. */
    method Finish(cfg: Config, r: Request, denied: bool, stored: StoredResult) returns (ok: bool)
      modifies this`receipts, this`trail
      ensures ok <==> r.finishes
      ensures ok ==> receipts == old(receipts)[r.key := Receipt(cfg.fingerprint(r.op), stored)]
                     && trail == old(trail) + [Entry(r.key, denied)]
    {
      trail := trail + [Entry(r.key, denied)];
      ok := r.finishes;
      if ok { receipts := receipts[r.key := Receipt(cfg.fingerprint(r.op), stored)]; }
    }

    /** The wrong-answer branch of Verify and Rotate. */
    method DenyAnswer(cfg: Config, r: Request, c: Challenge) returns (answer: Answer)
      requires challenge == Some(c)
      modifies this`challenge, this`receipts, this`trail
      ensures answer == Deny(cfg, old(Contents()), r, c).1
      ensures !answer.Failed? ==> Contents() == Deny(cfg, old(Contents()), r, c).0
    {
      var failed := RecordFailure(c, r.now);
      challenge := Some(failed);
      if failed.version >= INT64_LIMIT { return Failed(WriteFailed); }
      var code, outcome := "challenge.rejected", WrongAnswer;
      if failed.LockedAt(r.now) { code, outcome := "challenge.locked", NowLocked; }
      var ok := Finish(cfg, r, true, Encode(cfg.sha, code, failed.version, failed.State()));
      answer := if ok then outcome else Failed(WriteFailed);
    }

    method VerifyAnswer(cfg: Config, r: Request, c: Challenge) returns (answer: Answer)
      requires r.op.Verify? && challenge == Some(c)
      modifies this
      ensures answer == VerifyBody(cfg, old(Contents()), r, c).1
      ensures grants == VerifyBody(cfg, old(Contents()), r, c).0.grants
      ensures !answer.Failed? ==> Contents() == VerifyBody(cfg, old(Contents()), r, c).0
    {
      if c.mustRotate && !r.op.rotates { return Failed(RotationRequired); }
      if c.LockedAt(r.now) { return Failed(Locked); }
      if r.limiter.Exceeded? { return Failed(RateLimited); }
      if r.limiter.LimiterDown? { return Failed(RateLimitUnavailable); }
      if !cfg.matches(r.op.answer, c.credential) {
        answer := DenyAnswer(cfg, r, c);
        return;
      }
      var bearer: Option<string> := None;
      if r.op.highRisk {
        if !r.grantStored { return Failed(WriteFailed); }
        grants := grants + [r.bearer];
        bearer := Some(r.bearer);
      }
      if c.credentialVersion >= INT64_LIMIT { return Failed(WriteFailed); }
      var ok := Finish(cfg, r, false, Encode(cfg.sha, "challenge.verified", c.credentialVersion, c.State()));
      answer := if ok then Verified(c.credentialVersion, c.State(), bearer) else Failed(WriteFailed);
    }

    method RotateAnswer(cfg: Config, r: Request, c: Challenge) returns (answer: Answer)
      requires r.op.Rotate? && challenge == Some(c)
      modifies this`challenge, this`receipts, this`trail
      ensures answer == RotateBody(cfg, old(Contents()), r, c).1
      ensures !answer.Failed? ==> Contents() == RotateBody(cfg, old(Contents()), r, c).0
    {
      if c.version != r.op.expected { return Failed(VersionConflict); }
      if c.LockedAt(r.now) { return Failed(Locked); }
      if r.limiter.Exceeded? { return Failed(RateLimited); }
      if r.limiter.LimiterDown? { return Failed(RateLimitUnavailable); }
      if !cfg.matches(r.op.oldAnswer, c.credential) {
        answer := DenyAnswer(cfg, r, c);
        return;
      }
      var next := Challenge(r.credential, c.credentialVersion + 1, false, 0, None, None, c.version + 1);
      challenge := Some(next);
      if next.version >= INT64_LIMIT || next.credentialVersion >= INT64_LIMIT { return Failed(WriteFailed); }
      var ok := Finish(cfg, r, false,
          EncodeChanged(cfg.sha, "challenge.rotated", next.version, next.credentialVersion));
      answer := if ok then Changed(next.version, next.credentialVersion) else Failed(WriteFailed);
    }

    method EnrollAnswer(cfg: Config, r: Request) returns (answer: Answer)
      modifies this`challenge, this`receipts, this`trail
      ensures answer == EnrollBody(cfg, old(Contents()), r).1
      ensures !answer.Failed? ==> Contents() == EnrollBody(cfg, old(Contents()), r).0
    {
      if challenge.Some? { return Failed(EnrollmentNotAllowed); }
      challenge := Some(Challenge(r.credential, 1, false, 0, None, None, 1));
      var ok := Finish(cfg, r, false, EncodeChanged(cfg.sha, "challenge.enrolled", 1, 1));
      answer := if ok then Changed(1, 1) else Failed(WriteFailed);
    }

    /** The callback: replay, or the operation. A failure may leave the tables half changed. */
    method RunBody(cfg: Config, r: Request) returns (answer: Answer)
      modifies this
      ensures answer == Body(cfg, old(Contents()), r).1
      ensures grants == Body(cfg, old(Contents()), r).0.grants
      ensures !answer.Failed? ==> Contents() == Body(cfg, old(Contents()), r).0
    {
      if r.key in receipts {
        if receipts[r.key].fingerprint != cfg.fingerprint(r.op) { return Failed(KeyConflict); }
        return Replay(cfg, receipts[r.key].result, r.op);
      }
      if r.op.Enroll? {
        answer := EnrollAnswer(cfg, r);
      } else if challenge.None? {
        answer := Failed(EnrollmentRequired);
      } else if r.op.Verify? {
        answer := VerifyAnswer(cfg, r, challenge.value);
      } else {
        answer := RotateAnswer(cfg, r, challenge.value);
      }
    }

    method Run(cfg: Config, r: Request) returns (answer: Answer)
      modifies this
      ensures (Contents(), answer) == Execute(cfg, old(Contents()), r)
    {
      var before := Contents();
      answer := RunBody(cfg, r);
      if answer.Failed? || r.commit.FailsBefore? { Restore(before); }
      if !answer.Failed? && !r.commit.Works? { answer := Failed(CommitFailed); }
    }
  }
}
