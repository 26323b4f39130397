/** The durable gate around secret rotation (backend/internal/applications/service.go and
    the rotation transactions of adapters/postgres/oauth_client_repo.go): any number of
    concurrent rotations of one confidential client, with store faults, lost provider
    replies, crashes and unrelated writes to the same row. */
module SecretRotation {
  import opened Outcomes

  datatype Gate = Idle | InProgress(op: string) | Unknown(op: string)

  /** Secret metadata; the newest record comes first. */
  datatype SecretRecord = SecretRecord(id: string, rotatedAt: Option<int>)

  datatype RotationOutcome = Rotated(version: nat) | Refused | Failed | Stranded | Crashed

  /** Where one caller of RotateClientSecret stands. */
  datatype Pc =
    | Seen(version: nat)
    | Held(op: string)
    | Called(op: string, version: nat)
    | Located(op: string, version: nat, previous: Option<string>)
    | Aborting(op: string)
    | Parking(op: string)
    | Done(outcome: RotationOutcome)

  /** The client's row, its records, the provider's secret version, the operation
      identifiers drawn so far, and the callers. */
  datatype System = System(
    version: nat, gate: Gate, records: seq<SecretRecord>, secretVersion: nat,
    used: set<string>, callers: map<nat, Pc>)

  datatype ProviderReply = Renewed | Rejected | NoAnswer(tookEffect: bool)

  datatype Action =
    | Read(c: nat, allowed: bool)
    | Begin(c: nat, op: string, fault: Fault)
    | Call(c: nat, reply: ProviderReply)
    | Locate(c: nat, readable: bool)
    | Complete(c: nat, record: string, at: int, fault: Fault)
    | Abort(c: nat, fault: Fault)
    | Park(c: nat, fault: Fault)
    | Crash(c: nat)
    | OtherWrite

  /** A new client has one secret, known to both sides. */
  function Start(record: string): System {
    System(1, Idle, [SecretRecord(record, None)], 1, {}, map[])
  }

  /** The first record without a rotation time, in the order the store lists them. */
  function FirstUnstamped(records: seq<SecretRecord>): Option<string> {
    if records == [] then None
    else if records[0].rotatedAt.None? then Some(records[0].id)
    else FirstUnstamped(records[1..])
  }

  function Stamp(records: seq<SecretRecord>, id: Option<string>, at: int): seq<SecretRecord> {
    seq(|records|, i requires 0 <= i < |records| =>
      if id == Some(records[i].id) then records[i].(rotatedAt := Some(at)) else records[i])
  }

  predicate NewRecord(records: seq<SecretRecord>, id: string) {
    forall i :: 0 <= i < |records| ==> records[i].id != id
  }

  function To(sys: System, c: nat, pc: Pc): System { sys.(callers := sys.callers[c := pc]) }

  /** BeginSecretRotation: a compare-and-set on the version and the idle gate, together with
      the insertion of a new operation row. */
  function ApplyBegin(sys: System, c: nat, op: string, fault: Fault): System
    requires c in sys.callers && sys.callers[c].Seen?
  {
    if sys.callers[c].version != sys.version || !sys.gate.Idle? || op in sys.used || fault.FailsBefore? then
      To(sys, c, Done(Refused))
    else
      To(sys.(gate := InProgress(op), version := sys.version + 1, used := sys.used + {op}), c,
         if fault.Works? then Held(op) else Done(Refused))
  }

  function ApplyCall(sys: System, c: nat, op: string, reply: ProviderReply): System {
    match reply
    case Renewed => To(sys.(secretVersion := sys.secretVersion + 1), c, Called(op, sys.secretVersion + 1))
    case Rejected => To(sys, c, Aborting(op))
    case NoAnswer(tookEffect) =>
      To(if tookEffect then sys.(secretVersion := sys.secretVersion + 1) else sys, c, Parking(op))
  }

  /** CompleteSecretRotation: stamp the previous record, add the new one, release the gate. */
  function ApplyComplete(sys: System, c: nat, pc: Pc, record: string, at: int, fault: Fault): System
    requires pc.Located?
  {
    if sys.gate != InProgress(pc.op) || fault.FailsBefore? || !NewRecord(sys.records, record) then
      To(sys, c, Parking(pc.op))
    else
      To(sys.(gate := Idle, version := sys.version + 1,
              records := [SecretRecord(record, None)] + Stamp(sys.records, pc.previous, at)), c,
         if fault.Works? then Done(Rotated(pc.version)) else Parking(pc.op))
  }

  /** AbortSecretRotation and FailSecretRotationUnknown: each only moves its own operation's gate. */
  function Release(sys: System, op: string, gate: Gate, fault: Fault): System {
    if sys.gate == InProgress(op) && !fault.FailsBefore? then sys.(gate := gate) else sys
  }

  function Apply(sys: System, a: Action): System {
    match a
    case Read(c, allowed) =>
      if c in sys.callers then sys else To(sys, c, if allowed then Seen(sys.version) else Done(Refused))
    case Begin(c, op, fault) =>
      if c in sys.callers && sys.callers[c].Seen? then ApplyBegin(sys, c, op, fault) else sys
    case Call(c, reply) =>
      if c in sys.callers && sys.callers[c].Held? then ApplyCall(sys, c, sys.callers[c].op, reply) else sys
    case Locate(c, readable) =>
      if c in sys.callers && sys.callers[c].Called? then
        var pc := sys.callers[c];
        To(sys, c, if readable then Located(pc.op, pc.version, FirstUnstamped(sys.records)) else Parking(pc.op))
      else sys
    case Complete(c, record, at, fault) =>
      if c in sys.callers && sys.callers[c].Located? then ApplyComplete(sys, c, sys.callers[c], record, at, fault)
      else sys
    case Abort(c, fault) =>
      if c in sys.callers && sys.callers[c].Aborting? then
        To(Release(sys, sys.callers[c].op, Idle, fault), c, Done(Failed))
      else sys
    case Park(c, fault) =>
      if c in sys.callers && sys.callers[c].Parking? then
        To(Release(sys, sys.callers[c].op, Unknown(sys.callers[c].op), fault), c, Done(Stranded))
      else sys
    case Crash(c) => if c in sys.callers && !sys.callers[c].Done? then To(sys, c, Done(Crashed)) else sys
    case OtherWrite => sys.(version := sys.version + 1)
  }

  // ---- The invariant ----

  predicate Busy(pc: Pc) { pc.Held? || pc.Called? || pc.Located? || pc.Aborting? || pc.Parking? }

  /** The caller still owns the gate: it has not been told to let go of it. */
  predicate Owns(pc: Pc) { pc.Held? || pc.Called? || pc.Located? || pc.Aborting? }

  function Newest(records: seq<SecretRecord>): Option<string> {
    if records == [] then None else Some(records[0].id)
  }

  ghost predicate OneUnstamped(records: seq<SecretRecord>) {
    && records != [] && records[0].rotatedAt.None?
    && (forall i :: 1 <= i < |records| ==> records[i].rotatedAt.Some?)
    && (forall i, j :: 0 <= i < j < |records| ==> records[i].id != records[j].id)
  }

  ghost predicate OpsDistinct(sys: System) {
    && (forall c :: c in sys.callers && Busy(sys.callers[c]) ==> sys.callers[c].op in sys.used)
    && (forall c, d :: (c in sys.callers && d in sys.callers && Busy(sys.callers[c]) && Busy(sys.callers[d])
                        && sys.callers[c].op == sys.callers[d].op) ==> c == d)
    && (!sys.gate.Idle? ==> sys.gate.op in sys.used)
  }

  /** How far the provider may be ahead of the records. */
  ghost predicate Lag(sys: System) {
    && |sys.records| <= sys.secretVersion <= |sys.records| + 1
    && (sys.gate.Idle? ==> sys.secretVersion == |sys.records|)
    && (forall c :: c in sys.callers && Owns(sys.callers[c]) ==>
          && sys.gate == InProgress(sys.callers[c].op)
          && ((sys.callers[c].Held? || sys.callers[c].Aborting?) ==> sys.secretVersion == |sys.records|)
          && ((sys.callers[c].Called? || sys.callers[c].Located?) ==>
                sys.secretVersion == |sys.records| + 1 == sys.callers[c].version)
          && (sys.callers[c].Located? ==> sys.callers[c].previous == Newest(sys.records)))
  }

  ghost predicate Inv(sys: System) { OneUnstamped(sys.records) && OpsDistinct(sys) && Lag(sys) }

  lemma StampKeeps(records: seq<SecretRecord>, record: string, at: int)
    requires OneUnstamped(records) && NewRecord(records, record)
    ensures OneUnstamped([SecretRecord(record, None)] + Stamp(records, Some(records[0].id), at))
    ensures |Stamp(records, Some(records[0].id), at)| == |records|
  {
  }

  lemma BeginStep(sys: System, c: nat, op: string, fault: Fault)
    requires Inv(sys) && c in sys.callers && sys.callers[c].Seen?
    ensures Inv(ApplyBegin(sys, c, op, fault))
  {
  }

  lemma CallStep(sys: System, c: nat, op: string, reply: ProviderReply)
    requires Inv(sys) && c in sys.callers && sys.callers[c] == Held(op)
    ensures Inv(ApplyCall(sys, c, op, reply))
  {
    assert sys.gate == InProgress(op);
  }

  lemma CompleteStep(sys: System, c: nat, record: string, at: int, fault: Fault)
    requires Inv(sys) && c in sys.callers && sys.callers[c].Located?
    ensures Inv(ApplyComplete(sys, c, sys.callers[c], record, at, fault))
  {
    if NewRecord(sys.records, record) { StampKeeps(sys.records, record, at); }
    assert sys.callers[c].previous == Some(sys.records[0].id);
  }

  /** An owner that aborts, or a caller that parks, releases its own gate only. */
  lemma ReleaseStep(sys: System, c: nat, gate: Gate, fault: Fault, outcome: RotationOutcome)
    requires Inv(sys) && c in sys.callers
    requires (sys.callers[c].Aborting? && gate.Idle?) || (sys.callers[c].Parking? && gate == Unknown(sys.callers[c].op))
    ensures Inv(To(Release(sys, sys.callers[c].op, gate, fault), c, Done(outcome)))
  {
  }

  /** A step of one caller that touches nothing shared and leaves it owning no more. */
  lemma QuietStep(sys: System, c: nat, pc: Pc)
    requires Inv(sys) && (c in sys.callers && Busy(sys.callers[c]) && Busy(pc) ==> pc.op == sys.callers[c].op)
    requires Busy(pc) ==> c in sys.callers && Busy(sys.callers[c])
    requires !Owns(pc)
    ensures Inv(To(sys, c, pc))
  {
  }

  lemma LocateStep(sys: System, c: nat, op: string, version: nat)
    requires Inv(sys) && c in sys.callers && sys.callers[c] == Called(op, version)
    ensures Inv(To(sys, c, Located(op, version, FirstUnstamped(sys.records))))
  {
    assert FirstUnstamped(sys.records) == Newest(sys.records);
  }

  lemma VersionOnly(sys: System)
    requires Inv(sys)
    ensures Inv(sys.(version := sys.version + 1))
  {
  }

  lemma StepKeeps(sys: System, a: Action)
    requires Inv(sys)
    ensures Inv(Apply(sys, a))
  {
    match a
    case Read(c, allowed) =>
      if c !in sys.callers { QuietStep(sys, c, if allowed then Seen(sys.version) else Done(Refused)); }
    case Begin(c, op, fault) =>
      if c in sys.callers && sys.callers[c].Seen? { BeginStep(sys, c, op, fault); }
    case Call(c, reply) => if c in sys.callers && sys.callers[c].Held? { CallStep(sys, c, sys.callers[c].op, reply); }
    case Locate(c, readable) =>
      if c in sys.callers && sys.callers[c].Called? {
        if readable {
          LocateStep(sys, c, sys.callers[c].op, sys.callers[c].version);
        } else {
          QuietStep(sys, c, Parking(sys.callers[c].op));
        }
      }
    case Complete(c, record, at, fault) =>
      if c in sys.callers && sys.callers[c].Located? { CompleteStep(sys, c, record, at, fault); }
    case Abort(c, fault) =>
      if c in sys.callers && sys.callers[c].Aborting? { ReleaseStep(sys, c, Idle, fault, Failed); }
    case Park(c, fault) =>
      if c in sys.callers && sys.callers[c].Parking? {
        ReleaseStep(sys, c, Unknown(sys.callers[c].op), fault, Stranded);
      }
    case Crash(c) => if c in sys.callers && !sys.callers[c].Done? { QuietStep(sys, c, Done(Crashed)); }
    case OtherWrite => VersionOnly(sys);
  }

  // ---- Runs ----

  function Run(sys: System, actions: seq<Action>): System
    decreases |actions|
  {
    if actions == [] then sys else Run(Apply(sys, actions[0]), actions[1..])
  }

  lemma {:induction false} RunKeeps(sys: System, actions: seq<Action>)
    requires Inv(sys)
    ensures Inv(Run(sys, actions))
    decreases |actions|
  {
    if actions != [] {
      StepKeeps(sys, actions[0]);
      RunKeeps(Apply(sys, actions[0]), actions[1..]);
    }
  }

  /** In every interleaving: while the gate is idle, the provider's secret version is the
      number of local records and exactly the newest record is unstamped; the provider is
      never more than one version ahead. */
  lemma IdleMeansAgreement(record: string, actions: seq<Action>)
    ensures var sys := Run(Start(record), actions);
      && OneUnstamped(sys.records)
      && (sys.gate.Idle? ==> sys.secretVersion == |sys.records|)
      && |sys.records| <= sys.secretVersion <= |sys.records| + 1
  {
    RunKeeps(Start(record), actions);
  }

  /** What one rotation does to a parked client: nothing, ever. */
  lemma ParkedStep(sys: System, a: Action)
    requires Inv(sys) && sys.gate.Unknown?
    ensures var t := Apply(sys, a);
      t.gate == sys.gate && t.secretVersion == sys.secretVersion && t.records == sys.records
  {
    assert forall c :: c in sys.callers ==> !Owns(sys.callers[c]);
  }

  /** A parked client stays parked: no later step rotates its secret or its records. */
  lemma {:induction false} ParkedForever(sys: System, actions: seq<Action>)
    requires Inv(sys) && sys.gate.Unknown?
    ensures var t := Run(sys, actions);
      t.gate == sys.gate && t.secretVersion == sys.secretVersion && t.records == sys.records
    decreases |actions|
  {
    if actions != [] {
      ParkedStep(sys, actions[0]);
      StepKeeps(sys, actions[0]);
      ParkedForever(Apply(sys, actions[0]), actions[1..]);
    }
  }

  lemma {:induction false} RunAppend(sys: System, first: seq<Action>, second: seq<Action>)
    ensures Run(sys, first + second) == Run(Run(sys, first), second)
    decreases |first|
  {
    if first == [] {
      assert first + second == second;
    } else {
      assert (first + second)[1..] == first[1..] + second;
      RunAppend(Apply(sys, first[0]), first[1..], second);
    }
  }

  /** Once some rotation's outcome is unknown, every later state of every interleaving has
      the same secret version and records: outcome_unknown admits no rotation. */
  lemma UnknownAdmitsNoRotation(record: string, before: seq<Action>, after: seq<Action>)
    ensures var sys := Run(Start(record), before);
      var later := Run(Start(record), before + after);
      sys.gate.Unknown? ==>
        later.gate == sys.gate && later.secretVersion == sys.secretVersion && later.records == sys.records
  {
    RunKeeps(Start(record), before);
    RunAppend(Start(record), before, after);
    if Run(Start(record), before).gate.Unknown? {
      ParkedForever(Run(Start(record), before), after);
    }
  }

  // ---- What a caller is told ----

  /** Secrets handed out are real: their versions are versions the provider had, the records
      cover them, and no two callers were handed the same one. */
  ghost predicate Handed(sys: System) {
    && (forall c :: c in sys.callers && sys.callers[c].Done? && sys.callers[c].outcome.Rotated? ==>
          sys.callers[c].outcome.version <= |sys.records|)
    && (forall c, d :: (c in sys.callers && d in sys.callers && c != d
                        && sys.callers[c].Done? && sys.callers[c].outcome.Rotated?
                        && sys.callers[d].Done? && sys.callers[d].outcome.Rotated?) ==>
          sys.callers[c].outcome.version != sys.callers[d].outcome.version)
  }

  predicate IsHanded(pc: Pc) { pc.Done? && pc.outcome.Rotated? }

  lemma HandedComplete(sys: System, c: nat, record: string, at: int, fault: Fault)
    requires Inv(sys) && Handed(sys) && c in sys.callers && sys.callers[c].Located?
    ensures Handed(ApplyComplete(sys, c, sys.callers[c], record, at, fault))
  {
    assert sys.callers[c].version == |sys.records| + 1;
  }

  /** A step that hands nothing out. */
  lemma NothingHanded(sys: System, t: System)
    requires Handed(sys) && |sys.records| <= |t.records|
    requires forall c :: c in t.callers && IsHanded(t.callers[c]) ==> c in sys.callers && sys.callers[c] == t.callers[c]
    ensures Handed(t)
  {
  }

  lemma HandedStep(sys: System, a: Action)
    requires Inv(sys) && Handed(sys)
    ensures Handed(Apply(sys, a))
  {
    if a.Complete? && a.c in sys.callers && sys.callers[a.c].Located? {
      HandedComplete(sys, a.c, a.record, a.at, a.fault);
    } else {
      RecordsStay(sys, a);
      NobodyHanded(sys, a);
      NothingHanded(sys, Apply(sys, a));
    }
  }

  lemma RecordsStay(sys: System, a: Action)
    requires !(a.Complete? && a.c in sys.callers && sys.callers[a.c].Located?)
    ensures Apply(sys, a).records == sys.records
  {
  }

  lemma NobodyHanded(sys: System, a: Action)
    requires !(a.Complete? && a.c in sys.callers && sys.callers[a.c].Located?)
    ensures forall c :: c in Apply(sys, a).callers && IsHanded(Apply(sys, a).callers[c]) ==>
      c in sys.callers && sys.callers[c] == Apply(sys, a).callers[c]
  {
  }

  lemma {:induction false} RunHands(sys: System, actions: seq<Action>)
    requires Inv(sys) && Handed(sys)
    ensures Handed(Run(sys, actions))
    decreases |actions|
  {
    if actions != [] {
      StepKeeps(sys, actions[0]);
      HandedStep(sys, actions[0]);
      RunHands(Apply(sys, actions[0]), actions[1..]);
    }
  }

  lemma SecretsHandedOutOnce(record: string, actions: seq<Action>)
    ensures Handed(Run(Start(record), actions))
  {
    RunHands(Start(record), actions);
  }

  /** The steps of one rotation that nobody disturbs and nothing fails. */
  function Undisturbed(c: nat, op: string, record: string, at: int): seq<Action> {
    [Read(c, true), Begin(c, op, Works), Call(c, Renewed), Locate(c, true), Complete(c, record, at, Works)]
  }

  /** It hands out the next secret version and leaves the gate idle again exactly when the
      gate was idle and its identifiers are new. */
  lemma UndisturbedRotation(sys: System, c: nat, op: string, record: string, at: int)
    requires Inv(sys) && c !in sys.callers
    ensures var end := Run(sys, Undisturbed(c, op, record, at));
      && c in end.callers
      && (IsHanded(end.callers[c]) <==> sys.gate.Idle? && op !in sys.used && NewRecord(sys.records, record))
      && (IsHanded(end.callers[c]) ==>
            && end.callers[c] == Done(Rotated(sys.secretVersion + 1))
            && end.secretVersion == sys.secretVersion + 1 && end.gate.Idle?
            && |end.records| == |sys.records| + 1 && end.records[0] == SecretRecord(record, None)
            && end.records[1].id == sys.records[0].id && end.records[1].rotatedAt == Some(at)
            && forall i :: 1 <= i < |sys.records| ==> end.records[i + 1] == sys.records[i])
  {
    var first := [Read(c, true), Begin(c, op, Works), Call(c, Renewed), Locate(c, true)];
    var last := Complete(c, record, at, Works);
    assert Undisturbed(c, op, record, at) == first + [last];
    RunOneMore(sys, first, last);
    Renewal(sys, c, op);
    if sys.gate.Idle? && op !in sys.used { Commit(Run(sys, first), c, op, record, at); }
  }

  /** Up to the local commit. */
  lemma Renewal(sys: System, c: nat, op: string)
    requires Inv(sys) && c !in sys.callers
    ensures var t := Run(sys, [Read(c, true), Begin(c, op, Works), Call(c, Renewed), Locate(c, true)]);
      && c in t.callers
      && if sys.gate.Idle? && op !in sys.used then
           && t.callers[c] == Located(op, sys.secretVersion + 1, Newest(sys.records)) && t.gate == InProgress(op)
           && t.records == sys.records && t.secretVersion == sys.secretVersion + 1
         else t.callers[c] == Done(Refused)
  {
    FourSteps(sys, Read(c, true), Begin(c, op, Works), Call(c, Renewed), Locate(c, true));
    TwoSteps(sys, Read(c, true), Begin(c, op, Works));
    if sys.gate.Idle? && op !in sys.used {
      GateTaken(sys, c, op);
      assert FirstUnstamped(sys.records) == Newest(sys.records);
    } else {
      BusyRotation(sys, c, op, Works);
    }
  }

  /** The local commit under the caller's own gate. */
  lemma Commit(t: System, c: nat, op: string, record: string, at: int)
    requires OneUnstamped(t.records) && t.gate == InProgress(op)
    requires c in t.callers && t.callers[c] == Located(op, t.secretVersion, Newest(t.records))
    ensures var end := Apply(t, Complete(c, record, at, Works));
      && c in end.callers && end.secretVersion == t.secretVersion
      && (if NewRecord(t.records, record) then
            && end.callers[c] == Done(Rotated(t.secretVersion)) && end.gate.Idle?
            && |end.records| == |t.records| + 1 && end.records[0] == SecretRecord(record, None)
            && end.records[1].id == t.records[0].id && end.records[1].rotatedAt == Some(at)
            && forall i :: 1 <= i < |t.records| ==> end.records[i + 1] == t.records[i]
          else end.callers[c].Parking?)
  {
  }

  /** A rotation that cannot take the gate is refused and changes nothing. */
  lemma BusyRotation(sys: System, c: nat, op: string, fault: Fault)
    requires Inv(sys) && c !in sys.callers && (!sys.gate.Idle? || op in sys.used || fault.FailsBefore?)
    ensures var end := Run(sys, [Read(c, true), Begin(c, op, fault)]);
      c in end.callers && end.callers[c] == Done(Refused) && end.(callers := sys.callers) == sys
  {
    TwoSteps(sys, Read(c, true), Begin(c, op, fault));
  }

  /** A gate taken behind an error: the caller is refused, and the gate stays in progress. */
  lemma LostBegin(sys: System, c: nat, op: string)
    requires Inv(sys) && c !in sys.callers && sys.gate.Idle? && op !in sys.used
    ensures var end := Run(sys, [Read(c, true), Begin(c, op, FailsAfter)]);
      && c in end.callers && end.callers[c] == Done(Refused) && end.gate == InProgress(op)
      && end.records == sys.records && end.secretVersion == sys.secretVersion
  {
    TwoSteps(sys, Read(c, true), Begin(c, op, FailsAfter));
  }

  /** The gate as the provider is called. */
  lemma GateTaken(sys: System, c: nat, op: string)
    requires Inv(sys) && c !in sys.callers && sys.gate.Idle? && op !in sys.used
    ensures var t := Run(sys, [Read(c, true), Begin(c, op, Works)]);
      && c in t.callers && t.callers[c] == Held(op) && t.gate == InProgress(op)
      && t.records == sys.records && t.secretVersion == sys.secretVersion
  {
    TwoSteps(sys, Read(c, true), Begin(c, op, Works));
  }

  /** A definite refusal by the provider: the gate opens again, nothing else changed, and the
      caller gets a plain error, so the next rotation can start. */
  lemma RefusedRotation(sys: System, c: nat, op: string)
    requires Inv(sys) && c !in sys.callers && sys.gate.Idle? && op !in sys.used
    ensures var end := Run(sys, [Read(c, true), Begin(c, op, Works), Call(c, Rejected), Abort(c, Works)]);
      && c in end.callers && end.callers[c] == Done(Failed) && end.gate.Idle?
      && end.records == sys.records && end.secretVersion == sys.secretVersion
  {
    GateTaken(sys, c, op);
    FourSteps(sys, Read(c, true), Begin(c, op, Works), Call(c, Rejected), Abort(c, Works));
    TwoSteps(sys, Read(c, true), Begin(c, op, Works));
  }

  /** No answer, whether or not the provider acted: the outcome is unknown for good. */
  lemma UnansweredRotation(sys: System, c: nat, op: string, tookEffect: bool)
    requires Inv(sys) && c !in sys.callers && sys.gate.Idle? && op !in sys.used
    ensures var end := Run(sys, [Read(c, true), Begin(c, op, Works), Call(c, NoAnswer(tookEffect)), Park(c, Works)]);
      && c in end.callers && end.callers[c] == Done(Stranded) && end.gate == Unknown(op)
      && end.records == sys.records && end.secretVersion == sys.secretVersion + (if tookEffect then 1 else 0)
  {
    GateTaken(sys, c, op);
    FourSteps(sys, Read(c, true), Begin(c, op, Works), Call(c, NoAnswer(tookEffect)), Park(c, Works));
    TwoSteps(sys, Read(c, true), Begin(c, op, Works));
  }

  /** The provider renewed the secret, but the local commit failed: the secret is withheld. If
      the commit did not happen the outcome is unknown, and if it happened behind the error the
      records are right and the gate is open. */
  lemma UncommittedRotation(sys: System, c: nat, record: string, at: int, fault: Fault)
    requires Inv(sys) && c in sys.callers && sys.callers[c].Located? && NewRecord(sys.records, record) && !fault.Works?
    ensures var end := Run(sys, [Complete(c, record, at, fault), Park(c, Works)]);
      && c in end.callers && end.callers[c] == Done(Stranded) && end.secretVersion == sys.secretVersion
      && (if fault.FailsBefore? then end.gate == Unknown(sys.callers[c].op) && end.records == sys.records
          else && end.gate.Idle? && |end.records| == |sys.records| + 1 == end.secretVersion
               && end.records[0] == SecretRecord(record, None))
  {
    TwoSteps(sys, Complete(c, record, at, fault), Park(c, Works));
  }

  lemma TwoSteps(sys: System, a: Action, b: Action)
    ensures Run(sys, [a, b]) == Apply(Apply(sys, a), b)
  {
    RunOneMore(sys, [], a);
    RunOneMore(sys, [a], b);
    assert [] + [a] == [a] && [a] + [b] == [a, b];
  }

  lemma FourSteps(sys: System, a: Action, b: Action, c: Action, d: Action)
    ensures Run(sys, [a, b, c, d]) == Apply(Apply(Apply(Apply(sys, a), b), c), d)
  {
    TwoSteps(sys, a, b);
    RunOneMore(sys, [a, b], c);
    RunOneMore(sys, [a, b, c], d);
    assert [a, b] + [c] == [a, b, c] && [a, b, c] + [d] == [a, b, c, d];
  }

  lemma RunOneMore(sys: System, actions: seq<Action>, a: Action)
    ensures Run(sys, actions + [a]) == Apply(Run(sys, actions), a)
  {
    RunAppend(sys, actions, [a]);
    assert [a][1..] == [];
    assert Run(Apply(Run(sys, actions), a), []) == Apply(Run(sys, actions), a);
  }

  // ---- RotateClientSecret itself ----

  /** The faults one call meets, the identifiers it draws, and what others do between its
      store and provider calls. */
  datatype Steps = Steps(
    allowed: bool, op: string, beginFault: Fault, reply: ProviderReply, readable: bool,
    record: string, at: int, completeFault: Fault, releaseFault: Fault,
    afterRead: seq<Action>, afterBegin: seq<Action>, afterCall: seq<Action>, afterLocate: seq<Action>)

  /** Nobody else acts during the call. */
  predicate Alone(steps: Steps) {
    steps.afterRead == [] && steps.afterBegin == [] && steps.afterCall == [] && steps.afterLocate == []
  }

  /** What a caller that holds the gate is told. */
  ghost predicate Told(steps: Steps, outcome: RotationOutcome) {
    match steps.reply
    case Rejected => outcome == Failed
    case NoAnswer(_) => outcome == Stranded
    case Renewed => outcome.Rotated? || outcome == Stranded
  }

  predicate Elsewhere(actions: seq<Action>, c: nat) {
    forall i :: 0 <= i < |actions| ==> actions[i].OtherWrite? || actions[i].c != c
  }

  lemma {:induction false} RunElsewhere(sys: System, actions: seq<Action>, c: nat)
    requires Elsewhere(actions, c) && c in sys.callers
    ensures c in Run(sys, actions).callers && Run(sys, actions).callers[c] == sys.callers[c]
    decreases |actions|
  {
    if actions != [] { RunElsewhere(Apply(sys, actions[0]), actions[1..], c); }
  }

  /** The client's row and the provider's copy of its secret. */
  class RotatingClient {
    var version: nat
    var gate: Gate
    var records: seq<SecretRecord>
    var secretVersion: nat
    var operations: set<string>

    ghost predicate Mirrors(sys: System)
      reads this
    {
      && version == sys.version && gate == sys.gate && operations == sys.used
      && records == sys.records && secretVersion == sys.secretVersion
    }

    constructor (record: string)
      ensures Mirrors(Start(record))
    {
      version, gate, records, secretVersion, operations := 1, Idle, [SecretRecord(record, None)], 1, {};
    }

    /** Others act. */
    method Wait(ghost start: System, sys: System, ghost trace: seq<Action>, actions: seq<Action>, c: nat)
      returns (next: System, ghost longer: seq<Action>)
      requires sys == Run(start, trace) && c in sys.callers && Elsewhere(actions, c)
      modifies this
      ensures next == Run(sys, actions) == Run(start, longer) && Mirrors(next)
      ensures c in next.callers && next.callers[c] == sys.callers[c]
    {
      next := Run(sys, actions);
      longer := trace + actions;
      RunAppend(start, trace, actions);
      RunElsewhere(sys, actions, c);
      version, gate, operations := next.version, next.gate, next.used;
      records, secretVersion := next.records, next.secretVersion;
    }

    method BeginSecretRotation(expected: nat, op: string, fault: Fault) returns (ok: bool)
      modifies this
      ensures var hit := old(version) == expected && old(gate).Idle? && op !in old(operations);
        && (ok <==> hit && fault.Works?)
        && (if hit && !fault.FailsBefore?
            then gate == InProgress(op) && version == old(version) + 1 && operations == old(operations) + {op}
            else gate == old(gate) && version == old(version) && operations == old(operations))
      ensures records == old(records) && secretVersion == old(secretVersion)
    {
      if version != expected || !gate.Idle? || op in operations || fault.FailsBefore? { return false; }
      gate, version, operations := InProgress(op), version + 1, operations + {op};
      ok := fault.Works?;
    }

    method ReleaseGate(op: string, to: Gate, fault: Fault)
      modifies this`gate
      ensures gate == if old(gate) == InProgress(op) && !fault.FailsBefore? then to else old(gate)
    {
      if gate == InProgress(op) && !fault.FailsBefore? { gate := to; }
    }

    /** CompleteSecretRotation: one transaction. */
    method CompleteSecretRotation(op: string, previous: Option<string>, record: string, at: int, fault: Fault)
      returns (ok: bool)
      modifies this
      ensures ok <==> old(gate) == InProgress(op) && NewRecord(old(records), record) && fault.Works?
      ensures secretVersion == old(secretVersion) && operations == old(operations)
      ensures if old(gate) == InProgress(op) && NewRecord(old(records), record) && !fault.FailsBefore?
              then gate == Idle && version == old(version) + 1
                   && records == [SecretRecord(record, None)] + Stamp(old(records), previous, at)
              else gate == old(gate) && version == old(version) && records == old(records)
    {
      if gate != InProgress(op) || fault.FailsBefore? || !NewRecord(records, record) { return false; }
      gate, version := Idle, version + 1;
      records := [SecretRecord(record, None)] + Stamp(records, previous, at);
      ok := fault.Works?;
    }

    /** Park after an unknown outcome, as the caller's last step. */
    method ParkRotation(op: string, fault: Fault, c: nat, ghost start: System, sys: System, ghost trace: seq<Action>)
      returns (last: System, ghost longer: seq<Action>)
      requires Mirrors(sys) && sys == Run(start, trace) && c in sys.callers && sys.callers[c] == Parking(op)
      modifies this`gate
      ensures Mirrors(last) && last == Run(start, longer) && c in last.callers && last.callers[c] == Done(Stranded)
    {
      ReleaseGate(op, Unknown(op), fault);
      last := Apply(sys, Park(c, fault));
      longer := trace + [Park(c, fault)];
      RunOneMore(start, trace, Park(c, fault));
    }

    /** The part of RotateClientSecret after the provider renewed the secret. */
    method CommitRenewed(op: string, secret: nat, steps: Steps, c: nat, ghost start: System, sys: System,
        ghost trace: seq<Action>)
      returns (outcome: RotationOutcome, last: System, ghost longer: seq<Action>)
      requires Mirrors(sys) && sys == Run(start, trace) && c in sys.callers && sys.callers[c] == Called(op, secret)
      requires Elsewhere(steps.afterLocate, c)
      modifies this
      ensures Mirrors(last) && last == Run(start, longer) && c in last.callers && last.callers[c] == Done(outcome)
      ensures outcome == Rotated(secret) || outcome == Stranded
      ensures Alone(steps) && old(gate) == InProgress(op) ==>
        && (outcome.Rotated? <==>
              steps.readable && NewRecord(old(records), steps.record) && steps.completeFault.Works?)
        && secretVersion == old(secretVersion)
    {
      last, longer := Apply(sys, Locate(c, steps.readable)), trace + [Locate(c, steps.readable)];
      RunOneMore(start, trace, Locate(c, steps.readable));
      if !steps.readable {
        last, longer := ParkRotation(op, steps.releaseFault, c, start, last, longer);
        return Stranded, last, longer;
      }
      var previous := FirstUnstamped(records);
      last, longer := Wait(start, last, longer, steps.afterLocate, c);
      var complete := Complete(c, steps.record, steps.at, steps.completeFault);
      var ok := CompleteSecretRotation(op, previous, steps.record, steps.at, steps.completeFault);
      RunOneMore(start, longer, complete);
      last, longer := Apply(last, complete), longer + [complete];
      if ok { return Rotated(secret), last, longer; }
      last, longer := ParkRotation(op, steps.releaseFault, c, start, last, longer);
      outcome := Stranded;
    }

    /** The provider's RotateClientSecret. */
    method Renew(reply: ProviderReply) returns (secret: nat)
      modifies this`secretVersion
      ensures secretVersion ==
        old(secretVersion) + (if reply.Renewed? || (reply.NoAnswer? && reply.tookEffect) then 1 else 0)
      ensures secret == secretVersion
    {
      if reply.Renewed? || (reply.NoAnswer? && reply.tookEffect) { secretVersion := secretVersion + 1; }
      secret := secretVersion;
    }

    /** The part of RotateClientSecret after the gate was acquired. */
    method RotateHeld(op: string, steps: Steps, c: nat, ghost start: System, sys: System, ghost trace: seq<Action>)
      returns (outcome: RotationOutcome, last: System, ghost longer: seq<Action>)
      requires Mirrors(sys) && sys == Run(start, trace) && c in sys.callers && sys.callers[c] == Held(op)
      requires Elsewhere(steps.afterCall, c) && Elsewhere(steps.afterLocate, c)
      modifies this
      ensures Mirrors(last) && last == Run(start, longer) && c in last.callers && last.callers[c] == Done(outcome)
      ensures Told(steps, outcome)
      ensures Alone(steps) && old(gate) == InProgress(op) ==>
        && (outcome.Rotated? <==>
              && steps.reply.Renewed? && steps.readable
              && NewRecord(old(records), steps.record) && steps.completeFault.Works?)
        && (outcome.Rotated? ==> outcome.version == old(secretVersion) + 1 == secretVersion)
    {
      var secret := Renew(steps.reply);
      last, longer := Apply(sys, Call(c, steps.reply)), trace + [Call(c, steps.reply)];
      RunOneMore(start, trace, Call(c, steps.reply));
      assert Mirrors(last);
      last, longer := Wait(start, last, longer, steps.afterCall, c);
      match steps.reply {
        case NoAnswer(_) =>
          last, longer := ParkRotation(op, steps.releaseFault, c, start, last, longer);
          outcome := Stranded;
        case Rejected =>
          ReleaseGate(op, Idle, steps.releaseFault);
          RunOneMore(start, longer, Abort(c, steps.releaseFault));
          last, longer := Apply(last, Abort(c, steps.releaseFault)), longer + [Abort(c, steps.releaseFault)];
          outcome := Failed;
        case Renewed =>
          outcome, last, longer := CommitRenewed(op, secret, steps, c, start, last, longer);
      }
    }

    /** RotateClientSecret: whatever fails and whoever else acts in between, the call is one
        caller's part of a run, so the results above hold around it; a secret is returned
        only when the local commit was confirmed. */
    method RotateClientSecret(steps: Steps, c: nat, sys: System)
      returns (outcome: RotationOutcome, last: System, ghost trace: seq<Action>)
      requires Mirrors(sys) && c !in sys.callers
      requires Elsewhere(steps.afterRead, c) && Elsewhere(steps.afterBegin, c)
      requires Elsewhere(steps.afterCall, c) && Elsewhere(steps.afterLocate, c)
      modifies this
      ensures Mirrors(last) && last == Run(sys, trace) && c in last.callers && last.callers[c] == Done(outcome)
      ensures !steps.allowed ==> outcome == Refused && trace == [Read(c, false)]
      ensures outcome == Refused || Told(steps, outcome)
      ensures Alone(steps) && steps.allowed ==>
        var held := old(gate).Idle? && steps.op !in old(operations) && steps.beginFault.Works?;
        && (held <==> outcome != Refused)
        && (outcome.Rotated? <==>
              && held && steps.reply.Renewed? && steps.readable
              && NewRecord(old(records), steps.record) && steps.completeFault.Works?)
        && (outcome.Rotated? ==> outcome.version == old(secretVersion) + 1 == secretVersion)
    {
      last, trace := Apply(sys, Read(c, steps.allowed)), [Read(c, steps.allowed)];
      RunOneMore(sys, [], Read(c, steps.allowed));
      assert [] + trace == trace;
      if !steps.allowed { return Refused, last, trace; }
      outcome, last, trace := RotateSeen(steps, c, sys, last, trace);
    }

    /** The part of RotateClientSecret after the client was read. */
    method RotateSeen(steps: Steps, c: nat, ghost start: System, sys: System, ghost trace: seq<Action>)
      returns (outcome: RotationOutcome, last: System, ghost longer: seq<Action>)
      requires Mirrors(sys) && sys == Run(start, trace) && c in sys.callers && sys.callers[c] == Seen(version)
      requires Elsewhere(steps.afterRead, c) && Elsewhere(steps.afterBegin, c)
      requires Elsewhere(steps.afterCall, c) && Elsewhere(steps.afterLocate, c)
      modifies this
      ensures Mirrors(last) && last == Run(start, longer) && c in last.callers && last.callers[c] == Done(outcome)
      ensures outcome == Refused || Told(steps, outcome)
      ensures Alone(steps) ==>
        var held := old(gate).Idle? && steps.op !in old(operations) && steps.beginFault.Works?;
        && (held <==> outcome != Refused)
        && (outcome.Rotated? <==>
              && held && steps.reply.Renewed? && steps.readable
              && NewRecord(old(records), steps.record) && steps.completeFault.Works?)
        && (outcome.Rotated? ==> outcome.version == old(secretVersion) + 1 == secretVersion)
    {
      var expected := version;
      last, longer := Wait(start, sys, trace, steps.afterRead, c);
      var begin := Begin(c, steps.op, steps.beginFault);
      var held := BeginSecretRotation(expected, steps.op, steps.beginFault);
      RunOneMore(start, longer, begin);
      last, longer := Apply(last, begin), longer + [begin];
      if !held { return Refused, last, longer; }
      last, longer := Wait(start, last, longer, steps.afterBegin, c);
      outcome, last, longer := RotateHeld(steps.op, steps, c, start, last, longer);
    }
  }
}
