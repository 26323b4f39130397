/** The background reconciler (backend/internal/consent/reconciler.go): one pass as the
    source runs it, that a pass is part of a run of the system in Protocol, and how many
    passes it takes until nothing is in flight. */
module Reconciling {
  import opened Outcomes
  import opened Scopes
  import opened Operations
  import opened Protocol
  import opened Backend
  import opened Decisions

  /** The horizon a pass judges by, what becomes of the write of each row, the new grant
      identifier each row would use, and the time of the pass. */
  datatype PassEnv = PassEnv(horizon: int, faults: string -> Fault, grantIds: string -> string, at: int)

  function PassRow(s: Store, seen: Operation, env: PassEnv): Store {
    Persist(s, ReconcileRow(s, seen, seen.createdAt < env.horizon, env.grantIds(seen.id), env.at),
      env.faults(seen.id)).0
  }

  /** What a pass over the given rows leaves behind. */
  function Pass(s: Store, rows: seq<Operation>, env: PassEnv): Store
    decreases |rows|
  {
    if rows == [] then s else Pass(PassRow(s, rows[0], env), rows[1..], env)
  }

  lemma {:induction false} PassAppend(s: Store, rows: seq<Operation>, row: Operation, env: PassEnv)
    ensures Pass(s, rows + [row], env) == PassRow(Pass(s, rows, env), row, env)
    decreases |rows|
  {
    if rows == [] {
      assert (rows + [row])[1..] == [];
      assert Pass(PassRow(s, row, env), [], env) == PassRow(s, row, env);
    } else {
      assert (rows + [row])[1..] == rows[1..] + [row];
      PassAppend(PassRow(s, rows[0], env), rows[1..], row, env);
    }
  }

  const DEFAULT_PENDING_STALE_AFTER := 300
  const DEFAULT_BATCH := 100

  /** The rows a pass gets to. */
  function Prefix(rows: seq<Operation>, budget: nat): seq<Operation> {
    if |rows| <= budget then rows else rows[..budget]
  }

  class Reconciler {
    const store: GrantStore
    const pendingStaleFor: int
    const batch: nat

    /** Tuning values that are not positive fall back to the defaults. */
    constructor (grants: GrantStore, staleAfter: int, limit: int)
      ensures store == grants && pendingStaleFor > 0 && batch > 0
      ensures staleAfter > 0 ==> pendingStaleFor == staleAfter
      ensures limit > 0 ==> batch == limit
    {
      store := grants;
      pendingStaleFor := if staleAfter <= 0 then DEFAULT_PENDING_STALE_AFTER else staleAfter;
      batch := if limit <= 0 then DEFAULT_BATCH else limit;
    }

    /** The switch of RunOnce on the status the row was listed with. */
    method JudgeRow(op: Operation, horizon: int, faults: string -> Fault, grantIds: string -> string, at: int)
      modifies store
      ensures store.Contents() == PassRow(old(store.Contents()), op, PassEnv(horizon, faults, grantIds, at))
    {
      match op.status {
        case ProviderSucceeded =>
          var _ := store.RepairCompletionForward(op, grantIds(op.id), faults(op.id), at);
        case Pending =>
          if op.createdAt < horizon {
            var _ := store.FailDecisionOperation(op.id, ProviderUnavailable, faults(op.id));
          }
        case Succeeded =>
        case Failed =>
      }
    }

    /** The loop of RunOnce: it stops early when its context ends, here after `budget` rows. */
    method JudgeAll(ops: seq<Operation>, horizon: int, budget: nat,
        faults: string -> Fault, grantIds: string -> string, at: int)
      returns (complete: bool)
      modifies store
      ensures complete <==> |ops| <= budget
      ensures store.Contents() ==
        Pass(old(store.Contents()), Prefix(ops, budget), PassEnv(horizon, faults, grantIds, at))
    {
      ghost var start, env := store.Contents(), PassEnv(horizon, faults, grantIds, at);
      for i := 0 to |ops|
        invariant i <= budget
        invariant store.Contents() == Pass(start, ops[..i], env)
      {
        if i >= budget { return false; }
        JudgeRow(ops[i], horizon, faults, grantIds, at);
        PassAppend(start, ops[..i], ops[i], env);
        assert ops[..i + 1] == ops[..i] + [ops[i]];
      }
      assert ops[..|ops|] == ops;
      complete := true;
    }

    /** RunOnce. The clock is read once for the listing and once for the judgment. No row's
        failure stops the pass. */
    method RunOnce(listedAt: int, judgedAt: int, listFails: bool, budget: nat,
        faults: string -> Fault, grantIds: string -> string)
      returns (complete: bool, ghost rows: seq<Operation>)
      requires Indexed(store.Contents()) && batch > 0
      modifies store
      ensures listFails ==> !complete && store.Contents() == old(store.Contents())
      ensures !listFails ==>
        && IsInFlightList(old(store.ops), listedAt - pendingStaleFor, batch, rows)
        && (complete <==> |rows| <= budget)
        && store.Contents() == Pass(old(store.Contents()), Prefix(rows, budget),
                                    PassEnv(judgedAt - pendingStaleFor, faults, grantIds, judgedAt))
    {
      rows := [];
      if listFails { return false, rows; }
      var ops := store.ListInFlightDecisionOperations(listedAt - pendingStaleFor, batch);
      rows := ops;
      complete := JudgeAll(ops, judgedAt - pendingStaleFor, budget, faults, grantIds, judgedAt);
    }
  }

  // ---- A pass is part of a run ----

  function Heads(p: nat, rows: seq<Operation>, env: PassEnv): seq<Action> {
    seq(|rows|, i requires 0 <= i < |rows| =>
      ReconcileHead(p, rows[i].createdAt < env.horizon, env.grantIds(rows[i].id), env.faults(rows[i].id), env.at))
  }

  lemma {:induction false} HeadsRun(sys: System, p: nat, rows: seq<Operation>, env: PassEnv)
    requires p in sys.passes && sys.passes[p] == rows
    ensures Run(sys, Heads(p, rows, env)).store == Pass(sys.store, rows, env)
    decreases |rows|
  {
    var heads := Heads(p, rows, env);
    if rows != [] {
      assert heads[1..] == Heads(p, rows[1..], env);
      HeadsRun(Apply(sys, heads[0]), p, rows[1..], env);
    }
  }

  /** Listing and judging stored rows is a run of the system; so everything proved of every
      reachable state holds between and after passes. */
  lemma PassIsRun(sys: System, p: nat, rows: seq<Operation>, env: PassEnv)
    requires p !in sys.passes
    requires forall i :: 0 <= i < |rows| ==> rows[i].id in sys.store.ops && sys.store.ops[rows[i].id] == rows[i]
    ensures var ids := seq(|rows|, i requires 0 <= i < |rows| => rows[i].id);
      Run(sys, [ListPass(p, ids)] + Heads(p, rows, env)).store == Pass(sys.store, rows, env)
  {
    var ids := seq(|rows|, i requires 0 <= i < |rows| => rows[i].id);
    var listed := Apply(sys, ListPass(p, ids));
    assert listed.passes[p] == rows;
    HeadsRun(listed, p, rows, env);
    RunAppend(sys, [ListPass(p, ids)], Heads(p, rows, env));
    RunOneMore(sys, [], ListPass(p, ids));
    assert [] + [ListPass(p, ids)] == [ListPass(p, ids)];
  }

  // ---- What one pass achieves ----

  /** A proven row goes forward, a row without proof fails. */
  function Settled(op: Operation): Operation {
    if op.status.ProviderSucceeded? then op.(status := Succeeded)
    else op.(status := Failed, errorClass := Some(ProviderUnavailable))
  }

  ghost predicate GoodStore(s: Store) { StoreInv(s) && PlansOk(s) }

  /** New grant identifiers are well formed, unused and differ from row to row. */
  ghost predicate FreshIds(s: Store, rows: seq<Operation>, env: PassEnv) {
    && (forall i :: 0 <= i < |rows| ==> GrantIdUsable(s, env.grantIds(rows[i].id)))
    && (forall i, j :: 0 <= i < j < |rows| ==> env.grantIds(rows[i].id) != env.grantIds(rows[j].id))
  }

  /** Rows as they are stored, each still waiting and past the horizon. */
  ghost predicate Waiting(s: Store, rows: seq<Operation>, env: PassEnv) {
    && DistinctIds(rows)
    && (forall i :: 0 <= i < |rows| ==>
          rows[i].id in s.ops && s.ops[rows[i].id] == rows[i] && NeedsAttention(rows[i], env.horizon))
  }

  lemma RepairGood(s: Store, seen: Operation, gid: string, at: int)
    requires GoodStore(s)
    ensures GoodStore(RepairForward(s, seen, gid, at).0)
  {
    RepairForwardKeeps(s, seen, gid, at);
    RepairShape(s, seen, gid, at);
    PlansKept(s, RepairForward(s, seen, gid, at).0);
  }

  lemma FailGood(s: Store, id: string, errClass: ErrorClass)
    requires GoodStore(s)
    ensures GoodStore(Fail(s, id, errClass).0)
  {
    FailInv(s, id, errClass);
    PlansKept(s, Fail(s, id, errClass).0);
  }

  lemma PersistGood(s: Store, written: Written, fault: Fault)
    requires GoodStore(s) && GoodStore(written.0)
    ensures GoodStore(Persist(s, written, fault).0)
  {
  }

  lemma RowKeepsGood(s: Store, seen: Operation, env: PassEnv)
    requires GoodStore(s)
    ensures GoodStore(PassRow(s, seen, env))
  {
    var written := ReconcileRow(s, seen, seen.createdAt < env.horizon, env.grantIds(seen.id), env.at);
    assert GoodStore(written.0) by {
      RepairGood(s, seen, env.grantIds(seen.id), env.at);
      FailGood(s, seen.id, ProviderUnavailable);
    }
    PersistGood(s, written, env.faults(seen.id));
  }

  lemma RepairSettles(s: Store, seen: Operation, gid: string, at: int)
    requires StoreInv(s) && PlansOk(s) && seen.id in s.ops && s.ops[seen.id] == seen && seen.status.ProviderSucceeded?
    requires GrantIdUsable(s, gid)
    ensures RepairForward(s, seen, gid, at).0.ops == s.ops[seen.id := Settled(seen)]
  {
    ProvenRowsCommit(s, seen.id, gid, at);
    RepairShape(s, seen, gid, at);
  }

  lemma RowSettles(s: Store, seen: Operation, env: PassEnv)
    requires GoodStore(s) && seen.id in s.ops && s.ops[seen.id] == seen && NeedsAttention(seen, env.horizon)
    requires GrantIdUsable(s, env.grantIds(seen.id))
    ensures PassRow(s, seen, env).ops ==
      if env.faults(seen.id).FailsBefore? then s.ops else s.ops[seen.id := Settled(seen)]
  {
    if seen.status.ProviderSucceeded? {
      RepairSettles(s, seen, env.grantIds(seen.id), env.at);
    }
  }

  /** A row takes at most its own new grant identifier. */
  lemma RowGrantIds(s: Store, seen: Operation, env: PassEnv)
    requires Indexed(s)
    ensures forall g :: g in PassRow(s, seen, env).grantIds ==> g in s.grantIds || g == env.grantIds(seen.id)
  {
    var gid := env.grantIds(seen.id);
    if seen.status.ProviderSucceeded? {
      assert forall g :: g in RepairForward(s, seen, gid, env.at).0.grantIds ==> g in s.grantIds || g == gid;
    }
  }

  lemma {:induction false} PassKeepsGood(s: Store, rows: seq<Operation>, env: PassEnv)
    requires GoodStore(s)
    ensures GoodStore(Pass(s, rows, env))
    decreases |rows|
  {
    if rows != [] {
      RowKeepsGood(s, rows[0], env);
      PassKeepsGood(PassRow(s, rows[0], env), rows[1..], env);
    }
  }

  /** The listed rows whose write takes effect are settled, every other row is as it was. */
  ghost predicate Handled(before: map<string, Operation>, after: map<string, Operation>, done: set<string>) {
    && after.Keys == before.Keys
    && (forall id :: id in before ==> after[id] == if id in done then Settled(before[id]) else before[id])
  }

  ghost function Ids(rows: seq<Operation>): set<string> {
    set i | 0 <= i < |rows| :: rows[i].id
  }

  ghost function Writable(rows: seq<Operation>, env: PassEnv): set<string> {
    set i | 0 <= i < |rows| && !env.faults(rows[i].id).FailsBefore? :: rows[i].id
  }

  lemma WaitingTail(s: Store, rows: seq<Operation>, env: PassEnv)
    requires Waiting(s, rows, env) && FreshIds(s, rows, env) && rows != []
    requires PassRow(s, rows[0], env).ops ==
      if env.faults(rows[0].id).FailsBefore? then s.ops else s.ops[rows[0].id := Settled(rows[0])]
    requires forall g :: g in PassRow(s, rows[0], env).grantIds ==> g in s.grantIds || g == env.grantIds(rows[0].id)
    ensures Waiting(PassRow(s, rows[0], env), rows[1..], env) && FreshIds(PassRow(s, rows[0], env), rows[1..], env)
  {
    var rest := rows[1..];
    assert forall i :: 0 <= i < |rest| ==> rest[i] == rows[i + 1];
  }

  lemma {:induction false} PassSettles(s: Store, rows: seq<Operation>, env: PassEnv)
    requires GoodStore(s) && Waiting(s, rows, env) && FreshIds(s, rows, env)
    ensures Handled(s.ops, Pass(s, rows, env).ops, Writable(rows, env))
    decreases |rows|
  {
    if rows != [] {
      var next := PassRow(s, rows[0], env);
      RowSettles(s, rows[0], env);
      RowGrantIds(s, rows[0], env);
      RowKeepsGood(s, rows[0], env);
      WaitingTail(s, rows, env);
      PassSettles(next, rows[1..], env);
      HandledStep(s.ops, next.ops, Pass(s, rows, env).ops, rows, env);
    }
  }

  lemma HandledStep(before: map<string, Operation>, mid: map<string, Operation>, after: map<string, Operation>,
      rows: seq<Operation>, env: PassEnv)
    requires rows != [] && DistinctIds(rows) && rows[0].id in before && before[rows[0].id] == rows[0]
    requires mid == if env.faults(rows[0].id).FailsBefore? then before else before[rows[0].id := Settled(rows[0])]
    requires Handled(mid, after, Writable(rows[1..], env))
    ensures Handled(before, after, Writable(rows, env))
  {
    var rest := rows[1..];
    assert forall i :: 0 <= i < |rest| ==> rest[i] == rows[i + 1];
    assert rows[0].id !in Writable(rest, env);
    assert Writable(rows, env) ==
      Writable(rest, env) + (if env.faults(rows[0].id).FailsBefore? then {} else {rows[0].id}) by {
      forall i | 0 <= i < |rows| ensures i == 0 || rows[i] == rest[i - 1] {}
    }
  }

  // ---- What a pass lists, does and leaves alone ----

  /** A listing that is not full has exactly the rows with a proof and the pending ones from
      before the horizon. */
  lemma ListedExactly(s: Store, rows: seq<Operation>, staleBefore: int, limit: nat, id: string)
    requires Indexed(s) && IsInFlightList(s.ops, staleBefore, limit, rows) && |rows| < limit && id in s.ops
    ensures id in Ids(rows) <==>
      s.ops[id].status == ProviderSucceeded || (s.ops[id].status == Pending && s.ops[id].createdAt < staleBefore)
  {
    if s.ops[id] in rows {
      var i :| 0 <= i < |rows| && rows[i] == s.ops[id];
      assert rows[i].id == id;
    }
  }

  /** The judgment of one stored row whose write works: a row with the proof is committed, a
      pending one from before the horizon fails as unavailable, and any other row is left. */
  lemma RowJudged(s: Store, seen: Operation, env: PassEnv)
    requires GoodStore(s) && seen.id in s.ops && s.ops[seen.id] == seen
    requires env.faults(seen.id).Works? && GrantIdUsable(s, env.grantIds(seen.id))
    ensures var t := PassRow(s, seen, env);
      if seen.status == ProviderSucceeded then PlanCommitted(s, t, seen)
      else if seen.status == Pending && seen.createdAt < env.horizon then
        && t.ops == s.ops[seen.id := seen.(status := Failed, errorClass := Some(ProviderUnavailable))]
        && t.grants == s.grants && t.audit == s.audit
      else t == s
  {
    if seen.status.ProviderSucceeded? { ProvenPlanCommits(s, seen, env.grantIds(seen.id), env.at); }
  }

  /** A pending row that is not past the horizon is never touched, whatever else a pass finds:
      the caller that claimed it may still be at work. */
  lemma {:induction false} YoungRowsLeft(s: Store, rows: seq<Operation>, env: PassEnv, id: string)
    requires GoodStore(s) && id in s.ops && s.ops[id].status.Pending? && s.ops[id].createdAt >= env.horizon
    requires forall i :: 0 <= i < |rows| && rows[i].id == id ==> rows[i].createdAt == s.ops[id].createdAt
    ensures id in Pass(s, rows, env).ops && Pass(s, rows, env).ops[id] == s.ops[id]
    decreases |rows|
  {
    if rows != [] {
      YoungRowLeft(s, rows[0], env, id);
      RowKeepsGood(s, rows[0], env);
      YoungRowsLeft(PassRow(s, rows[0], env), rows[1..], env, id);
    }
  }

  lemma YoungRowLeft(s: Store, seen: Operation, env: PassEnv, id: string)
    requires GoodStore(s) && id in s.ops && s.ops[id].status.Pending? && s.ops[id].createdAt >= env.horizon
    requires seen.id == id ==> seen.createdAt == s.ops[id].createdAt
    ensures id in PassRow(s, seen, env).ops && PassRow(s, seen, env).ops[id] == s.ops[id]
  {
    if seen.status.ProviderSucceeded? {
      PendingStays(s, seen, env.grantIds(seen.id), env.at, id);
    } else if seen.id != id {
      OtherStays(s, seen.id, id);
    }
  }

  /** The forward repair needs the proof in the stored row, whatever the listed row says. */
  lemma PendingStays(s: Store, seen: Operation, gid: string, at: int, id: string)
    requires Indexed(s) && id in s.ops && s.ops[id].status.Pending?
    ensures id in RepairForward(s, seen, gid, at).0.ops && RepairForward(s, seen, gid, at).0.ops[id] == s.ops[id]
  {
    match seen.kind
    case Allow =>
    case AccessDenied =>
    case _ =>
  }

  lemma OtherStays(s: Store, failed: string, id: string)
    requires Indexed(s) && id in s.ops && failed != id
    ensures id in Fail(s, failed, ProviderUnavailable).0.ops
    ensures Fail(s, failed, ProviderUnavailable).0.ops[id] == s.ops[id]
  {
  }

  // ---- How many passes it takes ----

  ghost function InFlight(s: Store): set<string> {
    set id | id in s.ops && s.ops[id].status.InFlight()
  }

  lemma {:induction false} IdsCount(rows: seq<Operation>)
    requires DistinctIds(rows)
    ensures |Ids(rows)| == |rows|
  {
    if rows != [] {
      var front := rows[..|rows| - 1];
      IdsCount(front);
      assert Ids(rows) == Ids(front) + {rows[|rows| - 1].id};
      assert rows[|rows| - 1].id !in Ids(front);
    }
  }

  /** A pass that read the clock when every in-flight row was past the horizon: what it
      lists, and which rows it cannot write. */
  ghost predicate DuePass(s: Store, rows: seq<Operation>, env: PassEnv, listHorizon: int, batch: nat,
      poisoned: set<string>)
  {
    && IsInFlightList(s.ops, listHorizon, batch, rows) && listHorizon <= env.horizon
    && (forall id :: id in s.ops && s.ops[id].status.Pending? ==> s.ops[id].createdAt < listHorizon)
    && (forall id :: env.faults(id).FailsBefore? <==> id in poisoned)
    && FreshIds(s, rows, env)
  }

  lemma DueListsAll(s: Store, rows: seq<Operation>, env: PassEnv, listHorizon: int, batch: nat, poisoned: set<string>)
    requires DuePass(s, rows, env, listHorizon, batch, poisoned)
    requires forall id :: id in s.ops ==> s.ops[id].id == id
    ensures Waiting(s, rows, env) && FreshIds(s, rows, env)
    ensures Ids(rows) <= InFlight(s) && |Ids(rows)| == |rows| <= batch
    ensures |rows| < batch ==> InFlight(s) == Ids(rows)
    ensures Writable(rows, env) == Ids(rows) - poisoned
  {
    IdsCount(rows);
    forall id | id in InFlight(s) && |rows| < batch ensures id in Ids(rows) {
      assert NeedsAttention(s.ops[id], listHorizon);
      assert s.ops[id] in rows;
    }
  }

  /** One pass: exactly the listed rows that can be written leave the in-flight set, the
      proven ones succeeded and the others failed. */
  lemma OnePass(s: Store, rows: seq<Operation>, env: PassEnv, listHorizon: int, batch: nat, poisoned: set<string>)
    requires GoodStore(s) && DuePass(s, rows, env, listHorizon, batch, poisoned)
    ensures Handled(s.ops, Pass(s, rows, env).ops, Ids(rows) - poisoned)
    ensures InFlight(Pass(s, rows, env)) == InFlight(s) - (Ids(rows) - poisoned)
  {
    DueListsAll(s, rows, env, listHorizon, batch, poisoned);
    PassSettles(s, rows, env);
    HandledInFlight(s, Pass(s, rows, env), Ids(rows) - poisoned);
  }

  lemma HandledInFlight(s: Store, t: Store, done: set<string>)
    requires Handled(s.ops, t.ops, done)
    ensures InFlight(t) == InFlight(s) - done
  {
  }

  lemma Cardinality(all: set<string>, part: set<string>)
    requires part <= all
    ensures |all - part| == |all| - |part| && |part| <= |all|
  {
    assert all == (all - part) + part;
  }

  /** Without unwritable rows the in-flight count drops by exactly min(batch, count). */
  lemma PassDrains(s: Store, rows: seq<Operation>, env: PassEnv, listHorizon: int, batch: nat)
    requires GoodStore(s) && DuePass(s, rows, env, listHorizon, batch, {})
    ensures |InFlight(Pass(s, rows, env))|
            == if |InFlight(s)| <= batch then 0 else |InFlight(s)| - batch
  {
    OnePass(s, rows, env, listHorizon, batch, {});
    DueListsAll(s, rows, env, listHorizon, batch, {});
    Drain(InFlight(s), Ids(rows), batch);
  }

  lemma Drain(inFlight: set<string>, listed: set<string>, batch: nat)
    requires listed <= inFlight && |listed| <= batch && (|listed| < batch ==> listed == inFlight)
    ensures |inFlight - (listed - {})| == if |inFlight| <= batch then 0 else |inFlight| - batch
  {
    assert listed - {} == listed;
    Cardinality(inFlight, listed);
  }

  /** With unwritable rows, the in-flight rows that can be written drop by at least
      min(batch - unwritable, count). */
  lemma PassProgresses(s: Store, rows: seq<Operation>, env: PassEnv, listHorizon: int, batch: nat,
      poisoned: set<string>)
    requires GoodStore(s) && DuePass(s, rows, env, listHorizon, batch, poisoned) && |poisoned| <= batch
    ensures var before := InFlight(s) - poisoned;
      var after := InFlight(Pass(s, rows, env)) - poisoned;
      |after| <= if |before| <= batch - |poisoned| then 0 else |before| - (batch - |poisoned|)
  {
    OnePass(s, rows, env, listHorizon, batch, poisoned);
    DueListsAll(s, rows, env, listHorizon, batch, poisoned);
    Progress(InFlight(s), Ids(rows), poisoned, batch);
    assert InFlight(Pass(s, rows, env)) - poisoned == (InFlight(s) - (Ids(rows) - poisoned)) - poisoned;
  }

  lemma Progress(inFlight: set<string>, listed: set<string>, poisoned: set<string>, batch: nat)
    requires listed <= inFlight && |poisoned| <= batch && (|listed| < batch ==> listed == inFlight) && |listed| <= batch
    ensures var before := inFlight - poisoned;
      var after := (inFlight - (listed - poisoned)) - poisoned;
      |after| <= if |before| <= batch - |poisoned| then 0 else |before| - (batch - |poisoned|)
  {
    var before := inFlight - poisoned;
    var handled := listed - poisoned;
    assert (inFlight - (listed - poisoned)) - poisoned == before - handled && handled <= before;
    Cardinality(before, handled);
    if |listed| < batch {
      assert handled == before;
    } else {
      Cardinality(listed, listed * poisoned);
      assert listed - listed * poisoned == handled;
      Cardinality(poisoned, listed * poisoned);
    }
  }

  /** A pass as data, for whole sequences of passes. */
  datatype PassRun = PassRun(rows: seq<Operation>, env: PassEnv, listHorizon: int)

  function After(s: Store, passes: seq<PassRun>): Store
    decreases |passes|
  {
    if passes == [] then s else After(Pass(s, passes[0].rows, passes[0].env), passes[1..])
  }

  ghost predicate DuePasses(s: Store, passes: seq<PassRun>, batch: nat, poisoned: set<string>)
    decreases |passes|
  {
    passes == [] ||
    (&& DuePass(s, passes[0].rows, passes[0].env, passes[0].listHorizon, batch, poisoned)
     && DuePasses(Pass(s, passes[0].rows, passes[0].env), passes[1..], batch, poisoned))
  }

  /** Every writable in-flight row is settled according to its proof; nothing else moved
      except unwritable rows, which stay as they are. */
  ghost predicate AllSettled(before: map<string, Operation>, after: map<string, Operation>, poisoned: set<string>) {
    Handled(before, after, (set id | id in before && before[id].status.InFlight()) - poisoned)
  }

  /** How many rows that many passes can settle: passes times step. */
  function Capacity(passes: nat, step: nat): nat { if passes == 0 then 0 else step + Capacity(passes - 1, step) }

  lemma {:induction false} CapacityIsProduct(passes: nat, step: nat)
    ensures Capacity(passes, step) == passes * step
  {
    if passes > 0 {
      CapacityIsProduct(passes - 1, step);
      assert passes * step == step + (passes - 1) * step;
    }
  }

  lemma CapacityLeft(before: nat, after: nat, passes: nat, step: nat)
    requires before <= Capacity(passes, step) && passes > 0
    requires after <= if before <= step then 0 else before - step
    ensures after <= Capacity(passes - 1, step)
  {
  }

  /** What one pass achieves, and what each pass of a sequence does, without why. */
  ghost predicate Achieved(s: Store, mid: Store, rows: seq<Operation>, step: nat, poisoned: set<string>) {
    && Ids(rows) <= InFlight(s) && Handled(s.ops, mid.ops, Ids(rows) - poisoned)
    && |InFlight(mid) - poisoned| <= (if |InFlight(s) - poisoned| <= step then 0 else |InFlight(s) - poisoned| - step)
  }

  ghost predicate Achieves(s: Store, passes: seq<PassRun>, step: nat, poisoned: set<string>)
    decreases |passes|
  {
    passes == [] ||
    (&& Achieved(s, Pass(s, passes[0].rows, passes[0].env), passes[0].rows, step, poisoned)
     && Achieves(Pass(s, passes[0].rows, passes[0].env), passes[1..], step, poisoned))
  }

  lemma {:induction false} DuePassesAchieve(s: Store, passes: seq<PassRun>, batch: nat, poisoned: set<string>)
    requires GoodStore(s) && DuePasses(s, passes, batch, poisoned) && |poisoned| < batch
    ensures Achieves(s, passes, batch - |poisoned|, poisoned)
    decreases |passes|
  {
    if passes != [] {
      HeadPass(s, passes[0], batch, poisoned);
      DuePassesAchieve(Pass(s, passes[0].rows, passes[0].env), passes[1..], batch, poisoned);
    }
  }

  lemma {:induction false} AchievedSettles(s: Store, passes: seq<PassRun>, step: nat, poisoned: set<string>)
    requires Achieves(s, passes, step, poisoned) && |InFlight(s) - poisoned| <= Capacity(|passes|, step)
    ensures AllSettled(s.ops, After(s, passes).ops, poisoned)
    decreases |passes|
  {
    if passes == [] {
      NothingToSettle(s, poisoned);
    } else {
      var head, mid := passes[0], Pass(s, passes[0].rows, passes[0].env);
      assert |InFlight(mid) - poisoned| <= Capacity(|passes[1..]|, step) by {
        CapacityLeft(|InFlight(s) - poisoned|, |InFlight(mid) - poisoned|, |passes|, step);
      }
      AchievedSettles(mid, passes[1..], step, poisoned);
      SettledAfterHead(s, head, After(mid, passes[1..]).ops, poisoned);
    }
  }

  lemma EnoughSettles(s: Store, passes: seq<PassRun>, step: nat, poisoned: set<string>)
    requires Achieves(s, passes, step, poisoned)
    ensures |InFlight(s) - poisoned| <= Capacity(|passes|, step) ==> AllSettled(s.ops, After(s, passes).ops, poisoned)
  {
    if |InFlight(s) - poisoned| <= Capacity(|passes|, step) { AchievedSettles(s, passes, step, poisoned); }
  }

  /** Fewer unwritable rows than the batch size slow the reconciler down but never block
      it: after enough passes to cover the writable rows, batch - unwritable at a time
      (Capacity is the product), every one of them is settled according to its proof. */
  lemma PassesSettleEverything(s: Store, passes: seq<PassRun>, batch: nat, poisoned: set<string>)
    requires GoodStore(s) && DuePasses(s, passes, batch, poisoned) && |poisoned| < batch
    ensures |InFlight(s) - poisoned| <= Capacity(|passes|, batch - |poisoned|) ==>
      AllSettled(s.ops, After(s, passes).ops, poisoned)
  {
    DuePassesAchieve(s, passes, batch, poisoned);
    EnoughSettles(s, passes, batch - |poisoned|, poisoned);
  }

  lemma NothingToSettle(s: Store, poisoned: set<string>)
    requires |InFlight(s) - poisoned| == 0
    ensures AllSettled(s.ops, s.ops, poisoned)
  {
    assert InFlight(s) - poisoned == {};
  }

  lemma SettledAfterHead(s: Store, head: PassRun, after: map<string, Operation>, poisoned: set<string>)
    requires Handled(s.ops, Pass(s, head.rows, head.env).ops, Ids(head.rows) - poisoned)
    requires Ids(head.rows) <= InFlight(s)
    requires AllSettled(Pass(s, head.rows, head.env).ops, after, poisoned)
    ensures AllSettled(s.ops, after, poisoned)
  {
    SettledInTwo(s.ops, Pass(s, head.rows, head.env).ops, after, Ids(head.rows) - poisoned, poisoned);
  }

  lemma HeadPass(s: Store, head: PassRun, batch: nat, poisoned: set<string>)
    requires GoodStore(s) && DuePass(s, head.rows, head.env, head.listHorizon, batch, poisoned) && |poisoned| < batch
    ensures var mid := Pass(s, head.rows, head.env);
      var before := InFlight(s) - poisoned;
      && GoodStore(mid) && Handled(s.ops, mid.ops, Ids(head.rows) - poisoned)
      && |InFlight(mid) - poisoned| <= (if |before| <= batch - |poisoned| then 0 else |before| - (batch - |poisoned|))
      && Ids(head.rows) <= InFlight(s)
  {
    OnePass(s, head.rows, head.env, head.listHorizon, batch, poisoned);
    PassProgresses(s, head.rows, head.env, head.listHorizon, batch, poisoned);
    DueListsAll(s, head.rows, head.env, head.listHorizon, batch, poisoned);
    PassKeepsGood(s, head.rows, head.env);
  }

  lemma SettledInTwo(before: map<string, Operation>, mid: map<string, Operation>, after: map<string, Operation>,
      done: set<string>, poisoned: set<string>)
    requires Handled(before, mid, done) && AllSettled(mid, after, poisoned)
    requires done !! poisoned && forall id :: id in done ==> id in before && before[id].status.InFlight()
    ensures AllSettled(before, after, poisoned)
  {
  }

  /** The bound on unwritable rows is exact: a full batch of them, all older than every
      other in-flight row, is all that any pass ever lists, and nothing changes again. */
  lemma {:induction false} OldPoisonStarves(s: Store, passes: seq<PassRun>, batch: nat, poisoned: set<string>)
    requires Indexed(s) && DuePasses(s, passes, batch, poisoned)
    requires poisoned <= InFlight(s) && |poisoned| >= batch
    requires forall p, id :: p in poisoned && id in InFlight(s) - poisoned ==> s.ops[p].createdAt < s.ops[id].createdAt
    ensures After(s, passes) == s
    decreases |passes|
  {
    if passes != [] {
      var head := passes[0];
      StarvedPass(s, head.rows, head.env, head.listHorizon, batch, poisoned);
      OldPoisonStarves(s, passes[1..], batch, poisoned);
    }
  }

  lemma StarvedPass(s: Store, rows: seq<Operation>, env: PassEnv, listHorizon: int, batch: nat, poisoned: set<string>)
    requires Indexed(s) && DuePass(s, rows, env, listHorizon, batch, poisoned)
    requires poisoned <= InFlight(s) && |poisoned| >= batch
    requires forall p, id :: p in poisoned && id in InFlight(s) - poisoned ==> s.ops[p].createdAt < s.ops[id].createdAt
    ensures Pass(s, rows, env) == s
  {
    DueListsAll(s, rows, env, listHorizon, batch, poisoned);
    forall i | 0 <= i < |rows| ensures rows[i].id in poisoned {
      StarvedRow(s, rows, listHorizon, batch, poisoned, i);
    }
    NothingWritten(s, rows, env);
  }

  /** A full batch of older rows that need attention leaves no place for any other row. */
  lemma StarvedRow(s: Store, rows: seq<Operation>, listHorizon: int, batch: nat, poisoned: set<string>, i: nat)
    requires Indexed(s) && IsInFlightList(s.ops, listHorizon, batch, rows) && i < |rows| <= batch <= |poisoned|
    requires DistinctIds(rows) && rows[i].id in InFlight(s) && poisoned <= InFlight(s)
    requires forall id :: id in s.ops && s.ops[id].status.Pending? ==> s.ops[id].createdAt < listHorizon
    requires forall p :: p in poisoned && rows[i].id !in poisoned ==> s.ops[p].createdAt < s.ops[rows[i].id].createdAt
    ensures rows[i].id in poisoned
  {
    if rows[i].id !in poisoned {
      var missing := Unlisted(rows, poisoned, i);
      assert NeedsAttention(s.ops[missing], listHorizon);
    }
  }

  /** Some unwritable row is not listed when a writable one is. */
  lemma Unlisted(rows: seq<Operation>, poisoned: set<string>, i: nat) returns (missing: string)
    requires DistinctIds(rows) && i < |rows| <= |poisoned| && rows[i].id !in poisoned
    ensures missing in poisoned && forall j :: 0 <= j < |rows| ==> rows[j].id != missing
  {
    IdsCount(rows);
    var others := Ids(rows) - {rows[i].id};
    Cardinality(Ids(rows), {rows[i].id});
    if poisoned <= others {
      Cardinality(others, poisoned);
    }
    missing :| missing in poisoned && missing !in others;
  }

  lemma {:induction false} NothingWritten(s: Store, rows: seq<Operation>, env: PassEnv)
    requires forall i :: 0 <= i < |rows| ==> env.faults(rows[i].id).FailsBefore?
    ensures Pass(s, rows, env) == s
    decreases |rows|
  {
    if rows != [] { NothingWritten(s, rows[1..], env); }
  }
}
