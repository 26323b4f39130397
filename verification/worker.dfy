/** The restartable cleanup loop (backend/internal/dreamupadmin/protected_reason_cleanup.go)
    under any number of concurrent Start and Stop callers and parent cancellations. A
    generation is one loop with its own context and done channel; every critical section of
    the mutex, every channel operation and every sweep boundary is one step. */
module CleanupWorker {
  import opened Outcomes

  datatype LoopState = Sweeping | Selecting

  /** Where a caller of Stop stands: it saw a generation, cancelled it and waits for it, was
      woken by it, or returned (with the generation it saw, if any). */
  datatype Stopper = Saw(gen: nat) | Awaiting(gen: nat) | Woken(gen: nat) | Returned(seen: Option<nat>)

  /** field is the pair cancel and done: both are set together, to one generation. */
  datatype System = System(
    field: Option<nat>, next: nat, live: map<nat, LoopState>, cancelled: set<nat>, closed: set<nat>,
    stoppers: map<nat, Stopper>)

  const INIT := System(None, 0, map[], {}, {}, map[])

  datatype Action =
    | Start
    | CancelParent(gen: nat)
    | StopRead(t: nat)
    | StopCancel(t: nat)
    | StopWake(t: nat)
    | StopClear(t: nat)
    | Tick(gen: nat)
    | SweepDone(gen: nat)
    | LoopExit(gen: nat)

  function ClearIf(sys: System, gen: nat): Option<nat> { if sys.field == Some(gen) then None else sys.field }

  function Apply(sys: System, a: Action): System {
    match a
    case Start =>
      if sys.field.Some? then sys
      else sys.(field := Some(sys.next), live := sys.live[sys.next := Sweeping], next := sys.next + 1)
    case CancelParent(gen) => sys.(cancelled := sys.cancelled + {gen})
    case StopRead(t) =>
      if t in sys.stoppers then sys
      else sys.(stoppers := sys.stoppers[t := if sys.field.None? then Returned(None) else Saw(sys.field.value)])
    case StopCancel(t) =>
      if t in sys.stoppers && sys.stoppers[t].Saw? then
        sys.(cancelled := sys.cancelled + {sys.stoppers[t].gen},
          stoppers := sys.stoppers[t := Awaiting(sys.stoppers[t].gen)])
      else sys
    case StopWake(t) =>
      if t in sys.stoppers && sys.stoppers[t].Awaiting? && sys.stoppers[t].gen in sys.closed then
        sys.(stoppers := sys.stoppers[t := Woken(sys.stoppers[t].gen)])
      else sys
    case StopClear(t) =>
      if t in sys.stoppers && sys.stoppers[t].Woken? then
        sys.(field := ClearIf(sys, sys.stoppers[t].gen),
          stoppers := sys.stoppers[t := Returned(Some(sys.stoppers[t].gen))])
      else sys
    case Tick(gen) =>
      if gen in sys.live && sys.live[gen].Selecting? then sys.(live := sys.live[gen := Sweeping]) else sys
    case SweepDone(gen) =>
      if gen in sys.live && sys.live[gen].Sweeping? then sys.(live := sys.live[gen := Selecting]) else sys
    case LoopExit(gen) =>
      if gen in sys.live && sys.live[gen].Selecting? && gen in sys.cancelled then
        sys.(live := sys.live - {gen}, closed := sys.closed + {gen}, field := ClearIf(sys, gen))
      else sys
  }

  function Run(sys: System, actions: seq<Action>): System
    decreases |actions|
  {
    if actions == [] then sys else Run(Apply(sys, actions[0]), actions[1..])
  }

  ghost predicate Inv(sys: System) {
    && (forall g: nat :: g in sys.live <==> sys.field == Some(g))
    && (forall g: nat :: g in sys.live ==> g < sys.next && g !in sys.closed)
    && (forall g: nat :: g < sys.next && g !in sys.live ==> g in sys.closed)
    && (forall g: nat :: g in sys.closed ==> g < sys.next && g in sys.cancelled)
    && (forall t :: t in sys.stoppers ==>
          match sys.stoppers[t]
          case Saw(g) => g < sys.next
          case Awaiting(g) => g < sys.next && g in sys.cancelled
          case Woken(g) => g in sys.closed
          case Returned(g) => g.Some? ==> g.value in sys.closed)
  }

  lemma StepKeeps(sys: System, a: Action)
    requires Inv(sys)
    ensures Inv(Apply(sys, a))
  {
  }

  lemma {:induction false} RunKeeps(sys: System, actions: seq<Action>)
    requires Inv(sys)
    ensures Inv(Run(sys, actions))
    decreases |actions|
  {
    if actions != [] {
      StepKeeps(sys, actions[0]);
      RunKeeps(Apply(sys, actions[0]), actions[1..]);
    }
  }

  /** In every interleaving at most one loop is live, and the fields are set exactly while
      one is, to that one. */
  lemma OneLoop(actions: seq<Action>, g: nat, h: nat)
    ensures var sys := Run(INIT, actions);
      && (g in sys.live && h in sys.live ==> g == h)
      && (sys.field == Some(g) <==> g in sys.live)
  {
    RunKeeps(INIT, actions);
  }

  /** Stop returns only after the loop it saw has exited, and so after its last sweep. */
  lemma StopWaits(actions: seq<Action>, t: nat)
    ensures var sys := Run(INIT, actions);
      t in sys.stoppers && sys.stoppers[t].Returned? && sys.stoppers[t].seen.Some? ==>
        sys.stoppers[t].seen.value !in sys.live && sys.stoppers[t].seen.value in sys.closed
  {
    RunKeeps(INIT, actions);
  }

  /** The final clearing of a Stop never changes the fields: by then its own generation is
      gone from them, and a newer one is never touched. */
  lemma LateStopClearsNothing(actions: seq<Action>, t: nat)
    ensures var sys := Run(INIT, actions);
      && Apply(sys, StopClear(t)).field == sys.field
      && Apply(sys, StopClear(t)).live == sys.live
  {
    RunKeeps(INIT, actions);
  }

  /** A waiting Stop is never stuck: once the current sweep is over, leaving the loop is
      enabled and wakes it. */
  lemma WaitingStopIsWoken(actions: seq<Action>, t: nat)
    ensures var sys := Run(INIT, actions);
      t in sys.stoppers && sys.stoppers[t].Awaiting? ==>
        var g := sys.stoppers[t].gen;
        var later := Apply(Apply(Apply(sys, SweepDone(g)), LoopExit(g)), StopWake(t));
        later.stoppers[t] == Woken(g) && later.field != Some(g)
  {
    RunKeeps(INIT, actions);
  }

  /** A stopped, or naturally cancelled, worker can be started again: its new generation is
      new, and the old one stays closed. */
  lemma RestartIsNew(actions: seq<Action>)
    ensures var sys := Run(INIT, actions);
      sys.field.None? ==>
        var again := Apply(sys, Start);
        && again.field == Some(sys.next) && sys.next in again.live && sys.next !in sys.closed
        && again.closed == sys.closed && again.live[sys.next] == Sweeping
  {
    RunKeeps(INIT, actions);
  }

  lemma {:induction false} GenerationsGrow(sys: System, actions: seq<Action>)
    ensures sys.next <= Run(sys, actions).next
    decreases |actions|
  {
    if actions != [] { GenerationsGrow(Apply(sys, actions[0]), actions[1..]); }
  }

  /** Only a cancellation ends a loop, by a Stop or by its parent: whatever else happens, a
      loop that nobody cancelled is still live. And no step ends a loop in the middle of a
      sweep. */
  lemma OnlyCancelledLoopsEnd(before: seq<Action>, after: seq<Action>, a: Action, g: nat)
    ensures var sys, t := Run(INIT, before), Run(Run(INIT, before), after);
      && (g in sys.live && g !in t.cancelled ==> g in t.live)
      && (g in sys.live && sys.live[g] == Sweeping ==> g in Apply(sys, a).live)
  {
    RunKeeps(INIT, before);
    RunKeeps(Run(INIT, before), after);
    GenerationsGrow(Run(INIT, before), after);
  }

  /** The steps of one caller of Stop. */
  predicate StepOf(a: Action, t: nat) { a in {StopRead(t), StopCancel(t), StopWake(t), StopClear(t)} }

  lemma {:induction false} StandsStill(sys: System, actions: seq<Action>, t: nat)
    requires t in sys.stoppers && forall i :: 0 <= i < |actions| ==> !StepOf(actions[i], t)
    ensures t in Run(sys, actions).stoppers && Run(sys, actions).stoppers[t] == sys.stoppers[t]
    decreases |actions|
  {
    if actions != [] { StandsStill(Apply(sys, actions[0]), actions[1..], t); }
  }

  lemma {:induction false} RunAppend(sys: System, first: seq<Action>, second: seq<Action>)
    ensures Run(sys, first + second) == Run(Run(sys, first), second)
    decreases |first|
  {
    if first == [] {
      assert first + second == second;
    } else {
      assert (first + second)[1..] == first[1..] + second;
      RunAppend(Apply(sys, first[0]), first[1..], second);
    }
  }

  lemma RunOneMore(sys: System, actions: seq<Action>, a: Action)
    ensures Run(sys, actions + [a]) == Apply(Run(sys, actions), a)
  {
    RunAppend(sys, actions, [a]);
    assert [a][1..] == [];
    assert Run(Apply(Run(sys, actions), a), []) == Apply(Run(sys, actions), a);
  }

  // ---- The worker's own fields ----

  /** ProtectedReasonCleanupWorker: what its mutex guards. */
  class Worker {
    var cancel: Option<nat>
    var done: Option<nat>
    var next: nat

    ghost predicate Describes(sys: System)
      reads this
    {
      cancel == sys.field && done == sys.field && next == sys.next
    }

    constructor ()
      ensures Describes(INIT)
    {
      cancel, done, next := None, None, 0;
    }

    /** Start; the result is the generation whose loop was launched, if any. */
    method StartLoop(ghost sys: System) returns (launched: Option<nat>)
      requires Describes(sys)
      modifies this
      ensures Describes(Apply(sys, Start))
      ensures launched == if sys.field.None? then Some(sys.next) else None
    {
      if cancel.Some? { return None; }
      launched := Some(next);
      cancel, done, next := launched, launched, next + 1;
    }

    /** What the mutex guards, after others have acted. */
    method Overtake(sys: System)
      modifies this
      ensures Describes(sys)
    {
      cancel, done, next := sys.field, sys.field, sys.next;
    }

    /** Stop, with what everybody else does until the generation it saw has closed: the call
        is one stopper's part of a run, and it returns with that generation closed. */
    method Stop(t: nat, sys: System, during: seq<Action>) returns (last: System, ghost trace: seq<Action>)
      requires Describes(sys) && t !in sys.stoppers
      requires forall i :: 0 <= i < |during| ==> !StepOf(during[i], t)
      requires sys.field.Some? ==>
        sys.field.value in Run(Apply(Apply(sys, StopRead(t)), StopCancel(t)), during).closed
      modifies this
      ensures Describes(last) && last == Run(sys, trace)
      ensures t in last.stoppers && last.stoppers[t] == Returned(sys.field)
      ensures sys.field.Some? ==> sys.field.value in last.closed && last.field != sys.field
      ensures sys.field.None? ==> last.field == None && last.live == sys.live
    {
      last, trace := Apply(sys, StopRead(t)), [StopRead(t)];
      RunOneMore(sys, [], StopRead(t));
      assert [] + [StopRead(t)] == [StopRead(t)];
      var seen := ReadFields(sys);
      if seen.None? { return; }
      RunOneMore(sys, trace, StopCancel(t));
      last, trace := Apply(last, StopCancel(t)), trace + [StopCancel(t)];
      StandsStill(last, during, t);
      RunAppend(sys, trace, during);
      last, trace := Run(last, during), trace + during;
      Overtake(last);
      RunOneMore(sys, trace, StopWake(t));
      last, trace := Apply(last, StopWake(t)), trace + [StopWake(t)];
      ClearGeneration(seen.value, last);
      RunOneMore(sys, trace, StopClear(t));
      last, trace := Apply(last, StopClear(t)), trace + [StopClear(t)];
    }

    /** The first critical section of Stop. */
    method ReadFields(ghost sys: System) returns (seen: Option<nat>)
      requires Describes(sys)
      ensures seen == sys.field
    {
      seen := cancel;
    }

    /** The second critical section of Stop, and the deferred function of run: clear the
        fields if they still belong to the generation. */
    method ClearGeneration(gen: nat, ghost sys: System)
      requires Describes(sys)
      modifies this
      ensures Describes(sys.(field := ClearIf(sys, gen)))
    {
      if done == Some(gen) { cancel, done := None, None; }
    }
  }
}
