/** The pause gate of one upstream: a versioned flag, and any number of requests that wait on it. */
module PauseGate {
  /**
   * A request at the gate. `arrived` is the version of the flag when it subscribed; `noted` is the version its
   * receiver has marked as seen, which reading the flag does not change; `passed` is the version it left at.
   */
  datatype Waiter =
    | Checking(arrived: nat, noted: nat)
    | Parked(arrived: nat, noted: nat)
    | Through(arrived: nat, passed: nat)

  /** `values[v]` is the flag at version `v`; the last one is the present value. */
  datatype State = State(values: seq<bool>, waiters: map<nat, Waiter>)

  datatype Step = Subscribe(id: nat) | Check(id: nat) | Wake(id: nat) | SetPause(paused: bool)

  function Version(s: State): nat
    requires s.values != []
  {
    |s.values| - 1
  }

  function Paused(s: State): bool
    requires s.values != []
  {
    s.values[|s.values| - 1]
  }

  const START := State([false], map[])

  /** `send_replace` makes a new version even when the value stays the same. */
  function Apply(s: State, step: Step): (r: State)
    requires s.values != []
    ensures r.values != []
  {
    match step
    case Subscribe(id) =>
      if id in s.waiters then s else s.(waiters := s.waiters[id := Checking(Version(s), Version(s))])
    case Check(id) =>
      if id in s.waiters && s.waiters[id].Checking? then
        var w := s.waiters[id];
        s.(waiters := s.waiters[id := if Paused(s) then Parked(w.arrived, w.noted) else Through(w.arrived, Version(s))])
      else s
    case Wake(id) =>
      if id in s.waiters && s.waiters[id].Parked? && s.waiters[id].noted != Version(s) then
        s.(waiters := s.waiters[id := Checking(s.waiters[id].arrived, Version(s))])
      else s
    case SetPause(paused) => s.(values := s.values + [paused])
  }

  function Exec(s: State, steps: seq<Step>): (r: State)
    requires s.values != []
    ensures r.values != []
    decreases |steps|
  {
    if steps == [] then s else Exec(Apply(s, steps[0]), steps[1..])
  }

  ghost predicate WaiterSound(s: State, w: Waiter)
    requires s.values != []
  {
    match w
    case Checking(arrived, noted) => arrived <= noted <= Version(s)
    case Parked(arrived, noted) => arrived <= noted <= Version(s) && (noted == Version(s) ==> Paused(s))
    case Through(arrived, passed) => arrived <= passed <= Version(s) && !s.values[passed]
  }

  ghost predicate Sound(s: State) {
    && s.values != []
    && forall id :: id in s.waiters ==> WaiterSound(s, s.waiters[id])
  }

  lemma StepIsSound(s: State, step: Step)
    requires Sound(s)
    ensures Sound(Apply(s, step))
  {
    var s' := Apply(s, step);
    forall id | id in s'.waiters ensures WaiterSound(s', s'.waiters[id]) {
      if id in s.waiters { assert WaiterSound(s, s.waiters[id]); }
    }
  }

  lemma {:induction false} RunIsSound(s: State, steps: seq<Step>)
    requires Sound(s)
    ensures Sound(Exec(s, steps))
    decreases |steps|
  {
    if steps != [] {
      StepIsSound(s, steps[0]);
      RunIsSound(Apply(s, steps[0]), steps[1..]);
    }
  }

  /** In any run, a request that left the gate saw the flag down at a version no older than its arrival. */
  lemma LeavesOnlyUnpaused(steps: seq<Step>, id: nat)
    requires id in Exec(START, steps).waiters && Exec(START, steps).waiters[id].Through?
    ensures var s := Exec(START, steps);
            var w := s.waiters[id];
            w.arrived <= w.passed < |s.values| && !s.values[w.passed]
  {
    RunIsSound(START, steps);
    assert WaiterSound(Exec(START, steps), Exec(START, steps).waiters[id]);
  }

  /** No resume is missed: a parked request that cannot wake is parked under a flag that is up. */
  lemma StuckOnlyWhilePaused(steps: seq<Step>, id: nat)
    requires id in Exec(START, steps).waiters && Exec(START, steps).waiters[id].Parked?
    requires Apply(Exec(START, steps), Wake(id)) == Exec(START, steps)
    ensures Paused(Exec(START, steps))
  {
    var s := Exec(START, steps);
    RunIsSound(START, steps);
    assert WaiterSound(s, s.waiters[id]);
    if s.waiters[id].noted != Version(s) {
      WakeMoves(s, id);
    }
  }

  lemma WakeMoves(s: State, id: nat)
    requires s.values != [] && id in s.waiters && s.waiters[id].Parked? && s.waiters[id].noted != Version(s)
    ensures Apply(s, Wake(id)) != s
  {
    assert Apply(s, Wake(id)).waiters[id].Checking?;
  }

  predicate NoPause(steps: seq<Step>) {
    forall i :: 0 <= i < |steps| ==> !(steps[i].SetPause? && steps[i].paused)
  }

  function Distance(w: Waiter): nat {
    match w
    case Parked(_, _) => 2
    case Checking(_, _) => 1
    case Through(_, _) => 0
  }

  /** The request's own next step. */
  function Next(id: nat, w: Waiter): Step {
    if w.Parked? then Wake(id) else Check(id)
  }

  /** How many steps of a run were this request's own next step. */
  function OwnSteps(s: State, steps: seq<Step>, id: nat): nat
    requires s.values != []
    decreases |steps|
  {
    if steps == [] || id !in s.waiters then 0
    else (if steps[0] == Next(id, s.waiters[id]) then 1 else 0) + OwnSteps(Apply(s, steps[0]), steps[1..], id)
  }

  /** Once the flag is down and nobody pauses again, every request at the gate is through after two own steps. */
  lemma {:induction false} UnpausedRunsLetThrough(s: State, steps: seq<Step>, id: nat)
    requires Sound(s) && !Paused(s) && NoPause(steps) && id in s.waiters
    requires OwnSteps(s, steps, id) >= Distance(s.waiters[id])
    ensures id in Exec(s, steps).waiters && Exec(s, steps).waiters[id].Through?
    decreases |steps|
  {
    if steps == [] {
    } else {
      var s' := Apply(s, steps[0]);
      StepIsSound(s, steps[0]);
      assert WaiterSound(s, s.waiters[id]);
      UnpausedStepAdvances(s, steps[0], id);
      UnpausedRunsLetThrough(s', steps[1..], id);
    }
  }

  lemma UnpausedStepAdvances(s: State, step: Step, id: nat)
    requires Sound(s) && !Paused(s) && id in s.waiters && !(step.SetPause? && step.paused)
    ensures var s' := Apply(s, step);
            && !Paused(s') && id in s'.waiters
            && Distance(s'.waiters[id]) <= Distance(s.waiters[id])
            && (step == Next(id, s.waiters[id]) && !s.waiters[id].Through? ==>
                  Distance(s'.waiters[id]) < Distance(s.waiters[id]))
  {
    assert WaiterSound(s, s.waiters[id]);
  }

  /**
   * The reset at the start of a drain: in any run, after it every request at the gate can go on, and unless a
   * pause comes after it, each is through after two steps of its own.
   */
  lemma DrainUnblocksEveryone(before: seq<Step>, after: seq<Step>, id: nat)
    requires var s := Apply(Exec(START, before), SetPause(false));
             && NoPause(after) && id in s.waiters && OwnSteps(s, after, id) >= 2
    ensures var s := Apply(Exec(START, before), SetPause(false));
            && (!s.waiters[id].Through? ==> Apply(s, Next(id, s.waiters[id])) != s)
            && id in Exec(s, after).waiters && Exec(s, after).waiters[id].Through?
  {
    var s := Apply(Exec(START, before), SetPause(false));
    RunIsSound(START, before);
    StepIsSound(Exec(START, before), SetPause(false));
    assert Distance(s.waiters[id]) <= 2;
    if !s.waiters[id].Through? {
      UnpausedStepAdvances(s, Next(id, s.waiters[id]), id);
    }
    UnpausedRunsLetThrough(s, after, id);
  }

  /** A pause that comes after the reset holds a request again, so the absence of one is needed. */
  lemma LatePauseHoldsAgain(id: nat)
    ensures var s := Exec(START, [SetPause(false), SetPause(true), Subscribe(id), Check(id)]);
            && id in s.waiters && s.waiters[id].Parked? && Apply(s, Wake(id)) == s
  {
    var steps := [SetPause(false), SetPause(true), Subscribe(id), Check(id)];
    assert steps[1..] == [SetPause(true), Subscribe(id), Check(id)];
    assert steps[1..][1..] == [Subscribe(id), Check(id)];
    assert steps[1..][1..][1..] == [Check(id)];
    var s2 := Apply(Apply(START, SetPause(false)), SetPause(true));
    assert Exec(START, steps) == Exec(s2, [Subscribe(id), Check(id)]);
    assert Exec(s2, [Subscribe(id), Check(id)]) == Exec(Apply(s2, Subscribe(id)), [Check(id)]);
  }

  /** Under a raised flag nobody gets through. */
  lemma {:induction false} RaisedFlagHolds(s: State, steps: seq<Step>, id: nat)
    requires s.values != [] && Paused(s) && id in s.waiters && !s.waiters[id].Through?
    requires forall i :: 0 <= i < |steps| ==> !steps[i].SetPause?
    ensures id in Exec(s, steps).waiters && !Exec(s, steps).waiters[id].Through?
    decreases |steps|
  {
    if steps != [] { RaisedFlagHolds(Apply(s, steps[0]), steps[1..], id); }
  }

  lemma {:induction false} ThroughStays(s: State, steps: seq<Step>, id: nat)
    requires s.values != [] && id in s.waiters && s.waiters[id].Through?
    ensures id in Exec(s, steps).waiters && Exec(s, steps).waiters[id].Through?
    decreases |steps|
  {
    if steps != [] { ThroughStays(Apply(s, steps[0]), steps[1..], id); }
  }

  /**
   * The exact condition: after any run, a request that gets two steps of its own while the flag stays as it is ends up
   * through the gate if and only if it was through already or the flag is down.
   */
  lemma GetsThroughIff(before: seq<Step>, after: seq<Step>, id: nat)
    requires id in Exec(START, before).waiters && OwnSteps(Exec(START, before), after, id) >= 2
    requires forall i :: 0 <= i < |after| ==> !after[i].SetPause?
    ensures var s := Exec(START, before);
            id in Exec(s, after).waiters &&
            (Exec(s, after).waiters[id].Through? <==> s.waiters[id].Through? || !Paused(s))
  {
    var s := Exec(START, before);
    RunIsSound(START, before);
    if s.waiters[id].Through? {
      ThroughStays(s, after, id);
    } else if Paused(s) {
      RaisedFlagHolds(s, after, id);
    } else {
      assert Distance(s.waiters[id]) <= 2;
      UnpausedRunsLetThrough(s, after, id);
    }
  }
}
