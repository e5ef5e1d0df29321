/**
 * Shutdown of a cluster: accept loops, the connection tasks they track, and the handle that joins the loops, fences
 * the storage and joins the rest, as interleaved atomic steps. Requests run inside their connection's task.
 */
module Shutdown {
  import opened Wrappers
  import opened Collections

  datatype Task = Handshaking | Serving | Draining | Ended

  /** `Waiting` is the drain within its budget; `Killed` is a loop that panicked or was aborted from outside. */
  datatype Loop = Accepting | Waiting | Aborting | Exited | Killed

  datatype Listener = Listener(loop: Loop, drain: bool, abort: bool, tasks: map<nat, Task>)

  datatype JoinOutcome = Joined | Panicked | TimedOut

  datatype Handle = Running | Joining(next: nat) | Flushing | JoiningCommand | JoiningControl | Returned

  datatype Fault = ListenerFault(listener: nat, outcome: JoinOutcome) | FlushFault | CommandFault | ControlFault

  /** `appends` counts the durable appends so far, `fenced` how many there were when the storage was flushed. */
  datatype State = State(
    listeners: seq<Listener>, handle: Handle, faults: seq<Fault>, appends: nat, fenced: Option<nat>)

  datatype Step =
    | Signal
    | Accept(l: nat, t: nat, tls: bool)
    | StopAccepting(l: nat)
    | SpendBudget(l: nat)
    | ExitLoop(l: nat)
    | PanicLoop(l: nat)
    | HandshakeDone(l: nat, t: nat)
    | HandshakeFails(l: nat, t: nat)
    | SeeDrain(l: nat, t: nat)
    | SeeAbort(l: nat, t: nat)
    | ConnectionEnds(l: nat, t: nat)
    | Append(l: nat, t: nat)
    | JoinNext(outcome: JoinOutcome)
    | Flush(ok: bool)
    | JoinCommand(outcome: JoinOutcome)
    | JoinControl(outcome: JoinOutcome)

  ghost predicate AllEnded(x: Listener) {
    forall t :: t in x.tasks ==> x.tasks[t].Ended?
  }

  /** What a step of the loop or of one of its tasks does to its listener; an inapplicable step changes nothing. */
  ghost function Moved(x: Listener, step: Step): Listener {
    match step
    case Accept(_, t, tls) =>
      if x.loop.Accepting? && t !in x.tasks then x.(tasks := x.tasks[t := if tls then Handshaking else Serving]) else x
    case StopAccepting(_) =>
      // On the shutdown signal or on a fatal accept error: the socket is dropped and the drain begins.
      if x.loop.Accepting? then x.(loop := Waiting, drain := true) else x
    case SpendBudget(_) => if x.loop.Waiting? then x.(loop := Aborting, abort := true) else x
    case ExitLoop(_) => if (x.loop.Waiting? || x.loop.Aborting?) && AllEnded(x) then x.(loop := Exited) else x
    case PanicLoop(_) => if x.loop.Exited? then x else x.(loop := Killed)
    case HandshakeDone(_, t) =>
      if t in x.tasks && x.tasks[t].Handshaking? then x.(tasks := x.tasks[t := Serving]) else x
    case HandshakeFails(_, t) => if t in x.tasks && x.tasks[t].Handshaking? then x.(tasks := x.tasks[t := Ended]) else x
    case SeeDrain(_, t) =>
      if t in x.tasks && x.drain && x.tasks[t].Handshaking? then x.(tasks := x.tasks[t := Ended])
      else if t in x.tasks && x.drain && x.tasks[t].Serving? then x.(tasks := x.tasks[t := Draining])
      else x
    case SeeAbort(_, t) =>
      if t in x.tasks && x.abort && x.tasks[t].Draining? then x.(tasks := x.tasks[t := Ended]) else x
    case ConnectionEnds(_, t) =>
      if t in x.tasks && (x.tasks[t].Serving? || x.tasks[t].Draining?) then x.(tasks := x.tasks[t := Ended]) else x
    case _ => x
  }

  function Place(step: Step): Option<nat> {
    match step
    case Accept(l, _, _) => Some(l)
    case StopAccepting(l) => Some(l)
    case SpendBudget(l) => Some(l)
    case ExitLoop(l) => Some(l)
    case PanicLoop(l) => Some(l)
    case HandshakeDone(l, _) => Some(l)
    case HandshakeFails(l, _) => Some(l)
    case SeeDrain(l, _) => Some(l)
    case SeeAbort(l, _) => Some(l)
    case ConnectionEnds(l, _) => Some(l)
    case _ => None
  }

  /** The handle's own steps. */
  function HandleStep(s: State, step: Step): State {
    match step
    case Signal =>
      if s.handle.Running? then s.(handle := if |s.listeners| == 0 then Flushing else Joining(0)) else s
    case JoinNext(outcome) =>
      if s.handle.Joining? && s.handle.next < |s.listeners| then
        var n := s.handle.next;
        var loop := s.listeners[n].loop;
        var next := if n + 1 == |s.listeners| then Flushing else Joining(n + 1);
        match outcome
        case Joined => if loop.Exited? then s.(handle := next) else s
        case Panicked =>
          if loop.Killed? then s.(handle := next, faults := s.faults + [ListenerFault(n, Panicked)]) else s
        case TimedOut =>
          // The loop did not end within the outer limit: its task is told to abort, which takes effect at its next
          // await (a later PanicLoop), and leaves its connections running.
          if loop.Exited? || loop.Killed? then s
          else s.(handle := next, faults := s.faults + [ListenerFault(n, TimedOut)])
      else s
    case Flush(ok) =>
      if s.handle.Flushing?
      then s.(handle := JoiningCommand, fenced := Some(s.appends),
              faults := if ok then s.faults else s.faults + [FlushFault])
      else s
    case JoinCommand(outcome) =>
      if s.handle.JoiningCommand?
      then s.(handle := JoiningControl, faults := if outcome.Joined? then s.faults else s.faults + [CommandFault])
      else s
    case JoinControl(outcome) =>
      if s.handle.JoiningControl?
      then s.(handle := Returned, faults := if outcome.Joined? then s.faults else s.faults + [ControlFault]) else s
    case _ => s
  }

  predicate CanAppend(s: State, l: nat, t: nat) {
    l < |s.listeners| && t in s.listeners[l].tasks
    && (s.listeners[l].tasks[t].Serving? || s.listeners[l].tasks[t].Draining?)
  }

  ghost function Apply(s: State, step: Step): State {
    match Place(step)
    case Some(l) => if l < |s.listeners| then s.(listeners := s.listeners[l := Moved(s.listeners[l], step)]) else s
    case None =>
      if step.Append? then (if CanAppend(s, step.l, step.t) then s.(appends := s.appends + 1) else s)
      else HandleStep(s, step)
  }

  ghost function Exec(s: State, steps: seq<Step>): State
    decreases |steps|
  {
    if steps == [] then s else Exec(Apply(s, steps[0]), steps[1..])
  }

  function Init(n: nat): State {
    State(seq(n, i => Listener(Accepting, false, false, map[])), Running, [], 0, None)
  }

  ghost predicate ListenerSound(x: Listener) {
    && (x.loop.Waiting? || x.loop.Aborting? || x.loop.Exited? ==> x.drain)
    && (x.loop.Aborting? ==> x.abort)
    && (x.abort ==> x.drain)
    && (x.loop.Exited? ==> AllEnded(x))
  }

  /** How many listeners the handle has finished with. */
  function JoinedSoFar(s: State): nat {
    match s.handle
    case Running => 0
    case Joining(next) => next
    case _ => |s.listeners|
  }

  ghost predicate Sound(s: State) {
    && JoinedSoFar(s) <= |s.listeners|
    && (forall l :: 0 <= l < |s.listeners| ==> ListenerSound(s.listeners[l]))
    && (s.faults == [] ==> forall l :: 0 <= l < JoinedSoFar(s) ==> s.listeners[l].loop.Exited?)
    && (s.fenced.Some? <==> s.handle.JoiningCommand? || s.handle.JoiningControl? || s.handle.Returned?)
    && (s.faults == [] && s.fenced.Some? ==> s.appends == s.fenced.value)
  }

  lemma MovedIsSound(x: Listener, step: Step)
    requires ListenerSound(x)
    ensures ListenerSound(Moved(x, step))
    ensures x.loop.Exited? ==> Moved(x, step) == x
  {}

  lemma HandleIsSound(s: State, step: Step)
    requires Sound(s)
    ensures Sound(HandleStep(s, step))
  {}

  lemma NoAppendAfterCleanFence(s: State, l: nat, t: nat)
    requires Sound(s)
    ensures s.faults == [] && s.fenced.Some? ==> !CanAppend(s, l, t)
  {
    assert l < |s.listeners| ==> ListenerSound(s.listeners[l]);
  }

  lemma StepIsSound(s: State, step: Step)
    requires Sound(s)
    ensures Sound(Apply(s, step))
  {
    match Place(step)
    case Some(l) =>
      if l < |s.listeners| { MovedIsSound(s.listeners[l], step); }
    case None =>
      if step.Append? {
        NoAppendAfterCleanFence(s, step.l, step.t);
      } else {
        HandleIsSound(s, step);
      }
  }

  lemma {:induction false} RunIsSound(s: State, steps: seq<Step>)
    requires Sound(s)
    ensures Sound(Exec(s, steps))
    decreases |steps|
  {
    if steps != [] {
      StepIsSound(s, steps[0]);
      RunIsSound(Apply(s, steps[0]), steps[1..]);
    }
  }

  lemma {:induction false} ExecAppend(s: State, a: seq<Step>, b: seq<Step>)
    ensures Exec(s, a + b) == Exec(Exec(s, a), b)
    decreases |a|
  {
    if a == [] {
      assert a + b == b;
    } else {
      assert (a + b)[1..] == a[1..] + b;
      ExecAppend(Apply(s, a[0]), a[1..], b);
    }
  }

  ghost predicate EveryTaskEnded(s: State) {
    forall l :: 0 <= l < |s.listeners| ==> AllEnded(s.listeners[l])
  }

  lemma {:induction false} ReturnedStays(s: State, steps: seq<Step>)
    requires s.handle.Returned?
    ensures Exec(s, steps).handle.Returned? && Exec(s, steps).faults == s.faults && Exec(s, steps).fenced == s.fenced
    decreases |steps|
  {
    if steps != [] { ReturnedStays(Apply(s, steps[0]), steps[1..]); }
  }

  /**
   * The storage fence: in every run where shutdown returns without an error, every loop has exited, every tracked
   * connection task has ended, and no durable append came after the flush, nor comes in whatever follows.
   */
  lemma FenceHolds(n: nat, steps: seq<Step>, after: seq<Step>)
    requires Exec(Init(n), steps).handle.Returned? && Exec(Init(n), steps).faults == []
    ensures var s := Exec(Init(n), steps);
            && (forall l :: 0 <= l < |s.listeners| ==> s.listeners[l].loop.Exited?)
            && EveryTaskEnded(s)
            && s.fenced == Some(s.appends)
            && Exec(s, after).appends == s.appends
  {
    var s := Exec(Init(n), steps);
    RunIsSound(Init(n), steps);
    RunIsSound(s, after);
    ReturnedStays(s, after);
    forall l | 0 <= l < |s.listeners| ensures AllEnded(s.listeners[l]) { assert ListenerSound(s.listeners[l]); }
  }

  /** No accept loop exits while a connection that it tracks is still there. */
  lemma ExitedLoopHasNoTasks(n: nat, steps: seq<Step>, l: nat)
    requires l < |Exec(Init(n), steps).listeners| && Exec(Init(n), steps).listeners[l].loop.Exited?
    ensures AllEnded(Exec(Init(n), steps).listeners[l])
  {
    RunIsSound(Init(n), steps);
    assert ListenerSound(Exec(Init(n), steps).listeners[l]);
  }

  /** Once a loop has stopped accepting, no run gives it another connection. */
  lemma {:induction false} NothingAcceptedAfterDrain(s: State, steps: seq<Step>, l: nat)
    requires l < |s.listeners| && !s.listeners[l].loop.Accepting?
    ensures l < |Exec(s, steps).listeners| && !Exec(s, steps).listeners[l].loop.Accepting?
    ensures Exec(s, steps).listeners[l].tasks.Keys == s.listeners[l].tasks.Keys
    decreases |steps|
  {
    if steps != [] {
      NothingAcceptedAfterDrain(Apply(s, steps[0]), steps[1..], l);
    }
  }

  // What an error means for the fence.

  ghost predicate Straggler(s: State, l: nat, t: nat) {
    l < |s.listeners| && t in s.listeners[l].tasks && !s.listeners[l].tasks[t].Ended?
  }

  lemma StragglerAppends(s: State, l: nat, t: nat)
    requires Straggler(s, l, t)
    ensures Exec(s, [HandshakeDone(l, t), Append(l, t)]).appends == s.appends + 1
  {
    var s1 := Apply(s, HandshakeDone(l, t));
    assert [HandshakeDone(l, t), Append(l, t)][1..] == [Append(l, t)];
    assert [Append(l, t)][1..] == [];
    assert CanAppend(s1, l, t);
    assert Exec(s1, [Append(l, t)]) == Exec(Apply(s1, Append(l, t)), []);
  }

  ghost predicate NoneAccepting(s: State) {
    forall l :: 0 <= l < |s.listeners| ==> !s.listeners[l].loop.Accepting?
  }

  lemma {:induction false} NoStragglerNoAppend(s: State, steps: seq<Step>)
    requires EveryTaskEnded(s) && NoneAccepting(s)
    ensures Exec(s, steps).appends == s.appends
    decreases |steps|
  {
    if steps != [] {
      var s' := Apply(s, steps[0]);
      assert forall l :: 0 <= l < |s.listeners| ==> AllEnded(s.listeners[l]);
      forall l | 0 <= l < |s'.listeners| ensures AllEnded(s'.listeners[l]) && !s'.listeners[l].loop.Accepting? {}
      NoStragglerNoAppend(s', steps[1..]);
    }
  }

  lemma UnusedTask(x: Listener)
    ensures exists t: nat :: t !in x.tasks
  {
    var all := Below(|x.tasks.Keys| + 1);
    FewerInSubset(all, x.tasks.Keys);
    var t :| t in all && t !in x.tasks.Keys;
  }

  lemma NewcomerAppends(s: State, l: nat, t: nat)
    requires l < |s.listeners| && s.listeners[l].loop.Accepting? && t !in s.listeners[l].tasks
    ensures Exec(s, [Accept(l, t, false), Append(l, t)]).appends == s.appends + 1
  {
    var s1 := Apply(s, Accept(l, t, false));
    assert [Accept(l, t, false), Append(l, t)][1..] == [Append(l, t)];
    assert [Append(l, t)][1..] == [];
    assert CanAppend(s1, l, t);
    assert Exec(s1, [Append(l, t)]) == Exec(Apply(s1, Append(l, t)), []);
  }

  /**
   * The exact condition, in any state at all, also after joins that failed: no append can follow if and only if no
   * connection task of any listener is left and no loop can still accept one. A loop that was told to abort may do so
   * until it gets to its next await.
   */
  lemma FenceHoldsIffNoStraggler(s: State)
    ensures (forall after :: Exec(s, after).appends == s.appends) <==> EveryTaskEnded(s) && NoneAccepting(s)
  {
    if !EveryTaskEnded(s) {
      var l :| 0 <= l < |s.listeners| && !AllEnded(s.listeners[l]);
      var t :| t in s.listeners[l].tasks && !s.listeners[l].tasks[t].Ended?;
      StragglerAppends(s, l, t);
    } else if !NoneAccepting(s) {
      var l :| 0 <= l < |s.listeners| && s.listeners[l].loop.Accepting?;
      UnusedTask(s.listeners[l]);
      var t: nat :| t !in s.listeners[l].tasks;
      NewcomerAppends(s, l, t);
    } else {
      forall after ensures Exec(s, after).appends == s.appends { NoStragglerNoAppend(s, after); }
    }
  }

  // Progress once the abort token is set.

  function Rank(t: Task): nat {
    match t
    case Handshaking => 3
    case Serving => 2
    case Draining => 1
    case Ended => 0
  }

  /** The step that the tokens alone let a task take. */
  function Leave(l: nat, t: nat, phase: Task): Step {
    if phase.Draining? then SeeAbort(l, t) else SeeDrain(l, t)
  }

  /** How many steps of a run were this task's own way out. */
  ghost function OwnSteps(s: State, steps: seq<Step>, l: nat, t: nat): nat
    decreases |steps|
  {
    if steps == [] || l >= |s.listeners| || t !in s.listeners[l].tasks then 0
    else
      (if steps[0] == Leave(l, t, s.listeners[l].tasks[t]) then 1 else 0)
      + OwnSteps(Apply(s, steps[0]), steps[1..], l, t)
  }

  ghost predicate Aborted(s: State, l: nat, t: nat) {
    l < |s.listeners| && s.listeners[l].drain && s.listeners[l].abort && t in s.listeners[l].tasks
  }

  lemma AbortedStepAdvances(s: State, step: Step, l: nat, t: nat)
    requires Aborted(s, l, t)
    ensures var s' := Apply(s, step);
            && Aborted(s', l, t)
            && Rank(s'.listeners[l].tasks[t]) <= Rank(s.listeners[l].tasks[t])
            && (step == Leave(l, t, s.listeners[l].tasks[t]) && !s.listeners[l].tasks[t].Ended? ==>
                  Rank(s'.listeners[l].tasks[t]) < Rank(s.listeners[l].tasks[t]))
  {}

  /**
   * After the abort, no step sets a task back, and its own way out is always open: in any run, as many of its own
   * steps as its rank says (at most three) end it, whatever the peer, the upstream and the other tasks do.
   */
  lemma {:induction false} AbortedTaskEnds(s: State, steps: seq<Step>, l: nat, t: nat)
    requires Aborted(s, l, t) && OwnSteps(s, steps, l, t) >= Rank(s.listeners[l].tasks[t])
    ensures Aborted(Exec(s, steps), l, t) && Exec(s, steps).listeners[l].tasks[t].Ended?
    decreases |steps|
  {
    if steps == [] {
    } else {
      AbortedStepAdvances(s, steps[0], l, t);
      AbortedTaskEnds(Apply(s, steps[0]), steps[1..], l, t);
    }
  }

  ghost function Unended(x: Listener): set<nat> {
    set t | t in x.tasks && !x.tasks[t].Ended?
  }

  lemma OneTaskLeaves(s: State, l: nat, t: nat)
    requires Aborted(s, l, t) && s.listeners[l].loop.Aborting? && t in Unended(s.listeners[l])
    ensures var s' := Exec(s, [SeeDrain(l, t), SeeAbort(l, t)]);
            && |s'.listeners| == |s.listeners|
            && s'.listeners[l].loop.Aborting? && s'.listeners[l].drain && s'.listeners[l].abort
            && Unended(s'.listeners[l]) == Unended(s.listeners[l]) - {t}
  {
    var s1 := Apply(s, SeeDrain(l, t));
    var s2 := Apply(s1, SeeAbort(l, t));
    assert [SeeDrain(l, t), SeeAbort(l, t)][1..] == [SeeAbort(l, t)];
    assert [SeeAbort(l, t)][1..] == [];
    assert Exec(s1, [SeeAbort(l, t)]) == Exec(s2, []);
    assert s2.listeners[l].tasks[t].Ended?;
  }

  /** An aborting loop is never stuck: its tasks' own steps and its own lead to its exit. */
  lemma {:induction false} AbortingLoopCanExit(s: State, l: nat)
    requires l < |s.listeners| && s.listeners[l].loop.Aborting? && s.listeners[l].drain && s.listeners[l].abort
    ensures exists steps :: l < |Exec(s, steps).listeners| && Exec(s, steps).listeners[l].loop.Exited?
    decreases Unended(s.listeners[l])
  {
    if Unended(s.listeners[l]) == {} {
      assert AllEnded(s.listeners[l]) by {
        forall t | t in s.listeners[l].tasks ensures s.listeners[l].tasks[t].Ended? {
          assert t !in Unended(s.listeners[l]);
        }
      }
      assert [ExitLoop(l)][1..] == [];
      assert Exec(s, [ExitLoop(l)]) == Exec(Apply(s, ExitLoop(l)), []);
      assert Exec(s, [ExitLoop(l)]).listeners[l].loop.Exited?;
    } else {
      var t :| t in Unended(s.listeners[l]);
      var way := [SeeDrain(l, t), SeeAbort(l, t)];
      OneTaskLeaves(s, l, t);
      var s' := Exec(s, way);
      AbortingLoopCanExit(s', l);
      var rest :| l < |Exec(s', rest).listeners| && Exec(s', rest).listeners[l].loop.Exited?;
      ExecAppend(s, way, rest);
      assert Exec(s, way + rest).listeners[l].loop.Exited?;
    }
  }

  // Progress from the start of the drain.

  /** A loop that accepts, drains or aborts can always be led to its exit, whatever its connections do. */
  lemma DrainCanEnd(s: State, l: nat)
    requires l < |s.listeners| && ListenerSound(s.listeners[l])
    requires s.listeners[l].loop.Accepting? || s.listeners[l].loop.Waiting? || s.listeners[l].loop.Aborting?
    ensures exists steps :: l < |Exec(s, steps).listeners| && Exec(s, steps).listeners[l].loop.Exited?
  {
    var way := [StopAccepting(l), SpendBudget(l)];
    var s1 := Apply(s, StopAccepting(l));
    var s2 := Apply(s1, SpendBudget(l));
    ExecTwo(s, StopAccepting(l), SpendBudget(l));
    assert s2.listeners[l].loop.Aborting? && s2.listeners[l].drain && s2.listeners[l].abort;
    AbortingLoopCanExit(s2, l);
    var rest :| l < |Exec(s2, rest).listeners| && Exec(s2, rest).listeners[l].loop.Exited?;
    ExecAppend(s, way, rest);
    assert Exec(s, way + rest).listeners[l].loop.Exited?;
  }

  lemma ExecTwo(s: State, a: Step, b: Step)
    ensures Exec(s, [a, b]) == Apply(Apply(s, a), b)
  {
    assert [a, b][1..] == [b] && [b][1..] == [];
    assert Exec(Apply(s, a), [b]) == Exec(Apply(Apply(s, a), b), []);
  }

  /** The step by which the peer alone ends a task. */
  function Hangup(l: nat, t: nat, phase: Task): Step {
    if phase.Handshaking? then HandshakeFails(l, t) else ConnectionEnds(l, t)
  }

  lemma PeerEndsTask(s: State, l: nat, t: nat)
    requires Straggler(s, l, t)
    ensures var s' := Apply(s, Hangup(l, t, s.listeners[l].tasks[t]));
            && |s'.listeners| == |s.listeners|
            && s'.listeners[l] == s.listeners[l].(tasks := s.listeners[l].tasks[t := Ended])
            && Unended(s'.listeners[l]) == Unended(s.listeners[l]) - {t}
  {}

  /** A drain whose connections end by themselves exits within its budget: nothing is aborted. */
  lemma {:induction false} DrainCanEndGracefully(s: State, l: nat)
    requires l < |s.listeners| && s.listeners[l].loop.Waiting?
    ensures exists steps ::
              && l < |Exec(s, steps).listeners| && Exec(s, steps).listeners[l].loop.Exited?
              && Exec(s, steps).listeners[l].abort == s.listeners[l].abort
    decreases Unended(s.listeners[l])
  {
    if Unended(s.listeners[l]) == {} {
      assert AllEnded(s.listeners[l]) by {
        forall t | t in s.listeners[l].tasks ensures s.listeners[l].tasks[t].Ended? {
          assert t !in Unended(s.listeners[l]);
        }
      }
      assert [ExitLoop(l)][1..] == [];
      assert Exec(s, [ExitLoop(l)]) == Exec(Apply(s, ExitLoop(l)), []);
      assert Exec(s, [ExitLoop(l)]).listeners[l].loop.Exited?;
    } else {
      var t :| t in Unended(s.listeners[l]);
      var step := Hangup(l, t, s.listeners[l].tasks[t]);
      PeerEndsTask(s, l, t);
      var s' := Apply(s, step);
      DrainCanEndGracefully(s', l);
      var rest :|
        && l < |Exec(s', rest).listeners| && Exec(s', rest).listeners[l].loop.Exited?
        && Exec(s', rest).listeners[l].abort == s'.listeners[l].abort;
      assert ([step] + rest)[1..] == rest;
      assert Exec(s, [step] + rest) == Exec(s', rest);
    }
  }

  /** The loops stop and exit, one after the other. */
  function Closing(i: nat, n: nat): seq<Step>
    requires i <= n
    decreases n - i
  {
    if i == n then [] else [StopAccepting(i), ExitLoop(i)] + Closing(i + 1, n)
  }

  ghost predicate ClosedUpTo(s: State, i: nat) {
    && i <= |s.listeners|
    && (forall l :: 0 <= l < i ==> s.listeners[l].loop.Exited?)
    && (forall l :: i <= l < |s.listeners| ==> s.listeners[l].loop.Accepting? && s.listeners[l].tasks == map[])
  }

  lemma {:induction false} ClosingExits(s: State, i: nat)
    requires ClosedUpTo(s, i)
    ensures var s' := Exec(s, Closing(i, |s.listeners|));
            s' == s.(listeners := s'.listeners) && |s'.listeners| == |s.listeners| && ClosedUpTo(s', |s.listeners|)
    decreases |s.listeners| - i
  {
    if i < |s.listeners| {
      var s2 := Apply(Apply(s, StopAccepting(i)), ExitLoop(i));
      ExecTwo(s, StopAccepting(i), ExitLoop(i));
      ExecAppend(s, [StopAccepting(i), ExitLoop(i)], Closing(i + 1, |s.listeners|));
      assert ClosedUpTo(s2, i + 1);
      ClosingExits(s2, i + 1);
    }
  }

  function Joins(i: nat, n: nat): seq<Step>
    requires i <= n
    decreases n - i
  {
    if i == n then [] else [JoinNext(Joined)] + Joins(i + 1, n)
  }

  lemma {:induction false} JoinsReachFlush(s: State, i: nat)
    requires ClosedUpTo(s, |s.listeners|) && i < |s.listeners| && s.handle == Joining(i)
    ensures Exec(s, Joins(i, |s.listeners|)) == s.(handle := Flushing)
    decreases |s.listeners| - i
  {
    var s1 := Apply(s, JoinNext(Joined));
    assert ([JoinNext(Joined)] + Joins(i + 1, |s.listeners|))[1..] == Joins(i + 1, |s.listeners|);
    assert Exec(s, Joins(i, |s.listeners|)) == Exec(s1, Joins(i + 1, |s.listeners|));
    if i + 1 < |s.listeners| { JoinsReachFlush(s1, i + 1); }
  }

  function CleanRun(n: nat): seq<Step> {
    [Signal] + (Closing(0, n) + (Joins(0, n) + ([Flush(true)] + [JoinCommand(Joined), JoinControl(Joined)])))
  }

  lemma ExecFirst(s: State, step: Step, rest: seq<Step>)
    ensures Exec(s, [step] + rest) == Exec(Apply(s, step), rest)
  {
    assert ([step] + rest)[1..] == rest;
  }

  lemma LastJoins(s: State)
    requires s.handle.Flushing? && s.faults == []
    ensures var s' := Exec(s, [Flush(true)] + [JoinCommand(Joined), JoinControl(Joined)]);
            s'.handle.Returned? && s'.faults == []
  {
    ExecFirst(s, Flush(true), [JoinCommand(Joined), JoinControl(Joined)]);
    ExecTwo(Apply(s, Flush(true)), JoinCommand(Joined), JoinControl(Joined));
  }

  /** Every cluster has a run in which shutdown returns without an error, so the fence is not promised in vain. */
  lemma CleanShutdownExists(n: nat)
    ensures Exec(Init(n), CleanRun(n)).handle.Returned? && Exec(Init(n), CleanRun(n)).faults == []
  {
    var last := [Flush(true)] + [JoinCommand(Joined), JoinControl(Joined)];
    var s1 := Apply(Init(n), Signal);
    ExecFirst(Init(n), Signal, Closing(0, n) + (Joins(0, n) + last));
    ClosingExits(s1, 0);
    ExecAppend(s1, Closing(0, n), Joins(0, n) + last);
    var s2 := Exec(s1, Closing(0, n));
    ExecAppend(s2, Joins(0, n), last);
    if n > 0 { JoinsReachFlush(s2, 0); }
    LastJoins(Exec(s2, Joins(0, n)));
  }

  lemma {:induction false} KilledStays(s: State, steps: seq<Step>, l: nat)
    requires l < |s.listeners| && s.listeners[l].loop.Killed?
    ensures l < |Exec(s, steps).listeners| && Exec(s, steps).listeners[l].loop.Killed?
    decreases |steps|
  {
    if steps != [] { KilledStays(Apply(s, steps[0]), steps[1..], l); }
  }

  /** A loop that panics before its exit is never passed over: no shutdown returns without an error after it. */
  lemma PanicIsReported(n: nat, before: seq<Step>, l: nat, after: seq<Step>)
    requires l < |Exec(Init(n), before).listeners| && !Exec(Init(n), before).listeners[l].loop.Exited?
    ensures var s := Exec(Apply(Exec(Init(n), before), PanicLoop(l)), after);
            s.handle.Returned? ==> s.faults != []
  {
    var s0 := Exec(Init(n), before);
    RunIsSound(Init(n), before);
    StepIsSound(s0, PanicLoop(l));
    RunIsSound(Apply(s0, PanicLoop(l)), after);
    KilledStays(Apply(s0, PanicLoop(l)), after, l);
  }

  /** A connection over TLS runs no request, and so appends nothing, until its handshake is done. */
  lemma HandshakeComesFirst(s: State, l: nat, t: nat)
    requires l < |s.listeners| && s.listeners[l].loop.Accepting? && t !in s.listeners[l].tasks
    ensures Exec(s, [Accept(l, t, true), Append(l, t)]).appends == s.appends
    ensures Exec(s, [Accept(l, t, true)] + [HandshakeDone(l, t), Append(l, t)]).appends == s.appends + 1
  {
    var s1 := Apply(s, Accept(l, t, true));
    ExecTwo(s, Accept(l, t, true), Append(l, t));
    ExecFirst(s, Accept(l, t, true), [HandshakeDone(l, t), Append(l, t)]);
    ExecTwo(s1, HandshakeDone(l, t), Append(l, t));
  }
}
