/** The cluster handle's own shutdown sequence. */
module Cluster {
  import opened Wrappers
  import opened Shutdown

  /** What the sequence does to the outside, in order. */
  datatype Event =
    | SignalSent
    | ListenerJoined(name: string)
    | ListenerAborted(name: string)
    | StorageFlushed
    | CommandJoined
    | ControlJoined

  datatype Failure =
    | ListenerFailed(name: string, outcome: JoinOutcome)
    | FlushFailed
    | CommandFailed(outcome: JoinOutcome)
    | ControlFailed(outcome: JoinOutcome)

  datatype RunningUpstream = RunningUpstream(name: string, outcome: JoinOutcome)

  function JoinEvents(upstreams: seq<RunningUpstream>): seq<Event> {
    if upstreams == [] then []
    else
      var last := upstreams[|upstreams| - 1];
      JoinEvents(upstreams[..|upstreams| - 1]) + [ListenerJoined(last.name)] +
      (if last.outcome.TimedOut? then [ListenerAborted(last.name)] else [])
  }

  function JoinFailures(upstreams: seq<RunningUpstream>): seq<Failure> {
    if upstreams == [] then []
    else
      var last := upstreams[|upstreams| - 1];
      JoinFailures(upstreams[..|upstreams| - 1]) +
      (if last.outcome.Joined? then [] else [ListenerFailed(last.name, last.outcome)])
  }

  function CommandFailures(task: Option<JoinOutcome>): seq<Failure> {
    if Fine(task) then [] else [CommandFailed(task.value)]
  }

  function ControlFailures(task: Option<JoinOutcome>): seq<Failure> {
    if Fine(task) then [] else [ControlFailed(task.value)]
  }

  function TaskEvents(command: Option<JoinOutcome>, control: Option<JoinOutcome>): seq<Event> {
    (if command.Some? then [CommandJoined] else []) + (if control.Some? then [ControlJoined] else [])
  }

  predicate Fine(task: Option<JoinOutcome>) {
    task.Some? ==> task.value.Joined?
  }

  /** The errors that a shutdown returns, in the order in which it meets them. */
  function Failures(
      upstreams: seq<RunningUpstream>, flushed: bool, command: Option<JoinOutcome>, control: Option<JoinOutcome>)
    : seq<Failure>
  {
    JoinFailures(upstreams) + (if flushed then [] else [FlushFailed])
    + (CommandFailures(command) + ControlFailures(control))
  }

  lemma JoinOne(upstreams: seq<RunningUpstream>, i: nat)
    requires i < |upstreams|
    ensures var up := upstreams[i];
            && JoinEvents(upstreams[..i + 1]) ==
               JoinEvents(upstreams[..i]) + [ListenerJoined(up.name)] +
               (if up.outcome.TimedOut? then [ListenerAborted(up.name)] else [])
            && JoinFailures(upstreams[..i + 1]) ==
               JoinFailures(upstreams[..i]) +
               (if up.outcome.Joined? then [] else [ListenerFailed(up.name, up.outcome)])
  {
    assert upstreams[..i + 1][..i] == upstreams[..i];
  }

  /** The failures name exactly the listeners whose join did not go well, with its outcome. */
  lemma {:induction false} FailuresNameListeners(upstreams: seq<RunningUpstream>, f: Failure)
    ensures f in JoinFailures(upstreams) <==>
            exists i :: 0 <= i < |upstreams| && !upstreams[i].outcome.Joined? &&
              f == ListenerFailed(upstreams[i].name, upstreams[i].outcome)
  {
    if upstreams != [] {
      var n := |upstreams| - 1;
      FailuresNameListeners(upstreams[..n], f);
      if f in JoinFailures(upstreams[..n]) {
        var i :| 0 <= i < n && !upstreams[..n][i].outcome.Joined? &&
          f == ListenerFailed(upstreams[..n][i].name, upstreams[..n][i].outcome);
        assert upstreams[i] == upstreams[..n][i];
      }
      forall i | 0 <= i < n && !upstreams[i].outcome.Joined? ensures !upstreams[..n][i].outcome.Joined? {}
    }
  }

  /** Every listener is joined, and told to abort exactly when it timed out. */
  lemma {:induction false} EventsNameListeners(upstreams: seq<RunningUpstream>, e: Event)
    ensures e in JoinEvents(upstreams) <==>
            exists i :: 0 <= i < |upstreams| &&
              (e == ListenerJoined(upstreams[i].name) ||
               (e == ListenerAborted(upstreams[i].name) && upstreams[i].outcome.TimedOut?))
  {
    if upstreams != [] {
      var n := |upstreams| - 1;
      EventsNameListeners(upstreams[..n], e);
      if e in JoinEvents(upstreams[..n]) {
        var i :| 0 <= i < n &&
          (e == ListenerJoined(upstreams[..n][i].name) ||
           (e == ListenerAborted(upstreams[..n][i].name) && upstreams[..n][i].outcome.TimedOut?));
        assert upstreams[i] == upstreams[..n][i];
      }
      forall i | 0 <= i < n ensures upstreams[i] == upstreams[..n][i] {}
    }
  }

  /** The command task is joined before the control plane, and each of them exactly when it has not been taken. */
  lemma TasksAreJoinedInOrder(command: Option<JoinOutcome>, control: Option<JoinOutcome>)
    ensures var log := TaskEvents(command, control);
            && (CommandJoined in log <==> command.Some?) && (ControlJoined in log <==> control.Some?)
            && (command.Some? ==> log[0] == CommandJoined)
            && |log| <= 2 && (|log| == 2 ==> log[1] == ControlJoined)
  {}

  lemma {:induction false} JoinFailuresCount(upstreams: seq<RunningUpstream>)
    ensures JoinFailures(upstreams) == [] <==> forall i :: 0 <= i < |upstreams| ==> upstreams[i].outcome.Joined?
  {
    if upstreams != [] { JoinFailuresCount(upstreams[..|upstreams| - 1]); }
  }

  /** A shutdown returns no error exactly when every join and the flush went well. */
  lemma OkIffAllWell(
      upstreams: seq<RunningUpstream>, flushed: bool, command: Option<JoinOutcome>, control: Option<JoinOutcome>)
    ensures Failures(upstreams, flushed, command, control) == []
            <==> && (forall i :: 0 <= i < |upstreams| ==> upstreams[i].outcome.Joined?)
                 && flushed && Fine(command) && Fine(control)
  {
    JoinFailuresCount(upstreams);
  }

  /** `outcome` of a task is how its join will end; `command` and `control` are taken when they are joined. */
  class ClusterHandle {
    const upstreams: seq<RunningUpstream>
    var command: Option<JoinOutcome>
    var control: Option<JoinOutcome>
    var log: seq<Event>

    constructor (upstreams: seq<RunningUpstream>, command: JoinOutcome, control: Option<JoinOutcome>)
      ensures this.upstreams == upstreams && this.command == Some(command) && this.control == control && log == []
    {
      this.upstreams, this.command, this.control, log := upstreams, Some(command), control, [];
    }

    /** Every listener is joined, in order; one that does not end in time is told to abort. */
    method JoinListeners() returns (errors: seq<Failure>)
      modifies this`log
      ensures errors == JoinFailures(upstreams) && log == old(log) + JoinEvents(upstreams)
    {
      errors := [];
      for i := 0 to |upstreams|
        invariant log == old(log) + JoinEvents(upstreams[..i])
        invariant errors == JoinFailures(upstreams[..i])
      {
        JoinOne(upstreams, i);
        var up := upstreams[i];
        log := log + [ListenerJoined(up.name)];
        match up.outcome {
          case Joined =>
          case Panicked =>
            errors := errors + [ListenerFailed(up.name, Panicked)];
          case TimedOut =>
            log := log + [ListenerAborted(up.name)];
            errors := errors + [ListenerFailed(up.name, TimedOut)];
        }
      }
      assert upstreams[..|upstreams|] == upstreams;
    }

    /** The command task and the control plane are joined, as far as they have not been taken. */
    method JoinTasks() returns (errors: seq<Failure>)
      modifies this`log, this`command, this`control
      ensures errors == CommandFailures(old(command)) + ControlFailures(old(control))
      ensures log == old(log) + TaskEvents(old(command), old(control))
      ensures command == None && control == None
    {
      errors := [];
      if command.Some? {
        log := log + [CommandJoined];
        if !command.value.Joined? { errors := errors + [CommandFailed(command.value)]; }
        command := None;
      }
      if control.Some? {
        log := log + [ControlJoined];
        if !control.value.Joined? { errors := errors + [ControlFailed(control.value)]; }
        control := None;
      }
    }

    /**
     * Signal, join every listener, flush, join the command task, join the control plane: in this order, whatever
     * fails on the way.
     */
    method ShutdownWithTimeout(flushed: bool) returns (errors: seq<Failure>)
      requires log == []
      modifies this
      ensures errors == Failures(upstreams, flushed, old(command), old(control))
      ensures log == [SignalSent] + JoinEvents(upstreams) + [StorageFlushed] + TaskEvents(old(command), old(control))
      ensures command == None && control == None
    {
      log := log + [SignalSent];
      errors := JoinListeners();
      log := log + [StorageFlushed];
      if !flushed {
        errors := errors + [FlushFailed];
      }
      var more := JoinTasks();
      errors := errors + more;
    }
  }

  // The sequence among all the other steps of a cluster.

  /** What the handle has seen of its joins and of the flush. */
  datatype Seen = Seen(
    joins: seq<JoinOutcome>, flushed: Option<bool>, command: Option<JoinOutcome>, control: Option<JoinOutcome>)

  const NOTHING := Seen([], None, None, None)

  /** A step of the handle that takes effect shows it an outcome. */
  ghost function Noted(s: State, seen: Seen, step: Step): Seen {
    if Apply(s, step).handle == s.handle then seen
    else match step
      case JoinNext(outcome) => seen.(joins := seen.joins + [outcome])
      case Flush(ok) => seen.(flushed := Some(ok))
      case JoinCommand(outcome) => seen.(command := Some(outcome))
      case JoinControl(outcome) => seen.(control := Some(outcome))
      case _ => seen
  }

  ghost function Observed(s: State, seen: Seen, steps: seq<Step>): Seen
    decreases |steps|
  {
    if steps == [] then seen else Observed(Apply(s, steps[0]), Noted(s, seen, steps[0]), steps[1..])
  }

  function JoinFaults(joins: seq<JoinOutcome>): seq<Fault> {
    if joins == [] then []
    else
      var n := |joins| - 1;
      JoinFaults(joins[..n]) + (if joins[n].Joined? then [] else [ListenerFault(n, joins[n])])
  }

  function FaultsOf(seen: Seen): seq<Fault> {
    JoinFaults(seen.joins) + LaterFaults(seen)
  }

  function LaterFaults(seen: Seen): seq<Fault> {
    (if seen.flushed == Some(false) then [FlushFault] else [])
    + (if Fine(seen.command) then [] else [CommandFault]) + (if Fine(seen.control) then [] else [ControlFault])
  }

  ghost predicate Tells(s: State, seen: Seen) {
    && s.faults == FaultsOf(seen)
    && |seen.joins| == JoinedSoFar(s) <= |s.listeners|
    && (seen.flushed.Some? <==> s.handle.JoiningCommand? || s.handle.JoiningControl? || s.handle.Returned?)
    && (seen.command.Some? <==> s.handle.JoiningControl? || s.handle.Returned?)
    && (seen.control.Some? <==> s.handle.Returned?)
    && (s.handle.Joining? ==> s.handle.next < |s.listeners|)
  }

  lemma JoinTells(s: State, seen: Seen, outcome: JoinOutcome)
    requires Tells(s, seen)
    ensures Tells(Apply(s, JoinNext(outcome)), Noted(s, seen, JoinNext(outcome)))
  {
    JoinFaultsOne(seen.joins, outcome);
    assert s.handle.Joining? ==> LaterFaults(seen) == [] && s.faults == JoinFaults(seen.joins);
  }

  lemma JoinFaultsOne(joins: seq<JoinOutcome>, outcome: JoinOutcome)
    ensures JoinFaults(joins + [outcome]) ==
            JoinFaults(joins) + if outcome.Joined? then [] else [ListenerFault(|joins|, outcome)]
  {
    assert (joins + [outcome])[..|joins|] == joins;
  }

  /** A step that is not the handle's own leaves it as it is. */
  lemma OthersTell(s: State, seen: Seen, step: Step)
    requires Tells(s, seen) && (Place(step).Some? || step.Append?)
    ensures Tells(Apply(s, step), Noted(s, seen, step))
  {}

  lemma LastTells(s: State, seen: Seen, step: Step)
    requires Tells(s, seen) && (step.Signal? || step.Flush? || step.JoinCommand? || step.JoinControl?)
    ensures Tells(Apply(s, step), Noted(s, seen, step))
  {}

  lemma StepTells(s: State, seen: Seen, step: Step)
    requires Tells(s, seen)
    ensures Tells(Apply(s, step), Noted(s, seen, step))
  {
    match step
    case JoinNext(outcome) => JoinTells(s, seen, outcome);
    case Signal => LastTells(s, seen, step);
    case Flush(_) => LastTells(s, seen, step);
    case JoinCommand(_) => LastTells(s, seen, step);
    case JoinControl(_) => LastTells(s, seen, step);
    case _ => OthersTell(s, seen, step);
  }

  lemma {:induction false} RunTells(s: State, seen: Seen, steps: seq<Step>)
    requires Tells(s, seen)
    ensures Tells(Exec(s, steps), Observed(s, seen, steps))
    decreases |steps|
  {
    if steps != [] {
      StepTells(s, seen, steps[0]);
      RunTells(Apply(s, steps[0]), Noted(s, seen, steps[0]), steps[1..]);
    }
  }

  function Named(names: seq<string>, joins: seq<JoinOutcome>): (r: seq<RunningUpstream>)
    requires |names| == |joins|
    ensures |r| == |names|
  {
    seq(|names|, i requires 0 <= i < |names| => RunningUpstream(names[i], joins[i]))
  }

  lemma {:induction false} NoJoinFaultsIff(joins: seq<JoinOutcome>)
    ensures JoinFaults(joins) == [] <==> forall i :: 0 <= i < |joins| ==> joins[i].Joined?
  {
    if joins != [] { NoJoinFaultsIff(joins[..|joins| - 1]); }
  }

  /**
   * In every run of a cluster whose shutdown has returned, the outcomes that the handle has seen decide both: the
   * method that is given them returns no error if and only if the run has no fault, and then the storage is fenced.
   */
  lemma NoErrorMeansFenced(n: nat, steps: seq<Step>, after: seq<Step>, names: seq<string>)
    requires |names| == n && Exec(Init(n), steps).handle.Returned?
    ensures var s := Exec(Init(n), steps);
            var seen := Observed(Init(n), NOTHING, steps);
            && |seen.joins| == n && seen.flushed.Some? && seen.command.Some? && seen.control.Some?
            && var errors := Failures(Named(names, seen.joins), seen.flushed.value, seen.command, seen.control);
               && (errors == [] <==> s.faults == [])
               && (errors == [] ==> EveryTaskEnded(s) && s.fenced == Some(Exec(s, after).appends))
  {
    var seen := Observed(Init(n), NOTHING, steps);
    RunTells(Init(n), NOTHING, steps);
    ListenersAreFixed(Init(n), steps);
    var ups := Named(names, seen.joins);
    OkIffAllWell(ups, seen.flushed.value, seen.command, seen.control);
    NoJoinFaultsIff(seen.joins);
    assert forall i :: 0 <= i < n ==> ups[i].outcome == seen.joins[i];
    if Exec(Init(n), steps).faults == [] { FenceHolds(n, steps, after); }
  }

  lemma {:induction false} ListenersAreFixed(s: State, steps: seq<Step>)
    ensures |Exec(s, steps).listeners| == |s.listeners|
    decreases |steps|
  {
    if steps != [] { ListenersAreFixed(Apply(s, steps[0]), steps[1..]); }
  }
}
