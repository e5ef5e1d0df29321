/**
 * The parts together: what a run of requests and commands does to the recorder and to the stub store is a run of those
 * alone, so all that is proved of them holds of the whole.
 */
module Composition {
  import opened Wrappers
  import opened Collections
  import opened Recorded
  import Recorders
  import Stubs
  import opened Listener

  /** What a step makes of the recorder. */
  ghost function RecorderOp(s: State, step: Step): seq<Recorders.Op> {
    match step
    case Append(id, stored) =>
      if id in s.requests && s.requests[id].Persisting?
      then [Recorders.Op.Recorded(s.requests[id].exchange, stored)] else []
    case Drop(id, stored) =>
      if id in s.requests && s.requests[id].Persisting?
      then [Recorders.Op.Abandoned(s.requests[id].exchange, stored)] else []
    case ClearRecordings => [Recorders.Op.Cleared]
    case _ => []
  }

  ghost function RecorderOps(rt: Runtime, s: State, steps: seq<Step>): seq<Recorders.Op>
    decreases |steps|
  {
    if steps == [] then [] else RecorderOp(s, steps[0]) + RecorderOps(rt, Apply(rt, s, steps[0]), steps[1..])
  }

  lemma StepIsRecorderOp(rt: Runtime, s: State, step: Step)
    ensures Apply(rt, s, step).recorder == Recorders.Run(rt.recording, s.recorder, RecorderOp(s, step))
  {
    if RecorderOp(s, step) != [] {
      assert RecorderOp(s, step)[..0] == [];
    }
  }

  lemma {:induction false} RecorderIsARun(rt: Runtime, s: State, steps: seq<Step>)
    ensures Exec(rt, s, steps).recorder == Recorders.Run(rt.recording, s.recorder, RecorderOps(rt, s, steps))
    decreases |steps|
  {
    if steps != [] {
      var s' := Apply(rt, s, steps[0]);
      StepIsRecorderOp(rt, s, steps[0]);
      RecorderIsARun(rt, s', steps[1..]);
      Recorders.RunAppend(rt.recording, s.recorder, RecorderOp(s, steps[0]), RecorderOps(rt, s', steps[1..]));
    }
  }

  /**
   * In every run of a cluster, whatever its requests and commands do: the ring is the window of the exchanges accepted
   * since the last clear, the waiters were notified once for each accepted exchange, and the ring shows each upstream's
   * exchanges in the order of its medium.
   */
  lemma RecorderOfARun(rt: Runtime, loaded: seq<Exchange>, steps: seq<Step>)
    ensures var s0 := Init(rt, loaded).recorder;
            var ops := RecorderOps(rt, Init(rt, loaded), steps);
            var s := Exec(rt, Init(rt, loaded), steps).recorder;
            var accepted := Recorders.Accepted(rt.recording, s0.media.Keys, ops);
            && s.ring == Recorders.LastOf(
                 Min(rt.recording.maxInMemory, Recorders.SinceClear(rt.recording, s0.media.Keys, ops)), accepted)
            && s.notified == |accepted|
            && forall upstream :: upstream in s0.media ==>
                 && upstream in s.media
                 && Recorders.Subsequence(Recorders.Project(s.ring, upstream), s.media[upstream])
  {
    var s0 := Init(rt, loaded).recorder;
    var ops := RecorderOps(rt, Init(rt, loaded), steps);
    RecorderIsARun(rt, Init(rt, loaded), steps);
    Recorders.RingIsWindow(rt.recording, s0, ops);
    Recorders.NotifiedForEachAccepted(rt.recording, s0, ops);
    forall upstream | upstream in s0.media
      ensures
        && upstream in Recorders.Run(rt.recording, s0, ops).media
        && Recorders.Subsequence(
             Recorders.Project(Recorders.Run(rt.recording, s0, ops).ring, upstream),
             Recorders.Run(rt.recording, s0, ops).media[upstream])
    {
      Recorders.RingFollowsMediumOrder(rt.recording, s0, ops, upstream);
    }
  }

  /** What a step makes of the stub store. */
  ghost function StubOp(s: State, step: Step): seq<Stubs.Op> {
    match step
    case ScanStubs(id) =>
      if id in s.requests && s.requests[id].Scanning? then [Stubs.Taken(s.requests[id].call)] else []
    case AddStub(entry) => [Stubs.Added(entry)]
    case ClearStubs => [Stubs.Op.Cleared]
    case _ => []
  }

  ghost function StubOps(rt: Runtime, s: State, steps: seq<Step>): seq<Stubs.Op>
    decreases |steps|
  {
    if steps == [] then [] else StubOp(s, steps[0]) + StubOps(rt, Apply(rt, s, steps[0]), steps[1..])
  }

  lemma StepIsStubOp(rt: Runtime, s: State, step: Step)
    ensures Apply(rt, s, step).stubs == Stubs.PlainRun(s.stubs, StubOp(s, step))
  {
    if StubOp(s, step) != [] {
      assert StubOp(s, step)[..0] == [];
    }
  }

  lemma {:induction false} StubsAreARun(rt: Runtime, s: State, steps: seq<Step>)
    ensures Exec(rt, s, steps).stubs == Stubs.PlainRun(s.stubs, StubOps(rt, s, steps))
    decreases |steps|
  {
    if steps != [] {
      var s' := Apply(rt, s, steps[0]);
      StepIsStubOp(rt, s, steps[0]);
      StubsAreARun(rt, s', steps[1..]);
      Stubs.PlainRunAppend(s.stubs, StubOp(s, steps[0]), StubOps(rt, s', steps[1..]));
    }
  }

  /** In every run of a cluster, the store holds what the conservation laws of the history of its fires speak of. */
  lemma StubsOfARun(rt: Runtime, loaded: seq<Exchange>, steps: seq<Step>)
    ensures Exec(rt, Init(rt, loaded), steps).stubs ==
            Stubs.Entries(Stubs.Run(Stubs.EMPTY, StubOps(rt, Init(rt, loaded), steps)).live)
  {
    StubsAreARun(rt, Init(rt, loaded), steps);
    Stubs.RunRefinesStore(StubOps(rt, Init(rt, loaded), steps));
  }
}
