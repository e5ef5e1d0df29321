/**
 * The wait-for engine: one asserter against any number of record calls, clears and the clock, as interleaved
 * atomic steps. A record call pushes under the write lock, releases it, and only then notifies.
 */
module Assertions {
  import opened Wrappers
  import opened Recorded
  import Recorders

  datatype Shape = Seen | Count(expected: nat)

  datatype Verdict = Pending | Passed | Failed

  function Evaluate(shape: Shape, count: nat): Verdict {
    match shape
    case Seen => if count >= 1 then Passed else Pending
    case Count(expected) => if count == expected then Passed else if count > expected then Verdict.Failed else Pending
  }

  type Filter = Exchange -> bool

  function Matching(f: Filter, ring: seq<Exchange>): nat {
    if ring == [] then 0 else Matching(f, ring[..|ring| - 1]) + (if f(ring[|ring| - 1]) then 1 else 0)
  }

  /** A deadline of None is one that the clock cannot represent. */
  datatype Ask = Ask(shape: Shape, filter: Filter, timeout: nat, deadline: Option<nat>)

  datatype Reason = Satisfied | Overshoot | ZeroTimeout | Expired

  /**
   * One round of the loop: register a waiter, count, decide, park. `begun` is the time of the registration,
   * `evaluated` the count that was last put to the shape.
   */
  datatype Phase =
    | Registering
    | Counting(signalled: bool, begun: nat)
    | Deciding(signalled: bool, begun: nat, evaluated: nat)
    | Parked(signalled: bool, begun: nat, evaluated: nat)
    | Expiring(evaluated: nat)
    | Done(passed: bool, reason: Reason, reported: nat, evaluated: nat)

  /** `unnotified` record calls have pushed and not notified yet; `rings` is every ring since dispatch, oldest first. */
  datatype State = State(
    ring: seq<Exchange>, unnotified: nat, clock: nat, phase: Phase,
    rings: seq<seq<Exchange>>, evaluations: nat, notifications: nat)

  datatype Step =
    | Register | TakeCount | Decide | Wake | Expire | FinalCount
    | Push(e: Exchange) | Notify | Clear | Tick(elapsed: nat)

  function Init(ring: seq<Exchange>, unnotified: nat, clock: nat): State {
    State(ring, unnotified, clock, Registering, [ring], 0, 0)
  }

  predicate PastDeadline(ask: Ask, clock: nat) {
    ask.deadline.None? || clock >= ask.deadline.value
  }

  function DecideOn(ask: Ask, s: State): Phase
    requires s.phase.Deciding?
  {
    var count := s.phase.evaluated;
    match Evaluate(ask.shape, count)
    case Passed => Done(true, Satisfied, count, count)
    case Failed => Done(false, Overshoot, count, count)
    case Pending =>
      if ask.timeout == 0 then Done(false, ZeroTimeout, count, count)
      else if PastDeadline(ask, s.clock) then Done(false, Expired, count, count)
      else Parked(s.phase.signalled, s.phase.begun, count)
  }

  /** `notify_waiters` wakes every waiter registered so far, also one that is not awaited yet. */
  function Signalled(p: Phase): Phase {
    match p
    case Counting(_, begun) => Counting(true, begun)
    case Deciding(_, begun, evaluated) => Deciding(true, begun, evaluated)
    case Parked(_, begun, evaluated) => Parked(true, begun, evaluated)
    case _ => p
  }

  function Apply(cap: nat, ask: Ask, s: State, step: Step): State {
    match step
    case Register => if s.phase.Registering? then s.(phase := Counting(false, s.clock)) else s
    case TakeCount =>
      if s.phase.Counting? then
        s.(phase := Deciding(s.phase.signalled, s.phase.begun, Matching(ask.filter, s.ring)),
           evaluations := s.evaluations + 1)
      else s
    case Decide => if s.phase.Deciding? then s.(phase := DecideOn(ask, s)) else s
    case Wake => if s.phase.Parked? && s.phase.signalled then s.(phase := Registering) else s
    case Expire =>
      // A signalled waiter wins over an elapsed timer.
      if s.phase.Parked? && !s.phase.signalled && PastDeadline(ask, s.clock)
      then s.(phase := Expiring(s.phase.evaluated)) else s
    case FinalCount =>
      if s.phase.Expiring?
      then s.(phase := Done(false, Expired, Matching(ask.filter, s.ring), s.phase.evaluated)) else s
    case Push(e) =>
      var ring := Recorders.Pushed(cap, s.ring, e);
      s.(ring := ring, rings := s.rings + [ring], unnotified := s.unnotified + 1)
    case Notify =>
      if s.unnotified > 0
      then s.(unnotified := s.unnotified - 1, notifications := s.notifications + 1, phase := Signalled(s.phase)) else s
    case Clear => s.(ring := [], rings := s.rings + [[]])
    case Tick(elapsed) => s.(clock := s.clock + elapsed)
  }

  function Exec(cap: nat, ask: Ask, s: State, steps: seq<Step>): State
    decreases |steps|
  {
    if steps == [] then s else Exec(cap, ask, Apply(cap, ask, s, steps[0]), steps[1..])
  }

  /** Pending is downward closed: a count that shrinks cannot settle the assertion. */
  lemma PendingIsDownwardClosed(shape: Shape, more: nat, less: nat)
    requires less <= more && Evaluate(shape, more) == Pending
    ensures Evaluate(shape, less) == Pending
  {}

  /** Whoever counted and was not signalled since has seen all that was pushed and notified. */
  ghost predicate NothingMissed(ask: Ask, s: State) {
    match s.phase
    case Deciding(signalled, _, evaluated) =>
      !signalled && s.unnotified == 0 ==> Matching(ask.filter, s.ring) <= evaluated
    case Parked(signalled, _, evaluated) =>
      && Evaluate(ask.shape, evaluated) == Pending
      && (!signalled && s.unnotified == 0 ==> Matching(ask.filter, s.ring) <= evaluated)
    case _ => true
  }

  /** The evaluated count was the count of a ring that existed since dispatch, and decided as the phase says. */
  ghost predicate Witnessed(ask: Ask, s: State) {
    && s.rings != [] && s.rings[|s.rings| - 1] == s.ring
    && match s.phase
       case Registering => true
       case Counting(_, _) => true
       case Deciding(_, _, evaluated) => CountedSince(ask, s, evaluated)
       case Parked(_, _, evaluated) => CountedSince(ask, s, evaluated) && Evaluate(ask.shape, evaluated) == Pending
       case Expiring(evaluated) => CountedSince(ask, s, evaluated) && Evaluate(ask.shape, evaluated) == Pending
       case Done(passed, reason, reported, evaluated) =>
         && CountedSince(ask, s, evaluated) && CountedSince(ask, s, reported)
         && (passed <==> reason == Satisfied)
         && Evaluate(ask.shape, evaluated) ==
              (if reason == Satisfied then Passed else if reason == Overshoot then Verdict.Failed else Pending)
         && (passed || reason == Overshoot ==> reported == evaluated)
  }

  ghost predicate CountedSince(ask: Ask, s: State, count: nat) {
    exists i :: 0 <= i < |s.rings| && Matching(ask.filter, s.rings[i]) == count
  }

  /** Each round but the first was started by a notification. */
  predicate Budgeted(s: State) {
    match s.phase
    case Registering => s.evaluations <= s.notifications
    case Counting(signalled, _) => s.evaluations + (if signalled then 1 else 0) <= s.notifications
    case Deciding(signalled, _, _) => s.evaluations + (if signalled then 1 else 0) <= s.notifications + 1
    case Parked(signalled, _, _) => s.evaluations + (if signalled then 1 else 0) <= s.notifications + 1
    case _ => s.evaluations <= s.notifications + 1
  }

  /** A round that was begun at or after the deadline never parks. */
  predicate Prompt(ask: Ask, s: State) {
    match s.phase
    case Counting(_, begun) => begun <= s.clock
    case Deciding(_, begun, _) => begun <= s.clock
    case Parked(_, begun, _) => begun <= s.clock && !PastDeadline(ask, begun)
    case _ => true
  }

  ghost predicate Sound(ask: Ask, s: State) {
    NothingMissed(ask, s) && Witnessed(ask, s) && Budgeted(s) && Prompt(ask, s)
  }

  lemma StaysWitnessed(cap: nat, ask: Ask, s: State, step: Step)
    requires Witnessed(ask, s)
    ensures Witnessed(ask, Apply(cap, ask, s, step))
  {
    var s' := Apply(cap, ask, s, step);
    forall count | CountedSince(ask, s, count) ensures CountedSince(ask, s', count) {
      var i :| 0 <= i < |s.rings| && Matching(ask.filter, s.rings[i]) == count;
      assert s'.rings[i] == s.rings[i];
    }
    assert CountedSince(ask, s, Matching(ask.filter, s.ring));
  }

  lemma StepIsSound(cap: nat, ask: Ask, s: State, step: Step)
    requires Sound(ask, s)
    ensures Sound(ask, Apply(cap, ask, s, step))
  {
    StaysWitnessed(cap, ask, s, step);
  }

  lemma {:induction false} RunIsSound(cap: nat, ask: Ask, s: State, steps: seq<Step>)
    requires Sound(ask, s)
    ensures Sound(ask, Exec(cap, ask, s, steps))
    decreases |steps|
  {
    if steps != [] {
      StepIsSound(cap, ask, s, steps[0]);
      RunIsSound(cap, ask, Apply(cap, ask, s, steps[0]), steps[1..]);
    }
  }

  /**
   * No wakeup is lost: in every reachable state, if the asserter is parked with an unsignalled waiter and no
   * record call is between its push and its notification, then the present ring does not settle the assertion.
   */
  lemma NoLostWakeup(cap: nat, ask: Ask, ring: seq<Exchange>, unnotified: nat, clock: nat, steps: seq<Step>)
    ensures var s := Exec(cap, ask, Init(ring, unnotified, clock), steps);
            s.phase.Parked? && !s.phase.signalled && s.unnotified == 0 ==>
              Evaluate(ask.shape, Matching(ask.filter, s.ring)) == Pending
  {
    var s := Exec(cap, ask, Init(ring, unnotified, clock), steps);
    InitIsSound(ask, ring, unnotified, clock);
    RunIsSound(cap, ask, Init(ring, unnotified, clock), steps);
    if s.phase.Parked? && !s.phase.signalled && s.unnotified == 0 {
      PendingIsDownwardClosed(ask.shape, s.phase.evaluated, Matching(ask.filter, s.ring));
    }
  }

  lemma InitIsSound(ask: Ask, ring: seq<Exchange>, unnotified: nat, clock: nat)
    ensures Sound(ask, Init(ring, unnotified, clock))
  {}

  /**
   * A reply says what happened. A pass and an overshoot report the count of a ring that existed between dispatch
   * and reply and settled the shape that way; every other failure follows an evaluation that was pending.
   */
  lemma VerdictIsWitnessed(cap: nat, ask: Ask, ring: seq<Exchange>, unnotified: nat, clock: nat, steps: seq<Step>)
    ensures var s := Exec(cap, ask, Init(ring, unnotified, clock), steps);
            s.phase.Done? ==>
              && (s.phase.passed ==>
                    CountedSince(ask, s, s.phase.reported) && Evaluate(ask.shape, s.phase.reported) == Passed)
              && (s.phase.reason == Overshoot ==>
                    && !s.phase.passed
                    && CountedSince(ask, s, s.phase.reported)
                    && Evaluate(ask.shape, s.phase.reported) == Verdict.Failed)
              && (s.phase.reason == ZeroTimeout || s.phase.reason == Expired ==>
                    !s.phase.passed && Evaluate(ask.shape, s.phase.evaluated) == Pending)
  {
    InitIsSound(ask, ring, unnotified, clock);
    RunIsSound(cap, ask, Init(ring, unnotified, clock), steps);
  }

  /** What the clock and the timeout say of a reply that did not settle. */
  ghost predicate Timely(ask: Ask, s: State) {
    match s.phase
    case Parked(_, _, _) => ask.timeout != 0
    case Expiring(_) => ask.timeout != 0 && PastDeadline(ask, s.clock)
    case Done(_, reason, _, _) =>
      && (reason == ZeroTimeout ==> ask.timeout == 0 && s.evaluations == 1)
      && (reason == Expired ==> ask.timeout != 0 && PastDeadline(ask, s.clock))
    case _ => ask.timeout == 0 ==> s.evaluations == if s.phase.Deciding? then 1 else 0
  }

  lemma {:induction false} RunIsTimely(cap: nat, ask: Ask, s: State, steps: seq<Step>)
    requires Timely(ask, s)
    ensures Timely(ask, Exec(cap, ask, s, steps))
    decreases |steps|
  {
    if steps != [] { RunIsTimely(cap, ask, Apply(cap, ask, s, steps[0]), steps[1..]); }
  }

  /**
   * What a reply means, in any run. It passes if and only if the evaluated count is at least one, or exactly the
   * expected one; it is an overshoot if and only if the count is over the expected one; otherwise it says that a zero
   * timeout allowed a single evaluation, or that the deadline is past.
   */
  lemma ReplyMeans(cap: nat, ask: Ask, ring: seq<Exchange>, unnotified: nat, clock: nat, steps: seq<Step>)
    ensures var s := Exec(cap, ask, Init(ring, unnotified, clock), steps);
            s.phase.Done? ==>
              && (s.phase.passed <==> s.phase.reason == Satisfied)
              && (s.phase.reason == Satisfied <==>
                    match ask.shape case Seen => s.phase.evaluated >= 1 case Count(n) => s.phase.evaluated == n)
              && (s.phase.reason == Overshoot <==> ask.shape.Count? && s.phase.evaluated > ask.shape.expected)
              && (s.phase.reason == ZeroTimeout ==> ask.timeout == 0 && s.evaluations == 1)
              && (s.phase.reason == Expired ==>
                    ask.timeout != 0 && (ask.deadline.Some? ==> s.clock >= ask.deadline.value))
  {
    InitIsSound(ask, ring, unnotified, clock);
    RunIsSound(cap, ask, Init(ring, unnotified, clock), steps);
    RunIsTimely(cap, ask, Init(ring, unnotified, clock), steps);
  }

  function Places(f: Filter, ring: seq<Exchange>): set<nat> {
    set i: nat | i < |ring| && f(ring[i])
  }

  lemma PlacesGrow(f: Filter, ring: seq<Exchange>, e: Exchange)
    ensures Places(f, ring + [e]) == Places(f, ring) + if f(e) then {|ring|} else {}
  {}

  /** The count is the number of places in the ring whose exchange matches. */
  lemma {:induction false} MatchingCounts(f: Filter, ring: seq<Exchange>)
    ensures Matching(f, ring) == |Places(f, ring)|
  {
    if ring == [] {
      assert Places(f, ring) == {};
    } else {
      var n := |ring| - 1;
      MatchingCounts(f, ring[..n]);
      PlacesGrow(f, ring[..n], ring[n]);
      assert ring == ring[..n] + [ring[n]];
    }
  }

  /** A push that brings the count to what was asked for wakes the parked asserter, and it passes. */
  lemma MatchWakesAndPasses(cap: nat, ask: Ask, s: State, e: Exchange)
    requires s.phase.Parked?
    requires var count := Matching(ask.filter, Recorders.Pushed(cap, s.ring, e));
             match ask.shape case Seen => count >= 1 case Count(n) => count == n
    ensures var count := Matching(ask.filter, Recorders.Pushed(cap, s.ring, e));
            Exec(cap, ask, s, [Push(e), Notify] + [Wake, Register, TakeCount, Decide]).phase ==
            Done(true, Satisfied, count, count)
  {
    var s2 := Apply(cap, ask, Apply(cap, ask, s, Push(e)), Notify);
    assert s2.phase.Parked? && s2.phase.signalled;
    ExecTwo(cap, ask, s, Push(e), Notify);
    ExecAppend(cap, ask, s, [Push(e), Notify], [Wake, Register, TakeCount, Decide]);
    var s4 := Apply(cap, ask, Apply(cap, ask, s2, Wake), Register);
    ExecTwo(cap, ask, s2, Wake, Register);
    assert [Wake, Register, TakeCount, Decide] == [Wake, Register] + [TakeCount, Decide];
    ExecAppend(cap, ask, s2, [Wake, Register], [TakeCount, Decide]);
    ExecTwo(cap, ask, s4, TakeCount, Decide);
  }

  lemma ExecTwo(cap: nat, ask: Ask, s: State, a: Step, b: Step)
    ensures Exec(cap, ask, s, [a, b]) == Apply(cap, ask, Apply(cap, ask, s, a), b)
  {
    assert [a, b][1..] == [b] && [b][1..] == [];
    assert Exec(cap, ask, Apply(cap, ask, s, a), [b]) == Exec(cap, ask, Apply(cap, ask, Apply(cap, ask, s, a), b), []);
  }

  function AskSeen(f: Filter): Ask {
    Ask(Seen, f, 1, Some(1))
  }

  lemma NothingSeenUntilExpiry(cap: nat, f: Filter)
    ensures Exec(cap, AskSeen(f), Init([], 0, 0), [Register, TakeCount, Decide, Tick(1), Expire]) ==
            State([], 0, 1, Expiring(0), [[]], 1, 0)
  {
    var ask := AskSeen(f);
    var s2 := Apply(cap, ask, Apply(cap, ask, Init([], 0, 0), Register), TakeCount);
    assert s2 == State([], 0, 0, Deciding(false, 0, 0), [[]], 1, 0);
    assert Exec(cap, ask, Init([], 0, 0), [Register, TakeCount, Decide, Tick(1), Expire]) ==
           Exec(cap, ask, s2, [Decide, Tick(1), Expire]);
    var s4 := Apply(cap, ask, Apply(cap, ask, s2, Decide), Tick(1));
    assert s4 == State([], 0, 1, Parked(false, 0, 0), [[]], 1, 0);
    assert Exec(cap, ask, s2, [Decide, Tick(1), Expire]) == Exec(cap, ask, s4, [Expire]);
    assert Exec(cap, ask, s4, [Expire]) == Apply(cap, ask, s4, Expire);
  }

  lemma PushBeforeFinalCount(cap: nat, f: Filter, e: Exchange)
    requires cap > 0 && f(e)
    ensures Exec(cap, AskSeen(f), State([], 0, 1, Expiring(0), [[]], 1, 0), [Push(e), FinalCount]).phase ==
            Done(false, Expired, 1, 0)
  {
    var s0 := State([], 0, 1, Expiring(0), [[]], 1, 0);
    var s := Apply(cap, AskSeen(f), s0, Push(e));
    assert [Push(e), FinalCount][1..] == [FinalCount] && [FinalCount][1..] == [];
    assert Exec(cap, AskSeen(f), s0, [Push(e), FinalCount]) == Exec(cap, AskSeen(f), s, [FinalCount]);
    assert s.ring == [e] && s.phase == Expiring(0);
    assert [e][..0] == [];
    assert Matching(f, s.ring) == 1;
    assert Exec(cap, AskSeen(f), s, [FinalCount]) == Apply(cap, AskSeen(f), s, FinalCount);
  }

  /** A matching exchange that comes after the timer and before the final count: the reply shows it and fails. */
  lemma LateMatchStillFails(cap: nat, f: Filter, e: Exchange)
    requires cap > 0 && f(e)
    ensures Exec(cap, AskSeen(f), Init([], 0, 0),
                 [Register, TakeCount, Decide, Tick(1), Expire] + [Push(e), FinalCount]).phase ==
            Done(false, Expired, 1, 0)
    ensures Evaluate(Seen, 1) == Passed
  {
    NothingSeenUntilExpiry(cap, f);
    PushBeforeFinalCount(cap, f, e);
    ExecAppend(cap, AskSeen(f), Init([], 0, 0), [Register, TakeCount, Decide, Tick(1), Expire], [Push(e), FinalCount]);
  }

  lemma {:induction false} ExecAppend(cap: nat, ask: Ask, s: State, a: seq<Step>, b: seq<Step>)
    ensures Exec(cap, ask, s, a + b) == Exec(cap, ask, Exec(cap, ask, s, a), b)
    decreases |a|
  {
    if a == [] {
      assert a + b == b;
    } else {
      assert (a + b)[1..] == a[1..] + b;
      ExecAppend(cap, ask, Apply(cap, ask, s, a[0]), a[1..], b);
    }
  }

  /**
   * When that happens, in any run: the step that replies gives a failure whose reported count passes if and only if
   * it is the final count after the timer, and the ring at that step settles the shape.
   */
  lemma FailsThoughPassingIff(
      cap: nat, ask: Ask, ring: seq<Exchange>, unnotified: nat, clock: nat, steps: seq<Step>, last: Step)
    requires var s := Exec(cap, ask, Init(ring, unnotified, clock), steps);
             !s.phase.Done? && Apply(cap, ask, s, last).phase.Done?
    ensures var s := Exec(cap, ask, Init(ring, unnotified, clock), steps);
            var reply := Apply(cap, ask, s, last).phase;
            !reply.passed && Evaluate(ask.shape, reply.reported) == Passed
            <==> last == FinalCount && Evaluate(ask.shape, Matching(ask.filter, s.ring)) == Passed
  {}

  /** The timer is about to fire, or has fired, and nothing has matched that the last evaluation did not see. */
  ghost predicate NothingNew(ask: Ask, s: State) {
    match s.phase
    case Expiring(evaluated) =>
      Evaluate(ask.shape, evaluated) == Pending && Matching(ask.filter, s.ring) <= evaluated
    case Done(_, _, reported, _) => Evaluate(ask.shape, reported) == Pending
    case _ => false
  }

  lemma {:induction false} NothingNewStays(cap: nat, ask: Ask, s: State, steps: seq<Step>)
    requires NothingNew(ask, s)
    requires forall i :: 0 <= i < |steps| ==> !steps[i].Push?
    ensures NothingNew(ask, Exec(cap, ask, s, steps))
    decreases |steps|
  {
    if steps != [] {
      if s.phase.Expiring? && steps[0] == FinalCount {
        PendingIsDownwardClosed(ask.shape, s.phase.evaluated, Matching(ask.filter, s.ring));
      }
      NothingNewStays(cap, ask, Apply(cap, ask, s, steps[0]), steps[1..]);
    }
  }

  /**
   * Where the contradiction comes from, in any run: if no record call is between its push and its notification when
   * the timer fires, and nothing is pushed from then on, the count that a timed-out reply reports is pending too.
   */
  lemma QuietTimeoutReportsPending(
      cap: nat, ask: Ask, ring: seq<Exchange>, unnotified: nat, clock: nat, before: seq<Step>, after: seq<Step>)
    requires var s := Exec(cap, ask, Init(ring, unnotified, clock), before);
             s.unnotified == 0 && s.phase.Parked? && Apply(cap, ask, s, Expire).phase.Expiring?
    requires forall i :: 0 <= i < |after| ==> !after[i].Push?
    ensures var s := Exec(cap, ask, Init(ring, unnotified, clock), before);
            var s' := Exec(cap, ask, Apply(cap, ask, s, Expire), after);
            s'.phase.Done? ==> !s'.phase.passed && Evaluate(ask.shape, s'.phase.reported) == Pending
  {
    var s := Exec(cap, ask, Init(ring, unnotified, clock), before);
    InitIsSound(ask, ring, unnotified, clock);
    RunIsSound(cap, ask, Init(ring, unnotified, clock), before);
    NothingNewStays(cap, ask, Apply(cap, ask, s, Expire), after);
    StaysExpired(cap, ask, Apply(cap, ask, s, Expire), after);
  }

  lemma {:induction false} StaysExpired(cap: nat, ask: Ask, s: State, steps: seq<Step>)
    requires s.phase.Expiring? || (s.phase.Done? && !s.phase.passed)
    ensures var p := Exec(cap, ask, s, steps).phase; p.Expiring? || (p.Done? && !p.passed)
    decreases |steps|
  {
    if steps != [] { StaysExpired(cap, ask, Apply(cap, ask, s, steps[0]), steps[1..]); }
  }

  /** A reply is final. */
  lemma {:induction false} ReplyIsFinal(cap: nat, ask: Ask, s: State, steps: seq<Step>)
    requires s.phase.Done?
    ensures Exec(cap, ask, s, steps).phase == s.phase
    decreases |steps|
  {
    if steps != [] { ReplyIsFinal(cap, ask, Apply(cap, ask, s, steps[0]), steps[1..]); }
  }

  /** The loop evaluates at most once more than it was notified. */
  lemma EvaluationsAreBounded(cap: nat, ask: Ask, ring: seq<Exchange>, unnotified: nat, clock: nat, steps: seq<Step>)
    ensures var s := Exec(cap, ask, Init(ring, unnotified, clock), steps); s.evaluations <= 1 + s.notifications
  {
    InitIsSound(ask, ring, unnotified, clock);
    RunIsSound(cap, ask, Init(ring, unnotified, clock), steps);
  }

  /** In a round begun past the deadline, or after it, at most `limit` evaluations in all. */
  ghost predicate LastRound(ask: Ask, s: State, limit: nat) {
    match s.phase
    case Registering => false
    case Counting(_, begun) => PastDeadline(ask, begun) && begun <= s.clock && s.evaluations < limit
    case Deciding(_, begun, _) => PastDeadline(ask, begun) && begun <= s.clock && s.evaluations <= limit
    case Parked(_, _, _) => false
    case Expiring(_) => s.evaluations <= limit
    case Done(_, _, _, _) => s.evaluations <= limit
  }

  /** An evaluation begun at or after the deadline is the last one, whatever is pushed and notified meanwhile. */
  lemma {:induction false} LateEvaluationIsLast(cap: nat, ask: Ask, s: State, steps: seq<Step>, limit: nat)
    requires LastRound(ask, s, limit)
    ensures Exec(cap, ask, s, steps).evaluations <= limit
    ensures LastRound(ask, Exec(cap, ask, s, steps), limit)
    decreases |steps|
  {
    if steps != [] {
      LateEvaluationIsLast(cap, ask, Apply(cap, ask, s, steps[0]), steps[1..], limit);
    }
  }

  // Past the deadline, the asserter needs only its own steps to reply.

  function Rank(p: Phase): nat {
    match p
    case Done(_, _, _, _) => 0
    case Expiring(_) => 1
    case Deciding(_, _, _) => 1
    case Counting(_, _) => 2
    case Registering => 3
    case Parked(signalled, _, _) => if signalled then 4 else 5
  }

  /** The asserter's own next step. */
  function Next(s: State): Step {
    match s.phase
    case Registering => Register
    case Counting(_, _) => TakeCount
    case Deciding(_, _, _) => Decide
    case Parked(signalled, _, _) => if signalled then Wake else Expire
    case Expiring(_) => FinalCount
    case Done(_, _, _, _) => Tick(0)
  }

  /** How many steps of a run were the asserter's own next step. */
  function OwnSteps(cap: nat, ask: Ask, s: State, steps: seq<Step>): nat
    decreases |steps|
  {
    if steps == [] then 0
    else (if steps[0] == Next(s) then 1 else 0) + OwnSteps(cap, ask, Apply(cap, ask, s, steps[0]), steps[1..])
  }

  lemma PastDeadlineProgress(cap: nat, ask: Ask, s: State, step: Step)
    requires PastDeadline(ask, s.clock)
    ensures var s' := Apply(cap, ask, s, step);
            && PastDeadline(ask, s'.clock)
            && Rank(s'.phase) <= Rank(s.phase)
            && (step == Next(s) && !s.phase.Done? ==> Rank(s'.phase) < Rank(s.phase))
  {}

  /** Past the deadline, five of its own steps are enough for a reply, however others interleave. */
  lemma {:induction false} RepliesAfterDeadline(cap: nat, ask: Ask, s: State, steps: seq<Step>)
    requires PastDeadline(ask, s.clock) && OwnSteps(cap, ask, s, steps) >= Rank(s.phase)
    ensures Exec(cap, ask, s, steps).phase.Done?
    decreases |steps|
  {
    if steps != [] {
      PastDeadlineProgress(cap, ask, s, steps[0]);
      RepliesAfterDeadline(cap, ask, Apply(cap, ask, s, steps[0]), steps[1..]);
    }
  }

  // Overshoot, and what brings a count back down.

  datatype Change = Pushes(e: Exchange) | Clears

  function Change1(cap: nat, ring: seq<Exchange>, c: Change): seq<Exchange> {
    match c
    case Pushes(e) => Recorders.Pushed(cap, ring, e)
    case Clears => []
  }

  function ChangeAll(cap: nat, ring: seq<Exchange>, cs: seq<Change>): seq<Exchange> {
    if cs == [] then ring else Change1(cap, ChangeAll(cap, ring, cs[..|cs| - 1]), cs[|cs| - 1])
  }

  /** The matching exchanges that came in. */
  function Gained(cap: nat, f: Filter, cs: seq<Change>): nat {
    if cs == [] then 0
    else
      var c := cs[|cs| - 1];
      Gained(cap, f, cs[..|cs| - 1]) + (if c.Pushes? && cap != 0 && f(c.e) then 1 else 0)
  }

  /** The matching exchanges that were evicted or cleared. */
  function Lost(cap: nat, f: Filter, ring: seq<Exchange>, cs: seq<Change>): nat {
    if cs == [] then 0
    else
      var before := ChangeAll(cap, ring, cs[..|cs| - 1]);
      Lost(cap, f, ring, cs[..|cs| - 1]) +
      match cs[|cs| - 1]
      case Pushes(_) => if cap != 0 && |before| >= cap then Matching(f, before[..|before| - (cap - 1)]) else 0
      case Clears => Matching(f, before)
  }

  lemma {:induction false} MatchingAppend(f: Filter, a: seq<Exchange>, b: seq<Exchange>)
    ensures Matching(f, a + b) == Matching(f, a) + Matching(f, b)
  {
    if b == [] {
      assert a + b == a;
    } else {
      assert (a + b)[..|a| + |b| - 1] == a + b[..|b| - 1];
      MatchingAppend(f, a, b[..|b| - 1]);
    }
  }

  lemma PushBalance(cap: nat, f: Filter, ring: seq<Exchange>, e: Exchange)
    requires cap != 0
    ensures Matching(f, Recorders.Pushed(cap, ring, e)) +
              (if |ring| >= cap then Matching(f, ring[..|ring| - (cap - 1)]) else 0) ==
            Matching(f, ring) + if f(e) then 1 else 0
  {
    var kept := Recorders.LastOf(cap - 1, ring);
    assert (kept + [e])[..|kept|] == kept;
    if |ring| >= cap {
      assert ring == ring[..|ring| - (cap - 1)] + kept;
      MatchingAppend(f, ring[..|ring| - (cap - 1)], kept);
    }
  }

  /** Conservation: what matches now and what was lost is what matched before and what came in. */
  lemma {:induction false} CountIsConserved(cap: nat, f: Filter, ring: seq<Exchange>, cs: seq<Change>)
    ensures Matching(f, ChangeAll(cap, ring, cs)) + Lost(cap, f, ring, cs) == Matching(f, ring) + Gained(cap, f, cs)
  {
    if cs != [] {
      CountIsConserved(cap, f, ring, cs[..|cs| - 1]);
      var before := ChangeAll(cap, ring, cs[..|cs| - 1]);
      match cs[|cs| - 1]
      case Pushes(e) => if cap != 0 { PushBalance(cap, f, before, e); }
      case Clears =>
    }
  }

  /** How many of the exchanges that a ring holds survive `m` pushes: the newest ones, as far as the cap leaves room. */
  function Left(cap: nat, m: nat): nat {
    if m <= cap then cap - m else 0
  }

  ghost predicate AllPushes(cs: seq<Change>) {
    forall i :: 0 <= i < |cs| ==> cs[i].Pushes?
  }

  function PushedBy(cs: seq<Change>): (r: seq<Exchange>)
    requires AllPushes(cs)
    ensures |r| == |cs|
  {
    seq(|cs|, i requires 0 <= i < |cs| => cs[i].e)
  }

  lemma PushSlides(cap: nat, xs: seq<Exchange>, e: Exchange)
    ensures Recorders.Pushed(cap, Recorders.LastOf(cap, xs), e) == Recorders.LastOf(cap, xs + [e])
  {
    if cap != 0 && |xs| >= cap {
      assert Recorders.LastOf(cap, xs)[1..] == xs[|xs| - (cap - 1)..];
      assert (xs + [e])[|xs| + 1 - cap..] == xs[|xs| - (cap - 1)..] + [e];
    }
  }

  lemma PushedByLast(ring: seq<Exchange>, cs: seq<Change>)
    requires AllPushes(cs) && cs != []
    ensures ring + PushedBy(cs) == ring + PushedBy(cs[..|cs| - 1]) + [cs[|cs| - 1].e]
  {}

  /** After pushes, the ring is the newest of what it held and what was pushed. */
  lemma {:induction false} PushesSlide(cap: nat, ring: seq<Exchange>, cs: seq<Change>)
    requires |ring| <= cap && AllPushes(cs)
    ensures ChangeAll(cap, ring, cs) == Recorders.LastOf(cap, ring + PushedBy(cs))
  {
    if cs == [] {
      assert ring + PushedBy(cs) == ring;
    } else {
      var n := |cs| - 1;
      PushesSlide(cap, ring, cs[..n]);
      PushedByLast(ring, cs);
      PushSlides(cap, ring + PushedBy(cs[..n]), cs[n].e);
    }
  }

  lemma NewestAreSplit(cap: nat, xs: seq<Exchange>, ys: seq<Exchange>)
    ensures Recorders.LastOf(cap, xs + ys) == Recorders.LastOf(Left(cap, |ys|), xs) + Recorders.LastOf(cap, ys)
  {
    if |ys| <= cap {
      if |xs| > cap - |ys| {
        assert (xs + ys)[|xs| + |ys| - cap..] == xs[|xs| + |ys| - cap..] + ys;
      }
    } else {
      assert (xs + ys)[|xs| + |ys| - cap..] == ys[|ys| - cap..];
    }
  }

  lemma {:induction false} MissesDoNotMatch(f: Filter, xs: seq<Exchange>)
    requires forall i :: 0 <= i < |xs| ==> !f(xs[i])
    ensures Matching(f, xs) == 0
  {
    if xs != [] { MissesDoNotMatch(f, xs[..|xs| - 1]); }
  }

  /** Pushes leave at least the count of what survives them, and no more if none of them matches. */
  lemma PushesCost(cap: nat, f: Filter, ring: seq<Exchange>, cs: seq<Change>)
    requires |ring| <= cap && AllPushes(cs)
    ensures Matching(f, ChangeAll(cap, ring, cs)) >= Matching(f, Recorders.LastOf(Left(cap, |cs|), ring))
    ensures (forall i :: 0 <= i < |cs| ==> !f(cs[i].e)) ==>
              Matching(f, ChangeAll(cap, ring, cs)) == Matching(f, Recorders.LastOf(Left(cap, |cs|), ring))
  {
    var newest := Recorders.LastOf(cap, PushedBy(cs));
    PushesSlide(cap, ring, cs);
    NewestAreSplit(cap, ring, PushedBy(cs));
    MatchingAppend(f, Recorders.LastOf(Left(cap, |cs|), ring), newest);
    if forall i :: 0 <= i < |cs| ==> !f(cs[i].e) {
      MissesDoNotMatch(f, newest);
    }
  }

  function Repeated(e: Exchange, m: nat): (r: seq<Change>)
    ensures |r| == m && AllPushes(r) && forall i :: 0 <= i < m ==> r[i] == Pushes(e)
  {
    seq(m, i => Pushes(e))
  }

  lemma MissesReachTheFloor(cap: nat, f: Filter, ring: seq<Exchange>, m: nat, miss: Exchange)
    requires |ring| <= cap && !f(miss)
    ensures Matching(f, ChangeAll(cap, ring, Repeated(miss, m))) == Matching(f, Recorders.LastOf(Left(cap, m), ring))
  {
    PushesCost(cap, f, ring, Repeated(miss, m));
  }

  /**
   * The comment in the source says that an overshoot cannot come back down. Exactly: whatever the next `m` exchanges
   * are, the count stays above `expected` if and only if the newest exchanges in the ring, those for which the cap
   * will still have room, are above it by themselves. `miss` is some exchange that does not match.
   */
  lemma OvershootSurvivesPushesIff(cap: nat, f: Filter, ring: seq<Exchange>, m: nat, expected: nat, miss: Exchange)
    requires |ring| <= cap && !f(miss)
    ensures (forall cs :: |cs| == m && AllPushes(cs) ==> Matching(f, ChangeAll(cap, ring, cs)) > expected)
            <==> Matching(f, Recorders.LastOf(Left(cap, m), ring)) > expected
  {
    var floor := Matching(f, Recorders.LastOf(Left(cap, m), ring));
    MissesReachTheFloor(cap, f, ring, m, miss);
    forall cs | |cs| == m && AllPushes(cs) ensures Matching(f, ChangeAll(cap, ring, cs)) >= floor {
      PushesCost(cap, f, ring, cs);
    }
  }

  /** A clear ends any overshoot: with clears allowed, none is certain to outlast even one change. */
  lemma ClearEndsOvershoot(cap: nat, f: Filter, ring: seq<Exchange>, cs: seq<Change>, expected: nat)
    ensures Evaluate(Count(expected), Matching(f, ChangeAll(cap, ring, cs + [Clears]))) != Verdict.Failed
  {
    assert (cs + [Clears])[..|cs|] == cs;
  }

  /** What a run of the engine does to the ring. */
  function Changes(steps: seq<Step>): seq<Change> {
    if steps == [] then []
    else
      (match steps[0]
       case Push(e) => [Pushes(e)]
       case Clear => [Clears]
       case _ => []) + Changes(steps[1..])
  }

  lemma ChangeLast(cap: nat, ring: seq<Exchange>, cs: seq<Change>, c: Change)
    ensures ChangeAll(cap, ring, cs + [c]) == Change1(cap, ChangeAll(cap, ring, cs), c)
  {
    assert (cs + [c])[..|cs|] == cs;
  }

  lemma {:induction false} ChangeFirst(cap: nat, ring: seq<Exchange>, c: Change, cs: seq<Change>)
    ensures ChangeAll(cap, ring, [c] + cs) == ChangeAll(cap, Change1(cap, ring, c), cs)
  {
    if cs == [] {
      assert [c] + cs == [c] && [c][..0] == [];
    } else {
      var n := |cs| - 1;
      ChangeFirst(cap, ring, c, cs[..n]);
      assert [c] + cs == [c] + cs[..n] + [cs[n]];
      ChangeLast(cap, ring, [c] + cs[..n], cs[n]);
    }
  }

  /** The asserter only reads: in any run the ring changes by the pushes and clears of others, and by nothing else. */
  lemma {:induction false} RingIsChanged(cap: nat, ask: Ask, s: State, steps: seq<Step>)
    ensures Exec(cap, ask, s, steps).ring == ChangeAll(cap, s.ring, Changes(steps))
    decreases |steps|
  {
    if steps != [] {
      RingIsChanged(cap, ask, Apply(cap, ask, s, steps[0]), steps[1..]);
      match steps[0]
      case Push(e) => ChangeFirst(cap, s.ring, Pushes(e), Changes(steps[1..]));
      case Clear => ChangeFirst(cap, s.ring, Clears, Changes(steps[1..]));
      case _ => assert [] + Changes(steps[1..]) == Changes(steps[1..]);
    }
  }

  lemma {:induction false} NothingLostWithinCap(cap: nat, f: Filter, ring: seq<Exchange>, cs: seq<Change>)
    requires forall i :: 0 <= i < |cs| ==> cs[i].Pushes?
    requires |ring| + |cs| <= cap
    ensures Lost(cap, f, ring, cs) == 0
    ensures |ChangeAll(cap, ring, cs)| == |ring| + |cs|
  {
    if cs != [] { NothingLostWithinCap(cap, f, ring, cs[..|cs| - 1]); }
  }

  /** While nothing is cleared and the pushes stay within the cap, the count only grows: overshoot is permanent. */
  lemma OvershootIsPermanentWithinCap(cap: nat, f: Filter, ring: seq<Exchange>, cs: seq<Change>, expected: nat)
    requires forall i :: 0 <= i < |cs| ==> cs[i].Pushes?
    requires |ring| + |cs| <= cap
    ensures Matching(f, ChangeAll(cap, ring, cs)) >= Matching(f, ring)
    ensures Evaluate(Count(expected), Matching(f, ring)) == Verdict.Failed ==>
              Evaluate(Count(expected), Matching(f, ChangeAll(cap, ring, cs))) == Verdict.Failed
  {
    NothingLostWithinCap(cap, f, ring, cs);
    CountIsConserved(cap, f, ring, cs);
  }

  /** One eviction is enough for an overshot assertion to become satisfied. */
  lemma EvictionBringsOvershootBack(f: Filter, hit: Exchange, miss: Exchange)
    requires f(hit) && !f(miss)
    ensures Evaluate(Count(0), Matching(f, [hit])) == Verdict.Failed
    ensures Evaluate(Count(0), Matching(f, ChangeAll(1, [hit], [Pushes(miss)]))) == Passed
  {
    assert [hit][..0] == [];
    assert ChangeAll(1, [hit], [Pushes(miss)]) == [miss];
    assert [miss][..0] == [];
  }
}
