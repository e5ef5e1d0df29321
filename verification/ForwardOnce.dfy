/** How often one key is forwarded with success. */
module ForwardOnce {
  import opened Wrappers
  import opened Collections
  import opened Recorded
  import opened Middleware
  import Replay
  import opened Listener
  import opened Dedup

  /** The step ends a forward of `k` with a response. */
  predicate Succeeds(rt: Runtime, s: State, step: Step, k: Key) {
    && step.ForwardDone? && step.reply.Ok?
    && step.id in s.requests && s.requests[step.id].Forwarding?
    && KeyOf(rt, s.requests[step.id].call) == k
  }

  ghost function Successes(rt: Runtime, s: State, steps: seq<Step>, k: Key): nat
    decreases |steps|
  {
    if steps == [] then 0
    else (if Succeeds(rt, s, steps[0], k) then 1 else 0) + Successes(rt, Apply(rt, s, steps[0]), steps[1..], k)
  }

  predicate IsOutstanding(rt: Runtime, p: Phase, k: Key) {
    p.Forwarding? && KeyOf(rt, p.original) == k
  }

  /** The response has come and is about to be recorded. */
  predicate IsDelivered(rt: Runtime, p: Phase, k: Key) {
    p.Replying? && p.source == Some(Upstream) && p.outcome.Ok? && KeyOf(rt, p.original) == k
  }

  ghost function Outstanding(rt: Runtime, s: State, k: Key): set<nat> {
    set id | id in s.requests && IsOutstanding(rt, s.requests[id], k)
  }

  ghost function Delivered(rt: Runtime, s: State, k: Key): set<nat> {
    set id | id in s.requests && IsDelivered(rt, s.requests[id], k)
  }

  /** A layer turns the response for `k` into a failure, or the connection is dropped before it is promoted. */
  predicate Loses(rt: Runtime, s: State, step: Step, k: Key) {
    || (Succeeds(rt, s, step, k) && s.requests[step.id].resume(step.reply, Some(Upstream)).Err?)
    || (step.Drop? && step.id in s.requests && IsDelivered(rt, s.requests[step.id], k))
  }

  ghost function Losses(rt: Runtime, s: State, steps: seq<Step>, k: Key): nat
    decreases |steps|
  {
    if steps == [] then 0
    else (if Loses(rt, s, steps[0], k) then 1 else 0) + Losses(rt, Apply(rt, s, steps[0]), steps[1..], k)
  }

  /**
   * Until `k` is answered, every response for it so far is in hand or lost; afterwards, those that have come and those
   * that may still come exceed the lost ones by `n` at most.
   */
  ghost predicate Bounded(rt: Runtime, s: State, k: Key, n: nat, successes: nat, losses: nat) {
    if HasAnswer(s, k) then successes + |Outstanding(rt, s, k)| <= n + losses
    else successes <= |Delivered(rt, s, k)| + losses
  }

  lemma InHandAreInFlight(rt: Runtime, s: State, k: Key)
    ensures |Outstanding(rt, s, k)| + |Delivered(rt, s, k)| <= |InFlight(rt, s, k)|
  {
    assert Outstanding(rt, s, k) !! Delivered(rt, s, k);
    FewerInSubset(Outstanding(rt, s, k) + Delivered(rt, s, k), InFlight(rt, s, k));
  }

  /** What one request's new phase does to the two sets. */
  lemma OneMoved(rt: Runtime, s: State, s': State, id: nat, p: Phase, k: Key)
    requires id in s.requests && s'.requests == s.requests[id := p]
    ensures Outstanding(rt, s', k) == Outstanding(rt, s, k) - {id} + if IsOutstanding(rt, p, k) then {id} else {}
    ensures Delivered(rt, s', k) == Delivered(rt, s, k) - {id} + if IsDelivered(rt, p, k) then {id} else {}
  {}

  lemma ForwardDoneIs(rt: Runtime, s: State, id: nat, reply: Outcome)
    requires Enabled(s, ForwardDone(id, reply))
    ensures var p := s.requests[id];
            Apply(rt, s, ForwardDone(id, reply)) ==
            Set(s, id, Replying(p.original, p.resume(reply, Some(Upstream)), Some(Upstream)))
  {}

  function One(b: bool): nat {
    if b then 1 else 0
  }

  lemma ForwardDoneStaysBounded(
      rt: Runtime, s: State, id: nat, reply: Outcome, k: Key, n: nat, successes: nat, losses: nat)
    requires KeysKept(rt, s) && Bounded(rt, s, k, n, successes, losses) && Enabled(s, ForwardDone(id, reply))
    ensures var step := ForwardDone(id, reply);
            Bounded(rt, Apply(rt, s, step), k, n,
                    successes + One(Succeeds(rt, s, step, k)), losses + One(Loses(rt, s, step, k)))
  {
    var p := s.requests[id];
    var p' := Replying(p.original, p.resume(reply, Some(Upstream)), Some(Upstream));
    assert KeepsKey(rt, p);
    ForwardDoneIs(rt, s, id, reply);
    SizesAfter(rt, s, Set(s, id, p'), id, p', k);
    if IsOutstanding(rt, p, k) { OutstandingIsCounted(rt, s, id, k); }
  }

  lemma OutstandingIsCounted(rt: Runtime, s: State, id: nat, k: Key)
    requires id in s.requests && IsOutstanding(rt, s.requests[id], k)
    ensures |Outstanding(rt, s, k)| > 0
  {
    assert id in Outstanding(rt, s, k);
  }

  lemma SizesAfter(rt: Runtime, s: State, s': State, id: nat, p: Phase, k: Key)
    requires id in s.requests && s'.requests == s.requests[id := p] && s.requests[id].Forwarding? && p.Replying?
    ensures |Outstanding(rt, s', k)| == |Outstanding(rt, s, k)| - One(IsOutstanding(rt, s.requests[id], k))
    ensures |Delivered(rt, s', k)| == |Delivered(rt, s, k)| + One(IsDelivered(rt, p, k))
  {
    OneMoved(rt, s, s', id, p, k);
    SizeOfMoved(Outstanding(rt, s, k), id, IsOutstanding(rt, p, k));
    SizeOfMoved(Delivered(rt, s, k), id, IsDelivered(rt, p, k));
  }

  lemma SizeOfMoved(a: set<nat>, id: nat, joins: bool)
    ensures |a - {id} + if joins then {id} else {}| == |a| - One(id in a) + One(joins)
  {
    if id !in a { assert a - {id} == a; }
  }

  lemma LookupStaysBounded(rt: Runtime, s: State, id: nat, k: Key, n: nat, successes: nat, losses: nat)
    requires rt.attached && KeysKept(rt, s) && Bounded(rt, s, k, n, successes, losses) && Enabled(s, Lookup(id))
    ensures Bounded(rt, Apply(rt, s, Lookup(id)), k, n, successes, losses)
  {
    var s' := Apply(rt, s, Lookup(id));
    assert KeepsKey(rt, s.requests[id]);
    LookupIs(rt, s, id);
    OnlyTheirStepTouches(rt, s, Lookup(id));
    OneMoved(rt, s, s', id, s'.requests[id], k);
    assert id !in Outstanding(rt, s, k) && id !in Delivered(rt, s, k);
  }

  /** A delivered response answers its key from its conclusion on. */
  lemma DeliveredIsPromoted(rt: Runtime, s: State, id: nat, k: Key)
    requires rt.attached && rt.recording.enabled && Enabled(s, Conclude(id)) && IsDelivered(rt, s.requests[id], k)
    ensures HasAnswer(Apply(rt, s, Conclude(id)), k)
  {
    var p := s.requests[id];
    var e := BuildExchange(rt, id, p.original, p.outcome);
    RecordedKey(rt, id, p.original, p.outcome);
    Replay.PromoteAnswersAsAppend(s.live, e, k);
    Replay.ScanAppendOne(s.live, e, k);
  }

  lemma ConcludeStaysBounded(rt: Runtime, s: State, id: nat, k: Key, n: nat, successes: nat, losses: nat)
    requires rt.attached && rt.recording.enabled && Bounded(rt, s, k, n, successes, losses)
    requires |InFlight(rt, s, k)| <= n && Enabled(s, Conclude(id))
    ensures Bounded(rt, Apply(rt, s, Conclude(id)), k, n, successes, losses)
  {
    var s' := Apply(rt, s, Conclude(id));
    InHandAreInFlight(rt, s, k);
    assert s'.requests == s.requests[id := s'.requests[id]];
    assert Outstanding(rt, s', k) == Outstanding(rt, s, k);
    if HasAnswer(s, k) {
      LiveGrows(rt, s, Conclude(id), k);
    } else if IsDelivered(rt, s.requests[id], k) {
      DeliveredIsPromoted(rt, s, id, k);
    } else {
      assert Delivered(rt, s', k) == Delivered(rt, s, k);
    }
  }

  lemma DropStaysBounded(rt: Runtime, s: State, id: nat, stored: bool, k: Key, n: nat, successes: nat, losses: nat)
    requires Bounded(rt, s, k, n, successes, losses) && Enabled(s, Drop(id, stored))
    ensures Bounded(rt, Apply(rt, s, Drop(id, stored)), k, n,
                    successes, losses + One(Loses(rt, s, Drop(id, stored), k)))
  {
    var s' := Apply(rt, s, Drop(id, stored));
    WriteFinishes(rt, s, Drop(id, stored));
    OnlyTheirStepTouches(rt, s, Drop(id, stored));
    OneMoved(rt, s, s', id, Finished, k);
    FewerInSubset(Outstanding(rt, s', k), Outstanding(rt, s, k));
  }

  lemma OtherStepsStayBounded(rt: Runtime, s: State, step: Step, k: Key, n: nat, successes: nat, losses: nat)
    requires Bounded(rt, s, k, n, successes, losses) && Enabled(s, step)
    requires !step.ForwardDone? && !step.Lookup? && !step.Conclude? && !step.Drop?
    ensures Bounded(rt, Apply(rt, s, step), k, n, successes, losses)
  {
    var s' := Apply(rt, s, step);
    OnlyTheirStepTouches(rt, s, step);
    forall id: nat
      ensures id in Outstanding(rt, s', k) ==> id in Outstanding(rt, s, k)
      ensures id in Delivered(rt, s, k) ==> id in Delivered(rt, s', k)
    {
      if Actor(step) == Some(id) {
        NeitherInHand(rt, s, step, id, k);
      } else {
        OnlyActorMoves(rt, s, step, id);
      }
    }
    FewerInSubset(Outstanding(rt, s', k), Outstanding(rt, s, k));
    FewerInSubset(Delivered(rt, s, k), Delivered(rt, s', k));
  }

  lemma NeitherInHand(rt: Runtime, s: State, step: Step, id: nat, k: Key)
    requires Enabled(s, step) && Actor(step) == Some(id)
    requires !step.ForwardDone? && !step.Lookup? && !step.Conclude? && !step.Drop?
    ensures id !in Outstanding(rt, Apply(rt, s, step), k) && id !in Delivered(rt, s, k)
  {}

  lemma StepStaysBounded(rt: Runtime, s: State, step: Step, k: Key, n: nat, successes: nat, losses: nat)
    requires rt.attached && rt.recording.enabled && KeysKept(rt, s)
    requires Bounded(rt, s, k, n, successes, losses) && |InFlight(rt, s, k)| <= n
    ensures Bounded(rt, Apply(rt, s, step), k, n,
                    successes + One(Succeeds(rt, s, step, k)), losses + One(Loses(rt, s, step, k)))
  {
    if Enabled(s, step) {
      match step
      case ForwardDone(id, reply) => ForwardDoneStaysBounded(rt, s, id, reply, k, n, successes, losses);
      case Lookup(id) => LookupStaysBounded(rt, s, id, k, n, successes, losses);
      case Conclude(id) => ConcludeStaysBounded(rt, s, id, k, n, successes, losses);
      case Drop(id, stored) => DropStaysBounded(rt, s, id, stored, k, n, successes, losses);
      case _ => OtherStepsStayBounded(rt, s, step, k, n, successes, losses);
    }
  }

  lemma {:induction false} RunStaysBounded(
      rt: Runtime, s: State, steps: seq<Step>, k: Key, n: nat, successes: nat, losses: nat)
    requires rt.attached && rt.recording.enabled && KeyPreserving(rt)
    requires KeysKept(rt, s) && Bounded(rt, s, k, n, successes, losses) && AtMostInFlight(rt, s, steps, k, n)
    ensures successes + Successes(rt, s, steps, k) <= n + losses + Losses(rt, s, steps, k)
    decreases |steps|
  {
    if steps == [] {
      InHandAreInFlight(rt, s, k);
    } else {
      StepStaysBounded(rt, s, steps[0], k, n, successes, losses);
      KeysStayKept(rt, s, steps[0]);
      RunStaysBounded(
        rt, Apply(rt, s, steps[0]), steps[1..], k, n,
        successes + One(Succeeds(rt, s, steps[0], k)), losses + One(Loses(rt, s, steps[0], k)));
    }
  }

  /**
   * If rewriting keeps keys and no more than `n` requests for `k` are ever in flight together, then over the whole run
   * the upstream answers `k` with success at most `n` times more often than such an answer is lost: once, if requests
   * for it do not overlap and none is lost. This needs no orderly medium, and other keys may overlap at will.
   */
  lemma SuccessesAreBounded(rt: Runtime, loaded: seq<Exchange>, steps: seq<Step>, k: Key, n: nat)
    requires rt.attached && rt.recording.enabled && KeyPreserving(rt)
    requires AtMostInFlight(rt, Init(rt, loaded), steps, k, n)
    ensures Successes(rt, Init(rt, loaded), steps, k) <= n + Losses(rt, Init(rt, loaded), steps, k)
  {
    assert Outstanding(rt, Init(rt, loaded), k) == {};
    RunStaysBounded(rt, Init(rt, loaded), steps, k, n, 0, 0);
  }
}
