/** The deduplicating cache under interleaving: what it guarantees per key, and what it needs for that. */
module Dedup {
  import opened Wrappers
  import opened Collections
  import opened Http
  import opened Recorded
  import opened Middleware
  import Replay
  import opened Listener

  /** Live rewriting never changes the key that a request has after redaction. */
  ghost predicate KeyPreserving(rt: Runtime) {
    forall salt, r :: Flatten(rt.chain, salt, r).Call? ==> KeyOf(rt, Flatten(rt.chain, salt, r).request) == KeyOf(rt, r)
  }

  ghost predicate LayerKeepsKey(rt: Runtime, layer: Layer) {
    forall salt, r :: layer.handle(salt, r).Call? ==> KeyOf(rt, layer.handle(salt, r).request) == KeyOf(rt, r)
  }

  lemma {:induction false} ChainKeepsKey(rt: Runtime, chain: seq<Layer>, salt: nat, r: Request)
    requires forall i :: 0 <= i < |chain| ==> LayerKeepsKey(rt, chain[i])
    requires Flatten(chain, salt, r).Call?
    ensures KeyOf(rt, Flatten(chain, salt, r).request) == KeyOf(rt, r)
  {
    if chain != [] {
      assert LayerKeepsKey(rt, chain[0]);
      match chain[0].handle(salt, r)
      case Answer(_) =>
      case Call(rewritten, _) => ChainKeepsKey(rt, chain[1..], salt, rewritten);
    }
  }

  /** It is enough that every layer by itself keeps the redacted key. */
  lemma LayersKeepKey(rt: Runtime)
    requires forall i :: 0 <= i < |rt.chain| ==> LayerKeepsKey(rt, rt.chain[i])
    ensures KeyPreserving(rt)
  {
    forall salt, r | Flatten(rt.chain, salt, r).Call?
      ensures KeyOf(rt, Flatten(rt.chain, salt, r).request) == KeyOf(rt, r)
    {
      ChainKeepsKey(rt, rt.chain, salt, r);
    }
  }

  /** The request missed the lookup for `k` and has not completed: it may still be recorded as forwarded. */
  predicate AwaitingUpstream(rt: Runtime, p: Phase, k: Key) {
    match p
    case Forwarding(original, _, _) => KeyOf(rt, original) == k
    case Replying(original, _, source) => source == Some(Upstream) && KeyOf(rt, original) == k
    case Persisting(e, source) => source == Some(Upstream) && KeyOfExchange(e) == k
    case _ => false
  }

  ghost function InFlight(rt: Runtime, s: State, k: Key): set<nat> {
    set id | id in s.requests && AwaitingUpstream(rt, s.requests[id], k)
  }

  predicate IsForwardedReply(x: Entry, k: Key) {
    x.source == Some(Upstream) && Replay.Answers(x.exchange, k)
  }

  /** How many responses for `k` that came from the upstream the recorder or the medium took. */
  function ForwardedReplies(s: State, k: Key): nat {
    Count(s.recorded, (x: Entry) => IsForwardedReply(x, k))
  }

  /** How many times `k` was sent to the upstream. */
  function Forwards(s: State, k: Key): nat {
    Count(s.forwarded, (sent: Key) => sent == k)
  }

  predicate KeepsKey(rt: Runtime, p: Phase) {
    match p
    case Scanning(original, call, _) => KeyOf(rt, call) == KeyOf(rt, original)
    case Looking(original, call, _) => KeyOf(rt, call) == KeyOf(rt, original)
    case Forwarding(original, call, _) => KeyOf(rt, call) == KeyOf(rt, original)
    case _ => true
  }

  ghost predicate KeysKept(rt: Runtime, s: State) {
    forall id :: id in s.requests ==> KeepsKey(rt, s.requests[id])
  }

  ghost predicate HasAnswer(s: State, k: Key) {
    Replay.Scan(s.live, k).Some?
  }

  /** What was recorded as forwarded, or waits to be, is answered by the live index already. */
  ghost predicate Promoted(rt: Runtime, s: State) {
    && (forall i :: 0 <= i < |s.recorded| ==> EntryPromoted(s, s.recorded[i]))
    && (forall id :: id in s.requests ==> PhasePromoted(s, s.requests[id]))
  }

  ghost predicate EntryPromoted(s: State, x: Entry) {
    x.source == Some(Upstream) && x.exchange.outcome.Answered? ==> HasAnswer(s, KeyOfExchange(x.exchange))
  }

  ghost predicate PhasePromoted(s: State, p: Phase) {
    p.Persisting? ==> EntryPromoted(s, Entry(p.exchange, p.source))
  }

  /** Every snapshot that was served for a key is what the live index still answers for it. */
  ghost predicate ServedFromIndex(s: State) {
    forall i :: 0 <= i < |s.served| ==>
      HasAnswer(s, s.served[i].0) && s.served[i].1 == AnswerFor(s, s.served[i].0)
  }

  ghost function AnswerFor(s: State, k: Key): Response
    requires HasAnswer(s, k)
  {
    Replayed(Replay.Scan(s.live, k).value.outcome.response)
  }

  lemma KeysStayKept(rt: Runtime, s: State, step: Step)
    requires KeyPreserving(rt) && KeysKept(rt, s)
    ensures KeysKept(rt, Apply(rt, s, step))
  {
    var s' := Apply(rt, s, step);
    forall id | id in s'.requests ensures KeepsKey(rt, s'.requests[id]) {
      if Actor(step) == Some(id) && Enabled(s, step) {
        MovedKeepsKey(rt, s, step, id);
      } else {
        OnlyActorMoves(rt, s, step, id);
      }
    }
  }

  lemma MovedKeepsKey(rt: Runtime, s: State, step: Step, id: nat)
    requires KeyPreserving(rt) && (id in s.requests ==> KeepsKey(rt, s.requests[id]))
    requires Actor(step) == Some(id) && Enabled(s, step)
    ensures id in Apply(rt, s, step).requests && KeepsKey(rt, Apply(rt, s, step).requests[id])
  {}

  /** The live index only grows by promotion, so an answer is permanent. */
  lemma LiveGrows(rt: Runtime, s: State, step: Step, k: Key)
    requires HasAnswer(s, k)
    ensures Replay.Scan(Apply(rt, s, step).live, k) == Replay.Scan(s.live, k)
  {
    if step.Conclude? && Enabled(s, step) {
      var p := s.requests[step.id];
      var e := BuildExchange(rt, step.id, p.original, p.outcome);
      Replay.PromoteAnswersAsAppend(s.live, e, k);
      Replay.ScanAppendOne(s.live, e, k);
    }
  }

  lemma {:induction false} LiveGrowsOverRun(rt: Runtime, s: State, steps: seq<Step>, k: Key)
    requires HasAnswer(s, k)
    ensures Replay.Scan(Exec(rt, s, steps).live, k) == Replay.Scan(s.live, k)
    decreases |steps|
  {
    if steps != [] {
      LiveGrows(rt, s, steps[0], k);
      LiveGrowsOverRun(rt, Apply(rt, s, steps[0]), steps[1..], k);
    }
  }

  lemma EntryStaysPromoted(rt: Runtime, s: State, step: Step, x: Entry)
    requires EntryPromoted(s, x)
    ensures EntryPromoted(Apply(rt, s, step), x)
  {
    if HasAnswer(s, KeyOfExchange(x.exchange)) {
      LiveGrows(rt, s, step, KeyOfExchange(x.exchange));
    }
  }

  lemma MovedIsPromoted(rt: Runtime, s: State, step: Step, id: nat)
    requires rt.attached && Actor(step) == Some(id) && Enabled(s, step)
    ensures id in Apply(rt, s, step).requests && PhasePromoted(Apply(rt, s, step), Apply(rt, s, step).requests[id])
  {
    if step.Conclude? { ConcludePromotes(rt, s, id); }
  }

  lemma StaysPromoted(rt: Runtime, s: State, step: Step)
    requires rt.attached && Promoted(rt, s)
    ensures Promoted(rt, Apply(rt, s, step))
  {
    var s' := Apply(rt, s, step);
    forall id | id in s'.requests ensures PhasePromoted(s', s'.requests[id]) {
      if Actor(step) == Some(id) && Enabled(s, step) {
        MovedIsPromoted(rt, s, step, id);
      } else {
        OnlyActorMoves(rt, s, step, id);
        assert PhasePromoted(s, s.requests[id]);
        if s.requests[id].Persisting? {
          EntryStaysPromoted(rt, s, step, Entry(s.requests[id].exchange, s.requests[id].source));
        }
      }
    }
    forall i | 0 <= i < |s'.recorded| ensures EntryPromoted(s', s'.recorded[i]) {
      OnlyTheirStepTouches(rt, s, step);
      if i < |s.recorded| {
        assert EntryPromoted(s, s.recorded[i]);
      } else {
        assert PhasePromoted(s, s.requests[step.id]);
      }
      EntryStaysPromoted(rt, s, step, s'.recorded[i]);
    }
  }

  lemma ConcludePromotes(rt: Runtime, s: State, id: nat)
    requires rt.attached && Enabled(s, Conclude(id))
    ensures PhasePromoted(Apply(rt, s, Conclude(id)), Apply(rt, s, Conclude(id)).requests[id])
  {
    var p := s.requests[id];
    var e := BuildExchange(rt, id, p.original, p.outcome);
    Replay.PromoteAnswersAsAppend(s.live, e, KeyOfExchange(e));
    Replay.ScanAppendOne(s.live, e, KeyOfExchange(e));
  }

  lemma StaysServedFromIndex(rt: Runtime, s: State, step: Step)
    requires ServedFromIndex(s)
    ensures ServedFromIndex(Apply(rt, s, step))
  {
    var s' := Apply(rt, s, step);
    OnlyTheirStepTouches(rt, s, step);
    forall i | 0 <= i < |s'.served|
      ensures HasAnswer(s', s'.served[i].0) && s'.served[i].1 == AnswerFor(s', s'.served[i].0)
    {
      if i < |s.served| {
        LiveGrows(rt, s, step, s.served[i].0);
      }
    }
  }

  ghost predicate Sound(rt: Runtime, s: State) {
    KeysKept(rt, s) && Promoted(rt, s) && ServedFromIndex(s)
  }

  lemma {:induction false} RunIsSound(rt: Runtime, s: State, steps: seq<Step>)
    requires rt.attached && KeyPreserving(rt) && Sound(rt, s)
    ensures Sound(rt, Exec(rt, s, steps))
    decreases |steps|
  {
    if steps != [] {
      StepIsSound(rt, s, steps[0]);
      RunIsSound(rt, Apply(rt, s, steps[0]), steps[1..]);
    }
  }

  /** A lookup moves its own request; it forwards exactly what the live index does not answer, and never in vain. */
  lemma LookupIs(rt: Runtime, s: State, id: nat)
    requires rt.attached && Enabled(s, Lookup(id))
    ensures var s' := Apply(rt, s, Lookup(id));
            var p := s.requests[id];
            && s'.requests == s.requests[id := s'.requests[id]]
            && (s'.requests[id].Forwarding? || (s'.requests[id].Replying? && s'.requests[id].source != Some(Upstream)))
            && (s'.requests[id].Forwarding? ==>
                  !HasAnswer(s, KeyOf(rt, p.call)) && s'.requests[id].original == p.original)
            && s'.forwarded ==
               if s'.requests[id].Forwarding? then s.forwarded + [KeyOf(rt, p.call)] else s.forwarded
  {}

  /** Once `k` is answered, a lookup for it is never a miss: it is neither sent upstream nor put in flight. */
  lemma AnsweredLookupHits(rt: Runtime, s: State, id: nat, k: Key)
    requires rt.attached && HasAnswer(s, k) && Enabled(s, Lookup(id)) && KeepsKey(rt, s.requests[id])
    ensures var s' := Apply(rt, s, Lookup(id));
            && Forwards(s', k) == Forwards(s, k)
            && !AwaitingUpstream(rt, s'.requests[id], k)
            && s'.requests == s.requests[id := s'.requests[id]]
  {
    LookupIs(rt, s, id);
    CountOneMore(s.forwarded, KeyOf(rt, s.requests[id].call), (sent: Key) => sent == k);
  }

  lemma LookupKeepsFlight(rt: Runtime, s: State, id: nat, k: Key)
    requires rt.attached && HasAnswer(s, k) && Enabled(s, Lookup(id)) && KeepsKey(rt, s.requests[id])
    ensures Forwards(Apply(rt, s, Lookup(id)), k) == Forwards(s, k)
    ensures InFlight(rt, Apply(rt, s, Lookup(id)), k) <= InFlight(rt, s, k)
  {
    AnsweredLookupHits(rt, s, id, k);
  }

  lemma AnsweredIsNotForwarded(rt: Runtime, s: State, step: Step, k: Key)
    requires rt.attached && KeysKept(rt, s) && HasAnswer(s, k)
    ensures Forwards(Apply(rt, s, step), k) == Forwards(s, k)
    ensures !step.Append? && !step.Drop? ==> InFlight(rt, Apply(rt, s, step), k) <= InFlight(rt, s, k)
  {
    if Enabled(s, step) {
      match step
      case Lookup(id) =>
        assert KeepsKey(rt, s.requests[id]);
        LookupKeepsFlight(rt, s, id, k);
      case Conclude(id) => ConclusionStaysInFlight(rt, s, id, k);
      case _ =>
    }
  }

  /** A record call, whether it ends or is dropped, finishes its request and records its own entry or nothing. */
  lemma WriteFinishes(rt: Runtime, s: State, step: Step)
    requires (step.Append? || step.Drop?) && Enabled(s, step)
    ensures var s' := Apply(rt, s, step);
            var p := s.requests[step.id];
            && s'.requests == s.requests[step.id := Finished]
            && (|| s'.recorded == s.recorded
                || (p.Persisting? && s'.recorded == s.recorded + [Entry(p.exchange, p.source)]))
  {}

  /** A record call turns one request in flight for `k` into at most one recorded response for `k`. */
  lemma WriteSpendsOne(rt: Runtime, s: State, step: Step, k: Key)
    requires (step.Append? || step.Drop?) && Enabled(s, step)
    ensures var s' := Apply(rt, s, step);
            |InFlight(rt, s', k)| + ForwardedReplies(s', k) <= |InFlight(rt, s, k)| + ForwardedReplies(s, k)
  {
    var p := s.requests[step.id];
    WriteFinishes(rt, s, step);
    FinishedIsNotInFlight(rt, s, Apply(rt, s, step), step.id, k);
    if p.Persisting? {
      CountOneMore(s.recorded, Entry(p.exchange, p.source), (x: Entry) => IsForwardedReply(x, k));
    }
  }

  lemma FinishedIsNotInFlight(rt: Runtime, s: State, s': State, id: nat, k: Key)
    requires id in s.requests && s'.requests == s.requests[id := Finished]
    ensures |InFlight(rt, s', k)| == |InFlight(rt, s, k)| - if AwaitingUpstream(rt, s.requests[id], k) then 1 else 0
  {
    if AwaitingUpstream(rt, s.requests[id], k) {
      assert InFlight(rt, s', k) == InFlight(rt, s, k) - {id};
    } else {
      assert InFlight(rt, s', k) == InFlight(rt, s, k);
    }
  }

  lemma AnsweredStepSpends(rt: Runtime, s: State, step: Step, k: Key)
    requires rt.attached && KeysKept(rt, s) && HasAnswer(s, k)
    ensures var s' := Apply(rt, s, step);
            |InFlight(rt, s', k)| + ForwardedReplies(s', k) <= |InFlight(rt, s, k)| + ForwardedReplies(s, k)
  {
    AnsweredIsNotForwarded(rt, s, step, k);
    if (step.Append? || step.Drop?) && Enabled(s, step) {
      WriteSpendsOne(rt, s, step, k);
    } else {
      FewerInSubset(InFlight(rt, Apply(rt, s, step), k), InFlight(rt, s, k));
    }
  }

  lemma {:induction false} AnsweredRunSpends(rt: Runtime, s: State, steps: seq<Step>, k: Key)
    requires rt.attached && KeyPreserving(rt) && KeysKept(rt, s) && HasAnswer(s, k)
    ensures var s' := Exec(rt, s, steps);
            && Forwards(s', k) == Forwards(s, k)
            && |InFlight(rt, s', k)| + ForwardedReplies(s', k) <= |InFlight(rt, s, k)| + ForwardedReplies(s, k)
    decreases |steps|
  {
    if steps != [] {
      AnsweredIsNotForwarded(rt, s, steps[0], k);
      AnsweredStepSpends(rt, s, steps[0], k);
      KeysStayKept(rt, s, steps[0]);
      LiveGrows(rt, s, steps[0], k);
      AnsweredRunSpends(rt, Apply(rt, s, steps[0]), steps[1..], k);
    }
  }

  /** The step that first answers `k` is the end of a forward for `k`, and it promotes that very exchange. */
  lemma FirstAnswerIsAConclusion(rt: Runtime, s: State, step: Step, k: Key)
    requires !HasAnswer(s, k) && HasAnswer(Apply(rt, s, step), k)
    ensures step.Conclude? && Enabled(s, step)
    ensures var p := s.requests[step.id];
            && p.source == Some(Upstream) && p.outcome.Ok? && KeyOf(rt, p.original) == k
            && Replay.Scan(Apply(rt, s, step).live, k) == Some(BuildExchange(rt, step.id, p.original, p.outcome))
  {
    assert Apply(rt, s, step).live != s.live;
    var p := s.requests[step.id];
    var e := BuildExchange(rt, step.id, p.original, p.outcome);
    RecordedKey(rt, step.id, p.original, p.outcome);
    Replay.PromoteAnswersAsAppend(s.live, e, k);
    Replay.ScanAppendOne(s.live, e, k);
  }

  lemma UnansweredIsUnrecorded(rt: Runtime, s: State, k: Key)
    requires Promoted(rt, s) && !HasAnswer(s, k)
    ensures ForwardedReplies(s, k) == 0
  {
    forall i | 0 <= i < |s.recorded| ensures !IsForwardedReply(s.recorded[i], k) {
      assert EntryPromoted(s, s.recorded[i]);
    }
    NoneCounted(s.recorded, (x: Entry) => IsForwardedReply(x, k));
  }

  lemma ConclusionStaysInFlight(rt: Runtime, s: State, id: nat, k: Key)
    requires Enabled(s, Conclude(id))
    ensures var s' := Apply(rt, s, Conclude(id));
            && InFlight(rt, s', k) <= InFlight(rt, s, k)
            && s'.recorded == s.recorded && s'.forwarded == s.forwarded
  {
    var p := s.requests[id];
    RecordedKey(rt, id, p.original, p.outcome);
  }

  lemma InitIsSound(rt: Runtime, loaded: seq<Exchange>)
    ensures Sound(rt, Init(rt, loaded))
  {}

  /**
   * The concurrent deduplication bound. Take any run in which `first` is the step that first answers `k`. After
   * it `k` is never sent upstream again; over the whole run, the responses for `k` recorded from the upstream are
   * at most as many as the requests that had missed `k` and not completed when it came; and every snapshot served
   * for `k` is the response that `first` promoted.
   */
  lemma DedupBound(rt: Runtime, loaded: seq<Exchange>, before: seq<Step>, first: Step, after: seq<Step>, k: Key)
    requires rt.attached && KeyPreserving(rt)
    requires !HasAnswer(Exec(rt, Init(rt, loaded), before), k)
    requires HasAnswer(Apply(rt, Exec(rt, Init(rt, loaded), before), first), k)
    ensures var s0 := Exec(rt, Init(rt, loaded), before);
            var s := Exec(rt, Apply(rt, s0, first), after);
            && Forwards(s, k) == Forwards(s0, k)
            && ForwardedReplies(s, k) <= |InFlight(rt, s0, k)|
            && first.Conclude? && Enabled(s0, first)
            && var p := s0.requests[first.id];
               var promoted := BuildExchange(rt, first.id, p.original, p.outcome);
               && promoted.outcome.Answered?
               && forall i :: 0 <= i < |s.served| && s.served[i].0 == k ==>
                    s.served[i].1 == Replayed(promoted.outcome.response)
  {
    var s0 := Exec(rt, Init(rt, loaded), before);
    var s1 := Apply(rt, s0, first);
    InitIsSound(rt, loaded);
    RunIsSound(rt, Init(rt, loaded), before);
    FirstAnswerIsAConclusion(rt, s0, first, k);
    UnansweredIsUnrecorded(rt, s0, k);
    ConclusionStaysInFlight(rt, s0, first.id, k);
    FewerInSubset(InFlight(rt, s1, k), InFlight(rt, s0, k));
    StepIsSound(rt, s0, first);
    AnsweredRunSpends(rt, s1, after, k);
    RunIsSound(rt, s1, after);
    LiveGrowsOverRun(rt, s1, after, k);
  }

  /** At no moment of the run are there more than `n` requests in flight for `k`. */
  ghost predicate AtMostInFlight(rt: Runtime, s: State, steps: seq<Step>, k: Key, n: nat)
    decreases |steps|
  {
    && |InFlight(rt, s, k)| <= n
    && (steps != [] ==> AtMostInFlight(rt, Apply(rt, s, steps[0]), steps[1..], k, n))
  }

  /** The replies recorded so far, and those that may still come, fit into `n` once `k` is answered. */
  ghost predicate Within(rt: Runtime, s: State, k: Key, n: nat) {
    HasAnswer(s, k) ==> |InFlight(rt, s, k)| + ForwardedReplies(s, k) <= n
  }

  lemma StaysWithin(rt: Runtime, s: State, step: Step, k: Key, n: nat)
    requires rt.attached && Sound(rt, s) && Within(rt, s, k, n) && |InFlight(rt, s, k)| <= n
    ensures Within(rt, Apply(rt, s, step), k, n)
  {
    if HasAnswer(s, k) {
      AnsweredStepSpends(rt, s, step, k);
    } else if HasAnswer(Apply(rt, s, step), k) {
      FirstAnswerIsAConclusion(rt, s, step, k);
      UnansweredIsUnrecorded(rt, s, k);
      ConclusionStaysInFlight(rt, s, step.id, k);
      FewerInSubset(InFlight(rt, Apply(rt, s, step), k), InFlight(rt, s, k));
    }
  }

  lemma StepIsSound(rt: Runtime, s: State, step: Step)
    requires rt.attached && KeyPreserving(rt) && Sound(rt, s)
    ensures Sound(rt, Apply(rt, s, step))
  {
    KeysStayKept(rt, s, step);
    StaysPromoted(rt, s, step);
    StaysServedFromIndex(rt, s, step);
  }

  lemma {:induction false} OverlapBoundsRun(rt: Runtime, s: State, steps: seq<Step>, k: Key, n: nat)
    requires rt.attached && KeyPreserving(rt) && Sound(rt, s) && Within(rt, s, k, n)
    requires AtMostInFlight(rt, s, steps, k, n)
    ensures ForwardedReplies(Exec(rt, s, steps), k) <= n
    decreases |steps|
  {
    if steps == [] {
      if !HasAnswer(s, k) { UnansweredIsUnrecorded(rt, s, k); }
    } else {
      StepIsSound(rt, s, steps[0]);
      StaysWithin(rt, s, steps[0], k, n);
      OverlapBoundsRun(rt, Apply(rt, s, steps[0]), steps[1..], k, n);
    }
  }

  /**
   * The recorded responses for a key never outnumber the requests for it that were in flight together: without
   * overlap the upstream's response is recorded once.
   */
  lemma OverlapBoundsReplies(rt: Runtime, loaded: seq<Exchange>, steps: seq<Step>, k: Key, n: nat)
    requires rt.attached && KeyPreserving(rt) && AtMostInFlight(rt, Init(rt, loaded), steps, k, n)
    ensures ForwardedReplies(Exec(rt, Init(rt, loaded), steps), k) <= n
  {
    InitIsSound(rt, loaded);
    OverlapBoundsRun(rt, Init(rt, loaded), steps, k, n);
  }

  /** A key that the medium answered at start is never sent upstream in any run. */
  lemma LoadedKeyIsNeverForwarded(rt: Runtime, loaded: seq<Exchange>, steps: seq<Step>, k: Key)
    requires rt.attached && KeyPreserving(rt) && Replay.Scan(loaded, k).Some?
    ensures Forwards(Exec(rt, Init(rt, loaded), steps), k) == 0
  {
    AnsweredRunSpends(rt, Init(rt, loaded), steps, k);
  }

  /** In Replay mode, whatever the chain, the stubs and the interleaving, nothing is ever sent upstream. */
  lemma {:induction false} ReplayModeNeverForwards(rt: Runtime, s: State, steps: seq<Step>)
    requires rt.mode.ReplayMode?
    requires s.forwarded == [] && forall id :: id in s.requests ==> !s.requests[id].Forwarding?
    ensures Exec(rt, s, steps).forwarded == []
    ensures forall id :: id in Exec(rt, s, steps).requests ==> !Exec(rt, s, steps).requests[id].Forwarding?
    decreases |steps|
  {
    if steps != [] {
      ReplayModeNeverForwards(rt, Apply(rt, s, steps[0]), steps[1..]);
    }
  }

  /**
   * Why the rewriting must keep the key: after a request was forwarded and recorded alone, the same request is
   * answered from the snapshot exactly when the key it is looked up under is the key it was recorded under.
   */
  lemma RepeatIsReplayedIffKeyKept(
      rt: Runtime, s: State, id: nat, r: Request, salt: nat, reply: Middleware.Outcome, stored: bool)
    requires rt.attached && rt.recording.enabled && rt.mode.RecordMode?
    requires id !in s.requests && s.stubs == [] && Flatten(rt.chain, salt, r).Call?
    requires !HasAnswer(s, KeyOf(rt, Flatten(rt.chain, salt, r).request))
    requires Flatten(rt.chain, salt, r).resume(reply, Some(Upstream)).Ok?
    ensures var call := Flatten(rt.chain, salt, r).request;
            HasAnswer(Exec(rt, s, Schedule(id, r, salt, reply, stored)), KeyOf(rt, call))
            <==> KeyOf(rt, call) == KeyOf(rt, r)
  {
    var Call(call, resume) := Flatten(rt.chain, salt, r);
    var outcome := resume(reply, Some(Upstream));
    var e := BuildExchange(rt, id, r, outcome);
    MissRunsAlone(rt, s, id, r, salt, reply, stored);
    assert Exec(rt, s, Schedule(id, r, salt, reply, stored)).live == Replay.Promote(s.live, e);
    RecordedKey(rt, id, r, outcome);
    Replay.PromoteAnswersAsAppend(s.live, e, KeyOf(rt, call));
    Replay.ScanAppendOne(s.live, e, KeyOf(rt, call));
  }

  /** A layer that marks the method of live requests and leaves recorded ones alone. */
  function Marking(): Layer {
    Layer((salt, r: Request) => Call(r.(verb := r.verb + "+"), (outcome, source) => outcome), r => r, r => r)
  }

  lemma MarkingRedactsNothing(rt: Runtime, r: Request)
    requires rt.chain == [Marking()]
    ensures KeyOf(rt, r).verb == r.verb
  {
    assert rt.chain[1..] == [];
    assert RedactedRequest(rt.chain, r) == RedactedRequest([], rt.chain[0].redactRequest(r));
  }

  /** Under it the key is not kept: what was forwarded and recorded alone misses again. */
  lemma MarkingLayerMissesAgain(rt: Runtime, s: State, id: nat, r: Request, salt: nat, a: Response, stored: bool)
    requires rt.attached && rt.recording.enabled && rt.mode.RecordMode? && rt.chain == [Marking()]
    requires id !in s.requests && s.stubs == [] && !HasAnswer(s, KeyOf(rt, r.(verb := r.verb + "+")))
    ensures Flatten(rt.chain, salt, r).Call? && Flatten(rt.chain, salt, r).request == r.(verb := r.verb + "+")
    ensures !HasAnswer(Exec(rt, s, Schedule(id, r, salt, Ok(a), stored)), KeyOf(rt, r.(verb := r.verb + "+")))
  {
    var call := r.(verb := r.verb + "+");
    assert rt.chain[1..] == [];
    assert Flatten([], salt, call).request == call;
    MarkingRedactsNothing(rt, r);
    MarkingRedactsNothing(rt, call);
    RepeatIsReplayedIffKeyKept(rt, s, id, r, salt, Ok(a), stored);
  }
}
