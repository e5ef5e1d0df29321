/** What a restart over the same medium answers for a key, compared with what the running index answers. */
module Restart {
  import opened Wrappers
  import opened Collections
  import opened Http
  import opened Recorded
  import opened Middleware
  import Replay
  import Recorders
  import opened Listener
  import Dedup

  function Exchanges(xs: seq<Entry>): (r: seq<Exchange>)
    ensures |r| == |xs|
  {
    seq(|xs|, i requires 0 <= i < |xs| => xs[i].exchange)
  }

  /** The medium of the upstream, which a restart loads. */
  ghost function Medium(rt: Runtime, s: State): seq<Exchange> {
    if rt.name in s.recorder.media then s.recorder.media[rt.name] else []
  }

  ghost function Reloaded(rt: Runtime, s: State, k: Key): Option<Exchange> {
    Replay.Scan(Medium(rt, s), k)
  }

  ghost predicate Writing(s: State, id: nat) {
    id in s.requests && s.requests[id].Persisting?
  }

  ghost predicate Quiet(s: State) {
    forall id :: !Writing(s, id)
  }

  ghost predicate Routed(rt: Runtime, s: State) {
    && s.recorder.media.Keys == {rt.name}
    && forall id :: Writing(s, id) ==> rt.recording.enabled && s.requests[id].exchange.upstream == Some(rt.name)
  }

  ghost predicate Settled(s: State, id: nat) {
    id in s.requests && s.requests[id].Finished?
  }

  ghost predicate DistinctIds(xs: seq<Entry>) {
    forall i, j :: 0 <= i < j < |xs| ==> xs[i].exchange.id != xs[j].exchange.id
  }

  /** What was promoted is what its request is recording, or the request is finished. */
  ghost predicate InHand(s: State, e: Exchange) {
    e.id in s.requests && (s.requests[e.id].Finished? || s.requests[e.id] == Persisting(e, Some(Upstream)))
  }

  predicate Forwarded(x: Entry) {
    x.source == Some(Upstream) && x.exchange.outcome.Answered?
  }

  ghost function PendingEntry(p: Phase): Entry
    requires p.Persisting?
  {
    Entry(p.exchange, p.source)
  }

  /** A request promotes and records one exchange at most, the same one, and promotes what it forwarded. */
  ghost predicate Matched(s: State) {
    && (forall id :: Writing(s, id) ==> s.requests[id].exchange.id == id)
    && (forall id :: Writing(s, id) && Forwarded(PendingEntry(s.requests[id])) ==>
          s.requests[id].exchange in s.promoted)
    && (forall i :: 0 <= i < |s.promoted| ==> InHand(s, s.promoted[i]))
    && (forall j :: 0 <= j < |s.recorded| ==> Settled(s, s.recorded[j].exchange.id))
    && (forall j :: 0 <= j < |s.recorded| && Forwarded(s.recorded[j]) ==> s.recorded[j].exchange in s.promoted)
    && DistinctIds(s.recorded)
    && OneEach(s)
  }

  ghost predicate OneEach(s: State) {
    forall i, j :: 0 <= i < |s.promoted| && 0 <= j < |s.recorded| && s.promoted[i].id == s.recorded[j].exchange.id ==>
      s.recorded[j] == Entry(s.promoted[i], Some(Upstream))
  }

  /** The live index is the loaded exchanges and what was promoted; the medium is those and what was recorded. */
  ghost predicate Accounted(rt: Runtime, s: State, loaded: seq<Exchange>) {
    && Routed(rt, s)
    && s.live == Replay.PromoteAll(loaded, s.promoted)
    && Medium(rt, s) == loaded + Exchanges(s.recorded)
    && Matched(s)
  }

  lemma StaysRouted(rt: Runtime, s: State, step: Step)
    requires Routed(rt, s)
    ensures Routed(rt, Apply(rt, s, step))
  {
    var s' := Apply(rt, s, step);
    forall id | Writing(s', id)
      ensures rt.recording.enabled && s'.requests[id].exchange.upstream == Some(rt.name)
    {
      if Actor(step) != Some(id) || !Enabled(s, step) {
        OnlyActorMoves(rt, s, step, id);
        assert Writing(s, id);
      }
    }
  }

  /** A conclusion moves its own request, and promotes exactly what it starts to record as forwarded. */
  lemma ConclusionIs(rt: Runtime, s: State, id: nat)
    requires rt.attached && Enabled(s, Conclude(id))
    ensures var s' := Apply(rt, s, Conclude(id));
            var p := s.requests[id];
            var e := BuildExchange(rt, id, p.original, p.outcome);
            && s'.recorder == s.recorder && s'.recorded == s.recorded
            && s'.requests == s.requests[id := s'.requests[id]]
            && (s'.requests[id] == Persisting(e, p.source) || s'.requests[id] == Finished)
            && if s'.requests[id].Persisting? && Forwarded(Entry(e, p.source))
               then s'.live == Replay.Promote(s.live, e) && s'.promoted == s.promoted + [e]
               else s'.live == s.live && s'.promoted == s.promoted
  {}

  /** A record call, whether it ends or is dropped, adds its own exchange to medium and record, or to neither. */
  lemma WriteIs(rt: Runtime, s: State, step: Step)
    requires Routed(rt, s) && (step.Append? || step.Drop?) && Enabled(s, step)
    ensures var s' := Apply(rt, s, step);
            && s'.live == s.live && s'.promoted == s.promoted
            && s'.requests == s.requests[step.id := Finished]
            && if Writing(s, step.id) && step.stored then
                 var x := PendingEntry(s.requests[step.id]);
                 Medium(rt, s') == Medium(rt, s) + [x.exchange] && s'.recorded == s.recorded + [x]
               else Medium(rt, s') == Medium(rt, s) && s'.recorded == s.recorded
  {
    assert Writing(s, step.id) ==> Recorders.Routed(s.recorder.media, s.requests[step.id].exchange);
  }

  predicate RecordsNothing(step: Step) {
    !step.Append? && !step.Drop? && !step.Conclude?
  }

  lemma OtherStepIs(rt: Runtime, s: State, step: Step)
    requires RecordsNothing(step) && Enabled(s, step)
    ensures var s' := Apply(rt, s, step);
            && s'.live == s.live && s'.promoted == s.promoted
            && s'.recorded == s.recorded && Medium(rt, s') == Medium(rt, s)
            && if Actor(step).None? then s'.requests == s.requests else
                 var id := Actor(step).value;
                 && !Writing(s, id) && !Settled(s, id)
                 && id in s'.requests && s'.requests == s.requests[id := s'.requests[id]]
                 && (s'.requests[id].Persisting? ==>
                       s'.requests[id].exchange.id == id && !s'.requests[id].exchange.outcome.Answered?)
  {}

  lemma MoveStaysMatched(s: State, s': State, id: nat, p: Phase)
    requires Matched(s) && !Writing(s, id) && !Settled(s, id)
    requires s'.promoted == s.promoted && s'.recorded == s.recorded && s'.requests == s.requests[id := p]
    requires p.Persisting? ==> p.exchange.id == id && !Forwarded(PendingEntry(p))
    ensures Matched(s')
  {
    forall i | 0 <= i < |s'.promoted| ensures InHand(s', s'.promoted[i]) { assert InHand(s, s.promoted[i]); }
    forall j | 0 <= j < |s'.recorded| ensures Settled(s', s'.recorded[j].exchange.id) {
      assert Settled(s, s.recorded[j].exchange.id);
    }
    forall other: nat | Writing(s', other) && other != id ensures Writing(s, other) {}
  }

  lemma PromotionStaysMatched(s: State, s': State, e: Exchange)
    requires Matched(s) && !Writing(s, e.id) && !Settled(s, e.id)
    requires s'.promoted == s.promoted + [e] && s'.recorded == s.recorded
    requires s'.requests == s.requests[e.id := Persisting(e, Some(Upstream))]
    ensures Matched(s')
  {
    forall i | 0 <= i < |s'.promoted| ensures InHand(s', s'.promoted[i]) {
      if i < |s.promoted| { assert InHand(s, s.promoted[i]); }
    }
    forall j | 0 <= j < |s'.recorded|
      ensures Settled(s', s'.recorded[j].exchange.id) && s'.recorded[j].exchange.id != e.id
    {
      assert Settled(s, s.recorded[j].exchange.id);
    }
    assert forall x :: x in s.promoted ==> x in s'.promoted;
    assert e in s'.promoted;
    forall other: nat | Writing(s', other) && other != e.id ensures Writing(s, other) {}
  }

  lemma WriteStaysMatched(s: State, s': State, id: nat)
    requires Matched(s) && id in s.requests
    requires s'.promoted == s.promoted && s'.requests == s.requests[id := Finished]
    requires s'.recorded == s.recorded || (Writing(s, id) && s'.recorded == s.recorded + [PendingEntry(s.requests[id])])
    ensures Matched(s')
  {
    forall i | 0 <= i < |s'.promoted| ensures InHand(s', s'.promoted[i]) { assert InHand(s, s.promoted[i]); }
    forall j | 0 <= j < |s'.recorded|
      ensures Settled(s', s'.recorded[j].exchange.id)
      ensures j < |s.recorded| && Writing(s, id) ==> s.recorded[j].exchange.id != id
    {
      if j < |s.recorded| { assert Settled(s, s.recorded[j].exchange.id); }
    }
    forall other: nat | Writing(s', other) ensures Writing(s, other) {}
    forall i | 0 <= i < |s.promoted| && Writing(s, id) && s.promoted[i].id == id
      ensures PendingEntry(s.requests[id]) == Entry(s.promoted[i], Some(Upstream))
    {
      assert InHand(s, s.promoted[i]);
    }
  }

  lemma PromoteOne(loaded: seq<Exchange>, promoted: seq<Exchange>, e: Exchange)
    ensures Replay.PromoteAll(loaded, promoted + [e]) == Replay.Promote(Replay.PromoteAll(loaded, promoted), e)
  {
    assert (promoted + [e])[..|promoted|] == promoted;
  }

  lemma RecordOne(loaded: seq<Exchange>, xs: seq<Entry>, x: Entry)
    ensures loaded + Exchanges(xs + [x]) == loaded + Exchanges(xs) + [x.exchange]
  {}

  lemma ConclusionStaysAccounted(rt: Runtime, s: State, id: nat, loaded: seq<Exchange>)
    requires rt.attached && Accounted(rt, s, loaded) && Enabled(s, Conclude(id))
    ensures Accounted(rt, Apply(rt, s, Conclude(id)), loaded)
  {
    var s' := Apply(rt, s, Conclude(id));
    var e := BuildExchange(rt, id, s.requests[id].original, s.requests[id].outcome);
    StaysRouted(rt, s, Conclude(id));
    ConclusionIs(rt, s, id);
    if s'.requests[id].Persisting? && Forwarded(Entry(e, s.requests[id].source)) {
      PromoteOne(loaded, s.promoted, e);
      PromotionStaysMatched(s, s', e);
    } else {
      MoveStaysMatched(s, s', id, s'.requests[id]);
    }
  }

  lemma StepStaysAccounted(rt: Runtime, s: State, step: Step, loaded: seq<Exchange>)
    requires rt.attached && Accounted(rt, s, loaded)
    ensures Accounted(rt, Apply(rt, s, step), loaded)
  {
    if Enabled(s, step) {
      var s' := Apply(rt, s, step);
      StaysRouted(rt, s, step);
      if step.Conclude? {
        ConclusionStaysAccounted(rt, s, step.id, loaded);
      } else if step.Append? || step.Drop? {
        WriteIs(rt, s, step);
        WriteStaysMatched(s, s', step.id);
        if Writing(s, step.id) { RecordOne(loaded, s.recorded, PendingEntry(s.requests[step.id])); }
      } else {
        OtherStepIs(rt, s, step);
        if Actor(step).Some? { MoveStaysMatched(s, s', Actor(step).value, s'.requests[Actor(step).value]); }
      }
    }
  }

  lemma {:induction false} RunStaysAccounted(rt: Runtime, s: State, steps: seq<Step>, loaded: seq<Exchange>)
    requires rt.attached && Accounted(rt, s, loaded)
    ensures Accounted(rt, Exec(rt, s, steps), loaded)
    decreases |steps|
  {
    if steps != [] {
      StepStaysAccounted(rt, s, steps[0], loaded);
      RunStaysAccounted(rt, Apply(rt, s, steps[0]), steps[1..], loaded);
    }
  }

  lemma InitIsAccounted(rt: Runtime, loaded: seq<Exchange>)
    requires rt.attached
    ensures Accounted(rt, Init(rt, loaded), loaded)
  {
    assert loaded + [] == loaded;
  }

  // When the live index and a restart agree on a key.

  function First(a: Option<Exchange>, b: Option<Exchange>): Option<Exchange> {
    if a.Some? then a else b
  }

  function IdOf(e: Option<Exchange>): Option<nat> {
    match e
    case None => None
    case Some(x) => Some(x.id)
  }

  /** In every run: what the live index answers, and what a restart answers. */
  lemma AnswersAre(rt: Runtime, loaded: seq<Exchange>, steps: seq<Step>, k: Key)
    requires rt.attached
    ensures var s := Exec(rt, Init(rt, loaded), steps);
            && Accounted(rt, s, loaded)
            && Replay.Scan(s.live, k) == First(Replay.Scan(loaded, k), Replay.Scan(s.promoted, k))
            && Reloaded(rt, s, k) == First(Replay.Scan(loaded, k), Replay.Scan(Exchanges(s.recorded), k))
  {
    var s := Exec(rt, Init(rt, loaded), steps);
    InitIsAccounted(rt, loaded);
    RunStaysAccounted(rt, Init(rt, loaded), steps, loaded);
    Replay.IncrementalAgreesWithBatch(loaded, s.promoted, k);
    Replay.ScanAppend(loaded, s.promoted, k);
    Replay.ScanAppend(loaded, Exchanges(s.recorded), k);
  }

  lemma ScanFinds(xs: seq<Exchange>, k: Key)
    ensures Replay.Scan(xs, k).Some? ==> Replay.Scan(xs, k).value in xs && Replay.Answers(Replay.Scan(xs, k).value, k)
    ensures Replay.Scan(xs, k).None? ==> forall e :: e in xs ==> !Replay.Answers(e, k)
  {}

  lemma SameIdIsSameExchange(s: State, k: Key)
    requires Matched(s)
    ensures IdOf(Replay.Scan(s.promoted, k)) == IdOf(Replay.Scan(Exchanges(s.recorded), k))
            <==> Replay.Scan(s.promoted, k) == Replay.Scan(Exchanges(s.recorded), k)
  {
    ScanFinds(s.promoted, k);
    ScanFinds(Exchanges(s.recorded), k);
    if Replay.Scan(s.promoted, k).Some? && Replay.Scan(Exchanges(s.recorded), k).Some? {
      var i :| 0 <= i < |s.promoted| && s.promoted[i] == Replay.Scan(s.promoted, k).value;
      var j :| 0 <= j < |s.recorded| && Exchanges(s.recorded)[j] == Replay.Scan(Exchanges(s.recorded), k).value;
      assert s.promoted[i].id == s.recorded[j].exchange.id ==> s.recorded[j] == Entry(s.promoted[i], Some(Upstream));
    }
  }

  /**
   * The exact condition, in every run whatsoever: with overlapping, failing, dropped and unfinished record calls,
   * stubs, short circuits, and either mode. The live index and a restart agree on a key if and only if the medium
   * answered it at start, or the first response for it to be promoted and the first to reach the medium are of the
   * same request, or there is neither.
   */
  lemma RestartAgreesIff(rt: Runtime, loaded: seq<Exchange>, steps: seq<Step>, k: Key)
    requires rt.attached
    ensures var s := Exec(rt, Init(rt, loaded), steps);
            Replay.Scan(s.live, k) == Reloaded(rt, s, k)
            <==> Replay.Scan(loaded, k).Some? ||
                 IdOf(Replay.Scan(s.promoted, k)) == IdOf(Replay.Scan(Exchanges(s.recorded), k))
  {
    AnswersAre(rt, loaded, steps, k);
    SameIdIsSameExchange(Exec(rt, Init(rt, loaded), steps), k);
  }

  // Runs whose record calls for a key are orderly.

  /** A record call for a response under `k` is under way. */
  ghost predicate WritingFor(s: State, id: nat, k: Key) {
    Writing(s, id) && Replay.Answers(s.requests[id].exchange, k)
  }

  ghost predicate QuietFor(s: State, k: Key) {
    forall id :: !WritingFor(s, id, k)
  }

  ghost predicate OneWriterFor(s: State, k: Key) {
    forall i, j :: WritingFor(s, i, k) && WritingFor(s, j, k) ==> i == j
  }

  /**
   * As far as responses under `k` go, the medium takes what it is given, no record call is dropped, and no two
   * record calls overlap. Nothing is asked of the record calls for other keys, nor of those for failures.
   */
  ghost predicate OrderlyFor(rt: Runtime, s: State, steps: seq<Step>, k: Key)
    decreases |steps|
  {
    && OneWriterFor(s, k)
    && (steps != [] ==> DependableFor(s, steps[0], k) && OrderlyFor(rt, Apply(rt, s, steps[0]), steps[1..], k))
  }

  ghost predicate DependableFor(s: State, step: Step, k: Key) {
    && (step.Append? && WritingFor(s, step.id, k) ==> step.stored)
    && (step.Drop? ==> !WritingFor(s, step.id, k))
  }

  lemma OthersKeepWriting(rt: Runtime, s: State, step: Step, id: nat)
    requires Actor(step) != Some(id) || !Enabled(s, step)
    ensures Writing(Apply(rt, s, step), id) <==> Writing(s, id)
    ensures Writing(s, id) ==> Apply(rt, s, step).requests[id] == s.requests[id]
  {
    OnlyActorMoves(rt, s, step, id);
  }

  /** Every response for `k` that was promoted has been recorded, or is being recorded. */
  ghost predicate NoneForgotten(s: State, k: Key) {
    forall i :: 0 <= i < |s.promoted| && Replay.Answers(s.promoted[i], k) ==>
      WritingFor(s, s.promoted[i].id, k) || s.promoted[i] in Exchanges(s.recorded)
  }

  lemma WriteForgetsNone(rt: Runtime, s: State, step: Step, k: Key)
    requires Routed(rt, s) && Matched(s) && NoneForgotten(s, k) && DependableFor(s, step, k)
    requires (step.Append? || step.Drop?) && Enabled(s, step)
    ensures NoneForgotten(Apply(rt, s, step), k)
  {
    var s' := Apply(rt, s, step);
    WriteIs(rt, s, step);
    assert forall e :: e in Exchanges(s.recorded) ==> e in Exchanges(s'.recorded) by {
      assert forall j :: 0 <= j < |s.recorded| ==> Exchanges(s'.recorded)[j] == Exchanges(s.recorded)[j];
    }
    forall i | 0 <= i < |s'.promoted| && Replay.Answers(s'.promoted[i], k)
      ensures WritingFor(s', s'.promoted[i].id, k) || s'.promoted[i] in Exchanges(s'.recorded)
    {
      assert InHand(s, s.promoted[i]);
      if WritingFor(s, s.promoted[i].id, k) && s.promoted[i].id == step.id {
        assert Exchanges(s'.recorded)[|s.recorded|] == s.promoted[i];
      }
    }
  }

  lemma ConclusionForgetsNone(rt: Runtime, s: State, id: nat, k: Key)
    requires rt.attached && Matched(s) && NoneForgotten(s, k) && Enabled(s, Conclude(id))
    ensures NoneForgotten(Apply(rt, s, Conclude(id)), k)
  {
    var s' := Apply(rt, s, Conclude(id));
    ConclusionIs(rt, s, id);
    forall i | 0 <= i < |s.promoted| && WritingFor(s, s.promoted[i].id, k)
      ensures WritingFor(s', s.promoted[i].id, k)
    {
      assert s.promoted[i].id != id;
    }
  }

  lemma OtherStepForgetsNone(rt: Runtime, s: State, step: Step, k: Key)
    requires NoneForgotten(s, k) && RecordsNothing(step) && Enabled(s, step)
    ensures NoneForgotten(Apply(rt, s, step), k)
  {
    var s' := Apply(rt, s, step);
    OtherStepIs(rt, s, step);
    forall i | 0 <= i < |s.promoted| && WritingFor(s, s.promoted[i].id, k)
      ensures WritingFor(s', s.promoted[i].id, k)
    {
      assert Actor(step) != Some(s.promoted[i].id);
    }
  }

  lemma StepForgetsNone(rt: Runtime, s: State, step: Step, k: Key)
    requires rt.attached && Routed(rt, s) && Matched(s) && NoneForgotten(s, k) && DependableFor(s, step, k)
    ensures NoneForgotten(Apply(rt, s, step), k)
  {
    if Enabled(s, step) {
      if step.Append? || step.Drop? {
        WriteForgetsNone(rt, s, step, k);
      } else if step.Conclude? {
        ConclusionForgetsNone(rt, s, step.id, k);
      } else {
        OtherStepForgetsNone(rt, s, step, k);
      }
    }
  }

  ghost predicate KeptUpFor(rt: Runtime, s: State, steps: seq<Step>, k: Key)
    decreases |steps|
  {
    steps != [] ==> DependableFor(s, steps[0], k) && KeptUpFor(rt, Apply(rt, s, steps[0]), steps[1..], k)
  }

  lemma {:induction false} RunForgetsNone(rt: Runtime, s: State, steps: seq<Step>, loaded: seq<Exchange>, k: Key)
    requires rt.attached && Accounted(rt, s, loaded) && NoneForgotten(s, k) && KeptUpFor(rt, s, steps, k)
    ensures NoneForgotten(Exec(rt, s, steps), k)
    decreases |steps|
  {
    if steps != [] {
      StepForgetsNone(rt, s, steps[0], k);
      StepStaysAccounted(rt, s, steps[0], loaded);
      RunForgetsNone(rt, Apply(rt, s, steps[0]), steps[1..], loaded, k);
    }
  }

  /**
   * Under any interleaving, with stubs, short circuits and overlapping record calls, as long as the medium takes the
   * responses for `k` that it is given: if the live index answers `k`, a restart does, once things are quiet.
   */
  lemma LiveKeysAreReloaded(rt: Runtime, loaded: seq<Exchange>, steps: seq<Step>, k: Key)
    requires rt.attached && KeptUpFor(rt, Init(rt, loaded), steps, k)
    requires QuietFor(Exec(rt, Init(rt, loaded), steps), k) && Dedup.HasAnswer(Exec(rt, Init(rt, loaded), steps), k)
    ensures Reloaded(rt, Exec(rt, Init(rt, loaded), steps), k).Some?
  {
    var s := Exec(rt, Init(rt, loaded), steps);
    InitIsAccounted(rt, loaded);
    RunForgetsNone(rt, Init(rt, loaded), steps, loaded, k);
    AnswersAre(rt, loaded, steps, k);
    ScanFinds(s.promoted, k);
    ScanFinds(Exchanges(s.recorded), k);
  }

  /** The first entry that answers `k`. */
  function FirstEntry(xs: seq<Entry>, k: Key): Option<nat> {
    Replay.FirstPlace(xs, (x: Entry) => Replay.Answers(x.exchange, k))
  }

  lemma {:induction false} ScanExchanges(xs: seq<Entry>, k: Key)
    ensures Replay.Scan(Exchanges(xs), k) ==
            match FirstEntry(xs, k) { case None => None case Some(i) => Some(xs[i].exchange) }
  {
    if xs != [] {
      var n := |xs| - 1;
      assert Exchanges(xs) == Exchanges(xs[..n]) + [xs[n].exchange];
      Replay.ScanAppendOne(Exchanges(xs[..n]), xs[n].exchange, k);
      ScanExchanges(xs[..n], k);
    }
  }

  lemma FirstEntryOne(xs: seq<Entry>, x: Entry, k: Key)
    ensures FirstEntry(xs + [x], k) ==
            if FirstEntry(xs, k).Some? then FirstEntry(xs, k)
            else if Replay.Answers(x.exchange, k) then Some(|xs|) else None
  {
    assert (xs + [x])[..|xs|] == xs;
  }

  /** If the first response recorded for `k` was forwarded, it is the first that was promoted. */
  ghost predicate InOrder(s: State, k: Key) {
    match FirstEntry(s.recorded, k)
    case None => true
    case Some(i) =>
      s.recorded[i].source == Some(Upstream) ==> Replay.Scan(s.promoted, k) == Some(s.recorded[i].exchange)
  }

  /** The one response for `k` that is promoted and not recorded is the one that is being recorded. */
  lemma OnlyPendingIsPromoted(s: State, id: nat, k: Key)
    requires Matched(s) && NoneForgotten(s, k) && OneWriterFor(s, k) && FirstEntry(s.recorded, k).None?
    requires WritingFor(s, id, k) && s.requests[id].source == Some(Upstream)
    ensures Replay.Scan(s.promoted, k) == Some(s.requests[id].exchange)
  {
    var e := s.requests[id].exchange;
    assert Forwarded(PendingEntry(s.requests[id])) && e in s.promoted;
    ScanFinds(s.promoted, k);
    ScanExchanges(s.recorded, k);
    ScanFinds(Exchanges(s.recorded), k);
    var i :| 0 <= i < |s.promoted| && s.promoted[i] == Replay.Scan(s.promoted, k).value;
    assert WritingFor(s, s.promoted[i].id, k) && InHand(s, s.promoted[i]);
  }

  lemma StepStaysInOrder(rt: Runtime, s: State, step: Step, k: Key)
    requires rt.attached && Routed(rt, s) && Matched(s) && NoneForgotten(s, k) && OneWriterFor(s, k)
    requires InOrder(s, k)
    ensures InOrder(Apply(rt, s, step), k)
  {
    if Enabled(s, step) {
      if step.Append? || step.Drop? {
        WriteIs(rt, s, step);
        if Writing(s, step.id) { WriteStaysInOrder(s, Apply(rt, s, step), step.id, k); }
      } else if step.Conclude? {
        ConclusionIs(rt, s, step.id);
        var p := s.requests[step.id];
        Replay.ScanAppendOne(s.promoted, BuildExchange(rt, step.id, p.original, p.outcome), k);
      } else {
        OtherStepIs(rt, s, step);
      }
    }
  }

  lemma WriteStaysInOrder(s: State, s': State, id: nat, k: Key)
    requires Matched(s) && NoneForgotten(s, k) && OneWriterFor(s, k) && InOrder(s, k)
    requires Writing(s, id) && s'.promoted == s.promoted
    requires s'.recorded == s.recorded || s'.recorded == s.recorded + [PendingEntry(s.requests[id])]
    ensures InOrder(s', k)
  {
    FirstEntryOne(s.recorded, PendingEntry(s.requests[id]), k);
    if FirstEntry(s.recorded, k).None? && WritingFor(s, id, k) && s.requests[id].source == Some(Upstream) {
      OnlyPendingIsPromoted(s, id, k);
    }
  }

  lemma {:induction false} RunStaysInOrder(rt: Runtime, s: State, steps: seq<Step>, loaded: seq<Exchange>, k: Key)
    requires rt.attached && Accounted(rt, s, loaded) && NoneForgotten(s, k) && InOrder(s, k)
    requires OrderlyFor(rt, s, steps, k)
    ensures NoneForgotten(Exec(rt, s, steps), k) && InOrder(Exec(rt, s, steps), k)
    decreases |steps|
  {
    if steps != [] {
      StepForgetsNone(rt, s, steps[0], k);
      StepStaysAccounted(rt, s, steps[0], loaded);
      StepStaysInOrder(rt, s, steps[0], k);
      RunStaysInOrder(rt, Apply(rt, s, steps[0]), steps[1..], loaded, k);
    }
  }

  /** The first response recorded for `k`, if there is one, came from the upstream. */
  predicate FirstReplyIsForwarded(xs: seq<Entry>, k: Key) {
    match FirstEntry(xs, k)
    case None => true
    case Some(i) => xs[i].source == Some(Upstream)
  }

  lemma OrderedFirstsAgreeIff(s: State, k: Key)
    requires Matched(s) && NoneForgotten(s, k) && InOrder(s, k) && QuietFor(s, k)
    ensures IdOf(Replay.Scan(s.promoted, k)) == IdOf(Replay.Scan(Exchanges(s.recorded), k))
            <==> FirstReplyIsForwarded(s.recorded, k)
  {
    ScanExchanges(s.recorded, k);
    ScanFinds(s.promoted, k);
    ScanFinds(Exchanges(s.recorded), k);
    SameIdIsSameExchange(s, k);
    if Replay.Scan(s.promoted, k).Some? {
      var i :| 0 <= i < |s.promoted| && s.promoted[i] == Replay.Scan(s.promoted, k).value;
      assert s.promoted[i] in Exchanges(s.recorded);
    }
  }

  /**
   * Where record calls for a key are orderly and done, the condition is one on the record alone: the live index and a
   * restart agree on the key if and only if the medium answered it at start, or the first response recorded for it, if
   * there is one, came from the upstream.
   */
  lemma OrderlyRestartAgreesIff(rt: Runtime, loaded: seq<Exchange>, steps: seq<Step>, k: Key)
    requires rt.attached && OrderlyFor(rt, Init(rt, loaded), steps, k)
    requires QuietFor(Exec(rt, Init(rt, loaded), steps), k)
    ensures var s := Exec(rt, Init(rt, loaded), steps);
            Replay.Scan(s.live, k) == Reloaded(rt, s, k)
            <==> Replay.Scan(loaded, k).Some? || FirstReplyIsForwarded(s.recorded, k)
  {
    InitIsAccounted(rt, loaded);
    RunStaysInOrder(rt, Init(rt, loaded), steps, loaded, k);
    AnswersAre(rt, loaded, steps, k);
    RestartAgreesIff(rt, loaded, steps, k);
    OrderedFirstsAgreeIff(Exec(rt, Init(rt, loaded), steps), k);
  }

  /** Every response in the record came from the upstream. */
  ghost predicate OnlyUpstreamReplies(xs: seq<Entry>) {
    forall i :: 0 <= i < |xs| && xs[i].exchange.outcome.Answered? ==> xs[i].source == Some(Upstream)
  }

  /**
   * Restart equivalence. If the recorded responses for a key all came from the upstream, then whenever no record call
   * for it is under way the live index answers it exactly as an index rebuilt from the medium.
   */
  lemma RestartEquivalence(rt: Runtime, loaded: seq<Exchange>, steps: seq<Step>, k: Key)
    requires rt.attached && OrderlyFor(rt, Init(rt, loaded), steps, k)
    requires QuietFor(Exec(rt, Init(rt, loaded), steps), k)
    requires var xs := Exec(rt, Init(rt, loaded), steps).recorded;
             forall i :: 0 <= i < |xs| && Replay.Answers(xs[i].exchange, k) ==> xs[i].source == Some(Upstream)
    ensures var s := Exec(rt, Init(rt, loaded), steps); Replay.Scan(s.live, k) == Reloaded(rt, s, k)
  {
    OrderlyRestartAgreesIff(rt, loaded, steps, k);
  }

  // Which runs record responses from the upstream alone.

  /** No layer answers with a response by itself; it may still fail, rewrite and recover. */
  ghost predicate NoShortCircuit(rt: Runtime) {
    forall salt, r :: Flatten(rt.chain, salt, r).Answer? ==> Flatten(rt.chain, salt, r).outcome.Err?
  }

  predicate FromUpstreamOrSnapshot(p: Phase) {
    match p
    case Replying(_, outcome, source) => outcome.Ok? ==> source == Some(Upstream) || source == Some(Snapshot)
    case Persisting(e, source) => e.outcome.Answered? ==> source == Some(Upstream)
    case _ => true
  }

  ghost predicate Unstubbed(s: State) {
    && s.stubs == []
    && OnlyUpstreamReplies(s.recorded)
    && forall id :: id in s.requests ==> FromUpstreamOrSnapshot(s.requests[id])
  }

  lemma StepStaysUnstubbed(rt: Runtime, s: State, step: Step)
    requires rt.mode.RecordMode? && NoShortCircuit(rt) && Unstubbed(s) && !step.AddStub?
    ensures Unstubbed(Apply(rt, s, step))
  {
    var s' := Apply(rt, s, step);
    if (step.Append? || step.Drop?) && Enabled(s, step) {
      assert FromUpstreamOrSnapshot(s.requests[step.id]);
      Dedup.WriteFinishes(rt, s, step);
      assert OnlyUpstreamReplies(s'.recorded);
    }
    forall id | id in s'.requests ensures FromUpstreamOrSnapshot(s'.requests[id]) {
      if id in s.requests { assert FromUpstreamOrSnapshot(s.requests[id]); }
    }
  }

  lemma {:induction false} RunStaysUnstubbed(rt: Runtime, s: State, steps: seq<Step>)
    requires rt.mode.RecordMode? && NoShortCircuit(rt) && Unstubbed(s)
    requires forall i :: 0 <= i < |steps| ==> !steps[i].AddStub?
    ensures Unstubbed(Exec(rt, s, steps))
    decreases |steps|
  {
    if steps != [] {
      StepStaysUnstubbed(rt, s, steps[0]);
      RunStaysUnstubbed(rt, Apply(rt, s, steps[0]), steps[1..]);
    }
  }

  /**
   * In Record mode, without stubs and short circuits, live and reloaded answers for a key are equal after every run
   * whose record calls for that key are orderly, however the traffic for other keys overlaps.
   */
  lemma RecordModeRestart(rt: Runtime, loaded: seq<Exchange>, steps: seq<Step>, k: Key)
    requires rt.attached && rt.mode.RecordMode? && NoShortCircuit(rt)
    requires forall i :: 0 <= i < |steps| ==> !steps[i].AddStub?
    requires OrderlyFor(rt, Init(rt, loaded), steps, k) && QuietFor(Exec(rt, Init(rt, loaded), steps), k)
    ensures var s := Exec(rt, Init(rt, loaded), steps); Replay.Scan(s.live, k) == Reloaded(rt, s, k)
  {
    RunStaysUnstubbed(rt, Init(rt, loaded), steps);
    RestartEquivalence(rt, loaded, steps, k);
  }

  lemma {:induction false} CountsAgree(xs: seq<Entry>, k: Key)
    requires OnlyUpstreamReplies(xs)
    ensures Count(Exchanges(xs), (e: Exchange) => Replay.Answers(e, k)) ==
            Count(xs, (x: Entry) => Dedup.IsForwardedReply(x, k))
  {
    if xs != [] {
      var n := |xs| - 1;
      CountsAgree(xs[..n], k);
      assert Exchanges(xs) == Exchanges(xs[..n]) + [xs[n].exchange];
      CountOneMore(Exchanges(xs[..n]), xs[n].exchange, (e: Exchange) => Replay.Answers(e, k));
    }
  }

  /** The responses for `k` that are on the medium. */
  ghost function StoredReplies(rt: Runtime, s: State, k: Key): nat {
    Count(Medium(rt, s), (e: Exchange) => Replay.Answers(e, k))
  }

  /**
   * If moreover rewriting keeps keys and never more than `n` requests for `k` are in flight together, the medium gains
   * at most `n` responses for `k` over the whole run, those of dropped record calls included; one without overlap.
   */
  lemma StoredRepliesAreBounded(rt: Runtime, loaded: seq<Exchange>, steps: seq<Step>, k: Key, n: nat)
    requires rt.attached && rt.mode.RecordMode? && NoShortCircuit(rt) && Dedup.KeyPreserving(rt)
    requires forall i :: 0 <= i < |steps| ==> !steps[i].AddStub?
    requires Dedup.AtMostInFlight(rt, Init(rt, loaded), steps, k, n)
    ensures StoredReplies(rt, Exec(rt, Init(rt, loaded), steps), k) <= StoredReplies(rt, Init(rt, loaded), k) + n
  {
    var s := Exec(rt, Init(rt, loaded), steps);
    InitIsAccounted(rt, loaded);
    RunStaysAccounted(rt, Init(rt, loaded), steps, loaded);
    RunStaysUnstubbed(rt, Init(rt, loaded), steps);
    CountAppend(loaded, Exchanges(s.recorded), (e: Exchange) => Replay.Answers(e, k));
    CountsAgree(s.recorded, k);
    Dedup.OverlapBoundsReplies(rt, loaded, steps, k, n);
  }

  // Two requests for one key that overlap.

  lemma AppendStores(rt: Runtime, s: State, id: nat)
    requires Writing(s, id) && rt.recording.enabled
    requires s.requests[id].exchange.upstream == Some(rt.name) && s.recorder.media.Keys == {rt.name}
    ensures var s' := Apply(rt, s, Append(id, true));
            && s'.recorder.media.Keys == {rt.name}
            && Medium(rt, s') == Medium(rt, s) + [s.requests[id].exchange]
            && s'.recorded == s.recorded + [PendingEntry(s.requests[id])]
            && s'.live == s.live && s'.promoted == s.promoted
            && s'.requests == s.requests[id := Finished]
            && s'.stubs == s.stubs
  {}

  lemma TwoSteps(rt: Runtime, s: State, x: Step, y: Step, rest: seq<Step>)
    ensures Exec(rt, s, [x, y] + rest) == Exec(rt, Apply(rt, Apply(rt, s, x), y), rest)
  {
    assert [x, y] + rest == [x] + ([y] + rest);
    ExecFirst(rt, s, x, [y] + rest);
    ExecFirst(rt, Apply(rt, s, x), y, rest);
  }

  function Overlap(r: Request, a: Response, b: Response): seq<Step> {
    [Arrive(0, r, 0), Arrive(1, r, 0)] + ([ScanStubs(0), ScanStubs(1)] + ([Lookup(0), Lookup(1)] +
    ([ForwardDone(0, Ok(a)), ForwardDone(1, Ok(b))] + ([Conclude(0), Conclude(1)] +
    ([Append(1, true), Append(0, true)] + [])))))
  }

  lemma BothReachLookup(rt: Runtime, r: Request)
    requires rt.chain == []
    ensures var s4 := Apply(rt, Apply(rt, Apply(rt, Apply(rt, Init(rt, []),
                      Arrive(0, r, 0)), Arrive(1, r, 0)), ScanStubs(0)), ScanStubs(1));
            var resume: Resume := (outcome, source) => outcome;
            && s4.requests.Keys == {0, 1}
            && (forall id :: id in s4.requests ==> s4.requests[id].Looking? && s4.requests[id].original == r)
            && (forall id, o, src :: id in s4.requests ==> s4.requests[id].resume(o, src) == o)
            && s4 == Init(rt, []).(requests := s4.requests)
  {}

  /** Both requests are sent upstream: neither was recorded when the other was looked up. */
  lemma BothMiss(rt: Runtime, s4: State, r: Request, a: Response, b: Response)
    requires rt.mode.RecordMode? && s4 == Init(rt, []).(requests := s4.requests) && s4.requests.Keys == {0, 1}
    requires forall id :: id in s4.requests ==> s4.requests[id].Looking? && s4.requests[id].original == r
    requires forall id, o, src :: id in s4.requests ==> s4.requests[id].resume(o, src) == o
    ensures var s6 := Apply(rt, Apply(rt, s4, Lookup(0)), Lookup(1));
            var s8 := Apply(rt, Apply(rt, s6, ForwardDone(0, Ok(a))), ForwardDone(1, Ok(b)));
            && s8.requests == map[0 := Replying(r, Ok(a), Some(Upstream)), 1 := Replying(r, Ok(b), Some(Upstream))]
            && s8.promoted == [] && s8.recorded == [] && s8.recorder == Init(rt, []).recorder
  {
    var s5 := Apply(rt, s4, Lookup(0));
    var s6 := Apply(rt, s5, Lookup(1));
    assert s6.requests[0] == Forwarding(r, s4.requests[0].call, s4.requests[0].resume);
    assert s6.requests[1] == Forwarding(r, s4.requests[1].call, s4.requests[1].resume);
  }

  lemma OverlapInPairs(rt: Runtime, s0: State, r: Request, a: Response, b: Response)
    ensures var s4 := Apply(rt, Apply(rt, Apply(rt, Apply(rt, s0,
                      Arrive(0, r, 0)), Arrive(1, r, 0)), ScanStubs(0)), ScanStubs(1));
            var s6 := Apply(rt, Apply(rt, s4, Lookup(0)), Lookup(1));
            var s8 := Apply(rt, Apply(rt, s6, ForwardDone(0, Ok(a))), ForwardDone(1, Ok(b)));
            var s10 := Apply(rt, Apply(rt, s8, Conclude(0)), Conclude(1));
            Exec(rt, s0, Overlap(r, a, b)) == Apply(rt, Apply(rt, s10, Append(1, true)), Append(0, true))
  {
    var s2 := Apply(rt, Apply(rt, s0, Arrive(0, r, 0)), Arrive(1, r, 0));
    var s4 := Apply(rt, Apply(rt, s2, ScanStubs(0)), ScanStubs(1));
    var s6 := Apply(rt, Apply(rt, s4, Lookup(0)), Lookup(1));
    var s8 := Apply(rt, Apply(rt, s6, ForwardDone(0, Ok(a))), ForwardDone(1, Ok(b)));
    var s10 := Apply(rt, Apply(rt, s8, Conclude(0)), Conclude(1));
    var tail5 := [Append(1, true), Append(0, true)] + [];
    var tail4 := [Conclude(0), Conclude(1)] + tail5;
    var tail3 := [ForwardDone(0, Ok(a)), ForwardDone(1, Ok(b))] + tail4;
    var tail2 := [Lookup(0), Lookup(1)] + tail3;
    var tail1 := [ScanStubs(0), ScanStubs(1)] + tail2;
    calc {
      Exec(rt, s0, Overlap(r, a, b));
      { assert Overlap(r, a, b) == [Arrive(0, r, 0), Arrive(1, r, 0)] + tail1;
        TwoSteps(rt, s0, Arrive(0, r, 0), Arrive(1, r, 0), tail1); }
      Exec(rt, s2, tail1);
      { TwoSteps(rt, s2, ScanStubs(0), ScanStubs(1), tail2); }
      Exec(rt, s4, tail2);
      { TwoSteps(rt, s4, Lookup(0), Lookup(1), tail3); }
      Exec(rt, s6, tail3);
      { TwoSteps(rt, s6, ForwardDone(0, Ok(a)), ForwardDone(1, Ok(b)), tail4); }
      Exec(rt, s8, tail4);
      { TwoSteps(rt, s8, Conclude(0), Conclude(1), tail5); }
      Exec(rt, s10, tail5);
      { TwoSteps(rt, s10, Append(1, true), Append(0, true), []); }
      Exec(rt, Apply(rt, Apply(rt, s10, Append(1, true)), Append(0, true)), []);
    }
  }

  /**
   * A run that fails the condition: two requests for one key overlap and are both recorded; the one promoted first
   * reaches the medium second, so the live index and a restart answer differently.
   */
  lemma OverlapBreaksRestart(rt: Runtime, r: Request, a: Response, b: Response)
    requires rt.attached && rt.mode.RecordMode? && rt.recording.enabled && rt.chain == []
    ensures var s := Exec(rt, Init(rt, []), Overlap(r, a, b));
            var k := KeyOf(rt, r);
            && Quiet(s)
            && Dedup.ForwardedReplies(s, k) == 2
            && IdOf(Replay.Scan(s.promoted, k)) == Some(0)
            && IdOf(Replay.Scan(Exchanges(s.recorded), k)) == Some(1)
            && Replay.Scan(s.live, k) == Some(BuildExchange(rt, 0, r, Ok(a)))
            && Reloaded(rt, s, k) == Some(BuildExchange(rt, 1, r, Ok(b)))
            && Replay.Scan(s.live, k) != Reloaded(rt, s, k)
  {
    var s0 := Init(rt, []);
    var s2 := Apply(rt, Apply(rt, s0, Arrive(0, r, 0)), Arrive(1, r, 0));
    var s4 := Apply(rt, Apply(rt, s2, ScanStubs(0)), ScanStubs(1));
    var s6 := Apply(rt, Apply(rt, s4, Lookup(0)), Lookup(1));
    var s8 := Apply(rt, Apply(rt, s6, ForwardDone(0, Ok(a))), ForwardDone(1, Ok(b)));
    var s10 := Apply(rt, Apply(rt, s8, Conclude(0)), Conclude(1));
    var e0, e1 := BuildExchange(rt, 0, r, Ok(a)), BuildExchange(rt, 1, r, Ok(b));
    OverlapInPairs(rt, s0, r, a, b);
    BothReachLookup(rt, r);
    BothMiss(rt, s4, r, a, b);
    ConcludeBoth(rt, s8, r, a, b);
    AppendBoth(rt, s10, e0, e1);
    RecordedKey(rt, 0, r, Ok(a));
    RecordedKey(rt, 1, r, Ok(b));
    TwoRecorded(e0, e1, KeyOf(rt, r));
    AnswersAre(rt, [], Overlap(r, a, b), KeyOf(rt, r));
    RestartAgreesIff(rt, [], Overlap(r, a, b), KeyOf(rt, r));
  }

  lemma ConcludeBoth(rt: Runtime, s: State, r: Request, a: Response, b: Response)
    requires rt.attached && rt.recording.enabled && s.requests.Keys == {0, 1} && s.promoted == []
    requires s.requests[0] == Replying(r, Ok(a), Some(Upstream)) && s.requests[1] == Replying(r, Ok(b), Some(Upstream))
    ensures var s' := Apply(rt, Apply(rt, s, Conclude(0)), Conclude(1));
            var e0, e1 := BuildExchange(rt, 0, r, Ok(a)), BuildExchange(rt, 1, r, Ok(b));
            && s'.promoted == [e0, e1] && s'.recorded == s.recorded && s'.recorder == s.recorder
            && s'.requests == map[0 := Persisting(e0, Some(Upstream)), 1 := Persisting(e1, Some(Upstream))]
  {
    ConcludeForwarded(rt, s, 0, r, a);
    ConcludeForwarded(rt, Apply(rt, s, Conclude(0)), 1, r, b);
    BothConcluded(s, BuildExchange(rt, 0, r, Ok(a)), BuildExchange(rt, 1, r, Ok(b)));
  }

  lemma BothConcluded(s: State, e0: Exchange, e1: Exchange)
    requires s.requests.Keys == {0, 1} && s.promoted == []
    ensures var s1 := Offered(Set(s, 0, Persisting(e0, Some(Upstream))), e0);
            var s2 := Offered(Set(s1, 1, Persisting(e1, Some(Upstream))), e1);
            && s2.promoted == [e0, e1] && s2.recorded == s.recorded && s2.recorder == s.recorder
            && s2.requests == map[0 := Persisting(e0, Some(Upstream)), 1 := Persisting(e1, Some(Upstream))]
  {}

  lemma ConcludeForwarded(rt: Runtime, s: State, id: nat, r: Request, a: Response)
    requires rt.attached && rt.recording.enabled && id in s.requests
    requires s.requests[id] == Replying(r, Ok(a), Some(Upstream))
    ensures var e := BuildExchange(rt, id, r, Ok(a));
            Apply(rt, s, Conclude(id)) == Offered(Set(s, id, Persisting(e, Some(Upstream))), e)
  {
    var p := s.requests[id];
    assert p.outcome == Ok(a) && p.original == r && p.source == Some(Upstream);
    assert Apply(rt, s, Conclude(id)) == DoConclude(rt, s, id, p);
  }

  lemma AppendBoth(rt: Runtime, s: State, e0: Exchange, e1: Exchange)
    requires rt.attached && rt.recording.enabled && s.recorded == [] && s.recorder.media.Keys == {rt.name}
    requires s.requests == map[0 := Persisting(e0, Some(Upstream)), 1 := Persisting(e1, Some(Upstream))]
    requires e0.upstream == e1.upstream == Some(rt.name)
    ensures var s' := Apply(rt, Apply(rt, s, Append(1, true)), Append(0, true));
            && Quiet(s') && s'.promoted == s.promoted
            && s'.recorded == [Entry(e1, Some(Upstream)), Entry(e0, Some(Upstream))]
  {
    var s1 := Apply(rt, s, Append(1, true));
    AppendStores(rt, s, 1);
    AppendStores(rt, s1, 0);
  }

  lemma ScanOfTwo(e: Exchange, f: Exchange, k: Key)
    requires Replay.Answers(e, k)
    ensures Replay.Scan([e, f], k) == Some(e)
  {
    assert [e, f] == [] + [e] + [f];
    Replay.ScanAppendOne([], e, k);
    Replay.ScanAppendOne([] + [e], f, k);
  }

  lemma TwoRecorded(e0: Exchange, e1: Exchange, k: Key)
    requires Replay.Answers(e0, k) && Replay.Answers(e1, k)
    ensures Replay.Scan([e0, e1], k) == Some(e0)
    ensures var xs := [Entry(e1, Some(Upstream)), Entry(e0, Some(Upstream))];
            && Replay.Scan(Exchanges(xs), k) == Some(e1)
            && Count(xs, (x: Entry) => Dedup.IsForwardedReply(x, k)) == 2
  {
    var x0, x1 := Entry(e0, Some(Upstream)), Entry(e1, Some(Upstream));
    var p := (x: Entry) => Dedup.IsForwardedReply(x, k);
    assert Exchanges([x1, x0]) == [e1, e0];
    ScanOfTwo(e0, e1, k);
    ScanOfTwo(e1, e0, k);
    assert [x1, x0] == [] + [x1] + [x0];
    CountOneMore([], x1, p);
    CountOneMore([] + [x1], x0, p);
  }

  // One request alone, against the documentation.

  /**
   * The live index is updated before the medium is: after a forward was recorded alone, the live index answers
   * its key, and a restart does so exactly when the medium took the exchange.
   */
  lemma FailedAppendLeavesLiveAhead(
      rt: Runtime, s: State, id: nat, r: Request, salt: nat, reply: Outcome, stored: bool)
    requires rt.attached && rt.mode.RecordMode? && rt.recording.enabled && s.recorder.media.Keys == {rt.name}
    requires id !in s.requests && s.stubs == [] && Flatten(rt.chain, salt, r).Call?
    requires !Dedup.HasAnswer(s, KeyOf(rt, Flatten(rt.chain, salt, r).request)) && Reloaded(rt, s, KeyOf(rt, r)).None?
    requires Flatten(rt.chain, salt, r).resume(reply, Some(Upstream)).Ok?
    ensures var s' := Exec(rt, s, Schedule(id, r, salt, reply, stored));
            && Dedup.HasAnswer(s', KeyOf(rt, r))
            && (Reloaded(rt, s', KeyOf(rt, r)).Some? <==> stored)
  {
    var e := BuildExchange(rt, id, r, Flatten(rt.chain, salt, r).resume(reply, Some(Upstream)));
    AloneInTheRecord(rt, s, id, r, salt, reply, stored);
    RecordedKey(rt, id, r, Flatten(rt.chain, salt, r).resume(reply, Some(Upstream)));
    Replay.PromoteAnswersAsAppend(s.live, e, KeyOf(rt, r));
    Replay.ScanAppendOne(s.live, e, KeyOf(rt, r));
    Replay.ScanAppendOne(Medium(rt, s), e, KeyOf(rt, r));
  }

  lemma AloneInTheRecord(
      rt: Runtime, s: State, id: nat, r: Request, salt: nat, reply: Outcome, stored: bool)
    requires rt.attached && rt.recording.enabled && s.recorder.media.Keys == {rt.name}
    requires id !in s.requests && s.stubs == [] && Flatten(rt.chain, salt, r).Call?
    requires !Dedup.HasAnswer(s, KeyOf(rt, Flatten(rt.chain, salt, r).request))
    ensures var Call(call, resume) := Flatten(rt.chain, salt, r);
            var source := if rt.mode.RecordMode? then Upstream else ReplayMiss;
            var outcome := resume(if rt.mode.RecordMode? then reply else Ok(rt.missHandler(call)), Some(source));
            var e := BuildExchange(rt, id, r, outcome);
            var s' := Exec(rt, s, Schedule(id, r, salt, reply, stored));
            && s'.live == (if rt.mode.RecordMode? && outcome.Ok? then Replay.Promote(s.live, e) else s.live)
            && Medium(rt, s') == (if stored then Medium(rt, s) + [e] else Medium(rt, s))
            && s'.promoted == (if rt.mode.RecordMode? && outcome.Ok? then s.promoted + [e] else s.promoted)
            && s'.recorded == (if stored then s.recorded + [Entry(e, Some(source))] else s.recorded)
  {
    var Call(call, resume) := Flatten(rt.chain, salt, r);
    var source := if rt.mode.RecordMode? then Upstream else ReplayMiss;
    var outcome := resume(if rt.mode.RecordMode? then reply else Ok(rt.missHandler(call)), Some(source));
    var after := if rt.mode.RecordMode? then s.(forwarded := s.forwarded + [KeyOf(rt, call)]) else s;
    MissRunsAlone(rt, s, id, r, salt, reply, stored);
    RecordPathIs(rt, after, id, r, outcome, source, stored);
  }

  lemma RecordPathIs(
      rt: Runtime, s: State, id: nat, r: Request, outcome: Outcome, source: Source, stored: bool)
    requires rt.attached && rt.recording.enabled && s.recorder.media.Keys == {rt.name} && source != Snapshot
    ensures var e := BuildExchange(rt, id, r, outcome);
            var s' := if outcome.Ok? then RecordSuccess(rt, s, id, r, outcome.value, Some(source), stored)
                      else RecordError(rt, s, id, r, outcome.error, Some(source), stored);
            var offered := if outcome.Ok? && source == Upstream then Offered(s, e) else s;
            && s'.live == offered.live && s'.promoted == offered.promoted
            && Medium(rt, s') == (if stored then Medium(rt, s) + [e] else Medium(rt, s))
            && s'.recorded == (if stored then s.recorded + [Entry(e, Some(source))] else s.recorded)
  {
    var e := BuildExchange(rt, id, r, outcome);
    assert Recorders.Routed(s.recorder.media, e);
  }

  /**
   * So over any run before it, such a request, with a key that nothing answered and nothing promoted or recorded,
   * leaves live and reloaded answers for its key equal if and only if its append succeeded.
   */
  lemma FailedAppendBreaksRestart(
      rt: Runtime, loaded: seq<Exchange>, before: seq<Step>, id: nat, r: Request, salt: nat, reply: Outcome,
      stored: bool)
    requires rt.attached && rt.mode.RecordMode? && rt.recording.enabled
    requires var s := Exec(rt, Init(rt, loaded), before);
             && id !in s.requests && s.stubs == [] && Flatten(rt.chain, salt, r).Call?
             && !Dedup.HasAnswer(s, KeyOf(rt, Flatten(rt.chain, salt, r).request))
             && !Dedup.HasAnswer(s, KeyOf(rt, r)) && Reloaded(rt, s, KeyOf(rt, r)).None?
    requires Flatten(rt.chain, salt, r).resume(reply, Some(Upstream)).Ok?
    ensures var s := Exec(rt, Init(rt, loaded), before + Schedule(id, r, salt, reply, stored));
            Replay.Scan(s.live, KeyOf(rt, r)) == Reloaded(rt, s, KeyOf(rt, r)) <==> stored
  {
    var s := Exec(rt, Init(rt, loaded), before);
    var steps := before + Schedule(id, r, salt, reply, stored);
    var e := BuildExchange(rt, id, r, Flatten(rt.chain, salt, r).resume(reply, Some(Upstream)));
    var k := KeyOf(rt, r);
    ExecAppend(rt, Init(rt, loaded), before, Schedule(id, r, salt, reply, stored));
    AnswersAre(rt, loaded, before, k);
    AloneInTheRecord(rt, s, id, r, salt, reply, stored);
    RecordedKey(rt, id, r, Flatten(rt.chain, salt, r).resume(reply, Some(Upstream)));
    RestartAgreesIff(rt, loaded, steps, k);
    Replay.ScanAppendOne(s.promoted, e, k);
    FirstEntryOne(s.recorded, Entry(e, Some(Upstream)), k);
    ScanExchanges(s.recorded, k);
    ScanExchanges(s.recorded + [Entry(e, Some(Upstream))], k);
  }

  /**
   * The documentation says that Replay mode records nothing. The code looks only at whether recording is enabled:
   * whatever the chain makes of a miss is stored, and a restart then answers the key of the request with it, exactly
   * when recording is enabled and it is a response. The live index is left alone.
   */
  lemma ReplayMissIsStored(rt: Runtime, s: State, id: nat, r: Request, salt: nat, reply: Outcome)
    requires rt.attached && rt.mode.ReplayMode? && s.recorder.media.Keys == {rt.name}
    requires id !in s.requests && s.stubs == [] && Flatten(rt.chain, salt, r).Call?
    requires !Dedup.HasAnswer(s, KeyOf(rt, Flatten(rt.chain, salt, r).request)) && Reloaded(rt, s, KeyOf(rt, r)).None?
    ensures var Call(call, resume) := Flatten(rt.chain, salt, r);
            var outcome := resume(Ok(rt.missHandler(call)), Some(ReplayMiss));
            var s' := Exec(rt, s, Schedule(id, r, salt, reply, true));
            && s'.live == s.live
            && Reloaded(rt, s', KeyOf(rt, r)) ==
               if rt.recording.enabled && outcome.Ok? then Some(BuildExchange(rt, id, r, outcome)) else None
  {
    var Call(call, resume) := Flatten(rt.chain, salt, r);
    var outcome := resume(Ok(rt.missHandler(call)), Some(ReplayMiss));
    if rt.recording.enabled {
      AloneInTheRecord(rt, s, id, r, salt, reply, true);
      RecordedKey(rt, id, r, outcome);
      Replay.ScanAppendOne(Medium(rt, s), BuildExchange(rt, id, r, outcome), KeyOf(rt, r));
    } else {
      MissRunsAlone(rt, s, id, r, salt, reply, true);
    }
  }
}
