/** The deduplication bound is attained, whatever the number of requests in flight. */
module Tightness {
  import opened Wrappers
  import opened Collections
  import opened Http
  import opened Recorded
  import opened Middleware
  import Replay
  import opened Listener
  import Dedup
  import Restart

  /** `n` requests, all alike, each forwarded and answered before any of them is recorded. */
  function AllForward(n: nat, r: Request, reply: Response): seq<Step> {
    if n == 0 then []
    else AllForward(n - 1, r, reply) + ForwardOne(n - 1, r, reply)
  }

  function ForwardOne(id: nat, r: Request, reply: Response): seq<Step> {
    [Arrive(id, r, 0), ScanStubs(id), Lookup(id)] + ([ForwardDone(id, Ok(reply))] + [])
  }

  /** Then they are recorded, one after the other. */
  function AllRecord(first: nat, n: nat): seq<Step>
    requires first <= n
    decreases n - first
  {
    if first == n then [] else [Conclude(first)] + ([Append(first, true)] + AllRecord(first + 1, n))
  }

  /** The chain forwards the request under its own key, and what it makes of the reply is the response `final`. */
  ghost predicate Recordable(rt: Runtime, r: Request, reply: Response, final: Response) {
    && rt.attached && rt.recording.enabled && rt.mode.RecordMode?
    && Flatten(rt.chain, 0, r).Call?
    && KeyOf(rt, Flatten(rt.chain, 0, r).request) == KeyOf(rt, r)
    && Flatten(rt.chain, 0, r).resume(Ok(reply), Some(Upstream)) == Ok(final)
  }

  /** The first `done` of `n` requests have been recorded, the others have their response in hand. */
  ghost predicate InHand(rt: Runtime, s: State, done: nat, n: nat, r: Request, final: Response) {
    && s.stubs == [] && s.recorder.media.Keys == {rt.name}
    && (forall id: nat :: id in s.requests <==> id < n)
    && (forall id: nat :: done <= id < n ==> s.requests[id] == Replying(r, Ok(final), Some(Upstream)))
    && Dedup.ForwardedReplies(s, KeyOf(rt, r)) == done
    && (Dedup.HasAnswer(s, KeyOf(rt, r)) <==> done > 0)
  }

  /** Run alone, a request that nothing answers is forwarded and ends with its response in hand. */
  lemma ForwardOneIs(rt: Runtime, s: State, id: nat, r: Request, reply: Response, final: Response)
    requires Recordable(rt, r, reply, final) && id !in s.requests && s.stubs == []
    requires !Dedup.HasAnswer(s, KeyOf(rt, r))
    ensures Exec(rt, s, ForwardOne(id, r, reply)) ==
            Set(s.(forwarded := s.forwarded + [KeyOf(rt, r)]), id, Replying(r, Ok(final), Some(Upstream)))
  {
    var s1 := Apply(rt, s, Arrive(id, r, 0));
    var s3 := Apply(rt, Apply(rt, s1, ScanStubs(id)), Lookup(id));
    ThreeSteps(rt, s, Arrive(id, r, 0), ScanStubs(id), Lookup(id), [ForwardDone(id, Ok(reply))] + []);
    ExecFirst(rt, s3, ForwardDone(id, Ok(reply)), []);
    TerminalStepsRefine(rt, s, s1, id, r, 0, Ok(reply));
  }

  lemma OneMoreInHand(rt: Runtime, s: State, n: nat, r: Request, reply: Response, final: Response)
    requires Recordable(rt, r, reply, final) && InHand(rt, s, 0, n, r, final)
    ensures InHand(rt, Exec(rt, s, ForwardOne(n, r, reply)), 0, n + 1, r, final)
  {
    ForwardOneIs(rt, s, n, r, reply, final);
  }

  lemma NoneInHand(rt: Runtime, loaded: seq<Exchange>, r: Request, final: Response)
    requires rt.attached && Replay.Scan(loaded, KeyOf(rt, r)).None?
    ensures InHand(rt, Init(rt, loaded), 0, 0, r, final)
  {}

  lemma ForwardLast(rt: Runtime, s: State, n: nat, r: Request, reply: Response)
    ensures Exec(rt, s, AllForward(n + 1, r, reply)) ==
            Exec(rt, Exec(rt, s, AllForward(n, r, reply)), ForwardOne(n, r, reply))
  {
    ExecAppend(rt, s, AllForward(n, r, reply), ForwardOne(n, r, reply));
  }

  lemma NextInHand(rt: Runtime, s: State, n: nat, r: Request, reply: Response, final: Response)
    requires Recordable(rt, r, reply, final) && InHand(rt, Exec(rt, s, AllForward(n, r, reply)), 0, n, r, final)
    ensures InHand(rt, Exec(rt, s, AllForward(n + 1, r, reply)), 0, n + 1, r, final)
  {
    ForwardLast(rt, s, n, r, reply);
    OneMoreInHand(rt, Exec(rt, s, AllForward(n, r, reply)), n, r, reply, final);
  }

  lemma {:induction false} AllInHand(
      rt: Runtime, loaded: seq<Exchange>, n: nat, r: Request, reply: Response, final: Response)
    requires Recordable(rt, r, reply, final) && Replay.Scan(loaded, KeyOf(rt, r)).None?
    ensures InHand(rt, Exec(rt, Init(rt, loaded), AllForward(n, r, reply)), 0, n, r, final)
    decreases n
  {
    if n == 0 {
      NoneInHand(rt, loaded, r, final);
    } else {
      AllInHand(rt, loaded, n - 1, r, reply, final);
      NextInHand(rt, Init(rt, loaded), n - 1, r, reply, final);
    }
  }

  /** The first conclusion answers the key, and every other leaves the answer as it is. */
  lemma ConcludesInHand(rt: Runtime, s: State, done: nat, n: nat, r: Request, final: Response)
    requires rt.attached && rt.recording.enabled && InHand(rt, s, done, n, r, final) && done < n
    ensures var e := BuildExchange(rt, done, r, Ok(final));
            var s' := Apply(rt, s, Conclude(done));
            && s' == Offered(Set(s, done, Persisting(e, Some(Upstream))), e)
            && Replay.Answers(e, KeyOf(rt, r))
            && Dedup.HasAnswer(s', KeyOf(rt, r))
  {
    var e := BuildExchange(rt, done, r, Ok(final));
    RecordedKey(rt, done, r, Ok(final));
    Restart.ConcludeForwarded(rt, s, done, r, final);
    Replay.PromoteAnswersAsAppend(s.live, e, KeyOf(rt, r));
    Replay.ScanAppendOne(s.live, e, KeyOf(rt, r));
  }

  lemma OneMoreRecorded(rt: Runtime, s: State, done: nat, n: nat, r: Request, final: Response)
    requires rt.attached && rt.recording.enabled && InHand(rt, s, done, n, r, final) && done < n
    ensures InHand(rt, Apply(rt, Apply(rt, s, Conclude(done)), Append(done, true)), done + 1, n, r, final)
  {
    var e := BuildExchange(rt, done, r, Ok(final));
    var s1 := Apply(rt, s, Conclude(done));
    ConcludesInHand(rt, s, done, n, r, final);
    Restart.AppendStores(rt, s1, done);
    StoredInHand(rt, s, s1, Apply(rt, s1, Append(done, true)), done, n, r, final, e);
  }

  lemma StoredInHand(
      rt: Runtime, s: State, s1: State, s2: State, done: nat, n: nat, r: Request, final: Response, e: Exchange)
    requires InHand(rt, s, done, n, r, final) && done < n && Replay.Answers(e, KeyOf(rt, r))
    requires s1 == Offered(Set(s, done, Persisting(e, Some(Upstream))), e) && Dedup.HasAnswer(s1, KeyOf(rt, r))
    requires s2.stubs == s1.stubs && s2.live == s1.live && s2.recorder.media.Keys == {rt.name}
    requires s2.recorded == s1.recorded + [Entry(e, Some(Upstream))] && s2.requests == s1.requests[done := Finished]
    ensures InHand(rt, s2, done + 1, n, r, final)
  {
    CountOneMore(
      s.recorded, Entry(e, Some(Upstream)), (x: Entry) => Dedup.IsForwardedReply(x, KeyOf(rt, r)));
  }

  lemma {:induction false} AllRecorded(rt: Runtime, s: State, done: nat, n: nat, r: Request, final: Response)
    requires rt.attached && rt.recording.enabled && InHand(rt, s, done, n, r, final) && done <= n
    ensures InHand(rt, Exec(rt, s, AllRecord(done, n)), n, n, r, final)
    decreases n - done
  {
    if done < n {
      var s1 := Apply(rt, s, Conclude(done));
      ExecFirst(rt, s, Conclude(done), [Append(done, true)] + AllRecord(done + 1, n));
      ExecFirst(rt, s1, Append(done, true), AllRecord(done + 1, n));
      OneMoreRecorded(rt, s, done, n, r, final);
      AllRecorded(rt, Apply(rt, s1, Append(done, true)), done + 1, n, r, final);
    }
  }

  lemma AllAreInFlight(rt: Runtime, s: State, n: nat, r: Request, final: Response)
    requires InHand(rt, s, 0, n, r, final)
    ensures |Dedup.InFlight(rt, s, KeyOf(rt, r))| == n
  {
    assert Dedup.InFlight(rt, s, KeyOf(rt, r)) == Below(n);
  }

  /**
   * For every `n` there is a run in which `n` requests for a key are in flight when it is first answered, and
   * all `n` of their responses are recorded: the bound of `Dedup.DedupBound` cannot be lowered.
   */
  lemma DedupBoundIsTight(rt: Runtime, loaded: seq<Exchange>, n: nat, r: Request, reply: Response, final: Response)
    requires Recordable(rt, r, reply, final) && Replay.Scan(loaded, KeyOf(rt, r)).None? && n > 0
    ensures var s0 := Exec(rt, Init(rt, loaded), AllForward(n, r, reply));
            var s1 := Apply(rt, s0, Conclude(0));
            && !Dedup.HasAnswer(s0, KeyOf(rt, r)) && Dedup.HasAnswer(s1, KeyOf(rt, r))
            && |Dedup.InFlight(rt, s0, KeyOf(rt, r))| == n
            && Dedup.ForwardedReplies(Exec(rt, s1, [Append(0, true)] + AllRecord(1, n)), KeyOf(rt, r)) == n
  {
    var s0 := Exec(rt, Init(rt, loaded), AllForward(n, r, reply));
    AllInHand(rt, loaded, n, r, reply, final);
    AllAreInFlight(rt, s0, n, r, final);
    ConcludesInHand(rt, s0, 0, n, r, final);
    AllRecorded(rt, s0, 0, n, r, final);
    ExecFirst(rt, s0, Conclude(0), [Append(0, true)] + AllRecord(1, n));
  }
}
