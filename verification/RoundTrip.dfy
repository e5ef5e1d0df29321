/** Recording and replaying under redaction, within a run and through a file into another run. */
module RoundTrip {
  import opened Wrappers
  import opened Text
  import opened Http
  import opened Recorded
  import opened Middleware
  import Replay
  import Jsonl
  import opened Listener
  import Dedup
  import Restart

  /** A lookup of an answered key ends the terminal with that answer, marked as a snapshot. */
  lemma LookupServes(rt: Runtime, s: State, id: nat)
    requires rt.attached && Enabled(s, Lookup(id)) && Dedup.HasAnswer(s, KeyOf(rt, s.requests[id].call))
    ensures var p := s.requests[id];
            var served := Dedup.AnswerFor(s, KeyOf(rt, p.call));
            && Apply(rt, s, Lookup(id)).requests[id] ==
               Replying(p.original, p.resume(Ok(served), Some(Snapshot)), Some(Snapshot))
            && Apply(rt, s, Lookup(id)).forwarded == s.forwarded
  {}

  /** What a client gets back of a recorded response: its status and redacted body, and such headers as survive. */
  ghost predicate GivesBack(rt: Runtime, recorded: Response, served: Response) {
    var redacted := RedactedResponse(rt.chain, recorded);
    && served.status == redacted.status
    && served.body == redacted.body
    && (SameHeaders(served.headers, redacted.headers)
        <==> DistinctNames(redacted.headers) && AllVisible(redacted.headers))
  }

  lemma BuiltExchangeGivesBack(rt: Runtime, id: nat, original: Request, r: Response)
    ensures GivesBack(rt, r, Replayed(BuildExchange(rt, id, original, Ok(r)).outcome.response))
  {
    ReplayGivesBack(RedactedResponse(rt.chain, r));
  }

  /**
   * The round trip under redaction, in any run: once the step `first` has recorded a forwarded response under `k`,
   * every later lookup of a request whose redacted key is `k` is served that response's status and redacted body.
   * The redaction is folded in registration order on both sides; it need not be idempotent.
   */
  lemma RecordedResponseIsServed(rt: Runtime, s: State, first: Step, after: seq<Step>, id: nat)
    requires rt.attached
    requires var s' := Exec(rt, Apply(rt, s, first), after);
             && Enabled(s', Lookup(id))
             && !Dedup.HasAnswer(s, KeyOf(rt, s'.requests[id].call))
             && Dedup.HasAnswer(Apply(rt, s, first), KeyOf(rt, s'.requests[id].call))
    ensures var s' := Exec(rt, Apply(rt, s, first), after);
            var p := s'.requests[id];
            && first.Conclude? && Enabled(s, first) && s.requests[first.id].outcome.Ok?
            && KeyOf(rt, s.requests[first.id].original) == KeyOf(rt, p.call)
            && exists served ::
                 && GivesBack(rt, s.requests[first.id].outcome.value, served)
                 && Apply(rt, s', Lookup(id)).requests[id] ==
                    Replying(p.original, p.resume(Ok(served), Some(Snapshot)), Some(Snapshot))
  {
    var s' := Exec(rt, Apply(rt, s, first), after);
    var k := KeyOf(rt, s'.requests[id].call);
    Dedup.FirstAnswerIsAConclusion(rt, s, first, k);
    Dedup.LiveGrowsOverRun(rt, Apply(rt, s, first), after, k);
    LookupServes(rt, s', id);
    var p := s.requests[first.id];
    BuiltExchangeGivesBack(rt, first.id, p.original, p.outcome.value);
    assert GivesBack(rt, p.outcome.value, Dedup.AnswerFor(s', k));
  }

  /** The text of the upstream's NDJSON file after a run that started on an empty file. */
  ghost function FileOf(codec: Jsonl.Codec, rt: Runtime, s: State): string {
    Jsonl.Written(codec, "", Restart.Medium(rt, s))
  }

  /**
   * Record once, replay forever: a cluster over an empty file, after any run, and then a cluster in any mode over the
   * same file, with any chain and any run of its own. What the first one's live index answered for a key is what the
   * second serves for it, provided that the first response for the key to be promoted and the first to reach the file
   * were of the same request; in Replay mode the second never sends anything upstream.
   */
  lemma RecordThenReplay(
      codec: Jsonl.Codec, rt: Runtime, steps: seq<Step>, rt2: Runtime, steps2: seq<Step>, id: nat, k: Key)
    requires Jsonl.Faithful(codec) && rt.attached && rt2.attached
    requires var s := Exec(rt, Init(rt, []), steps);
             && Dedup.HasAnswer(s, k)
             && Restart.IdOf(Replay.Scan(s.promoted, k)) == Restart.IdOf(Replay.Scan(Restart.Exchanges(s.recorded), k))
    requires var file := Jsonl.LoadText(codec, FileOf(codec, rt, Exec(rt, Init(rt, []), steps)));
             var s2 := Exec(rt2, Init(rt2, file.items), steps2);
             Enabled(s2, Lookup(id)) && KeyOf(rt2, s2.requests[id].call) == k
    ensures var s := Exec(rt, Init(rt, []), steps);
            var file := Jsonl.LoadText(codec, FileOf(codec, rt, s));
            var s2 := Exec(rt2, Init(rt2, file.items), steps2);
            var p := s2.requests[id];
            && file.badLine.None?
            && Apply(rt2, s2, Lookup(id)).requests[id] ==
               Replying(p.original, p.resume(Ok(Dedup.AnswerFor(s, k)), Some(Snapshot)), Some(Snapshot))
            && (rt2.mode.ReplayMode? ==> s2.forwarded == [])
  {
    var s := Exec(rt, Init(rt, []), steps);
    var medium := Restart.Medium(rt, s);
    FileLoads(codec, medium);
    var s2 := Exec(rt2, Init(rt2, medium), steps2);
    Restart.RestartAgreesIff(rt, [], steps, k);
    assert Dedup.HasAnswer(Init(rt2, medium), k);
    Dedup.LiveGrowsOverRun(rt2, Init(rt2, medium), steps2, k);
    LookupServes(rt2, s2, id);
    if rt2.mode.ReplayMode? {
      Dedup.ReplayModeNeverForwards(rt2, Init(rt2, medium), steps2);
    }
  }

  lemma FileLoads(codec: Jsonl.Codec, es: seq<Exchange>)
    requires Jsonl.Faithful(codec)
    ensures Jsonl.LoadText(codec, Jsonl.Written(codec, "", es)) == Jsonl.Loaded(es, None)
  {
    assert CutLines("") == Cut([], "");
    assert TextLines("") == [];
    Jsonl.LoadReturnsAppended(codec, "", es);
    assert [] + es == es;
  }
}
