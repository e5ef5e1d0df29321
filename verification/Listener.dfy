/**
 * The requests of one upstream as interleaved atomic steps over the state they share: stub store, live replay
 * index and recorder. Every sequence of steps is a run; a step that does not apply changes nothing.
 */
module Listener {
  import opened Wrappers
  import opened Http
  import opened Recorded
  import opened Middleware
  import Replay
  import Stubs
  import Recorders

  datatype Mode = RecordMode | ReplayMode

  /** `attached` says whether the upstream has a storage medium: then it has a replay source and a route too. */
  datatype Runtime = Runtime(
    name: string, chain: seq<Layer>, sha: Hasher, mode: Mode, missHandler: Request -> Response,
    attached: bool, recording: Recorders.Config)

  type Resume = (Outcome, Option<Source>) -> Outcome

  datatype Phase =
    | Scanning(original: Request, call: Request, resume: Resume)
    | Looking(original: Request, call: Request, resume: Resume)
    | Forwarding(original: Request, call: Request, resume: Resume)
    | Replying(original: Request, outcome: Outcome, source: Option<Source>)
    | Persisting(exchange: Exchange, source: Option<Source>)
    | Finished

  datatype Entry = Entry(exchange: Exchange, source: Option<Source>)

  /**
   * The last four fields are history: keys sent upstream, snapshots served, exchanges offered to the live index, and
   * exchanges that the recorder took, also those whose record call was dropped after they had reached the medium.
   */
  datatype State = State(
    stubs: seq<Stubs.StubEntry>,
    live: seq<Exchange>,
    recorder: Recorders.State,
    requests: map<nat, Phase>,
    forwarded: seq<Key>,
    served: seq<(Key, Response)>,
    promoted: seq<Exchange>,
    recorded: seq<Entry>)

  datatype Step =
    | Arrive(id: nat, request: Request, salt: nat)
    | BodyFailed(id: nat, request: Request, message: string)
    | ScanStubs(id: nat)
    | Lookup(id: nat)
    | ForwardDone(id: nat, reply: Outcome)
    | Conclude(id: nat)
    | Append(id: nat, stored: bool)
    | Drop(id: nat, stored: bool)
    | AddStub(entry: Stubs.StubEntry)
    | ClearStubs
    | ClearRecordings

  /** A fresh cluster over a medium that holds `loaded`. */
  ghost function Init(rt: Runtime, loaded: seq<Exchange>): State {
    State(
      [], if rt.attached then loaded else [],
      Recorders.State([], if rt.attached then map[rt.name := loaded] else map[], 0),
      map[], [], [], [], [])
  }

  function KeyOf(rt: Runtime, r: Request): Key {
    Replay.LookupKey(rt.sha, rt.chain, r)
  }

  function BuildExchange(rt: Runtime, id: nat, original: Request, outcome: Outcome): Exchange {
    Exchange(
      id, Some(rt.name), RequestFromParts(rt.sha, RedactedRequest(rt.chain, original)),
      match outcome
      case Ok(r) => Answered(ResponseFromParts(RedactedResponse(rt.chain, r)))
      case Err(message) => Failed(message))
  }

  function Set(s: State, id: nat, phase: Phase): State {
    s.(requests := s.requests[id := phase])
  }

  function DoArrive(rt: Runtime, s: State, id: nat, r: Request, salt: nat): State {
    match Flatten(rt.chain, salt, r)
    case Answer(outcome) => Set(s, id, Replying(r, outcome, None))
    case Call(call, resume) => Set(s, id, Scanning(r, call, resume))
  }

  function DoBodyFailed(rt: Runtime, s: State, id: nat, r: Request, message: string): State {
    if rt.recording.enabled
    then Set(s, id, Persisting(BuildExchange(rt, id, r.(body := []), Err(message)), None))
    else Set(s, id, Finished)
  }

  function DoScanStubs(s: State, id: nat, p: Phase): State
    requires p.Scanning?
  {
    var (hit, left) := Stubs.Take(s.stubs, p.call);
    match hit
    case Some(response) =>
      Set(s, id, Replying(p.original, p.resume(Ok(response), Some(Stub)), Some(Stub))).(stubs := left)
    case None => Set(s, id, Looking(p.original, p.call, p.resume))
  }

  ghost function DoLookup(rt: Runtime, s: State, id: nat, p: Phase): State
    requires p.Looking?
  {
    var hit := if rt.attached then Replay.ScanFor(s.live, rt.sha, rt.chain, p.call) else None;
    if hit.Some? then
      Set(s, id, Replying(p.original, p.resume(Ok(hit.value), Some(Snapshot)), Some(Snapshot)))
        .(served := s.served + [(KeyOf(rt, p.call), hit.value)])
    else if rt.mode.ReplayMode? then
      Set(s, id, Replying(p.original, p.resume(Ok(rt.missHandler(p.call)), Some(ReplayMiss)), Some(ReplayMiss)))
    else
      Set(s, id, Forwarding(p.original, p.call, p.resume)).(forwarded := s.forwarded + [KeyOf(rt, p.call)])
  }

  /** The part of the record path that nothing can interrupt: it ends where the record call starts to wait. */
  function DoConclude(rt: Runtime, s: State, id: nat, p: Phase): State
    requires p.Replying?
  {
    if !rt.recording.enabled || (p.outcome.Ok? && p.source == Some(Snapshot)) then Set(s, id, Finished)
    else
      var e := BuildExchange(rt, id, p.original, p.outcome);
      var waiting := Set(s, id, Persisting(e, p.source));
      if p.outcome.Ok? && p.source == Some(Upstream) && rt.attached then Offered(waiting, e) else waiting
  }

  /** `e` is offered to the live index. */
  function Offered(s: State, e: Exchange): State {
    s.(live := Replay.Promote(s.live, e), promoted := s.promoted + [e])
  }

  function DoAppend(rt: Runtime, s: State, id: nat, p: Phase, stored: bool): State
    requires p.Persisting?
  {
    Set(RecordCall(rt, s, Entry(p.exchange, p.source), stored), id, Finished)
  }

  /** One call of the recorder; `stored` says whether the medium takes the exchange. */
  function RecordCall(rt: Runtime, s: State, x: Entry, stored: bool): State {
    s.(recorder := Recorders.Record(rt.recording, s.recorder, x.exchange, stored),
       recorded := if Recorders.Accepts(rt.recording, s.recorder.media.Keys, x.exchange, stored)
                   then s.recorded + [x] else s.recorded)
  }

  /** The connection future is dropped; a record call that waits for its medium is abandoned with it. */
  function DoDrop(rt: Runtime, s: State, id: nat, p: Phase, stored: bool): State {
    if !p.Persisting? then Set(s, id, Finished)
    else
      var reached := rt.recording.enabled && stored && Recorders.Routed(s.recorder.media, p.exchange);
      Set(s, id, Finished).(
        recorder := Recorders.Abandon(rt.recording, s.recorder, p.exchange, stored),
        recorded := if reached then s.recorded + [Entry(p.exchange, p.source)] else s.recorded)
  }

  ghost predicate Enabled(s: State, step: Step) {
    match step
    case Arrive(id, _, _) => id !in s.requests
    case BodyFailed(id, _, _) => id !in s.requests
    case ScanStubs(id) => id in s.requests && s.requests[id].Scanning?
    case Lookup(id) => id in s.requests && s.requests[id].Looking?
    case ForwardDone(id, _) => id in s.requests && s.requests[id].Forwarding?
    case Conclude(id) => id in s.requests && s.requests[id].Replying?
    case Append(id, _) => id in s.requests && s.requests[id].Persisting?
    case Drop(id, _) => id in s.requests
    case _ => true
  }

  ghost function Apply(rt: Runtime, s: State, step: Step): State {
    if !Enabled(s, step) then s
    else match step
      case Arrive(id, r, salt) => DoArrive(rt, s, id, r, salt)
      case BodyFailed(id, r, message) => DoBodyFailed(rt, s, id, r, message)
      case ScanStubs(id) => DoScanStubs(s, id, s.requests[id])
      case Lookup(id) => DoLookup(rt, s, id, s.requests[id])
      case ForwardDone(id, reply) =>
        var p := s.requests[id];
        Set(s, id, Replying(p.original, p.resume(reply, Some(Upstream)), Some(Upstream)))
      case Conclude(id) => DoConclude(rt, s, id, s.requests[id])
      case Append(id, stored) => DoAppend(rt, s, id, s.requests[id], stored)
      case Drop(id, stored) => DoDrop(rt, s, id, s.requests[id], stored)
      case AddStub(entry) => s.(stubs := s.stubs + [entry])
      case ClearStubs => s.(stubs := [])
      case ClearRecordings => s.(recorder := s.recorder.(ring := []))
  }

  /** The request that a step moves, if it moves one. */
  function Actor(step: Step): Option<nat> {
    match step
    case Arrive(id, _, _) => Some(id)
    case BodyFailed(id, _, _) => Some(id)
    case ScanStubs(id) => Some(id)
    case Lookup(id) => Some(id)
    case ForwardDone(id, _) => Some(id)
    case Conclude(id) => Some(id)
    case Append(id, _) => Some(id)
    case Drop(id, _) => Some(id)
    case _ => None
  }

  /** A step moves its own request and no other. */
  lemma OnlyActorMoves(rt: Runtime, s: State, step: Step, id: nat)
    requires Actor(step) != Some(id) || !Enabled(s, step)
    ensures var s' := Apply(rt, s, step);
            (id in s'.requests <==> id in s.requests) && (id in s.requests ==> s'.requests[id] == s.requests[id])
  {}

  /** Which steps touch the live index, the list of what was recorded, and the media. */
  lemma OnlyTheirStepTouches(rt: Runtime, s: State, step: Step)
    ensures var s' := Apply(rt, s, step);
            && (!step.Conclude? ==> s'.live == s.live && s'.promoted == s.promoted)
            && (!step.Append? && !step.Drop? ==>
                  s'.recorded == s.recorded && s'.recorder.media == s.recorder.media)
            && (!step.Lookup? ==> s'.forwarded == s.forwarded && s'.served == s.served)
  {}

  ghost function Exec(rt: Runtime, s: State, steps: seq<Step>): State
    decreases |steps|
  {
    if steps == [] then s else Exec(rt, Apply(rt, s, steps[0]), steps[1..])
  }

  lemma {:induction false} ExecAppend(rt: Runtime, s: State, a: seq<Step>, b: seq<Step>)
    ensures Exec(rt, s, a + b) == Exec(rt, Exec(rt, s, a), b)
    decreases |a|
  {
    if a == [] {
      assert a + b == b;
    } else {
      assert (a + b)[1..] == a[1..] + b;
      ExecAppend(rt, Apply(rt, s, a[0]), a[1..], b);
    }
  }

  /** What a request is recorded under is what its unchanged self would be looked up under. */
  lemma RecordedKey(rt: Runtime, id: nat, original: Request, outcome: Outcome)
    ensures KeyOfExchange(BuildExchange(rt, id, original, outcome)) == KeyOf(rt, original)
  {
    RecordingKeepsKey(rt.sha, RedactedRequest(rt.chain, original), BuildExchange(rt, id, original, outcome));
  }

  // One request alone, as the source writes it: chain, terminal, record path.

  datatype World = World(
    stubs: seq<Stubs.StubEntry>, live: seq<Exchange>, forwarded: seq<Key>, served: seq<(Key, Response)>)

  /** Stub scan, then replay lookup, then forward or replay miss; `reply` is what the upstream would answer. */
  ghost function LiveTerminal(rt: Runtime, reply: Outcome, w: World, r: Request): Flow<World> {
    var (stub, left) := Stubs.Take(w.stubs, r);
    if stub.Some? then Flow(w.(stubs := left), Ok(stub.value), Some(Stub), 1)
    else
      var hit := if rt.attached then Replay.ScanFor(w.live, rt.sha, rt.chain, r) else None;
      if hit.Some? then Flow(w.(served := w.served + [(KeyOf(rt, r), hit.value)]), Ok(hit.value), Some(Snapshot), 1)
      else match rt.mode
        case ReplayMode => Flow(w, Ok(rt.missHandler(r)), Some(ReplayMiss), 1)
        case RecordMode => Flow(w.(forwarded := w.forwarded + [KeyOf(rt, r)]), reply, Some(Upstream), 1)
  }

  /** The live terminal counts as one run and leaves its marker, as every terminal of a chain must. */
  lemma LiveTerminalMarks(rt: Runtime, reply: Outcome, w: World, r: Request)
    ensures LiveTerminal(rt, reply, w, r).calls == 1 && LiveTerminal(rt, reply, w, r).source.Some?
  {}

  /** So a request that comes through the chain reaches it at most once, and has no marker only if it did not. */
  lemma ChainReachesLiveTerminal(rt: Runtime, reply: Outcome, salt: nat, w: World, r: Request)
    ensures var flow := RunChain(rt.chain, salt, (w', r') => LiveTerminal(rt, reply, w', r'), w, r);
            && flow.calls <= 1
            && (flow.source.None? <==> flow.calls == 0)
            && (flow.calls == 0 ==> flow.world == w)
            && |flow.world.forwarded| <= |w.forwarded| + (if flow.source == Some(Upstream) then 1 else 0)
  {
    var t := (w': World, r': Request) => LiveTerminal(rt, reply, w', r');
    TerminalRunsAtMostOnce(rt.chain, salt, t, w, r);
    var flow := RunChain(rt.chain, salt, t, w, r);
    if flow.calls == 1 {
      var r' :| flow.world == t(w, r').world && flow.source == t(w, r').source;
    }
  }

  ghost function RecordSuccess(
      rt: Runtime, s: State, id: nat, original: Request, response: Response, source: Option<Source>, stored: bool)
    : State
  {
    if !rt.recording.enabled then s
    else if source == Some(Snapshot) then s
    else
      var e := BuildExchange(rt, id, original, Ok(response));
      RecordCall(rt, if source == Some(Upstream) && rt.attached then Offered(s, e) else s, Entry(e, source), stored)
  }

  function RecordError(
      rt: Runtime, s: State, id: nat, original: Request, message: string, source: Option<Source>, stored: bool): State
  {
    if !rt.recording.enabled then s
    else RecordCall(rt, s, Entry(BuildExchange(rt, id, original, Err(message)), source), stored)
  }

  /** A request whose body was read: the chain around the terminal, then the record path of its outcome. */
  ghost function HandleRequest(
      rt: Runtime, s: State, id: nat, r: Request, salt: nat, reply: Outcome, stored: bool): State
  {
    var flow := RunChain(
      rt.chain, salt, (w, r') => LiveTerminal(rt, reply, w, r'), World(s.stubs, s.live, s.forwarded, s.served), r);
    var after := s.(stubs := flow.world.stubs, forwarded := flow.world.forwarded, served := flow.world.served);
    var recorded := match flow.outcome
      case Ok(response) => RecordSuccess(rt, after, id, r, response, flow.source, stored)
      case Err(message) => RecordError(rt, after, id, r, message, flow.source, stored);
    Set(recorded, id, Finished)
  }

  /** A request whose body could not be read is recorded as a failure, without a body. */
  lemma BodyFailureRefinesHandler(rt: Runtime, s: State, id: nat, r: Request, message: string, stored: bool)
    requires id !in s.requests
    ensures Exec(rt, s, [BodyFailed(id, r, message), Append(id, stored)]) ==
            Set(RecordError(rt, s, id, r.(body := []), message, None, stored), id, Finished)
  {
    var s1 := Apply(rt, s, BodyFailed(id, r, message));
    assert [BodyFailed(id, r, message), Append(id, stored)] ==
           [BodyFailed(id, r, message)] + ([Append(id, stored)] + []);
    ExecFirst(rt, s, BodyFailed(id, r, message), [Append(id, stored)] + []);
    ExecFirst(rt, s1, Append(id, stored), []);
    SetTwice(s, id, Persisting(BuildExchange(rt, id, r.(body := []), Err(message)), None));
    var x := Entry(BuildExchange(rt, id, r.(body := []), Err(message)), None);
    SetTwice(RecordCall(rt, s, x, stored), id, Persisting(x.exchange, None));
  }

  function Schedule(id: nat, r: Request, salt: nat, reply: Outcome, stored: bool): seq<Step> {
    [Arrive(id, r, salt), ScanStubs(id), Lookup(id), ForwardDone(id, reply), Conclude(id), Append(id, stored)]
  }

  lemma ExecFirst(rt: Runtime, s: State, step: Step, rest: seq<Step>)
    ensures Exec(rt, s, [step] + rest) == Exec(rt, Apply(rt, s, step), rest)
  {
    assert ([step] + rest)[1..] == rest;
  }

  lemma ThreeSteps(rt: Runtime, s: State, a: Step, b: Step, c: Step, rest: seq<Step>)
    ensures Exec(rt, s, [a, b, c] + rest) == Exec(rt, Apply(rt, Apply(rt, Apply(rt, s, a), b), c), rest)
  {
    assert [a, b, c] + rest == [a] + ([b] + ([c] + rest));
    ExecFirst(rt, s, a, [b] + ([c] + rest));
    ExecFirst(rt, Apply(rt, s, a), b, [c] + rest);
    ExecFirst(rt, Apply(rt, Apply(rt, s, a), b), c, rest);
  }

  lemma SixSteps(rt: Runtime, s: State, a: Step, b: Step, c: Step, d: Step, e: Step, f: Step)
    ensures Exec(rt, s, [a, b, c, d, e, f]) ==
            Apply(rt, Apply(rt, Apply(rt, Apply(rt, Apply(rt, Apply(rt, s, a), b), c), d), e), f)
  {
    assert [a, b, c, d, e, f] == [a, b, c] + ([d, e, f] + []);
    ThreeSteps(rt, s, a, b, c, [d, e, f] + []);
    ThreeSteps(rt, Apply(rt, Apply(rt, Apply(rt, s, a), b), c), d, e, f, []);
  }

  /**
   * The steps of one request, run without others between them, do what the source's request handler does: the
   * chain around the terminal, then the record path.
   */
  lemma StepsRefineHandler(rt: Runtime, s: State, id: nat, r: Request, salt: nat, reply: Outcome, stored: bool)
    requires id !in s.requests
    ensures Exec(rt, s, Schedule(id, r, salt, reply, stored)) == HandleRequest(rt, s, id, r, salt, reply, stored)
  {
    var t := (w, r') => LiveTerminal(rt, reply, w, r');
    var w := World(s.stubs, s.live, s.forwarded, s.served);
    FlatteningKeepsMeaning(rt.chain, salt, t, w, r);
    SixSteps(
      rt, s, Arrive(id, r, salt), ScanStubs(id), Lookup(id), ForwardDone(id, reply), Conclude(id), Append(id, stored));
    var s1 := Apply(rt, s, Arrive(id, r, salt));
    var s4 := Apply(rt, Apply(rt, Apply(rt, s1, ScanStubs(id)), Lookup(id)), ForwardDone(id, reply));
    TerminalStepsRefine(rt, s, s1, id, r, salt, reply);
    var flow := RunChain(rt.chain, salt, t, w, r);
    var after := s.(stubs := flow.world.stubs, forwarded := flow.world.forwarded, served := flow.world.served);
    assert s4 == Set(after, id, Replying(r, flow.outcome, flow.source));
    match flow.outcome
    case Ok(response) => SuccessAgrees(rt, after, s4, id, r, response, flow.source, stored);
    case Err(message) => ErrorAgrees(rt, after, s4, id, r, message, flow.source, stored);
  }

  lemma SuccessAgrees(
      rt: Runtime, after: State, s4: State, id: nat, r: Request, response: Response, source: Option<Source>,
      stored: bool)
    requires s4 == Set(after, id, Replying(r, Ok(response), source))
    ensures Apply(rt, Apply(rt, s4, Conclude(id)), Append(id, stored)) ==
            Set(RecordSuccess(rt, after, id, r, response, source, stored), id, Finished)
  {
    var e := BuildExchange(rt, id, r, Ok(response));
    var offered := if source == Some(Upstream) && rt.attached then Offered(after, e) else after;
    SetTwice(after, id, Replying(r, Ok(response), source));
    if rt.recording.enabled && source != Some(Snapshot) {
      assert Apply(rt, s4, Conclude(id)) == Set(offered, id, Persisting(e, source));
      SetTwice(RecordCall(rt, offered, Entry(e, source), stored), id, Persisting(e, source));
    } else {
      assert Apply(rt, s4, Conclude(id)) == Set(after, id, Finished);
    }
  }

  lemma ErrorAgrees(
      rt: Runtime, after: State, s4: State, id: nat, r: Request, message: string, source: Option<Source>, stored: bool)
    requires s4 == Set(after, id, Replying(r, Err(message), source))
    ensures Apply(rt, Apply(rt, s4, Conclude(id)), Append(id, stored)) ==
            Set(RecordError(rt, after, id, r, message, source, stored), id, Finished)
  {
    var e := BuildExchange(rt, id, r, Err(message));
    SetTwice(after, id, Replying(r, Err(message), source));
    if rt.recording.enabled {
      assert Apply(rt, s4, Conclude(id)) == Set(after, id, Persisting(e, source));
      SetTwice(RecordCall(rt, after, Entry(e, source), stored), id, Persisting(e, source));
    } else {
      assert Apply(rt, s4, Conclude(id)) == Set(after, id, Finished);
    }
  }

  /** Only the last phase set for a request counts. */
  lemma SetTwice(s: State, id: nat, p: Phase)
    ensures forall q :: Set(Set(s, id, p), id, q) == Set(s, id, q)
  {
    forall q ensures Set(Set(s, id, p), id, q) == Set(s, id, q) {
      assert s.requests[id := p][id := q] == s.requests[id := q];
    }
  }

  lemma TerminalStepsRefine(rt: Runtime, s: State, s1: State, id: nat, r: Request, salt: nat, reply: Outcome)
    requires id !in s.requests && s1 == Apply(rt, s, Arrive(id, r, salt))
    ensures var flow := Around(Flatten(rt.chain, salt, r), (w, r') => LiveTerminal(rt, reply, w, r'),
                               World(s.stubs, s.live, s.forwarded, s.served));
            Apply(rt, Apply(rt, Apply(rt, s1, ScanStubs(id)), Lookup(id)), ForwardDone(id, reply)) ==
            Set(s.(stubs := flow.world.stubs, forwarded := flow.world.forwarded, served := flow.world.served),
                id, Replying(r, flow.outcome, flow.source))
  {
    if Flatten(rt.chain, salt, r).Call? {
      var Call(call, resume) := Flatten(rt.chain, salt, r);
      SetTwice(s, id, Scanning(r, call, resume));
      SetTwice(s, id, Looking(r, call, resume));
      SetTwice(s, id, Forwarding(r, call, resume));
      var s2 := Apply(rt, s1, ScanStubs(id));
      var (stub, left) := Stubs.Take(s.stubs, call);
      if stub.Some? {
        assert s2 == Set(s.(stubs := left), id, Replying(r, resume(Ok(stub.value), Some(Stub)), Some(Stub)));
      } else {
        assert s2 == Set(s, id, Looking(r, call, resume));
        LookupStepsRefine(rt, s, s2, id, r, call, resume, reply);
      }
    }
  }

  lemma LookupStepsRefine(
      rt: Runtime, s: State, s2: State, id: nat, r: Request, call: Request, resume: Resume, reply: Outcome)
    requires s2 == Set(s, id, Looking(r, call, resume))
    requires Stubs.Take(s.stubs, call).0.None?
    ensures var flow := LiveTerminal(rt, reply, World(s.stubs, s.live, s.forwarded, s.served), call);
            Apply(rt, Apply(rt, s2, Lookup(id)), ForwardDone(id, reply)) ==
            Set(s.(forwarded := flow.world.forwarded, served := flow.world.served),
                id, Replying(r, resume(flow.outcome, flow.source), flow.source))
            && flow.world.stubs == s.stubs
  {
    SetTwice(s, id, Looking(r, call, resume));
    var keys := s.forwarded + [KeyOf(rt, call)];
    SetTwice(s.(forwarded := keys), id, Forwarding(r, call, resume));
  }

  /** Run alone, a request that no stub and no snapshot answers is forwarded, or missed, and recorded as such. */
  lemma MissRunsAlone(rt: Runtime, s: State, id: nat, r: Request, salt: nat, reply: Outcome, stored: bool)
    requires id !in s.requests && s.stubs == [] && Flatten(rt.chain, salt, r).Call?
    requires Replay.Scan(s.live, KeyOf(rt, Flatten(rt.chain, salt, r).request)).None?
    ensures var Call(call, resume) := Flatten(rt.chain, salt, r);
            var source := if rt.mode.RecordMode? then Upstream else ReplayMiss;
            var outcome := resume(if rt.mode.RecordMode? then reply else Ok(rt.missHandler(call)), Some(source));
            var after := if rt.mode.RecordMode? then s.(forwarded := s.forwarded + [KeyOf(rt, call)]) else s;
            Exec(rt, s, Schedule(id, r, salt, reply, stored)) ==
            Set(if outcome.Ok? then RecordSuccess(rt, after, id, r, outcome.value, Some(source), stored)
                else RecordError(rt, after, id, r, outcome.error, Some(source), stored), id, Finished)
  {
    StepsRefineHandler(rt, s, id, r, salt, reply, stored);
    FlatteningKeepsMeaning(
      rt.chain, salt, (w, r') => LiveTerminal(rt, reply, w, r'), World(s.stubs, s.live, s.forwarded, s.served), r);
  }

  /**
   * The order of the terminal's stages, each by what it finds: the first stub that matches; if none does, the first
   * live exchange under the request's key; if there is none, the miss handler or the upstream, as the mode says.
   */
  lemma TerminalPriority(rt: Runtime, reply: Outcome, w: World, r: Request)
    ensures var flow := LiveTerminal(rt, reply, w, r);
            && (forall i: nat :: Stubs.MatchIsFirst(w.stubs, r, i) ==>
                  && flow.outcome == Ok(w.stubs[i].response) && flow.source == Some(Stub)
                  && flow.world == w.(stubs := flow.world.stubs))
            && (Stubs.NoMatch(w.stubs, r) ==> flow.world.stubs == w.stubs && AfterStubs(rt, reply, w, r, flow))
  {
    Stubs.TakeAnswersFirstMatch(w.stubs, r);
    if Stubs.NoMatch(w.stubs, r) { WithoutStub(rt, reply, w, r); }
  }

  ghost predicate NoneAnswers(xs: seq<Exchange>, k: Key) {
    forall i :: 0 <= i < |xs| ==> !Replay.Answers(xs[i], k)
  }

  /** What comes of a request that no stub answers. */
  ghost predicate AfterStubs(rt: Runtime, reply: Outcome, w: World, r: Request, flow: Flow<World>) {
    && (forall i: nat :: rt.attached && Replay.EntryIsFirst(w.live, KeyOf(rt, r), i) ==>
          && flow.outcome == Ok(Replayed(w.live[i].outcome.response)) && flow.source == Some(Snapshot)
          && flow.world.forwarded == w.forwarded)
    && (!rt.attached || NoneAnswers(w.live, KeyOf(rt, r)) ==>
          match rt.mode
          case ReplayMode => flow == Flow(w, Ok(rt.missHandler(r)), Some(ReplayMiss), 1)
          case RecordMode => flow == Flow(w.(forwarded := w.forwarded + [KeyOf(rt, r)]), reply, Some(Upstream), 1))
  }

  lemma WithoutStub(rt: Runtime, reply: Outcome, w: World, r: Request)
    requires Stubs.NoMatch(w.stubs, r)
    ensures LiveTerminal(rt, reply, w, r).world.stubs == w.stubs
    ensures AfterStubs(rt, reply, w, r, LiveTerminal(rt, reply, w, r))
  {
    Stubs.TakeAnswersFirstMatch(w.stubs, r);
    forall i: nat | Replay.EntryIsFirst(w.live, KeyOf(rt, r), i)
      ensures Replay.Scan(w.live, KeyOf(rt, r)) == Some(w.live[i])
    {
      Replay.FirstAnswerIsFirst(w.live, KeyOf(rt, r), i);
    }
    NoneIsFound(w.live, KeyOf(rt, r));
  }

  lemma NoneIsFound(xs: seq<Exchange>, k: Key)
    ensures NoneAnswers(xs, k) ==> Replay.Scan(xs, k).None?
  {}

  /**
   * What a request that runs alone leaves on record and in the live index. Its outcome is recorded unless it is a
   * snapshot's response; it is promoted exactly if it is a response from the upstream. So what stubs, misses and short
   * circuits answer is recorded, and never promoted.
   */
  lemma WhatIsRecorded(rt: Runtime, s: State, id: nat, r: Request, salt: nat, reply: Outcome, stored: bool)
    requires id !in s.requests
    ensures var flow := RunChain(rt.chain, salt, (w, r') => LiveTerminal(rt, reply, w, r'),
                                 World(s.stubs, s.live, s.forwarded, s.served), r);
            var s' := Exec(rt, s, Schedule(id, r, salt, reply, stored));
            var e := BuildExchange(rt, id, r, flow.outcome);
            var promotes := flow.outcome.Ok? && flow.source == Some(Upstream) && rt.attached;
            if !rt.recording.enabled || (flow.outcome.Ok? && flow.source == Some(Snapshot)) then
              s'.recorded == s.recorded && s'.recorder == s.recorder && s'.live == s.live && s'.promoted == s.promoted
            else
              && s'.recorder == Recorders.Record(rt.recording, s.recorder, e, stored)
              && (Recorders.Routed(s.recorder.media, e) && !stored ==> s'.recorded == s.recorded)
              && (Recorders.Routed(s.recorder.media, e) && stored ==>
                    s'.recorded == s.recorded + [Entry(e, flow.source)])
              && s'.promoted == (if promotes then s.promoted + [e] else s.promoted)
              && (!promotes ==> s'.live == s.live)
  {
    StepsRefineHandler(rt, s, id, r, salt, reply, stored);
  }
}
