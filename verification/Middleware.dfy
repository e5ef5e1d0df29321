/** The middleware chain: the onion recursion over its layers, and snapshot redaction. */
module Middleware {
  import opened Wrappers
  import opened Http

  type Outcome = Result<Response, string>

  /** Which terminal stage produced the response of a request. */
  datatype Source = Stub | Snapshot | ReplayMiss | Upstream

  /**
   * What a layer does with a request: it answers without calling the rest of the chain (a short circuit or a
   * failure), or it calls the rest once, on a request it may have rewritten, and makes its own outcome of what
   * comes back. `Next::run` consumes its cursor, so a layer cannot call the rest twice.
   */
  datatype Handling =
    | Answer(outcome: Outcome)
    | Call(request: Request, resume: (Outcome, Option<Source>) -> Outcome)

  /** The salt stands for whatever else a layer may consult: its own state, the clock, the request context. */
  datatype Layer = Layer(
    handle: (nat, Request) -> Handling,
    redactRequest: Request -> Request,
    redactResponse: Response -> Response)

  /** What a chain run leaves: the world the terminal changed, the outcome, the marker, the terminal's runs. */
  datatype Flow<W> = Flow(world: W, outcome: Outcome, source: Option<Source>, calls: nat)

  type Terminal<!W> = (W, Request) -> Flow<W>

  function RunChain<W>(chain: seq<Layer>, salt: nat, t: Terminal<W>, w: W, r: Request): Flow<W> {
    if chain == [] then t(w, r)
    else match chain[0].handle(salt, r)
      case Answer(outcome) => Flow(w, outcome, None, 0)
      case Call(rewritten, resume) =>
        var inner := RunChain(chain[1..], salt, t, w, rewritten);
        inner.(outcome := resume(inner.outcome, inner.source))
  }

  /** The whole chain as a single layer. */
  function Flatten(chain: seq<Layer>, salt: nat, r: Request): Handling {
    if chain == [] then Call(r, (outcome, source) => outcome)
    else match chain[0].handle(salt, r)
      case Answer(outcome) => Answer(outcome)
      case Call(rewritten, resume) =>
        match Flatten(chain[1..], salt, rewritten)
        case Answer(outcome) => Answer(resume(outcome, None))
        case Call(last, inner) => Call(last, (outcome, source) => resume(inner(outcome, source), source))
  }

  /** A single layer over a terminal. */
  function Around<W>(h: Handling, t: Terminal<W>, w: W): Flow<W> {
    match h
    case Answer(outcome) => Flow(w, outcome, None, 0)
    case Call(r, resume) =>
      var inner := t(w, r);
      inner.(outcome := resume(inner.outcome, inner.source))
  }

  /** The onion recursion means the same as its flattened layer: one descent, one call, one ascent. */
  lemma {:induction false} FlatteningKeepsMeaning<W>(chain: seq<Layer>, salt: nat, t: Terminal<W>, w: W, r: Request)
    ensures RunChain(chain, salt, t, w, r) == Around(Flatten(chain, salt, r), t, w)
  {
    if chain != [] {
      match chain[0].handle(salt, r)
      case Answer(_) =>
      case Call(rewritten, _) => FlatteningKeepsMeaning(chain[1..], salt, t, w, rewritten);
    }
  }

  /** Global layers in front of an upstream's own wrap them: the inner chain is the outer chain's terminal. */
  lemma {:induction false} ChainsCompose<W>(
      outer: seq<Layer>, inner: seq<Layer>, salt: nat, t: Terminal<W>, w: W, r: Request)
    ensures RunChain(outer + inner, salt, t, w, r) ==
            RunChain(outer, salt, (w', r') => RunChain(inner, salt, t, w', r'), w, r)
  {
    if outer == [] {
      assert outer + inner == inner;
    } else {
      assert (outer + inner)[1..] == outer[1..] + inner;
      match outer[0].handle(salt, r)
      case Answer(_) =>
      case Call(rewritten, _) => ChainsCompose(outer[1..], inner, salt, t, w, rewritten);
    }
  }

  /** A single layer sees the request first and the outcome last, and what it answers by itself stays unforwarded. */
  lemma OneLayerWraps<W>(layer: Layer, salt: nat, t: Terminal<W>, w: W, r: Request)
    ensures var flow := RunChain([layer], salt, t, w, r);
            match layer.handle(salt, r)
            case Answer(outcome) => flow == Flow(w, outcome, None, 0)
            case Call(rewritten, resume) =>
              flow == t(w, rewritten).(outcome := resume(t(w, rewritten).outcome, t(w, rewritten).source))
  {
    assert [layer][1..] == [];
  }

  /**
   * Over a terminal that runs once and leaves its marker, a chain runs it at most once, and no marker at exit
   * means that it never ran; then the world is untouched too.
   */
  lemma {:induction false} TerminalRunsAtMostOnce<W>(chain: seq<Layer>, salt: nat, t: Terminal<W>, w: W, r: Request)
    requires forall w', r' :: t(w', r').calls == 1 && t(w', r').source.Some?
    ensures var flow := RunChain(chain, salt, t, w, r);
            && flow.calls <= 1
            && (flow.source.None? <==> flow.calls == 0)
            && (flow.calls == 0 ==> flow.world == w)
            && (flow.calls == 1 ==> exists r' :: flow.world == t(w, r').world && flow.source == t(w, r').source)
  {
    if chain == [] {
      assert t(w, r).calls == 1;
    } else {
      match chain[0].handle(salt, r)
      case Answer(_) =>
      case Call(rewritten, _) => TerminalRunsAtMostOnce(chain[1..], salt, t, w, rewritten);
    }
  }

  function RedactedRequest(chain: seq<Layer>, r: Request): Request {
    if chain == [] then r else RedactedRequest(chain[1..], chain[0].redactRequest(r))
  }

  function RedactedResponse(chain: seq<Layer>, r: Response): Response {
    if chain == [] then r else RedactedResponse(chain[1..], chain[0].redactResponse(r))
  }

  /** Registration order, from the other end: the layer registered last redacts what the others have left. */
  lemma {:induction false} LastRedactsLast(chain: seq<Layer>, last: Layer, req: Request, resp: Response)
    ensures RedactedRequest(chain + [last], req) == last.redactRequest(RedactedRequest(chain, req))
    ensures RedactedResponse(chain + [last], resp) == last.redactResponse(RedactedResponse(chain, resp))
  {
    if chain == [] {
      assert chain + [last] == [last] && [last][1..] == [];
    } else {
      assert (chain + [last])[0] == chain[0] && (chain + [last])[1..] == chain[1..] + [last];
      LastRedactsLast(chain[1..], last, chain[0].redactRequest(req), chain[0].redactResponse(resp));
    }
  }

  lemma NoLayerRedactsNothing(req: Request, resp: Response)
    ensures RedactedRequest([], req) == req && RedactedResponse([], resp) == resp
  {}

  method RedactRequest(chain: seq<Layer>, req: Request) returns (r: Request)
    ensures r == RedactedRequest(chain, req)
  {
    r := req;
    for i := 0 to |chain|
      invariant RedactedRequest(chain[i..], r) == RedactedRequest(chain, req)
    {
      assert chain[i..][1..] == chain[i + 1..];
      r := chain[i].redactRequest(r);
    }
  }

  method RedactResponse(chain: seq<Layer>, resp: Response) returns (r: Response)
    ensures r == RedactedResponse(chain, resp)
  {
    r := resp;
    for i := 0 to |chain|
      invariant RedactedResponse(chain[i..], r) == RedactedResponse(chain, resp)
    {
      assert chain[i..][1..] == chain[i + 1..];
      r := chain[i].redactResponse(r);
    }
  }
}
