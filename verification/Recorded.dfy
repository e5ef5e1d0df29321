/** Recorded exchanges and the key under which a replay finds them. */
module Recorded {
  import opened Wrappers
  import opened Uris
  import opened Http

  /** SHA-256 of a body as text. Nothing is assumed of it: bodies may collide. */
  type Hasher = Bytes -> string

  datatype RecordedRequest = RecordedRequest(
    verb: string, uri: string, headers: seq<(string, string)>, body: Bytes, bodySha: string)

  datatype RecordedResponse = RecordedResponse(status: nat, headers: seq<(string, string)>, body: Bytes)

  datatype ExchangeOutcome = Answered(response: RecordedResponse) | Failed(message: string)

  /** The time stamp, the duration and the labels of an exchange play no part here. */
  datatype Exchange = Exchange(id: nat, upstream: Option<string>, request: RecordedRequest, outcome: ExchangeOutcome)

  datatype Key = Key(verb: string, target: string, bodySha: string)

  function RequestFromParts(sha: Hasher, r: Request): RecordedRequest {
    RecordedRequest(r.verb, Print(r.uri), HeaderPairs(r.headers), r.body, sha(r.body))
  }

  function ResponseFromParts(r: Response): RecordedResponse {
    RecordedResponse(r.status, HeaderPairs(r.headers), r.body)
  }

  function StatusOf(r: RecordedResponse): Status {
    if 100 <= r.status < 1000 then r.status else BAD_GATEWAY
  }

  /** The live response that stands for a recorded one. */
  ghost function Replayed(r: RecordedResponse): Response {
    Response(StatusOf(r), Rebuilt(r.headers), r.body)
  }

  function KeyOfRequest(sha: Hasher, r: Request): Key {
    Key(r.verb, PathAndQueryOfUri(r.uri), sha(r.body))
  }

  function KeyOfExchange(e: Exchange): Key {
    Key(e.request.verb, PathAndQueryOfText(e.request.uri), e.request.bodySha)
  }

  /** A recorded request is found under the key of the live request it was made from. */
  lemma RecordingKeepsKey(sha: Hasher, r: Request, e: Exchange)
    requires e.request == RequestFromParts(sha, r)
    ensures KeyOfExchange(e) == KeyOfRequest(sha, r)
  {
    PrintedUriKeepsTarget(r.uri);
  }

  /** Replaying a recorded response gives back its status and body, and its headers as far as they survive. */
  lemma ReplayGivesBack(r: Response)
    ensures Replayed(ResponseFromParts(r)).status == r.status
    ensures Replayed(ResponseFromParts(r)).body == r.body
    ensures SameHeaders(Replayed(ResponseFromParts(r)).headers, r.headers)
            <==> DistinctNames(r.headers) && AllVisible(r.headers)
  {
    HeadersSurviveReplay(r.headers);
  }

  /** A recorded request keeps the request's method, target, body and header texts. */
  lemma RecordKeepsRequest(sha: Hasher, r: Request)
    ensures var e := RequestFromParts(sha, r);
            && e.verb == r.verb && ParseUri(e.uri) == Some(r.uri)
            && e.body == r.body && e.bodySha == sha(r.body)
            && |e.headers| == |r.headers|
            && forall i :: 0 <= i < |r.headers| ==>
                 && e.headers[i].0 == r.headers[i].0
                 && e.headers[i].1 == match r.headers[i].1 { case Visible(text) => text case Opaque(_) => "<binary>" }
  {
    PrintedUriKeepsTarget(r.uri);
  }

  /** A recorded status that is no status is replayed as 502; every other as itself. */
  lemma ReplayedStatusIs(r: RecordedResponse)
    ensures Replayed(r).status as nat == if r.status < 100 || r.status > 999 then 502 else r.status
  {}

  /** Requests share a key exactly when they have the same method, path and query, and body hash. */
  lemma SameKeyIff(sha: Hasher, a: Request, b: Request)
    ensures KeyOfRequest(sha, a) == KeyOfRequest(sha, b)
            <==> a.verb == b.verb && RouteOf(a.uri) == RouteOf(b.uri) && sha(a.body) == sha(b.body)
  {
    SamePathAndQueryIff(a.uri, b.uri);
  }
}
