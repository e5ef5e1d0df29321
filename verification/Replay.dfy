/** The live replay index: a first-wins map over a list of exchanges, and the linear scan it stands for. */
module Replay {
  import opened Wrappers
  import opened Uris
  import opened Http
  import opened Recorded
  import opened Middleware

  predicate Answers(e: Exchange, k: Key) {
    e.outcome.Answered? && KeyOfExchange(e) == k
  }

  /** The first place where `p` holds, by a scan from the front. */
  function FirstPlace<T>(xs: seq<T>, p: T -> bool): (r: Option<nat>)
    ensures r.Some? ==> r.value < |xs| && p(xs[r.value]) && forall i :: 0 <= i < r.value ==> !p(xs[i])
    ensures r.None? ==> forall i :: 0 <= i < |xs| ==> !p(xs[i])
  {
    if xs == [] then None
    else
      var n := |xs| - 1;
      match FirstPlace(xs[..n], p)
      case Some(i) => Some(i)
      case None => if p(xs[n]) then Some(n) else None
  }

  /** The place of the first exchange that answers `k`. */
  function FirstAnswer(xs: seq<Exchange>, k: Key): (r: Option<nat>)
    ensures r.Some? ==> r.value < |xs| && Answers(xs[r.value], k)
  {
    FirstPlace(xs, e => Answers(e, k))
  }

  function Scan(xs: seq<Exchange>, k: Key): Option<Exchange> {
    match FirstAnswer(xs, k)
    case Some(i) => Some(xs[i])
    case None => None
  }

  /** Everything a replay source holds after `e` was offered to it. */
  function Promote(xs: seq<Exchange>, e: Exchange): seq<Exchange> {
    if e.outcome.Failed? || FirstAnswer(xs, KeyOfExchange(e)).Some? then xs else xs + [e]
  }

  function PromoteAll(xs: seq<Exchange>, ys: seq<Exchange>): seq<Exchange> {
    if ys == [] then xs
    else
      var n := |ys| - 1;
      Promote(PromoteAll(xs, ys[..n]), ys[n])
  }

  lemma ScanAppendOne(xs: seq<Exchange>, e: Exchange, k: Key)
    ensures Scan(xs + [e], k) == if Scan(xs, k).Some? then Scan(xs, k) else if Answers(e, k) then Some(e) else None
  {
    assert (xs + [e])[..|xs|] == xs;
  }

  lemma {:induction false} ScanAppend(xs: seq<Exchange>, ys: seq<Exchange>, k: Key)
    ensures Scan(xs + ys, k) == if Scan(xs, k).Some? then Scan(xs, k) else Scan(ys, k)
  {
    if ys == [] {
      assert xs + ys == xs;
    } else {
      var n := |ys| - 1;
      assert xs + ys == xs + ys[..n] + [ys[n]];
      ScanAppendOne(xs + ys[..n], ys[n], k);
      assert ys == ys[..n] + [ys[n]];
      ScanAppendOne(ys[..n], ys[n], k);
      ScanAppend(xs, ys[..n], k);
    }
  }

  lemma PromoteAnswersAsAppend(xs: seq<Exchange>, e: Exchange, k: Key)
    ensures Scan(Promote(xs, e), k) == Scan(xs + [e], k)
  {
    ScanAppendOne(xs, e, k);
  }

  /** Offering exchanges one by one answers every key as building over all of them at once. */
  lemma {:induction false} IncrementalAgreesWithBatch(xs: seq<Exchange>, ys: seq<Exchange>, k: Key)
    ensures Scan(PromoteAll(xs, ys), k) == Scan(xs + ys, k)
  {
    if ys == [] {
      assert xs + ys == xs;
    } else {
      var n := |ys| - 1;
      IncrementalAgreesWithBatch(xs, ys[..n], k);
      PromoteAnswersAsAppend(PromoteAll(xs, ys[..n]), ys[n], k);
      ScanAppendOne(PromoteAll(xs, ys[..n]), ys[n], k);
      ScanAppendOne(xs + ys[..n], ys[n], k);
      assert xs + ys == xs + ys[..n] + [ys[n]];
    }
  }

  /** Once a key is answered, nothing offered later changes its answer. */
  lemma AnswerIsPermanent(xs: seq<Exchange>, ys: seq<Exchange>, k: Key)
    requires Scan(xs, k).Some?
    ensures Scan(PromoteAll(xs, ys), k) == Scan(xs, k)
  {
    IncrementalAgreesWithBatch(xs, ys, k);
    ScanAppend(xs, ys, k);
  }

  /** The index holds, for every key, the place the scan finds, and no other keys. */
  ghost predicate IndexAgrees(index: map<Key, nat>, xs: seq<Exchange>) {
    forall k :: (k in index <==> FirstAnswer(xs, k).Some?) && (k in index ==> FirstAnswer(xs, k) == Some(index[k]))
  }

  /**
   * The same without the scan: every entry is in bounds and points to a response with its own key that no earlier
   * one precedes, and every response's key has an entry.
   */
  ghost predicate FirstWins(index: map<Key, nat>, xs: seq<Exchange>) {
    && (forall k :: k in index ==> EntryIsFirst(xs, k, index[k]))
    && (forall i :: 0 <= i < |xs| && xs[i].outcome.Answered? ==> KeyOfExchange(xs[i]) in index)
  }

  ghost predicate EntryIsFirst(xs: seq<Exchange>, k: Key, place: nat) {
    place < |xs| && Answers(xs[place], k) && forall i :: 0 <= i < place ==> !Answers(xs[i], k)
  }

  lemma FirstAnswerIsFirst(xs: seq<Exchange>, k: Key, place: nat)
    ensures FirstAnswer(xs, k) == Some(place) <==> EntryIsFirst(xs, k, place)
  {}

  lemma IndexIsFirstWins(index: map<Key, nat>, xs: seq<Exchange>)
    ensures IndexAgrees(index, xs) <==> FirstWins(index, xs)
  {
    forall k, place: nat ensures FirstAnswer(xs, k) == Some(place) <==> EntryIsFirst(xs, k, place) {
      FirstAnswerIsFirst(xs, k, place);
    }
    if FirstWins(index, xs) {
      forall k ensures FirstAnswer(xs, k).Some? ==> k in index {
        if FirstAnswer(xs, k).Some? {
          assert KeyOfExchange(xs[FirstAnswer(xs, k).value]) == k;
        }
      }
    }
    if IndexAgrees(index, xs) {
      forall i | 0 <= i < |xs| && xs[i].outcome.Answered? ensures KeyOfExchange(xs[i]) in index {
        assert Answers(xs[i], KeyOfExchange(xs[i]));
      }
    }
  }

  lemma IndexGrows(index: map<Key, nat>, xs: seq<Exchange>, e: Exchange)
    requires IndexAgrees(index, xs)
    ensures IndexAgrees(
              if e.outcome.Failed? || KeyOfExchange(e) in index then index else index[KeyOfExchange(e) := |xs|],
              xs + [e])
  {
    var grown := if e.outcome.Failed? || KeyOfExchange(e) in index then index else index[KeyOfExchange(e) := |xs|];
    assert (xs + [e])[..|xs|] == xs;
    forall k
      ensures k in grown <==> FirstAnswer(xs + [e], k).Some?
      ensures k in grown ==> FirstAnswer(xs + [e], k) == Some(grown[k])
    {
      assert k in index <==> FirstAnswer(xs, k).Some?;
    }
  }

  method BuildIndex(xs: seq<Exchange>) returns (index: map<Key, nat>)
    ensures IndexAgrees(index, xs)
  {
    index := map[];
    for i := 0 to |xs|
      invariant IndexAgrees(index, xs[..i])
    {
      IndexGrows(index, xs[..i], xs[i]);
      assert xs[..i + 1] == xs[..i] + [xs[i]];
      if xs[i].outcome.Answered? {
        var key := KeyOfExchange(xs[i]);
        if key !in index {
          index := index[key := i];
        }
      }
    }
    assert xs[..|xs|] == xs;
  }

  class ReplaySource {
    var exchanges: seq<Exchange>
    var index: map<Key, nat>

    ghost predicate Valid()
      reads this
    {
      IndexAgrees(index, exchanges)
    }

    constructor (xs: seq<Exchange>)
      ensures Valid() && exchanges == xs
    {
      var built := BuildIndex(xs);
      exchanges, index := xs, built;
    }

    method Insert(e: Exchange)
      requires Valid()
      modifies this
      ensures Valid() && exchanges == Promote(old(exchanges), e)
    {
      if e.outcome.Failed? { return; }
      var key := KeyOfExchange(e);
      assert key in index <==> FirstAnswer(exchanges, key).Some?;
      if key in index { return; }
      IndexGrows(index, exchanges, e);
      var idx := |exchanges|;
      exchanges := exchanges + [e];
      index := index[key := idx];
    }

    /** The indexed lookup of a live request answers what a scan for its redacted key would. */
    method Lookup(sha: Hasher, chain: seq<Layer>, req: Request) returns (r: Option<Response>)
      requires Valid()
      ensures r == ScanFor(exchanges, sha, chain, req)
    {
      var redacted := RedactRequest(chain, req);
      var key := KeyOfRequest(sha, redacted);
      assert key in index <==> FirstAnswer(exchanges, key).Some?;
      if key !in index { return None; }
      match exchanges[index[key]].outcome {
        case Answered(recorded) =>
          var headers := BuildHeaderMap(recorded.headers);
          r := Some(Response(StatusOf(recorded), headers, recorded.body));
        case Failed(_) =>
          r := None;
      }
    }
  }

  function LookupKey(sha: Hasher, chain: seq<Layer>, req: Request): Key {
    KeyOfRequest(sha, RedactedRequest(chain, req))
  }

  ghost function ScanFor(xs: seq<Exchange>, sha: Hasher, chain: seq<Layer>, req: Request): Option<Response> {
    match Scan(xs, LookupKey(sha, chain, req))
    case Some(e) => Some(Replayed(e.outcome.response))
    case None => None
  }

  /** A hit is never another request: what answers was recorded of a request with this method, path, query and hash. */
  lemma HitIsSameRequest(
      xs: seq<Exchange>, sha: Hasher, chain: seq<Layer>, req: Request, e: Exchange, original: Request)
    requires Scan(xs, LookupKey(sha, chain, req)) == Some(e) && e.request == RequestFromParts(sha, original)
    ensures var live := RedactedRequest(chain, req);
            && original.verb == live.verb
            && RouteOf(original.uri) == RouteOf(live.uri)
            && sha(original.body) == sha(live.body)
  {
    RecordingKeepsKey(sha, original, e);
    SameKeyIff(sha, original, RedactedRequest(chain, req));
  }
}
