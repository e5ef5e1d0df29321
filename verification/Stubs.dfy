/** The stub store of one upstream: the first matching entry fires, and counted entries use themselves up. */
module Stubs {
  import opened Wrappers
  import opened Http
  import Replay

  type U32 = n: nat | n < 0x1_0000_0000

  /** The matcher is a pure predicate on requests; `times` of None never runs out. */
  datatype StubEntry = StubEntry(matches: Request -> bool, response: Response, times: Option<U32>)

  predicate Exhausted(times: Option<U32>) {
    times.Some? && times.value == 0
  }

  /** The count an entry keeps after a fire; the subtraction saturates. */
  function Spent(times: Option<U32>): Option<U32> {
    match times
    case None => None
    case Some(n) => Some(if n == 0 then 0 else n - 1)
  }

  function Matching(stubs: seq<StubEntry>, req: Request): Option<nat> {
    Replay.FirstPlace(stubs, (e: StubEntry) => e.matches(req))
  }

  function FireAt(stubs: seq<StubEntry>, i: nat): seq<StubEntry>
    requires i < |stubs|
  {
    var left := Spent(stubs[i].times);
    if Exhausted(left) then stubs[..i] + stubs[i + 1..] else stubs[i := stubs[i].(times := left)]
  }

  /** What a scan for `req` returns and leaves behind. */
  function Take(stubs: seq<StubEntry>, req: Request): (Option<Response>, seq<StubEntry>) {
    match Matching(stubs, req)
    case None => (None, stubs)
    case Some(i) => (Some(stubs[i].response), FireAt(stubs, i))
  }

  ghost predicate MatchIsFirst(stubs: seq<StubEntry>, req: Request, i: nat) {
    i < |stubs| && stubs[i].matches(req) && forall j :: 0 <= j < i ==> !stubs[j].matches(req)
  }

  ghost predicate NoMatch(stubs: seq<StubEntry>, req: Request) {
    forall i :: 0 <= i < |stubs| ==> !stubs[i].matches(req)
  }

  /** The answer to a request is the response of the first entry that matches it, and there is none without a match. */
  lemma TakeAnswersFirstMatch(stubs: seq<StubEntry>, req: Request)
    ensures Take(stubs, req).0.None? <==> NoMatch(stubs, req)
    ensures NoMatch(stubs, req) ==> Take(stubs, req).1 == stubs
    ensures forall i: nat :: MatchIsFirst(stubs, req, i) ==> Take(stubs, req).0 == Some(stubs[i].response)
  {
    forall i: nat | MatchIsFirst(stubs, req, i) ensures Matching(stubs, req) == Some(i) {}
  }

  class StubStore {
    var stubs: seq<StubEntry>

    constructor ()
      ensures stubs == []
    {
      stubs := [];
    }

    method Add(entry: StubEntry)
      modifies this
      ensures stubs == old(stubs) + [entry]
    {
      stubs := stubs + [entry];
    }

    method Clear()
      modifies this
      ensures stubs == []
    {
      stubs := [];
    }

    method TakeMatch(req: Request) returns (r: Option<Response>)
      modifies this
      ensures (r, stubs) == Take(old(stubs), req)
    {
      var found := Matching(stubs, req);
      if found.None? { return None; }
      var idx := found.value;
      r := Some(stubs[idx].response);
      var exhaust := false;
      if stubs[idx].times.Some? {
        var remaining := if stubs[idx].times.value == 0 then 0 else stubs[idx].times.value - 1;
        stubs := stubs[idx := stubs[idx].(times := Some(remaining))];
        exhaust := remaining == 0;
      }
      if exhaust {
        stubs := stubs[..idx] + stubs[idx + 1..];
      }
      assert stubs == FireAt(old(stubs), idx);
    }
  }

  // Runs of the store, with every added entry told apart by the order in which it came.

  datatype Op = Added(entry: StubEntry) | Cleared | Taken(req: Request)

  datatype Live = Live(id: nat, entry: StubEntry)

  /** `fired[i]` counts the fires of the i-th added entry, which `added[i]` keeps as it came. */
  datatype History = History(live: seq<Live>, added: seq<StubEntry>, fired: seq<nat>)

  const EMPTY := History([], [], [])

  function Entries(live: seq<Live>): (r: seq<StubEntry>)
    ensures |r| == |live|
  {
    seq(|live|, i requires 0 <= i < |live| => live[i].entry)
  }

  function Fire(h: History, i: nat): History
    requires i < |h.live| && h.live[i].id < |h.fired|
  {
    var id := h.live[i].id;
    var left := Spent(h.live[i].entry.times);
    var live := if Exhausted(left) then h.live[..i] + h.live[i + 1..]
                else h.live[i := h.live[i].(entry := h.live[i].entry.(times := left))];
    h.(live := live, fired := h.fired[id := h.fired[id] + 1])
  }

  function Do(h: History, op: Op): History {
    match op
    case Added(entry) =>
      History(h.live + [Live(|h.added|, entry)], h.added + [entry], h.fired + [0])
    case Cleared => h.(live := [])
    case Taken(req) =>
      match Matching(Entries(h.live), req)
      case None => h
      case Some(i) => if h.live[i].id < |h.fired| then Fire(h, i) else h
  }

  function Run(h: History, ops: seq<Op>): History {
    if ops == [] then h
    else Do(Run(h, ops[..|ops| - 1]), ops[|ops| - 1])
  }

  /** The store's own view of one operation. */
  function Plain(stubs: seq<StubEntry>, op: Op): seq<StubEntry> {
    match op
    case Added(entry) => stubs + [entry]
    case Cleared => []
    case Taken(req) => Take(stubs, req).1
  }

  ghost predicate Accounted(h: History, id: nat)
    requires |h.fired| == |h.added|
    requires id < |h.added|
  {
    match h.added[id].times
    case None => true
    case Some(n) => if n == 0 then h.fired[id] <= 1 else h.fired[id] <= n
  }

  /** A live entry is its added self, but for the fires that its count has paid for. */
  ghost predicate Paid(h: History, l: Live) {
    && |h.fired| == |h.added|
    && l.id < |h.added|
    && l.entry.matches == h.added[l.id].matches
    && l.entry.response == h.added[l.id].response
    && match h.added[l.id].times {
         case None => l.entry.times.None?
         case Some(n) =>
           && l.entry.times.Some?
           && h.fired[l.id] + l.entry.times.value == n
           && (n != 0 ==> l.entry.times.value != 0)
       }
  }

  ghost predicate Sound(h: History) {
    && |h.fired| == |h.added|
    && (forall i :: 0 <= i < |h.live| ==> Paid(h, h.live[i]))
    && (forall i, j :: 0 <= i < j < |h.live| ==> h.live[i].id < h.live[j].id)
    && (forall id :: 0 <= id < |h.added| ==> Accounted(h, id))
  }

  ghost predicate Present(h: History, id: nat) {
    exists i :: 0 <= i < |h.live| && h.live[i].id == id
  }

  lemma DoRefinesStore(h: History, op: Op)
    requires Sound(h)
    ensures Entries(Do(h, op).live) == Plain(Entries(h.live), op)
  {
    if op.Taken? {
      match Matching(Entries(h.live), op.req)
      case None =>
      case Some(i) =>
        assert Paid(h, h.live[i]);
        FireRefinesStore(h, i);
    }
  }

  lemma FireRefinesStore(h: History, i: nat)
    requires i < |h.live| && h.live[i].id < |h.fired|
    ensures Entries(Fire(h, i).live) == FireAt(Entries(h.live), i)
  {
    var was, now := Entries(h.live), Entries(Fire(h, i).live);
    if Exhausted(Spent(h.live[i].entry.times)) {
      assert now == was[..i] + was[i + 1..];
    } else {
      assert now == was[i := was[i].(times := Spent(was[i].times))];
    }
  }

  lemma FireIsSound(h: History, i: nat)
    requires Sound(h) && i < |h.live|
    ensures h.live[i].id < |h.fired| && Sound(Fire(h, i))
  {
    assert Paid(h, h.live[i]);
    var id := h.live[i].id;
    var h' := Fire(h, i);
    forall j | 0 <= j < |h'.live| ensures Paid(h', h'.live[j]) {
      var at := if |h'.live| < |h.live| && i <= j then j + 1 else j;
      assert Paid(h, h.live[at]);
      if at != i {
        assert h'.live[j] == h.live[at] && h.live[at].id != id;
      }
    }
    assert Accounted(h, id);
    forall other | 0 <= other < |h'.added| ensures Accounted(h', other) {
      assert Accounted(h, other);
    }
  }

  lemma DoIsSound(h: History, op: Op)
    requires Sound(h)
    ensures Sound(Do(h, op))
  {
    var h' := Do(h, op);
    match op
    case Added(entry) =>
      forall i | 0 <= i < |h'.live| ensures Paid(h', h'.live[i]) {
        if i < |h.live| { assert Paid(h, h.live[i]); }
      }
      forall i | 0 <= i < |h.live| ensures h.live[i].id < |h.added| { assert Paid(h, h.live[i]); }
      forall id | 0 <= id < |h'.added| ensures Accounted(h', id) {
        if id < |h.added| { assert Accounted(h, id); }
      }
    case Cleared =>
      forall id | 0 <= id < |h'.added| ensures Accounted(h', id) { assert Accounted(h, id); }
    case Taken(req) =>
      match Matching(Entries(h.live), req)
      case None =>
      case Some(i) => FireIsSound(h, i);
  }

  lemma {:induction false} RunIsSound(ops: seq<Op>)
    ensures Sound(Run(EMPTY, ops))
  {
    if ops != [] {
      RunIsSound(ops[..|ops| - 1]);
      DoIsSound(Run(EMPTY, ops[..|ops| - 1]), ops[|ops| - 1]);
    }
  }

  /**
   * Conservation over any run: while an entry added with Some(n), n >= 1, is present, its fires and what its
   * count still holds make n; it never fires more often; one added with Some(0) fires at most once.
   */
  lemma FiresAreConserved(ops: seq<Op>, id: nat)
    requires id < |Run(EMPTY, ops).added|
    ensures var h := Run(EMPTY, ops);
            && |h.fired| == |h.added|
            && (h.added[id].times.Some? ==>
                  && h.fired[id] <= (if h.added[id].times.value == 0 then 1 else h.added[id].times.value)
                  && forall i :: 0 <= i < |h.live| && h.live[i].id == id ==>
                       && h.live[i].entry.times.Some?
                       && h.fired[id] + h.live[i].entry.times.value == h.added[id].times.value)
  {
    RunIsSound(ops);
    var h := Run(EMPTY, ops);
    assert Accounted(h, id);
    forall i | 0 <= i < |h.live| && h.live[i].id == id
      ensures h.added[id].times.Some? ==>
                h.live[i].entry.times.Some? && h.fired[id] + h.live[i].entry.times.value == h.added[id].times.value
    {
      assert Paid(h, h.live[i]);
    }
  }

  /** The earliest run in which an entry added with Some(0) fires: it is added, and a request that it matches comes. */
  lemma ZeroCountFires(e: StubEntry, req: Request)
    requires e.times == Some(0) && e.matches(req)
    ensures Run(EMPTY, [Added(e), Taken(req)]) == History([], [e], [1])
  {
    var ops := [Added(e), Taken(req)];
    assert ops[..1] == [Added(e)] && ops[..1][..0] == [];
    assert Run(EMPTY, ops[..1]) == History([Live(0, e)], [e], [0]);
    assert Entries([Live(0, e)])[..0] == [];
    assert Matching(Entries([Live(0, e)]), req) == Some(0);
  }

  ghost predicate FiresAtMost(h: History, e: StubEntry, n: nat) {
    forall id :: 0 <= id < |h.added| && id < |h.fired| && h.added[id] == e ==> h.fired[id] <= n
  }

  /** The count of an entry that can match at all is a limit on its fires, in every run, exactly when it is not zero. */
  lemma CountIsALimitIff(e: StubEntry, req: Request)
    requires e.times.Some? && e.matches(req)
    ensures (forall ops :: FiresAtMost(Run(EMPTY, ops), e, e.times.value)) <==> e.times.value != 0
  {
    if e.times.value == 0 {
      ZeroCountFires(e, req);
      var h := Run(EMPTY, [Added(e), Taken(req)]);
      assert h.added[0] == e && h.fired[0] == 1;
      assert !FiresAtMost(h, e, 0);
    } else {
      forall ops ensures FiresAtMost(Run(EMPTY, ops), e, e.times.value) {
        var h := Run(EMPTY, ops);
        forall id | 0 <= id < |h.added| && id < |h.fired| && h.added[id] == e ensures h.fired[id] <= e.times.value {
          FiresAreConserved(ops, id);
        }
      }
    }
  }

  /** The next fire of the entry is its n-th, or its first when it was added with Some(0). */
  ghost predicate LastFire(h: History, id: nat)
    requires |h.fired| == |h.added| && id < |h.added|
  {
    h.added[id].times.Some? && h.fired[id] + 1 >= h.added[id].times.value
  }

  /**
   * Between `h` and `h'` the entry at `i` fired: the others stay as they were, in their order, and the one that
   * fired leaves exactly at its last fire.
   */
  ghost predicate FiredAt(h: History, h': History, i: nat)
    requires |h.fired| == |h.added| && i < |h.live| && h.live[i].id < |h.added|
  {
    var id := h.live[i].id;
    && h'.added == h.added
    && h'.fired == h.fired[id := h.fired[id] + 1]
    && i <= |h'.live|
    && h'.live[..i] == h.live[..i]
    && if LastFire(h, id)
       then h'.live[i..] == h.live[i + 1..]
       else i < |h'.live| && h'.live[i].id == id && h'.live[i + 1..] == h.live[i + 1..]
  }

  lemma FireChangesOneEntry(h: History, i: nat)
    requires Sound(h) && i < |h.live|
    ensures h.live[i].id < |h.added| && FiredAt(h, Fire(h, i), i)
  {
    assert Paid(h, h.live[i]) && Accounted(h, h.live[i].id);
  }

  /**
   * In any run, one more scan answers with the response that the earliest matching live entry was added with, and fires
   * that entry; it answers nothing and changes nothing when none matches.
   */
  lemma ScanFiresTheEarliest(ops: seq<Op>, req: Request)
    ensures var h := Run(EMPTY, ops);
            var h' := Do(h, Taken(req));
            |h.fired| == |h.added| &&
            match Matching(Entries(h.live), req) {
              case None =>
                && h' == h && (forall i :: 0 <= i < |h.live| ==> !h.live[i].entry.matches(req))
                && Take(Entries(h.live), req).0 == None
              case Some(i) =>
                && i < |h.live|
                && h.live[i].id < |h.added|
                && h.live[i].entry.matches(req)
                && (forall j :: 0 <= j < i ==> !h.live[j].entry.matches(req))
                && FiredAt(h, h', i)
                && Take(Entries(h.live), req).0 == Some(h.added[h.live[i].id].response)
            }
  {
    RunIsSound(ops);
    var h := Run(EMPTY, ops);
    forall i | 0 <= i < |h.live| ensures Entries(h.live)[i] == h.live[i].entry {}
    match Matching(Entries(h.live), req)
    case None =>
    case Some(i) =>
      FireChangesOneEntry(h, i);
      assert Paid(h, h.live[i]);
  }

  /** An entry added without a count is present until the store is cleared. */
  lemma {:induction false} UnlimitedLeavesOnlyByClear(h: History, ops: seq<Op>, id: nat)
    requires Sound(h) && Present(h, id) && id < |h.added| && h.added[id].times.None?
    requires Cleared !in ops
    ensures Present(Run(h, ops), id)
    ensures Sound(Run(h, ops)) && id < |Run(h, ops).added| && Run(h, ops).added[id] == h.added[id]
  {
    if ops != [] {
      var before := Run(h, ops[..|ops| - 1]);
      var op := ops[|ops| - 1];
      UnlimitedLeavesOnlyByClear(h, ops[..|ops| - 1], id);
      DoIsSound(before, op);
      var i :| 0 <= i < |before.live| && before.live[i].id == id;
      assert Paid(before, before.live[i]);
      UnlimitedStays(before, op, i);
    }
  }

  lemma UnlimitedStays(h: History, op: Op, i: nat)
    requires Sound(h) && i < |h.live| && h.live[i].entry.times.None? && op != Cleared
    ensures Present(Do(h, op), h.live[i].id)
  {
    var h' := Do(h, op);
    match op
    case Added(_) => assert h'.live[i].id == h.live[i].id;
    case Cleared => assert false;
    case Taken(req) =>
      match Matching(Entries(h.live), req)
      case None =>
      case Some(at) =>
        if |h'.live| < |h.live| && at < i {
          assert h'.live[i - 1].id == h.live[i].id;
        } else {
          assert h'.live[i].id == h.live[i].id;
        }
  }

  /** The store's contents over a run are what the history keeps, entry for entry. */
  lemma {:induction false} RunRefinesStore(ops: seq<Op>)
    ensures Entries(Run(EMPTY, ops).live) == PlainRun([], ops)
  {
    if ops != [] {
      RunIsSound(ops[..|ops| - 1]);
      RunRefinesStore(ops[..|ops| - 1]);
      DoRefinesStore(Run(EMPTY, ops[..|ops| - 1]), ops[|ops| - 1]);
    }
  }

  function PlainRun(stubs: seq<StubEntry>, ops: seq<Op>): seq<StubEntry> {
    if ops == [] then stubs else Plain(PlainRun(stubs, ops[..|ops| - 1]), ops[|ops| - 1])
  }

  lemma {:induction false} PlainRunAppend(stubs: seq<StubEntry>, a: seq<Op>, b: seq<Op>)
    ensures PlainRun(stubs, a + b) == PlainRun(PlainRun(stubs, a), b)
  {
    if b == [] {
      assert a + b == a;
    } else {
      assert (a + b)[..|a| + |b| - 1] == a + b[..|b| - 1];
      PlainRunAppend(stubs, a, b[..|b| - 1]);
    }
  }
}
