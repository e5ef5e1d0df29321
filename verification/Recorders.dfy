/** The shared recorder: a bounded ring over every upstream, and one append-only medium for each routed one. */
module Recorders {
  import opened Wrappers
  import opened Recorded
  import opened Collections

  datatype Config = Config(enabled: bool, maxInMemory: nat)

  /** `notified` counts the calls of `notify_waiters`. */
  datatype State = State(ring: seq<Exchange>, media: map<string, seq<Exchange>>, notified: nat)

  predicate Routed(media: map<string, seq<Exchange>>, e: Exchange) {
    e.upstream.Some? && e.upstream.value in media
  }

  function Appended(media: map<string, seq<Exchange>>, e: Exchange): map<string, seq<Exchange>> {
    if Routed(media, e) then media[e.upstream.value := media[e.upstream.value] + [e]] else media
  }

  /** The last `n` of `xs`, or all of them. */
  function LastOf<T>(n: nat, xs: seq<T>): seq<T> {
    if |xs| <= n then xs else xs[|xs| - n..]
  }

  /** The ring after a push: the oldest exchanges leave until there is room; a cap of zero retains nothing. */
  function Pushed(cap: nat, ring: seq<Exchange>, e: Exchange): seq<Exchange> {
    if cap == 0 then ring else LastOf(cap - 1, ring) + [e]
  }

  /** One record call; `stored` says whether the medium takes the exchange. */
  function Record(cfg: Config, s: State, e: Exchange, stored: bool): State {
    if !cfg.enabled || (Routed(s.media, e) && !stored) then s
    else State(Pushed(cfg.maxInMemory, s.ring, e), Appended(s.media, e), s.notified + 1)
  }

  /** A record call dropped while it awaits the medium, which may have taken the exchange all the same. */
  function Abandon(cfg: Config, s: State, e: Exchange, stored: bool): State {
    if cfg.enabled && stored then s.(media := Appended(s.media, e)) else s
  }

  class Recorder {
    const cfg: Config
    var buffer: seq<Exchange>
    var media: map<string, seq<Exchange>>
    var notified: nat

    constructor (cfg: Config, media: map<string, seq<Exchange>>)
      ensures this.cfg == cfg && Model() == State([], media, 0)
    {
      this.cfg := cfg;
      buffer, this.media, notified := [], media, 0;
    }

    ghost function Model(): State
      reads this
    {
      State(buffer, media, notified)
    }

    method Insert(e: Exchange, stored: bool) returns (ok: bool)
      modifies this
      ensures Model() == Record(cfg, old(Model()), e, stored)
      ensures ok <==> !cfg.enabled || !Routed(old(media), e) || stored
    {
      if !cfg.enabled { return true; }
      if Routed(media, e) {
        if !stored { return false; }
        media := media[e.upstream.value := media[e.upstream.value] + [e]];
      }
      if cfg.maxInMemory == 0 {
        notified := notified + 1;
        return true;
      }
      ghost var was := buffer;
      while |buffer| >= cfg.maxInMemory
        invariant |buffer| <= |was| && buffer == was[|was| - |buffer|..]
        invariant buffer == was || |buffer| >= cfg.maxInMemory - 1
        invariant media == Appended(old(media), e) && notified == old(notified)
        decreases |buffer|
      {
        buffer := buffer[1..];
      }
      buffer := buffer + [e];
      notified := notified + 1;
      return true;
    }

    method Clear()
      modifies this
      ensures Model() == old(Model()).(ring := [])
    {
      buffer := [];
    }
  }

  // Runs of the recorder.

  datatype Op = Recorded(e: Exchange, stored: bool) | Abandoned(e: Exchange, stored: bool) | Cleared

  function Do(cfg: Config, s: State, op: Op): State {
    match op
    case Recorded(e, stored) => Record(cfg, s, e, stored)
    case Abandoned(e, stored) => Abandon(cfg, s, e, stored)
    case Cleared => s.(ring := [])
  }

  function Run(cfg: Config, s: State, ops: seq<Op>): State {
    if ops == [] then s else Do(cfg, Run(cfg, s, ops[..|ops| - 1]), ops[|ops| - 1])
  }

  /** Whether a record call takes the exchange; `routes` are the upstreams that have a medium. */
  predicate Accepts(cfg: Config, routes: set<string>, e: Exchange, stored: bool) {
    cfg.enabled && (e.upstream.Some? && e.upstream.value in routes ==> stored)
  }

  /** The exchanges that record calls accepted, in order. */
  function Accepted(cfg: Config, routes: set<string>, ops: seq<Op>): seq<Exchange> {
    if ops == [] then []
    else
      var before := Accepted(cfg, routes, ops[..|ops| - 1]);
      match ops[|ops| - 1]
      case Recorded(e, stored) =>
        if Accepts(cfg, routes, e, stored) then before + [e] else before
      case _ => before
  }

  /** How many of the accepted exchanges came after the last clear. */
  function SinceClear(cfg: Config, routes: set<string>, ops: seq<Op>): nat {
    if ops == [] then 0
    else
      var before := SinceClear(cfg, routes, ops[..|ops| - 1]);
      match ops[|ops| - 1]
      case Recorded(e, stored) =>
        if Accepts(cfg, routes, e, stored) then before + 1 else before
      case Abandoned(_, _) => before
      case Cleared => 0
  }

  lemma {:induction false} RoutesAreFixed(cfg: Config, s: State, ops: seq<Op>)
    ensures Run(cfg, s, ops).media.Keys == s.media.Keys
  {
    if ops != [] { RoutesAreFixed(cfg, s, ops[..|ops| - 1]); }
  }

  /**
   * Under any run, the ring is the window of the accepted exchanges that the cap leaves of those since the last
   * clear: exactly the last min(cap, n) of the n of them.
   */
  lemma {:induction false} RingIsWindow(cfg: Config, s: State, ops: seq<Op>)
    requires s.ring == []
    ensures SinceClear(cfg, s.media.Keys, ops) <= |Accepted(cfg, s.media.Keys, ops)|
    ensures Run(cfg, s, ops).ring ==
            LastOf(Min(cfg.maxInMemory, SinceClear(cfg, s.media.Keys, ops)), Accepted(cfg, s.media.Keys, ops))
  {
    if ops != [] {
      RingIsWindow(cfg, s, ops[..|ops| - 1]);
      RoutesAreFixed(cfg, s, ops[..|ops| - 1]);
      var before := Run(cfg, s, ops[..|ops| - 1]);
      var accepted := Accepted(cfg, s.media.Keys, ops[..|ops| - 1]);
      var n := SinceClear(cfg, s.media.Keys, ops[..|ops| - 1]);
      match ops[|ops| - 1]
      case Recorded(e, stored) => RecordSlides(cfg, before, n, accepted, e, stored);
      case _ =>
    }
  }

  lemma RecordSlides(cfg: Config, s: State, n: nat, accepted: seq<Exchange>, e: Exchange, stored: bool)
    requires n <= |accepted| && s.ring == LastOf(Min(cfg.maxInMemory, n), accepted)
    ensures Record(cfg, s, e, stored).ring ==
            if Accepts(cfg, s.media.Keys, e, stored)
            then LastOf(Min(cfg.maxInMemory, n + 1), accepted + [e])
            else s.ring
  {
    WindowSlides(cfg.maxInMemory, n, accepted, e);
  }

  lemma WindowSlides(cap: nat, n: nat, xs: seq<Exchange>, e: Exchange)
    requires n <= |xs|
    ensures var window := LastOf(Min(cap, n), xs);
            Pushed(cap, window, e) == LastOf(Min(cap, n + 1), xs + [e])
  {
    var window := LastOf(Min(cap, n), xs);
    if cap != 0 {
      assert (xs + [e])[|xs + [e]| - Min(cap, n + 1)..] == xs[|xs| - (Min(cap, n + 1) - 1)..] + [e];
    }
  }

  /** The exchanges of one upstream. */
  function Project(xs: seq<Exchange>, upstream: string): seq<Exchange> {
    if xs == [] then []
    else
      var n := |xs| - 1;
      Project(xs[..n], upstream) + (if xs[n].upstream == Some(upstream) then [xs[n]] else [])
  }

  lemma {:induction false} ProjectAppend(xs: seq<Exchange>, ys: seq<Exchange>, upstream: string)
    ensures Project(xs + ys, upstream) == Project(xs, upstream) + Project(ys, upstream)
  {
    if ys == [] {
      assert xs + ys == xs;
    } else {
      var n := |ys| - 1;
      assert (xs + ys)[..|xs| + n] == xs + ys[..n];
      ProjectAppend(xs, ys[..n], upstream);
    }
  }

  lemma ProjectOne(xs: seq<Exchange>, e: Exchange, upstream: string)
    ensures Project(xs + [e], upstream) ==
            if e.upstream == Some(upstream) then Project(xs, upstream) + [e] else Project(xs, upstream)
  {
    assert (xs + [e])[..|xs|] == xs;
  }

  predicate Suffix<T(==)>(a: seq<T>, b: seq<T>) {
    |a| <= |b| && a == b[|b| - |a|..]
  }

  lemma WindowProjectsToSuffix(n: nat, xs: seq<Exchange>, upstream: string)
    ensures Suffix(Project(LastOf(n, xs), upstream), Project(xs, upstream))
  {
    if |xs| > n {
      assert xs == xs[..|xs| - n] + xs[|xs| - n..];
      ProjectAppend(xs[..|xs| - n], xs[|xs| - n..], upstream);
    }
  }

  /** One append to a medium during a run; `recorded` says whether the record call that made it was completed. */
  datatype Write = Write(exchange: Exchange, recorded: bool)

  /** What a run appends to the medium of one upstream. */
  function Log(cfg: Config, routes: set<string>, ops: seq<Op>, upstream: string): seq<Write> {
    if ops == [] then []
    else
      var before := Log(cfg, routes, ops[..|ops| - 1], upstream);
      match ops[|ops| - 1]
      case Recorded(e, stored) =>
        if Accepts(cfg, routes, e, stored) && e.upstream == Some(upstream) then before + [Write(e, true)] else before
      case Abandoned(e, stored) =>
        if Orphans(cfg, ops[|ops| - 1], upstream) then before + [Write(e, false)] else before
      case Cleared => before
  }

  /** A record call that was dropped after its exchange had reached the medium of `upstream`. */
  predicate Orphans(cfg: Config, op: Op, upstream: string) {
    op.Abandoned? && op.stored && cfg.enabled && op.e.upstream == Some(upstream)
  }

  function All(log: seq<Write>): (r: seq<Exchange>)
    ensures |r| == |log|
  {
    seq(|log|, i requires 0 <= i < |log| => log[i].exchange)
  }

  function Kept(log: seq<Write>): seq<Exchange> {
    if log == [] then []
    else
      var x := log[|log| - 1];
      if x.recorded then Kept(log[..|log| - 1]) + [x.exchange] else Kept(log[..|log| - 1])
  }

  lemma LogOne(log: seq<Write>, x: Write)
    ensures All(log + [x]) == All(log) + [x.exchange]
    ensures Kept(log + [x]) == if x.recorded then Kept(log) + [x.exchange] else Kept(log)
  {
    assert (log + [x])[..|log|] == log;
  }

  lemma {:induction false} LogKeepsAccepted(cfg: Config, routes: set<string>, ops: seq<Op>, upstream: string)
    requires upstream in routes
    ensures Kept(Log(cfg, routes, ops, upstream)) == Project(Accepted(cfg, routes, ops), upstream)
  {
    if ops != [] {
      var n := |ops| - 1;
      LogKeepsAccepted(cfg, routes, ops[..n], upstream);
      match ops[n]
      case Recorded(e, _) =>
        LogOne(Log(cfg, routes, ops[..n], upstream), Write(e, true));
        ProjectOne(Accepted(cfg, routes, ops[..n]), e, upstream);
      case Abandoned(e, _) => LogOne(Log(cfg, routes, ops[..n], upstream), Write(e, false));
      case Cleared =>
    }
  }

  lemma WriteReaches(base: seq<Exchange>, log: seq<Write>, x: Write)
    ensures base + All(log + [x]) == base + All(log) + [x.exchange]
  {
    LogOne(log, x);
  }

  lemma {:induction false} MediumIsLogged(cfg: Config, s: State, ops: seq<Op>, upstream: string)
    requires upstream in s.media
    ensures upstream in Run(cfg, s, ops).media
    ensures Run(cfg, s, ops).media[upstream] == s.media[upstream] + All(Log(cfg, s.media.Keys, ops, upstream))
  {
    if ops != [] {
      var n := |ops| - 1;
      var log := Log(cfg, s.media.Keys, ops[..n], upstream);
      MediumIsLogged(cfg, s, ops[..n], upstream);
      RoutesAreFixed(cfg, s, ops[..n]);
      match ops[n]
      case Recorded(e, _) => WriteReaches(s.media[upstream], log, Write(e, true));
      case Abandoned(e, _) => WriteReaches(s.media[upstream], log, Write(e, false));
      case Cleared =>
    }
  }

  lemma {:induction false} NothingOrphaned(cfg: Config, routes: set<string>, ops: seq<Op>, upstream: string)
    requires forall i :: 0 <= i < |ops| ==> !Orphans(cfg, ops[i], upstream)
    ensures var log := Log(cfg, routes, ops, upstream); All(log) == Kept(log)
  {
    if ops != [] {
      var n := |ops| - 1;
      assert !Orphans(cfg, ops[n], upstream);
      NothingOrphaned(cfg, routes, ops[..n], upstream);
      if ops[n].Recorded? { LogOne(Log(cfg, routes, ops[..n], upstream), Write(ops[n].e, true)); }
    }
  }

  /**
   * Unless a record call for the upstream was dropped after its append, its medium gains exactly the accepted
   * exchanges of that upstream, in order.
   */
  lemma {:induction false} MediumKeepsAccepted(cfg: Config, s: State, ops: seq<Op>, upstream: string)
    requires upstream in s.media
    requires forall i :: 0 <= i < |ops| ==> !Orphans(cfg, ops[i], upstream)
    ensures upstream in Run(cfg, s, ops).media
    ensures Run(cfg, s, ops).media[upstream] ==
            s.media[upstream] + Project(Accepted(cfg, s.media.Keys, ops), upstream)
  {
    MediumIsLogged(cfg, s, ops, upstream);
    NothingOrphaned(cfg, s.media.Keys, ops, upstream);
    LogKeepsAccepted(cfg, s.media.Keys, ops, upstream);
  }

  /**
   * The refinement between memory and medium: what the ring shows of an upstream that has its own medium is the
   * end of that medium, so a failed append shows in neither.
   */
  lemma {:induction false} RingShowsEndOfMedium(cfg: Config, s: State, ops: seq<Op>, upstream: string)
    requires s.ring == [] && upstream in s.media
    requires forall i :: 0 <= i < |ops| ==> !Orphans(cfg, ops[i], upstream)
    ensures upstream in Run(cfg, s, ops).media
    ensures Suffix(Project(Run(cfg, s, ops).ring, upstream), Run(cfg, s, ops).media[upstream])
  {
    MediumKeepsAccepted(cfg, s, ops, upstream);
    RingShowsEndOfAccepted(cfg, s, ops, upstream);
  }

  lemma RingShowsEndOfAccepted(cfg: Config, s: State, ops: seq<Op>, upstream: string)
    requires s.ring == []
    ensures Suffix(Project(Run(cfg, s, ops).ring, upstream), Project(Accepted(cfg, s.media.Keys, ops), upstream))
  {
    RingIsWindow(cfg, s, ops);
    WindowProjectsToSuffix(
      Min(cfg.maxInMemory, SinceClear(cfg, s.media.Keys, ops)), Accepted(cfg, s.media.Keys, ops), upstream);
  }

  ghost predicate DistinctWrites(log: seq<Write>) {
    forall i, j :: 0 <= i < j < |log| ==> log[i].exchange.id != log[j].exchange.id
  }

  /** No append was orphaned after one whose exchange is still shown. */
  ghost predicate NoneOrphanedAfter(log: seq<Write>, shown: seq<Exchange>) {
    forall i, j :: 0 <= i < j < |log| && log[i].recorded && log[i].exchange in shown ==> log[j].recorded
  }

  lemma {:induction false} KeptIsLogged(log: seq<Write>)
    ensures forall e :: e in Kept(log) ==> exists i :: 0 <= i < |log| && log[i] == Write(e, true)
  {
    if log != [] {
      var n := |log| - 1;
      KeptIsLogged(log[..n]);
      forall e | e in Kept(log) ensures exists i :: 0 <= i < |log| && log[i] == Write(e, true) {
        if e in Kept(log[..n]) {
          var i :| 0 <= i < n && log[..n][i] == Write(e, true);
          assert log[i] == Write(e, true);
        } else {
          assert log[n] == Write(e, true);
        }
      }
    }
  }

  lemma SuffixLast(a: seq<Exchange>, b: seq<Exchange>, x: Exchange)
    requires a != []
    ensures Suffix(a, b + [x]) <==> a[|a| - 1] == x && Suffix(a[..|a| - 1], b)
  {
    if a[|a| - 1] == x && Suffix(a[..|a| - 1], b) {
      assert a == a[..|a| - 1] + [x];
    }
    if Suffix(a, b + [x]) {
      assert a[..|a| - 1] == (b + [x])[|b| + 1 - |a|..][..|a| - 1];
    }
  }

  lemma {:induction false} ShownIsEndOfLogIff(base: seq<Exchange>, log: seq<Write>, shown: seq<Exchange>)
    requires DistinctWrites(log) && Suffix(shown, Kept(log))
    ensures Suffix(shown, base + All(log)) <==> NoneOrphanedAfter(log, shown)
  {
    if shown != [] {
      var n, m := |log| - 1, |shown| - 1;
      assert base + All(log) == base + All(log[..n]) + [log[n].exchange];
      SuffixLast(shown, base + All(log[..n]), log[n].exchange);
      if log[n].recorded {
        SuffixLast(shown, Kept(log[..n]), log[n].exchange);
        ShownIsEndOfLogIff(base, log[..n], shown[..m]);
        OneMoreShown(log, shown);
      } else {
        LastShownIsBefore(log, shown);
      }
    }
  }

  lemma {:induction false} LastShownIsBefore(log: seq<Write>, shown: seq<Exchange>)
    requires DistinctWrites(log) && log != [] && !log[|log| - 1].recorded
    requires shown != [] && Suffix(shown, Kept(log))
    ensures shown[|shown| - 1] != log[|log| - 1].exchange && !NoneOrphanedAfter(log, shown)
  {
    var n, m := |log| - 1, |shown| - 1;
    KeptIsLogged(log[..n]);
    assert shown[m] in Kept(log[..n]);
    var i :| 0 <= i < n && log[..n][i] == Write(shown[m], true);
    assert log[i].recorded && log[i].exchange in shown && !log[n].recorded;
  }

  lemma OneMoreShown(log: seq<Write>, shown: seq<Exchange>)
    requires DistinctWrites(log) && log != [] && shown != []
    requires log[|log| - 1] == Write(shown[|shown| - 1], true)
    ensures NoneOrphanedAfter(log, shown) <==> NoneOrphanedAfter(log[..|log| - 1], shown[..|shown| - 1])
  {
    var n, m := |log| - 1, |shown| - 1;
    forall i | 0 <= i < n ensures log[i].exchange in shown <==> log[..n][i].exchange in shown[..m] {
      if log[i].exchange in shown {
        var at :| 0 <= at < |shown| && shown[at] == log[i].exchange;
        assert at != m;
        assert shown[..m][at] == log[i].exchange;
      }
    }
    if NoneOrphanedAfter(log, shown) {
      forall i, j | 0 <= i < j < n && log[..n][i].recorded && log[..n][i].exchange in shown[..m]
        ensures log[..n][j].recorded
      {
        assert log[i].recorded && log[i].exchange in shown;
      }
    }
    if NoneOrphanedAfter(log[..n], shown[..m]) {
      forall i, j | 0 <= i < j < |log| && log[i].recorded && log[i].exchange in shown ensures log[j].recorded {
        if j < n { assert log[..n][i].recorded && log[..n][i].exchange in shown[..m] && log[..n][j] == log[j]; }
      }
    }
  }

  /**
   * The exact condition, for any run over distinct exchanges: the ring shows the end of an upstream's medium if and
   * only if no record call for it was dropped after its append and after an exchange that the ring still shows.
   */
  lemma RingShowsEndOfMediumIff(cfg: Config, s: State, ops: seq<Op>, upstream: string)
    requires s.ring == [] && upstream in s.media && DistinctWrites(Log(cfg, s.media.Keys, ops, upstream))
    ensures upstream in Run(cfg, s, ops).media
    ensures Suffix(Project(Run(cfg, s, ops).ring, upstream), Run(cfg, s, ops).media[upstream])
            <==> NoneOrphanedAfter(Log(cfg, s.media.Keys, ops, upstream), Project(Run(cfg, s, ops).ring, upstream))
  {
    MediumIsLogged(cfg, s, ops, upstream);
    LogKeepsAccepted(cfg, s.media.Keys, ops, upstream);
    RingShowsEndOfAccepted(cfg, s, ops, upstream);
    ShownIsEndOfLogIff(
      s.media[upstream], Log(cfg, s.media.Keys, ops, upstream), Project(Run(cfg, s, ops).ring, upstream));
  }

  /** `a` is `b` with some elements left out. */
  ghost predicate Subsequence(a: seq<Exchange>, b: seq<Exchange>) {
    a == [] ||
    (b != [] &&
     (Subsequence(a, b[..|b| - 1]) ||
      (a[|a| - 1] == b[|b| - 1] && Subsequence(a[..|a| - 1], b[..|b| - 1]))))
  }

  lemma {:induction false} SuffixIsSubsequence(a: seq<Exchange>, b: seq<Exchange>)
    requires Suffix(a, b)
    ensures Subsequence(a, b)
  {
    if a != [] {
      SuffixIsSubsequence(a[..|a| - 1], b[..|b| - 1]);
    }
  }

  lemma {:induction false} SubsequenceOfLonger(a: seq<Exchange>, b: seq<Exchange>, e: Exchange)
    requires Subsequence(a, b)
    ensures Subsequence(a, b + [e])
    ensures Subsequence(a + [e], b + [e])
  {
    assert (b + [e])[..|b|] == b;
    assert (a + [e])[..|a|] == a;
  }

  lemma {:induction false} SubsequenceIsTransitive(a: seq<Exchange>, b: seq<Exchange>, c: seq<Exchange>)
    requires Subsequence(a, b) && Subsequence(b, c)
    ensures Subsequence(a, c)
    decreases |c|
  {
    if a != [] && b != [] {
      if Subsequence(b, c[..|c| - 1]) {
        SubsequenceIsTransitive(a, b, c[..|c| - 1]);
      } else if Subsequence(a, b[..|b| - 1]) {
        SubsequenceIsTransitive(a, b[..|b| - 1], c[..|c| - 1]);
      } else {
        SubsequenceIsTransitive(a[..|a| - 1], b[..|b| - 1], c[..|c| - 1]);
      }
    }
  }

  lemma RecordKeepsOrder(cfg: Config, s: State, e: Exchange, stored: bool, accepted: seq<Exchange>, upstream: string)
    requires upstream in s.media && Subsequence(Project(accepted, upstream), s.media[upstream])
    ensures upstream in Record(cfg, s, e, stored).media
    ensures Subsequence(
              Project(if Accepts(cfg, s.media.Keys, e, stored) then accepted + [e] else accepted, upstream),
              Record(cfg, s, e, stored).media[upstream])
  {
    ProjectOne(accepted, e, upstream);
    SubsequenceOfLonger(Project(accepted, upstream), s.media[upstream], e);
  }

  lemma {:induction false} MediumHoldsAccepted(cfg: Config, s: State, ops: seq<Op>, upstream: string)
    requires upstream in s.media
    ensures upstream in Run(cfg, s, ops).media
    ensures Subsequence(Project(Accepted(cfg, s.media.Keys, ops), upstream), Run(cfg, s, ops).media[upstream])
  {
    if ops != [] {
      var n := |ops| - 1;
      var before := Run(cfg, s, ops[..n]);
      MediumHoldsAccepted(cfg, s, ops[..n], upstream);
      RoutesAreFixed(cfg, s, ops[..n]);
      match ops[n]
      case Recorded(e, stored) =>
        RecordKeepsOrder(cfg, before, e, stored, Accepted(cfg, s.media.Keys, ops[..n]), upstream);
      case Abandoned(e, _) =>
        SubsequenceOfLonger(
          Project(Accepted(cfg, s.media.Keys, ops[..n]), upstream), before.media[upstream], e);
      case Cleared =>
    }
  }

  /** With abandoned calls, the ring still shows an upstream's exchanges in the order of its medium. */
  lemma RingFollowsMediumOrder(cfg: Config, s: State, ops: seq<Op>, upstream: string)
    requires s.ring == [] && upstream in s.media
    ensures upstream in Run(cfg, s, ops).media
    ensures Subsequence(Project(Run(cfg, s, ops).ring, upstream), Run(cfg, s, ops).media[upstream])
  {
    var accepted := Accepted(cfg, s.media.Keys, ops);
    var n := Min(cfg.maxInMemory, SinceClear(cfg, s.media.Keys, ops));
    RingIsWindow(cfg, s, ops);
    MediumHoldsAccepted(cfg, s, ops, upstream);
    WindowProjectsToSuffix(n, accepted, upstream);
    SuffixIsSubsequence(Project(LastOf(n, accepted), upstream), Project(accepted, upstream));
    SubsequenceIsTransitive(
      Project(LastOf(n, accepted), upstream), Project(accepted, upstream), Run(cfg, s, ops).media[upstream]);
  }

  /** One call abandoned after its append is enough for the medium's end to show what the ring does not. */
  lemma AbandonedAppendBreaksSuffix(a: Exchange, b: Exchange, c: Exchange)
    requires a.upstream == b.upstream == c.upstream == Some("api") && a != b
    ensures var s := Run(Config(true, 10), State([], map["api" := []], 0),
                         [Op.Recorded(a, true), Abandoned(b, true), Op.Recorded(c, true)]);
            && s.ring == [a, c]
            && "api" in s.media
            && s.media["api"] == [a, b, c]
            && !Suffix(s.ring, s.media["api"])
  {
    var cfg, s0 := Config(true, 10), State([], map["api" := []], 0);
    var ops := [Op.Recorded(a, true), Abandoned(b, true), Op.Recorded(c, true)];
    assert ops[..2][..1][..0] == [];
    assert ops[..2][..1] == [Op.Recorded(a, true)];
    assert Run(cfg, s0, ops[..2][..1]).ring == [a];
    assert ops[..2][1] == Abandoned(b, true);
    assert Run(cfg, s0, ops[..2]).media["api"] == [a, b];
    assert Run(cfg, s0, ops).media["api"][1] == b;
  }

  /** Waiters are notified once for every accepted exchange, and for nothing else. */
  lemma {:induction false} NotifiedForEachAccepted(cfg: Config, s: State, ops: seq<Op>)
    ensures Run(cfg, s, ops).notified == s.notified + |Accepted(cfg, s.media.Keys, ops)|
  {
    if ops != [] {
      NotifiedForEachAccepted(cfg, s, ops[..|ops| - 1]);
      RoutesAreFixed(cfg, s, ops[..|ops| - 1]);
    }
  }

  lemma {:induction false} RunAppend(cfg: Config, s: State, a: seq<Op>, b: seq<Op>)
    ensures Run(cfg, s, a + b) == Run(cfg, Run(cfg, s, a), b)
  {
    if b == [] {
      assert a + b == a;
    } else {
      assert (a + b)[..|a| + |b| - 1] == a + b[..|b| - 1];
      RunAppend(cfg, s, a, b[..|b| - 1]);
    }
  }
}
