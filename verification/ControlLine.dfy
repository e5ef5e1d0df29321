/** The pipelined line protocol: the client's matching of replies, the server's loop, and the two together. */
module ControlLine {
  import opened Wrappers
  import opened Text
  import opened Collections

  // The client.

  /** `pending` are the commands written and not answered yet; `resolved` are the replies handed out, in order. */
  datatype Client = Client(buffer: string, pending: seq<nat>, resolved: seq<(nat, string)>)

  function Zip(ids: seq<nat>, lines: seq<string>): (r: seq<(nat, string)>)
    requires |ids| == |lines|
    ensures |r| == |ids|
  {
    seq(|ids|, i requires 0 <= i < |ids| => (ids[i], lines[i]))
  }

  /** What a client makes of reply lines: each goes to the oldest pending command; a line too many is dropped. */
  function Absorb(c: Client, lines: seq<string>): Client {
    var n := Min(|lines|, |c.pending|);
    c.(pending := c.pending[n..], resolved := c.resolved + Zip(c.pending[..n], lines[..n]))
  }

  function HandedOut(c: Client): Client {
    var cut := CutLines(c.buffer);
    Absorb(c, cut.lines).(buffer := cut.tail)
  }

  function Receive(c: Client, chunk: string): Client {
    HandedOut(c.(buffer := c.buffer + chunk))
  }

  function Given(c: Client, line: string): Client {
    if c.pending == [] then c
    else c.(pending := c.pending[1..], resolved := c.resolved + [(c.pending[0], line)])
  }

  lemma AbsorbNothing(c: Client)
    ensures Absorb(c, []) == c
  {
    assert Zip([], []) == [];
  }

  lemma AbsorbFirst(c: Client, line: string, lines: seq<string>)
    ensures Absorb(c, [line] + lines) == Absorb(Given(c, line), lines)
  {
    if c.pending != [] {
      var n := Min(|lines|, |c.pending| - 1);
      assert ([line] + lines)[..n + 1] == [line] + lines[..n];
      assert c.pending[..n + 1] == [c.pending[0]] + c.pending[1..][..n];
      assert Zip(c.pending[..n + 1], [line] + lines[..n]) ==
             [(c.pending[0], line)] + Zip(c.pending[1..][..n], lines[..n]);
    } else {
      assert Zip([], []) == [];
    }
  }

  /** Handing out the first complete line leaves the rest of the buffer to hand out. */
  lemma HandOutOne(c: Client, i: nat)
    requires IndexOf(c.buffer, '\n') == Some(i)
    ensures HandedOut(c) == HandedOut(Given(c, c.buffer[..i]).(buffer := c.buffer[i + 1..]))
  {
    CutFirstLine(c.buffer, i);
    AbsorbFirst(c, c.buffer[..i], CutLines(c.buffer[i + 1..]).lines);
  }

  lemma NothingToHandOut(c: Client)
    requires IndexOf(c.buffer, '\n') == None
    ensures HandedOut(c) == c
  {
    AbsorbNothing(c);
  }

  lemma ReassociateLines(a: seq<string>, b: seq<string>, c: seq<string>)
    ensures a + b + c == a + (b + c)
  {}

  class ProxyClient {
    var buffer: string
    var pending: seq<nat>
    var resolved: seq<(nat, string)>
    var rejected: seq<(nat, string)>
    var fatal: Option<string>
    var wire: string

    constructor ()
      ensures Model() == Client("", [], []) && rejected == [] && fatal == None && wire == ""
    {
      buffer, pending, resolved, rejected, fatal, wire := "", [], [], [], None, "";
    }

    ghost function Model(): Client
      reads this
    {
      Client(buffer, pending, resolved)
    }

    /** The command is queued for its reply before it is written. */
    method DoSend(id: nat, line: string)
      modifies this`pending, this`wire
      ensures Model() == old(Model()).(pending := old(pending) + [id])
      ensures wire == old(wire) + line + "\n"
    {
      pending := pending + [id];
      wire := wire + line + "\n";
    }

    /** A reply line goes to the oldest pending command, if there is one. */
    method Resolve(line: string)
      modifies this`pending, this`resolved
      ensures Model() == Given(old(Model()), line)
    {
      if pending != [] {
        resolved := resolved + [(pending[0], line)];
        pending := pending[1..];
      }
    }

    /** Hands out the line that ends at `idx`, and keeps what is after it. */
    method TakeLine(idx: nat)
      requires IndexOf(buffer, '\n') == Some(idx)
      modifies this`buffer, this`pending, this`resolved
      ensures HandedOut(Model()) == HandedOut(old(Model())) && |buffer| < |old(buffer)|
    {
      HandOutOne(Model(), idx);
      var line := buffer[..idx];
      buffer := buffer[idx + 1..];
      Resolve(line);
    }

    method OnData(chunk: string)
      modifies this`buffer, this`pending, this`resolved
      ensures Model() == Receive(old(Model()), chunk)
    {
      buffer := buffer + chunk;
      ghost var goal := HandedOut(Model());
      var idx := IndexOf(buffer, '\n');
      while idx.Some?
        invariant idx == IndexOf(buffer, '\n')
        invariant HandedOut(Model()) == goal
        decreases |buffer|
      {
        TakeLine(idx.value);
        idx := IndexOf(buffer, '\n');
      }
      NothingToHandOut(Model());
    }

    /** The first failure is kept; every pending command is rejected with this one, oldest first. */
    method Fail(error: string)
      modifies this`fatal, this`pending, this`rejected
      ensures fatal == if old(fatal).None? then Some(error) else old(fatal)
      ensures pending == [] && rejected == old(rejected) + Zip(old(pending), Repeated(error, |old(pending)|))
    {
      if fatal.None? { fatal := Some(error); }
      ghost var all := Zip(pending, Repeated(error, |pending|));
      ghost var n := 0;
      while pending != []
        invariant n <= |old(pending)| && pending == old(pending)[n..]
        invariant rejected == old(rejected) + all[..n]
        invariant fatal == if old(fatal).None? then Some(error) else old(fatal)
        decreases |pending|
      {
        assert all[..n + 1] == all[..n] + [(pending[0], error)];
        rejected := rejected + [(pending[0], error)];
        pending := pending[1..];
        n := n + 1;
      }
      assert all[..n] == all;
    }
  }

  function Repeated(text: string, n: nat): (r: seq<string>)
    ensures |r| == n
  {
    seq(n, i => text)
  }

  // Chunks.

  function Join(chunks: seq<string>): string {
    if chunks == [] then "" else chunks[0] + Join(chunks[1..])
  }

  /** The lines extracted from a text that arrives in chunks, and the buffer that is left. */
  function Feed(buffer: string, chunks: seq<string>): Cut
    decreases |chunks|
  {
    if chunks == [] then Cut([], buffer)
    else
      var cut := CutLines(buffer + chunks[0]);
      var rest := Feed(cut.tail, chunks[1..]);
      Cut(cut.lines + rest.lines, rest.tail)
  }

  lemma {:induction false} FeedFrom(before: string, chunks: seq<string>)
    ensures var fed := Feed(CutLines(before).tail, chunks);
            CutLines(before + Join(chunks)) == Cut(CutLines(before).lines + fed.lines, fed.tail)
    decreases |chunks|
  {
    if chunks == [] {
      assert before + Join(chunks) == before;
    } else {
      CutInTwo(before, chunks[0]);
      FeedFrom(before + chunks[0], chunks[1..]);
      Reassociate(before, chunks[0], Join(chunks[1..]));
      FeedOne(CutLines(before), chunks);
    }
  }

  lemma FeedOne(first: Cut, chunks: seq<string>)
    requires chunks != []
    ensures var cut := CutLines(first.tail + chunks[0]);
            var rest := Feed(cut.tail, chunks[1..]);
            && Feed(first.tail, chunks).tail == rest.tail
            && first.lines + Feed(first.tail, chunks).lines == (first.lines + cut.lines) + rest.lines
  {
    var cut := CutLines(first.tail + chunks[0]);
    ReassociateLines(first.lines, cut.lines, Feed(cut.tail, chunks[1..]).lines);
  }

  /** However the received text is cut into chunks, the lines and the buffer are those of the whole text. */
  lemma ChunksDoNotMatter(chunks: seq<string>)
    ensures Feed("", chunks) == CutLines(Join(chunks))
  {
    assert CutLines("") == Cut([], "");
    assert "" + Join(chunks) == Join(chunks);
    FeedFrom("", chunks);
  }

  /** The client after all chunks, one `Receive` for each. */
  function ReceiveAll(c: Client, chunks: seq<string>): Client
    decreases |chunks|
  {
    if chunks == [] then c else ReceiveAll(Receive(c, chunks[0]), chunks[1..])
  }

  lemma ZipAppend(ids: seq<nat>, more: seq<nat>, lines: seq<string>, others: seq<string>)
    requires |ids| == |lines| && |more| == |others|
    ensures Zip(ids + more, lines + others) == Zip(ids, lines) + Zip(more, others)
  {}

  /** Lines may be handed out in two goes. */
  lemma AbsorbTwice(c: Client, a: seq<string>, b: seq<string>)
    ensures Absorb(Absorb(c, a), b) == Absorb(c, a + b)
  {
    if |a| <= |c.pending| {
      AbsorbBoth(c, a, b);
    } else {
      var n := |c.pending|;
      assert (a + b)[..n] == a[..n] && c.pending[n..] == [];
      AbsorbIdle(Absorb(c, a), b);
    }
  }

  lemma AbsorbIdle(c: Client, lines: seq<string>)
    requires c.pending == []
    ensures Absorb(c, lines) == c
  {
    assert Zip([], lines[..0]) == [];
  }

  lemma TakeOfBoth(a: seq<string>, b: seq<string>, m: nat)
    requires m <= |b|
    ensures (a + b)[..|a| + m] == a + b[..m]
  {}

  lemma TakeOfDropped(ids: seq<nat>, n: nat, m: nat)
    requires n + m <= |ids|
    ensures ids[..n + m] == ids[..n] + ids[n..][..m] && ids[n..][m..] == ids[n + m..]
  {}

  lemma AbsorbBoth(c: Client, a: seq<string>, b: seq<string>)
    requires |a| <= |c.pending|
    ensures Absorb(Absorb(c, a), b) == Absorb(c, a + b)
  {
    var n := |a|;
    var m := Min(|b|, |c.pending| - n);
    assert a[..n] == a;
    TakeOfBoth(a, b, m);
    TakeOfDropped(c.pending, n, m);
    ZipAppend(c.pending[..n], c.pending[n..][..m], a, b[..m]);
    ResolvedAppend(c.resolved, Zip(c.pending[..n], a), Zip(c.pending[n..][..m], b[..m]));
  }

  lemma ResolvedAppend(a: seq<(nat, string)>, b: seq<(nat, string)>, c: seq<(nat, string)>)
    ensures a + b + c == a + (b + c)
  {}

  lemma AbsorbKeepsBuffer(c: Client, buffer: string, lines: seq<string>)
    ensures Absorb(c.(buffer := buffer), lines) == Absorb(c, lines).(buffer := buffer)
  {}

  /** Receiving chunk by chunk hands out the lines that feeding the chunks finds. */
  lemma {:induction false} ReceivingFeeds(c: Client, chunks: seq<string>)
    ensures var fed := Feed(c.buffer, chunks);
            ReceiveAll(c, chunks) == Absorb(c, fed.lines).(buffer := fed.tail)
    decreases |chunks|
  {
    if chunks == [] {
      AbsorbNothing(c);
    } else {
      var cut := CutLines(c.buffer + chunks[0]);
      var rest := Feed(cut.tail, chunks[1..]);
      ReceivingFeeds(Receive(c, chunks[0]), chunks[1..]);
      ReceiveIs(c, chunks[0], cut);
      AbsorbKeepsBuffer(Absorb(c, cut.lines), cut.tail, rest.lines);
      AbsorbTwice(c, cut.lines, rest.lines);
    }
  }

  lemma ReceiveIs(c: Client, chunk: string, cut: Cut)
    requires cut == CutLines(c.buffer + chunk)
    ensures Receive(c, chunk) == Absorb(c, cut.lines).(buffer := cut.tail)
  {
    AbsorbKeepsBuffer(c, c.buffer + chunk, cut.lines);
  }

  /** However the text is cut into chunks, a client ends up as if it had received it whole. */
  lemma ChunkedClientIsWholeClient(c: Client, chunks: seq<string>)
    requires c.buffer == ""
    ensures ReceiveAll(c, chunks) == Receive(c, Join(chunks))
  {
    ReceivingFeeds(c, chunks);
    ChunksDoNotMatter(chunks);
    ReceiveAfresh(c, Join(chunks), Feed("", chunks));
  }

  lemma ReceiveAfresh(c: Client, text: string, cut: Cut)
    requires c.buffer == "" && cut == CutLines(text)
    ensures Receive(c, text) == Absorb(c, cut.lines).(buffer := cut.tail)
  {
    assert c.buffer + text == text;
    ReceiveIs(c, text, cut);
  }

  // The server.

  /** `answer(k, line)` is what the processor makes of the k-th command; it may depend on all that came before. */
  type Processor = (nat, string) -> string

  function Replies(answer: Processor, lines: seq<string>, k: nat): seq<string> {
    if lines == [] then []
    else if Blank(lines[0]) then Replies(answer, lines[1..], k)
    else [answer(k, Trim(lines[0]))] + Replies(answer, lines[1..], k + 1)
  }

  /** As much of a text as a writer takes that fails after `room` characters, if it fails. */
  function Taken(text: string, room: Option<nat>): string {
    if room.Some? && room.value < |text| then text[..room.value] else text
  }

  /**
   * The loop ends with the input, before the line `stop` if the shutdown is noticed or a read fails there, and where
   * the writer fails, after `room` characters.
   */
  method ServeConnection(answer: Processor, input: string, stop: Option<nat>, room: Option<nat>)
    returns (output: string)
    ensures var lines := TextLines(input);
            var read := if stop.Some? then Min(stop.value, |lines|) else |lines|;
            output == Taken(Unlines(Replies(answer, lines[..read], 0)), room)
  {
    var lines := TextLines(input);
    ghost var read := if stop.Some? then Min(stop.value, |lines|) else |lines|;
    ghost var served := lines[..read];
    output := "";
    var i, k := 0, 0;
    while i < |lines| && stop != Some(i)
      invariant i <= read && |served| == read
      invariant Served(answer, served, i, k, output)
      invariant room.Some? ==> |output| <= room.value
      decreases |lines| - i
    {
      assert served[i] == lines[i];
      NextLine(answer, served, i, k, output);
      if !Blank(lines[i]) {
        var reply := answer(k, Trim(lines[i]));
        output := output + (reply + "\n");
        k := k + 1;
        if room.Some? && room.value < |output| {
          TakenFrom(output, Unlines(Replies(answer, served[i + 1..], k)), room);
          return output[..room.value];
        }
      }
      i := i + 1;
    }
    assert served[read..] == [];
    TakenFrom(output, "", room);
  }

  /** The output so far, and what the lines from `i` on will add, are the replies to all the lines. */
  ghost predicate Served(answer: Processor, lines: seq<string>, i: nat, k: nat, output: string)
    requires i <= |lines|
  {
    output + Unlines(Replies(answer, lines[i..], k)) == Unlines(Replies(answer, lines, 0))
  }

  lemma NextLine(answer: Processor, lines: seq<string>, i: nat, k: nat, output: string)
    requires i < |lines| && Served(answer, lines, i, k, output)
    ensures if Blank(lines[i]) then Served(answer, lines, i + 1, k, output)
            else Served(answer, lines, i + 1, k + 1, output + (answer(k, Trim(lines[i])) + "\n"))
  {
    assert lines[i..][0] == lines[i] && lines[i..][1..] == lines[i + 1..];
    if !Blank(lines[i]) {
      ReplyIsPrepended(output, answer(k, Trim(lines[i])), Replies(answer, lines[i + 1..], k + 1));
    }
  }

  lemma TakenFrom(text: string, rest: string, room: Option<nat>)
    ensures room.Some? && room.value < |text| ==> Taken(text + rest, room) == text[..room.value]
    ensures rest == "" && (room.Some? ==> |text| <= room.value) ==> Taken(text + rest, room) == text
  {
    if room.Some? && room.value < |text| { PrefixStays(text, rest, room.value); }
    assert text + "" == text;
  }

  /** Stopping early withholds replies, and changes none of those that were written. */
  lemma {:induction false} StoppingWithholdsReplies(answer: Processor, lines: seq<string>, n: nat, k: nat)
    requires n <= |lines|
    ensures Replies(answer, lines[..n], k) <= Replies(answer, lines, k)
    decreases n
  {
    if n > 0 {
      assert lines[..n][1..] == lines[1..][..n - 1];
      StoppingWithholdsReplies(answer, lines[1..], n - 1, if Blank(lines[0]) then k else k + 1);
    }
  }

  lemma ReplyIsPrepended(output: string, reply: string, rest: seq<string>)
    ensures output + Unlines([reply] + rest) == output + (reply + "\n") + Unlines(rest)
  {
    assert ([reply] + rest)[1..] == rest;
    assert Unlines([reply] + rest) == reply + "\n" + Unlines(rest);
    Reassociate(output, reply + "\n", Unlines(rest));
  }

  /** What a client writes for a command is one line and not blank, and a reply holds no newline. */
  ghost predicate Framed(encode: nat -> string, answer: Processor) {
    && (forall id :: Lacks(encode(id), '\n') && Lacks(encode(id), '\r') && !Blank(encode(id)))
    && (forall k, line :: Lacks(answer(k, line), '\n'))
  }

  function Encoded(encode: nat -> string, ids: seq<nat>): (r: seq<string>)
    ensures |r| == |ids|
  {
    seq(|ids|, i requires 0 <= i < |ids| => encode(ids[i]))
  }

  /** The reply that each written command is due. */
  function Due(encode: nat -> string, answer: Processor, ids: seq<nat>): (r: seq<string>)
    ensures |r| == |ids|
  {
    seq(|ids|, i requires 0 <= i < |ids| => answer(i, Trim(encode(ids[i]))))
  }

  lemma {:induction false} RepliesFrom(encode: nat -> string, answer: Processor, ids: seq<nat>, k: nat)
    requires Framed(encode, answer) && k <= |ids|
    ensures Replies(answer, Encoded(encode, ids)[k..], k) == Due(encode, answer, ids)[k..]
    decreases |ids| - k
  {
    if k < |ids| {
      RepliesFrom(encode, answer, ids, k + 1);
      var lines := Encoded(encode, ids);
      assert lines[k] == encode(ids[k]) && lines[k..][0] == lines[k] && lines[k..][1..] == lines[k + 1..];
      assert Due(encode, answer, ids)[k..] == [Due(encode, answer, ids)[k]] + Due(encode, answer, ids)[k + 1..];
    } else {
      assert Encoded(encode, ids)[k..] == [];
    }
  }

  lemma LinesOfWire(encode: nat -> string, answer: Processor, ids: seq<nat>)
    requires Framed(encode, answer)
    ensures TextLines(Unlines(Encoded(encode, ids))) == Encoded(encode, ids)
  {
    var lines := Encoded(encode, ids);
    assert Unlines(lines) + "" == Unlines(lines);
    CutFindsLines(lines, "");
    assert StripAll(lines) == lines;
  }

  lemma RepliesAreDue(encode: nat -> string, answer: Processor, ids: seq<nat>)
    requires Framed(encode, answer)
    ensures Replies(answer, TextLines(Unlines(Encoded(encode, ids))), 0) == Due(encode, answer, ids)
  {
    LinesOfWire(encode, answer, ids);
    RepliesFrom(encode, answer, ids, 0);
    assert Encoded(encode, ids)[0..] == Encoded(encode, ids);
    assert Due(encode, answer, ids)[0..] == Due(encode, answer, ids);
  }

  /** The server answers each written command with one line, in order: its answer to the text that was written. */
  lemma OneReplyPerCommand(encode: nat -> string, answer: Processor, ids: seq<nat>)
    requires Framed(encode, answer)
    ensures var replies := Replies(answer, TextLines(Unlines(Encoded(encode, ids))), 0);
            |replies| == |ids| && forall k :: 0 <= k < |ids| ==>
              && replies[k] == answer(k, Trim(encode(ids[k])))
              && (Snug(encode(ids[k])) ==> replies[k] == answer(k, encode(ids[k])))
  {
    RepliesAreDue(encode, answer, ids);
    forall k | 0 <= k < |ids| && Snug(encode(ids[k])) ensures Trim(encode(ids[k])) == encode(ids[k]) {
      SnugIsTrimmed(encode(ids[k]));
    }
  }

  // Client and server over a connection that has not failed.

  /** What the caller of a command is told. */
  datatype Fate = Replied(line: string) | TimedOut

  /**
   * `waiting` are calls behind the one that is `active`; `written` are the commands on the wire, in order, `wire`
   * their text; `sent` is what the server wrote and `arrived` how much of it the client has received.
   */
  datatype Link = Link(
    client: Client, waiting: seq<nat>, active: Option<nat>, written: seq<nat>, wire: string,
    sent: string, answered: nat, arrived: nat, fates: map<nat, Fate>)

  datatype Step = Send(id: nat) | StartNext | Answer | Deliver(size: nat) | TimeOut

  const START := Link(Client("", [], []), [], None, [], "", "", 0, 0, map[])

  /** The fates after new replies: a caller that timed out has its fate already. */
  function Settle(fates: map<nat, Fate>, replies: seq<(nat, string)>): map<nat, Fate> {
    if replies == [] then fates
    else
      var before := Settle(fates, replies[..|replies| - 1]);
      var (id, line) := replies[|replies| - 1];
      if id in before then before else before[id := Replied(line)]
  }

  function Delivered(s: Link, size: nat): Link
    requires s.arrived + size <= |s.sent|
  {
    var client := Receive(s.client, s.sent[s.arrived..s.arrived + size]);
    var fates := Settle(s.fates, client.resolved);
    s.(client := client, arrived := s.arrived + size, fates := fates,
       active := if s.active.Some? && s.active.value in fates then None else s.active)
  }

  function Apply(encode: nat -> string, answer: Processor, s: Link, step: Step): Link {
    match step
    case Send(id) =>
      if id in s.waiting || id in s.written then s else s.(waiting := s.waiting + [id])
    case StartNext =>
      if s.active.Some? || s.waiting == [] then s
      else
        var id := s.waiting[0];
        s.(active := Some(id), waiting := s.waiting[1..], written := s.written + [id],
           wire := s.wire + (encode(id) + "\n"), client := s.client.(pending := s.client.pending + [id]))
    case Answer =>
      var replies := Replies(answer, TextLines(s.wire), 0);
      if s.answered < |replies|
      then s.(sent := s.sent + (replies[s.answered] + "\n"), answered := s.answered + 1) else s
    case Deliver(size) =>
      if s.arrived + size <= |s.sent| then Delivered(s, size) else s
    case TimeOut =>
      if s.active.Some? then s.(active := None, fates := s.fates[s.active.value := TimedOut]) else s
  }

  function Exec(encode: nat -> string, answer: Processor, s: Link, steps: seq<Step>): Link
    decreases |steps|
  {
    if steps == [] then s else Exec(encode, answer, Apply(encode, answer, s, steps[0]), steps[1..])
  }

  /** The client has matched the received lines, in order, with the first written commands; the rest is pending. */
  ghost predicate Holds(c: Client, written: seq<nat>, got: Cut) {
    && c.buffer == got.tail
    && |got.lines| <= |written|
    && c.pending == written[|got.lines|..]
    && c.resolved == Zip(written[..|got.lines|], got.lines)
  }

  /** The server has sent the first of the due replies; the client holds the part of them that has arrived. */
  ghost predicate Aligned(encode: nat -> string, answer: Processor, s: Link) {
    && s.wire == Unlines(Encoded(encode, s.written))
    && Matched(Due(encode, answer, s.written), s)
  }

  ghost predicate Matched(due: seq<string>, s: Link) {
    && s.answered <= |due| && s.sent == Unlines(due[..s.answered])
    && s.arrived <= |s.sent|
    && var got := CutLines(s.sent[..s.arrived]);
    && Holds(s.client, s.written, got)
    && got.lines <= due
  }

  lemma StartStaysAligned(encode: nat -> string, answer: Processor, s: Link)
    requires Framed(encode, answer) && Aligned(encode, answer, s)
    ensures Aligned(encode, answer, Apply(encode, answer, s, StartNext))
  {
    if s.active.None? && s.waiting != [] {
      var id := s.waiting[0];
      var ids := s.written + [id];
      var got := CutLines(s.sent[..s.arrived]);
      assert Encoded(encode, ids) == Encoded(encode, s.written) + [encode(id)];
      UnlinesAppend(Encoded(encode, s.written), [encode(id)]);
      assert Unlines([encode(id)]) == encode(id) + "\n" + Unlines([encode(id)][1..]);
      assert Due(encode, answer, ids)[..|s.written|] == Due(encode, answer, s.written);
      assert Due(encode, answer, ids)[..s.answered] == Due(encode, answer, s.written)[..s.answered];
      assert Due(encode, answer, ids)[..|got.lines|] == Due(encode, answer, s.written)[..|got.lines|];
      assert ids[..|got.lines|] == s.written[..|got.lines|];
      assert ids[|got.lines|..] == s.written[|got.lines|..] + [id];
    }
  }

  lemma AnswerStaysMatched(due: seq<string>, s: Link)
    requires Matched(due, s) && s.answered < |due|
    ensures Matched(due, s.(sent := s.sent + (due[s.answered] + "\n"), answered := s.answered + 1))
  {
    AppendOneLine(due, s.answered);
    PrefixStays(s.sent, due[s.answered] + "\n", s.arrived);
  }

  lemma PrefixStays(a: string, b: string, n: nat)
    requires n <= |a|
    ensures (a + b)[..n] == a[..n]
  {}

  lemma AnswerStaysAligned(encode: nat -> string, answer: Processor, s: Link)
    requires Framed(encode, answer) && Aligned(encode, answer, s)
    ensures Aligned(encode, answer, Apply(encode, answer, s, Answer))
  {
    var due := Due(encode, answer, s.written);
    RepliesAreDue(encode, answer, s.written);
    if s.answered < |due| {
      AnswerStaysMatched(due, s);
    }
  }

  lemma AppendOneLine(lines: seq<string>, k: nat)
    requires k < |lines|
    ensures Unlines(lines[..k + 1]) == Unlines(lines[..k]) + (lines[k] + "\n")
  {
    assert lines[..k + 1] == lines[..k] + [lines[k]];
    UnlinesAppend(lines[..k], [lines[k]]);
    assert Unlines([lines[k]]) == lines[k] + "\n" + Unlines([lines[k]][1..]);
  }

  /** The complete lines of any beginning of a text are the text's first lines. */
  lemma PrefixHasFirstLines(lines: seq<string>, k: nat, text: string, rest: string)
    requires forall i :: 0 <= i < |lines| ==> Lacks(lines[i], '\n')
    requires k <= |lines| && text + rest == Unlines(lines[..k])
    ensures CutLines(text).lines <= lines
  {
    assert text + rest + "" == text + rest;
    CutFindsLines(lines[..k], "");
    CutInTwo(text, rest);
    assert CutLines(text + rest).lines <= lines;
  }

  lemma DeliveryStaysMatched(due: seq<string>, s: Link, size: nat)
    requires |due| == |s.written| && forall i :: 0 <= i < |due| ==> Lacks(due[i], '\n')
    requires Matched(due, s) && s.arrived + size <= |s.sent|
    ensures Matched(due, Delivered(s, size))
  {
    var n := s.arrived + size;
    SplitInThree(s.sent, s.arrived, n);
    PrefixHasFirstLines(due, s.answered, s.sent[..n], s.sent[n..]);
    ReceiveHolds(s.client, s.written, s.sent[..s.arrived], s.sent[s.arrived..n], s.sent[..n]);
  }

  lemma SplitInThree(text: string, i: nat, j: nat)
    requires i <= j <= |text|
    ensures text[..j] == text[..i] + text[i..j] && text[..j] + text[j..] == text
  {}

  lemma DeliverStaysAligned(encode: nat -> string, answer: Processor, s: Link, size: nat)
    requires Framed(encode, answer) && Aligned(encode, answer, s)
    ensures Aligned(encode, answer, Apply(encode, answer, s, Deliver(size)))
  {
    if s.arrived + size <= |s.sent| {
      DeliveryStaysMatched(Due(encode, answer, s.written), s, size);
    }
  }

  lemma ReceiveHolds(c: Client, written: seq<nat>, before: string, chunk: string, now: string)
    requires Holds(c, written, CutLines(before)) && now == before + chunk
    requires |CutLines(now).lines| <= |written|
    ensures Holds(Receive(c, chunk), written, CutLines(now))
  {
    CutInTwo(before, chunk);
    AbsorbNewer(c, written, CutLines(before).lines, CutLines(c.buffer + chunk).lines);
  }

  lemma AbsorbNewer(c: Client, written: seq<nat>, earlier: seq<string>, newer: seq<string>)
    requires |earlier| + |newer| <= |written|
    requires c.pending == written[|earlier|..] && c.resolved == Zip(written[..|earlier|], earlier)
    ensures var m := |earlier + newer|;
            && Absorb(c, newer).pending == written[m..]
            && Absorb(c, newer).resolved == Zip(written[..m], earlier + newer)
            && c.resolved <= Absorb(c, newer).resolved
  {
    var n := Min(|newer|, |c.pending|);
    assert n == |newer| && newer[..n] == newer;
    assert written[|earlier|..][..n] == written[|earlier|..|earlier| + n];
  }

  lemma StepStaysAligned(encode: nat -> string, answer: Processor, s: Link, step: Step)
    requires Framed(encode, answer) && Aligned(encode, answer, s)
    ensures Aligned(encode, answer, Apply(encode, answer, s, step))
  {
    match step
    case Send(_) =>
    case StartNext => StartStaysAligned(encode, answer, s);
    case Answer => AnswerStaysAligned(encode, answer, s);
    case Deliver(size) => DeliverStaysAligned(encode, answer, s, size);
    case TimeOut =>
  }

  // What the callers are told.

  ghost predicate Distinct(ids: seq<nat>) {
    forall i, j :: 0 <= i < j < |ids| ==> ids[i] != ids[j]
  }

  /**
   * Every written command has its fate, except the last one while its caller waits; a reply fate is a resolved reply,
   * and a resolved command has a fate.
   */
  ghost predicate Settled(s: Link) {
    && Distinct(s.written + s.waiting)
    && (s.active.Some? ==> s.written != [] && s.active.value == s.written[|s.written| - 1])
    && (forall id :: id in s.fates <==> id in s.written && s.active != Some(id))
    && (forall i :: 0 <= i < |s.client.resolved| ==> s.client.resolved[i].0 in s.fates)
    && (forall id :: id in s.fates && s.fates[id].Replied? ==> (id, s.fates[id].line) in s.client.resolved)
  }

  /** New replies give a fate to those that had none, and change no other. */
  lemma {:induction false} SettleAdds(fates: map<nat, Fate>, replies: seq<(nat, string)>)
    ensures var after := Settle(fates, replies);
            && (forall id :: id in fates ==> id in after && after[id] == fates[id])
            && (forall id :: id in after && id !in fates ==> after[id].Replied? && (id, after[id].line) in replies)
            && (forall i :: 0 <= i < |replies| ==> replies[i].0 in after)
  {
    if replies != [] {
      var before, last := replies[..|replies| - 1], replies[|replies| - 1];
      SettleAdds(fates, before);
      assert last in replies && forall r :: r in before ==> r in replies;
      forall i | 0 <= i < |replies| ensures replies[i].0 in Settle(fates, replies) {
        if i < |before| { assert replies[i] == before[i]; }
      }
    }
  }

  lemma DeliverStaysSettled(s: Link, size: nat)
    requires Settled(s) && s.arrived + size <= |s.sent|
    requires OnlyWritten(Delivered(s, size))
    ensures Settled(Delivered(s, size))
  {
    var t := Delivered(s, size);
    SettleAdds(s.fates, t.client.resolved);
    ResolvedGrows(s, size);
  }

  lemma ResolvedGrows(s: Link, size: nat)
    requires s.arrived + size <= |s.sent|
    ensures forall reply :: reply in s.client.resolved ==> reply in Delivered(s, size).client.resolved
  {}

  ghost predicate OnlyWritten(s: Link) {
    forall reply :: reply in s.client.resolved ==> reply.0 in s.written
  }

  lemma AlignedIsOnlyWritten(encode: nat -> string, answer: Processor, s: Link)
    requires Aligned(encode, answer, s)
    ensures OnlyWritten(s)
  {
    forall reply | reply in s.client.resolved ensures reply.0 in s.written {
      ResolvedWasWritten(encode, answer, s, reply);
    }
  }

  lemma ResolvedWasWritten(encode: nat -> string, answer: Processor, s: Link, reply: (nat, string))
    requires Aligned(encode, answer, s) && reply in s.client.resolved
    ensures exists i ::
              0 <= i < |s.written| && s.written[i] == reply.0 && reply.1 == answer(i, Trim(encode(s.written[i])))
  {
    var i :| 0 <= i < |s.client.resolved| && s.client.resolved[i] == reply;
    assert s.client.resolved[i].0 == s.written[i];
    assert reply.1 == Due(encode, answer, s.written)[i];
  }

  lemma StartStaysSettled(encode: nat -> string, answer: Processor, s: Link)
    requires Settled(s)
    ensures Settled(Apply(encode, answer, s, StartNext))
  {
    if s.active.None? && s.waiting != [] {
      var id := s.waiting[0];
      var ids := s.written + s.waiting;
      assert ids == (s.written + [id]) + s.waiting[1..];
      assert ids[|s.written|] == id;
      assert forall i :: 0 <= i < |s.written| ==> ids[i] == s.written[i];
      assert id !in s.written;
      assert forall other :: other in s.written + [id] <==> other in s.written || other == id;
    }
  }

  lemma SendStaysSettled(encode: nat -> string, answer: Processor, s: Link, id: nat)
    requires Settled(s)
    ensures Settled(Apply(encode, answer, s, Send(id)))
  {
    if id !in s.waiting && id !in s.written {
      assert s.written + (s.waiting + [id]) == (s.written + s.waiting) + [id];
    }
  }

  lemma TimeOutStaysSettled(encode: nat -> string, answer: Processor, s: Link)
    requires Settled(s)
    ensures Settled(Apply(encode, answer, s, TimeOut))
  {}

  lemma AnswerStaysSettled(encode: nat -> string, answer: Processor, s: Link)
    requires Settled(s)
    ensures Settled(Apply(encode, answer, s, Answer))
  {}

  lemma DeliverStepStaysSettled(encode: nat -> string, answer: Processor, s: Link, size: nat)
    requires Framed(encode, answer) && Aligned(encode, answer, s) && Settled(s)
    ensures Settled(Apply(encode, answer, s, Deliver(size)))
  {
    if s.arrived + size <= |s.sent| {
      DeliverStaysAligned(encode, answer, s, size);
      AlignedIsOnlyWritten(encode, answer, Delivered(s, size));
      DeliverStaysSettled(s, size);
    }
  }

  lemma StepStaysSettled(encode: nat -> string, answer: Processor, s: Link, step: Step)
    requires Framed(encode, answer) && Aligned(encode, answer, s) && Settled(s)
    ensures Settled(Apply(encode, answer, s, step))
  {
    match step
    case Send(id) => SendStaysSettled(encode, answer, s, id);
    case StartNext => StartStaysSettled(encode, answer, s);
    case Answer => AnswerStaysSettled(encode, answer, s);
    case Deliver(size) => DeliverStepStaysSettled(encode, answer, s, size);
    case TimeOut => TimeOutStaysSettled(encode, answer, s);
  }

  lemma {:induction false} RunKeeps(encode: nat -> string, answer: Processor, s: Link, steps: seq<Step>)
    requires Framed(encode, answer) && Aligned(encode, answer, s) && Settled(s)
    ensures Aligned(encode, answer, Exec(encode, answer, s, steps)) && Settled(Exec(encode, answer, s, steps))
    decreases |steps|
  {
    if steps != [] {
      StepStaysAligned(encode, answer, s, steps[0]);
      StepStaysSettled(encode, answer, s, steps[0]);
      RunKeeps(encode, answer, Apply(encode, answer, s, steps[0]), steps[1..]);
    }
  }

  lemma StartIsSound(encode: nat -> string, answer: Processor)
    ensures Aligned(encode, answer, START) && Settled(START)
  {}

  /**
   * In every run: the commands still pending are the written ones beyond the reply lines that have arrived, and the
   * k-th arrived line is the k-th written command's own answer and was handed to that command.
   */
  lemma RepliesStayAligned(encode: nat -> string, answer: Processor, steps: seq<Step>)
    requires Framed(encode, answer)
    ensures var s := Exec(encode, answer, START, steps);
            && s.arrived <= |s.sent|
            && var got := CutLines(s.sent[..s.arrived]);
            && |got.lines| + |s.client.pending| == |s.written| && s.client.pending == s.written[|got.lines|..]
            && |s.client.resolved| == |got.lines| && s.client.buffer == got.tail
            && forall k :: 0 <= k < |got.lines| ==>
                 && s.client.resolved[k] == (s.written[k], got.lines[k])
                 && got.lines[k] == answer(k, Trim(encode(s.written[k])))
  {
    StartIsSound(encode, answer);
    RunKeeps(encode, answer, START, steps);
  }

  /** A caller that gets a reply gets the answer to its own command, whatever timed out before it. */
  lemma EachGetsItsOwnAnswer(encode: nat -> string, answer: Processor, steps: seq<Step>, k: nat)
    requires Framed(encode, answer)
    requires k < |Exec(encode, answer, START, steps).written|
    ensures var s := Exec(encode, answer, START, steps);
            var text := encode(s.written[k]);
            s.written[k] in s.fates && s.fates[s.written[k]].Replied? ==>
              && s.fates[s.written[k]].line == answer(k, Trim(text))
              && (Snug(text) ==> s.fates[s.written[k]].line == answer(k, text))
  {
    if Snug(encode(Exec(encode, answer, START, steps).written[k])) {
      SnugIsTrimmed(encode(Exec(encode, answer, START, steps).written[k]));
    }
    StartIsSound(encode, answer);
    RunKeeps(encode, answer, START, steps);
    var s := Exec(encode, answer, START, steps);
    var id := s.written[k];
    WrittenAreDistinct(s);
    if id in s.fates && s.fates[id].Replied? {
      ResolvedWasWritten(encode, answer, s, (id, s.fates[id].line));
    }
  }

  lemma WrittenAreDistinct(s: Link)
    requires Settled(s)
    ensures forall i, j :: 0 <= i < j < |s.written| ==> s.written[i] != s.written[j]
  {
    assert forall i :: 0 <= i < |s.written| ==> (s.written + s.waiting)[i] == s.written[i];
  }

  /** Only the last written command can have a caller that still waits; an earlier one that is pending has timed out. */
  lemma OnlyLastStillWaits(encode: nat -> string, answer: Processor, steps: seq<Step>, k: nat)
    requires Framed(encode, answer)
    requires k < |Exec(encode, answer, START, steps).written|
    ensures var s := Exec(encode, answer, START, steps);
            var id := s.written[k];
            && (s.active == Some(id) ==> k == |s.written| - 1)
            && (id !in s.fates <==> s.active == Some(id))
            && (id in s.client.pending ==> s.active == Some(id) || s.fates[id] == TimedOut)
  {
    StartIsSound(encode, answer);
    RunKeeps(encode, answer, START, steps);
    var s := Exec(encode, answer, START, steps);
    var id := s.written[k];
    assert id in s.written;
    WrittenAreDistinct(s);
    ResolvedIsNotPending(encode, answer, s);
  }

  /** No command is both answered and pending. */
  lemma ResolvedIsNotPending(encode: nat -> string, answer: Processor, s: Link)
    requires Aligned(encode, answer, s) && Settled(s)
    ensures forall i :: 0 <= i < |s.client.resolved| ==> s.client.resolved[i].0 !in s.client.pending
  {
    WrittenAreDistinct(s);
    var n := |CutLines(s.sent[..s.arrived]).lines|;
    forall i, j | 0 <= i < |s.client.resolved| && 0 <= j < |s.client.pending|
      ensures s.client.resolved[i].0 != s.client.pending[j]
    {
      assert s.written[i] == s.client.resolved[i].0 && s.written[n + j] == s.client.pending[j];
    }
  }

  lemma StepKeepsFates(encode: nat -> string, answer: Processor, s: Link, step: Step, id: nat)
    requires Settled(s) && id in s.fates
    ensures var t := Apply(encode, answer, s, step); id in t.fates && t.fates[id] == s.fates[id]
  {
    match step
    case Deliver(size) => SettleAdds(s.fates, Apply(encode, answer, s, step).client.resolved);
    case _ =>
  }

  /** What a caller was told never changes: a reply after its time-out is absorbed and told to nobody. */
  lemma {:induction false} FateIsFinal(encode: nat -> string, answer: Processor, s: Link, steps: seq<Step>, id: nat)
    requires Framed(encode, answer) && Aligned(encode, answer, s) && Settled(s)
    requires id in s.fates
    ensures var t := Exec(encode, answer, s, steps); id in t.fates && t.fates[id] == s.fates[id]
    decreases |steps|
  {
    if steps != [] {
      var next := Apply(encode, answer, s, steps[0]);
      StepStaysAligned(encode, answer, s, steps[0]);
      StepStaysSettled(encode, answer, s, steps[0]);
      StepKeepsFates(encode, answer, s, steps[0], id);
      FateIsFinal(encode, answer, next, steps[1..], id);
    }
  }

  /** The calls of a run, in the order they were made; a call is known by its identity. */
  function Calls(steps: seq<Step>): seq<nat> {
    if steps == [] then []
    else
      var before := Calls(steps[..|steps| - 1]);
      match steps[|steps| - 1]
      case Send(id) => if id in before then before else before + [id]
      case _ => before
  }

  lemma {:induction false} ExecLast(encode: nat -> string, answer: Processor, s: Link, steps: seq<Step>)
    requires steps != []
    ensures Exec(encode, answer, s, steps) ==
            Apply(encode, answer, Exec(encode, answer, s, steps[..|steps| - 1]), steps[|steps| - 1])
    decreases |steps|
  {
    if |steps| == 1 {
      assert steps[..0] == [] && steps[1..] == [];
    } else {
      assert steps[1..][..|steps| - 2] == steps[..|steps| - 1][1..];
      ExecLast(encode, answer, Apply(encode, answer, s, steps[0]), steps[1..]);
    }
  }

  /** Commands reach the wire one at a time and in call order. */
  lemma {:induction false} WireOrderIsCallOrder(encode: nat -> string, answer: Processor, steps: seq<Step>)
    ensures var s := Exec(encode, answer, START, steps); s.written + s.waiting == Calls(steps)
    decreases |steps|
  {
    if steps != [] {
      ExecLast(encode, answer, START, steps);
      var before := steps[..|steps| - 1];
      WireOrderIsCallOrder(encode, answer, before);
      var s := Exec(encode, answer, START, before);
      match steps[|steps| - 1]
      case Send(id) => assert s.written + (s.waiting + [id]) == (s.written + s.waiting) + [id];
      case StartNext =>
        if s.active.None? && s.waiting != [] {
          assert s.written + s.waiting == (s.written + [s.waiting[0]]) + s.waiting[1..];
        }
      case _ =>
    }
  }

  // Commands do get through.

  /** Nothing is under way: what was written has been answered, and what was answered has arrived. */
  ghost predicate Idle(encode: nat -> string, answer: Processor, s: Link) {
    && Aligned(encode, answer, s) && Settled(s)
    && s.waiting == [] && s.active == None
    && s.answered == |s.written| && s.arrived == |s.sent|
  }

  /** One command, from its call to its reply. */
  function OneCommand(encode: nat -> string, answer: Processor, s: Link, id: nat): seq<Step> {
    var reply := answer(|s.written|, Trim(encode(id))) + "\n";
    [Send(id)] + ([StartNext] + ([Answer] + [Deliver(|reply|)]))
  }

  lemma ExecOne(encode: nat -> string, answer: Processor, s: Link, step: Step, rest: seq<Step>)
    ensures Exec(encode, answer, s, [step] + rest) == Exec(encode, answer, Apply(encode, answer, s, step), rest)
  {
    assert ([step] + rest)[1..] == rest;
  }

  lemma ExecFour(encode: nat -> string, answer: Processor, s: Link, a: Step, b: Step, c: Step, d: Step)
    ensures Exec(encode, answer, s, [a] + ([b] + ([c] + [d]))) ==
            Apply(encode, answer, Apply(encode, answer, Apply(encode, answer, Apply(encode, answer, s, a), b), c), d)
  {
    var s1 := Apply(encode, answer, s, a);
    var s2 := Apply(encode, answer, s1, b);
    var s3 := Apply(encode, answer, s2, c);
    ExecOne(encode, answer, s, a, [b] + ([c] + [d]));
    ExecOne(encode, answer, s1, b, [c] + [d]);
    ExecOne(encode, answer, s2, c, [d]);
    assert [d] + [] == [d];
    ExecOne(encode, answer, s3, d, []);
  }

  lemma StepKeeps(encode: nat -> string, answer: Processor, s: Link, step: Step)
    requires Framed(encode, answer) && Aligned(encode, answer, s) && Settled(s)
    ensures Aligned(encode, answer, Apply(encode, answer, s, step)) && Settled(Apply(encode, answer, s, step))
  {
    StepStaysAligned(encode, answer, s, step);
    StepStaysSettled(encode, answer, s, step);
  }

  /** The next answer is the one that the last written command is due. */
  lemma NextAnswer(encode: nat -> string, answer: Processor, s: Link)
    requires Framed(encode, answer) && Aligned(encode, answer, s) && s.answered < |s.written|
    ensures Apply(encode, answer, s, Answer) ==
            s.(sent := s.sent + (answer(s.answered, Trim(encode(s.written[s.answered]))) + "\n"),
               answered := s.answered + 1)
  {
    RepliesAreDue(encode, answer, s.written);
  }

  /** When all replies have arrived whole, every written command has been handed its own. */
  lemma AllArrived(encode: nat -> string, answer: Processor, s: Link)
    requires Framed(encode, answer) && Aligned(encode, answer, s)
    requires s.answered == |s.written| && s.arrived == |s.sent|
    ensures s.client.pending == [] && s.client.resolved == Zip(s.written, Due(encode, answer, s.written))
  {
    var due := Due(encode, answer, s.written);
    assert due[..|s.written|] == due && s.sent[..s.arrived] == s.sent && s.sent + "" == s.sent;
    CutFindsLines(due, "");
    assert s.written[..|due|] == s.written;
  }

  /** From an idle link, a new command comes to be the one that is written and waited for. */
  lemma CommandIsWritten(encode: nat -> string, answer: Processor, s: Link, id: nat)
    requires s.waiting == [] && s.active == None && id !in s.written
    ensures var s2 := Apply(encode, answer, Apply(encode, answer, s, Send(id)), StartNext);
            && s2.written == s.written + [id] && s2.active == Some(id) && s2.waiting == []
            && s2.fates == s.fates && s2.sent == s.sent && s2.arrived == s.arrived && s2.answered == s.answered
  {
    var s1 := Apply(encode, answer, s, Send(id));
    assert s1.waiting == [id];
  }

  lemma AnswerArrives(encode: nat -> string, answer: Processor, s: Link, id: nat, reply: string)
    requires Framed(encode, answer) && Aligned(encode, answer, s) && s.written != []
    requires s.written[|s.written| - 1] == id && s.answered == |s.written| - 1 && s.arrived == |s.sent|
    requires reply == answer(|s.written| - 1, Trim(encode(id))) + "\n"
    ensures var s2 := Apply(encode, answer, Apply(encode, answer, s, Answer), Deliver(|reply|));
            && s2.written == s.written && s2.waiting == s.waiting
            && s2.answered == |s2.written| && s2.arrived == |s2.sent|
  {
    NextAnswer(encode, answer, s);
  }

  /** From an idle link, a new command is written, answered with its own answer, and leaves the link idle. */
  lemma CommandGetsThrough(encode: nat -> string, answer: Processor, s: Link, id: nat)
    requires Framed(encode, answer) && Idle(encode, answer, s) && id !in s.written
    ensures var s' := Exec(encode, answer, s, OneCommand(encode, answer, s, id));
            && Idle(encode, answer, s') && s'.written == s.written + [id]
            && id in s'.fates && s'.fates[id] == Replied(answer(|s.written|, Trim(encode(id))))
            && (forall other :: other in s.fates ==> other in s'.fates && s'.fates[other] == s.fates[other])
  {
    var reply := answer(|s.written|, Trim(encode(id))) + "\n";
    var s1 := Apply(encode, answer, s, Send(id));
    var s2 := Apply(encode, answer, s1, StartNext);
    var s3 := Apply(encode, answer, s2, Answer);
    ExecFour(encode, answer, s, Send(id), StartNext, Answer, Deliver(|reply|));
    StepKeeps(encode, answer, s, Send(id));
    StepKeeps(encode, answer, s1, StartNext);
    StepKeeps(encode, answer, s2, Answer);
    StepKeeps(encode, answer, s3, Deliver(|reply|));
    CommandIsWritten(encode, answer, s, id);
    AnswerArrives(encode, answer, s2, id, reply);
    LastIsTold(encode, answer, Apply(encode, answer, s3, Deliver(|reply|)), id);
    KeepsFates(encode, answer, s, s1, s2, s3, Apply(encode, answer, s3, Deliver(|reply|)), id, |reply|);
  }

  lemma LastIsTold(encode: nat -> string, answer: Processor, s: Link, id: nat)
    requires Framed(encode, answer) && Aligned(encode, answer, s) && Settled(s)
    requires s.answered == |s.written| && s.arrived == |s.sent| && s.written != [] && s.written[|s.written| - 1] == id
    ensures id in s.fates && s.active == None
    ensures s.fates[id].Replied? ==> s.fates[id].line == answer(|s.written| - 1, Trim(encode(id)))
  {
    AllArrived(encode, answer, s);
    var n := |s.written| - 1;
    assert s.client.resolved[n].0 == id;
    WrittenAreDistinct(s);
    if s.fates[id].Replied? { ResolvedWasWritten(encode, answer, s, (id, s.fates[id].line)); }
  }

  lemma KeepsFates(
      encode: nat -> string, answer: Processor, s: Link, s1: Link, s2: Link, s3: Link, s4: Link, id: nat, size: nat)
    requires Settled(s) && id !in s.written && s.waiting == [] && s.active == None
    requires s1 == Apply(encode, answer, s, Send(id)) && s2 == Apply(encode, answer, s1, StartNext)
    requires s3 == Apply(encode, answer, s2, Answer) && s4 == Apply(encode, answer, s3, Deliver(size))
    ensures forall other :: other in s.fates ==> other in s4.fates && s4.fates[other] == s.fates[other]
    ensures id in s4.fates ==> s4.fates[id].Replied?
  {
    assert s3.fates == s.fates && id !in s.fates;
    SettleAdds(s3.fates, s4.client.resolved);
  }

  function AllCommands(encode: nat -> string, answer: Processor, s: Link, ids: seq<nat>): seq<Step>
    decreases |ids|
  {
    if ids == [] then []
    else
      var first := OneCommand(encode, answer, s, ids[0]);
      first + AllCommands(encode, answer, Exec(encode, answer, s, first), ids[1..])
  }

  lemma {:induction false} ExecAppend(encode: nat -> string, answer: Processor, s: Link, a: seq<Step>, b: seq<Step>)
    ensures Exec(encode, answer, s, a + b) == Exec(encode, answer, Exec(encode, answer, s, a), b)
    decreases |a|
  {
    if a == [] {
      assert a + b == b;
    } else {
      assert (a + b)[1..] == a[1..] + b;
      ExecAppend(encode, answer, Apply(encode, answer, s, a[0]), a[1..], b);
    }
  }

  ghost predicate Told(encode: nat -> string, answer: Processor, fates: map<nat, Fate>, first: nat, ids: seq<nat>) {
    forall k :: 0 <= k < |ids| ==>
      ids[k] in fates && fates[ids[k]] == Replied(answer(first + k, Trim(encode(ids[k]))))
  }

  lemma ToldFirst(
      encode: nat -> string, answer: Processor, before: map<nat, Fate>, fates: map<nat, Fate>, first: nat,
      ids: seq<nat>)
    requires ids != [] && Told(encode, answer, fates, first + 1, ids[1..])
    requires ids[0] in before && before[ids[0]] == Replied(answer(first, Trim(encode(ids[0]))))
    requires forall id :: id in before ==> id in fates && fates[id] == before[id]
    ensures Told(encode, answer, fates, first, ids)
  {
    forall k | 0 <= k < |ids|
      ensures ids[k] in fates && fates[ids[k]] == Replied(answer(first + k, Trim(encode(ids[k]))))
    {
      if k > 0 { assert ids[1..][k - 1] == ids[k]; }
    }
  }

  lemma FirstIsNew(written: seq<nat>, ids: seq<nat>)
    requires ids != [] && Distinct(written + ids)
    ensures ids[0] !in written && (written + [ids[0]]) + ids[1..] == written + ids
  {
    assert (written + ids)[|written|] == ids[0];
    assert forall i :: 0 <= i < |written| ==> (written + ids)[i] == written[i];
  }

  /** Between `s` and `s'` the commands `ids` were written, in order, and each was told its own answer. */
  ghost predicate Through(encode: nat -> string, answer: Processor, s: Link, s': Link, ids: seq<nat>) {
    && s'.written == s.written + ids && s'.client.pending == []
    && (forall id :: id in s.fates ==> id in s'.fates && s'.fates[id] == s.fates[id])
    && Told(encode, answer, s'.fates, |s.written|, ids)
  }

  lemma ThroughFirst(encode: nat -> string, answer: Processor, s: Link, s1: Link, s': Link, ids: seq<nat>)
    requires ids != [] && Through(encode, answer, s1, s', ids[1..]) && s1.written == s.written + [ids[0]]
    requires ids[0] in s1.fates && s1.fates[ids[0]] == Replied(answer(|s.written|, Trim(encode(ids[0]))))
    requires forall id :: id in s.fates ==> id in s1.fates && s1.fates[id] == s.fates[id]
    ensures Through(encode, answer, s, s', ids)
  {
    ToldFirst(encode, answer, s1.fates, s'.fates, |s.written|, ids);
    assert (s.written + [ids[0]]) + ids[1..] == s.written + ids;
  }

  lemma AllCommandsFirst(encode: nat -> string, answer: Processor, s: Link, ids: seq<nat>)
    requires ids != []
    ensures var s1 := Exec(encode, answer, s, OneCommand(encode, answer, s, ids[0]));
            Exec(encode, answer, s, AllCommands(encode, answer, s, ids)) ==
            Exec(encode, answer, s1, AllCommands(encode, answer, s1, ids[1..]))
  {
    var first := OneCommand(encode, answer, s, ids[0]);
    ExecAppend(
      encode, answer, s, first, AllCommands(encode, answer, Exec(encode, answer, s, first), ids[1..]));
  }

  /** Whatever commands are called, there is a run in which each is written, in order, and told its own answer. */
  lemma {:induction false} EveryCommandCanGetThrough(encode: nat -> string, answer: Processor, s: Link, ids: seq<nat>)
    requires Framed(encode, answer) && Idle(encode, answer, s) && Distinct(s.written + ids)
    ensures Through(encode, answer, s, Exec(encode, answer, s, AllCommands(encode, answer, s, ids)), ids)
    decreases |ids|
  {
    if ids == [] {
      AllArrived(encode, answer, s);
      assert s.written + ids == s.written;
    } else {
      var s1 := Exec(encode, answer, s, OneCommand(encode, answer, s, ids[0]));
      FirstIsNew(s.written, ids);
      CommandGetsThrough(encode, answer, s, ids[0]);
      EveryCommandCanGetThrough(encode, answer, s1, ids[1..]);
      AllCommandsFirst(encode, answer, s, ids);
      ThroughFirst(
        encode, answer, s, s1, Exec(encode, answer, s1, AllCommands(encode, answer, s1, ids[1..])), ids);
    }
  }

  /**
   * What a time-out does not upset: the first command times out, the second is called, and only then both are answered.
   * The late reply is absorbed, and the second command is told its own answer.
   */
  lemma LateReplyIsAbsorbed(encode: nat -> string, answer: Processor, a: nat, b: nat)
    requires Framed(encode, answer) && a != b
    ensures var s := Exec(encode, answer, START, TimedOutRun(encode, answer, a, b));
            var one, two := answer(0, Trim(encode(a))), answer(1, Trim(encode(b)));
            && s.written == [a, b] && s.client.pending == [] && s.client.resolved == [(a, one), (b, two)]
            && s.fates == map[a := TimedOut, b := Replied(two)]
  {
    BothAreWritten(encode, answer, a, b);
    StartIsSound(encode, answer);
    RunKeeps(encode, answer, START, Calling(a, b));
    BothAreAnswered(encode, answer, Exec(encode, answer, START, Calling(a, b)), a, b);
    ExecAppend(encode, answer, START, Calling(a, b), Answering(encode, answer, a, b));
  }

  function Calling(a: nat, b: nat): seq<Step> {
    [Send(a), StartNext, TimeOut] + [Send(b), StartNext]
  }

  function Answering(encode: nat -> string, answer: Processor, a: nat, b: nat): seq<Step> {
    var text := answer(0, Trim(encode(a))) + "\n" + (answer(1, Trim(encode(b))) + "\n");
    [Answer, Answer, Deliver(|text|)]
  }

  function TimedOutRun(encode: nat -> string, answer: Processor, a: nat, b: nat): seq<Step> {
    Calling(a, b) + Answering(encode, answer, a, b)
  }

  lemma ExecTwo(encode: nat -> string, answer: Processor, s: Link, x: Step, y: Step)
    ensures Exec(encode, answer, s, [x, y]) == Apply(encode, answer, Apply(encode, answer, s, x), y)
  {
    assert [x, y] == [x] + ([y] + []);
    ExecOne(encode, answer, s, x, [y] + []);
    ExecOne(encode, answer, Apply(encode, answer, s, x), y, []);
  }

  lemma ExecThree(encode: nat -> string, answer: Processor, s: Link, x: Step, y: Step, z: Step)
    ensures Exec(encode, answer, s, [x, y, z]) ==
            Apply(encode, answer, Apply(encode, answer, Apply(encode, answer, s, x), y), z)
  {
    assert [x, y, z] == [x] + [y, z];
    ExecOne(encode, answer, s, x, [y, z]);
    ExecTwo(encode, answer, Apply(encode, answer, s, x), y, z);
  }

  lemma BothAreWritten(encode: nat -> string, answer: Processor, a: nat, b: nat)
    requires a != b
    ensures var s := Exec(encode, answer, START, Calling(a, b));
            && s.written == [a, b] && s.active == Some(b) && s.waiting == []
            && s.sent == "" && s.answered == 0 && s.arrived == 0 && s.fates == map[a := TimedOut]
  {
    var s2 := Apply(encode, answer, Apply(encode, answer, START, Send(a)), StartNext);
    CommandIsWritten(encode, answer, START, a);
    ExecThree(encode, answer, START, Send(a), StartNext, TimeOut);
    var s3 := Apply(encode, answer, s2, TimeOut);
    assert s3.written == [a] && s3.active == None;
    CommandIsWritten(encode, answer, s3, b);
    ExecTwo(encode, answer, s3, Send(b), StartNext);
    ExecAppend(encode, answer, START, [Send(a), StartNext, TimeOut], [Send(b), StartNext]);
  }

  /** The server answers both commands, and changes nothing else. */
  lemma ServerAnswersBoth(encode: nat -> string, answer: Processor, s: Link, a: nat, b: nat)
    requires Framed(encode, answer) && Aligned(encode, answer, s) && Settled(s)
    requires s.written == [a, b] && s.sent == "" && s.answered == 0
    ensures var s2 := Apply(encode, answer, Apply(encode, answer, s, Answer), Answer);
            && Aligned(encode, answer, s2) && Settled(s2)
            && s2 == s.(sent := answer(0, Trim(encode(a))) + "\n" + (answer(1, Trim(encode(b))) + "\n"), answered := 2)
  {
    var s1 := Apply(encode, answer, s, Answer);
    StepKeeps(encode, answer, s, Answer);
    StepKeeps(encode, answer, s1, Answer);
    NextAnswer(encode, answer, s);
    NextAnswer(encode, answer, s1);
    assert "" + (answer(0, Trim(encode(a))) + "\n") == answer(0, Trim(encode(a))) + "\n";
  }

  lemma DeliveredWhole(s: Link)
    requires s.arrived == 0
    ensures var t := Delivered(s, |s.sent|);
            && t.written == s.written && t.sent == s.sent && t.answered == s.answered && t.arrived == |s.sent|
            && t.fates == Settle(s.fates, t.client.resolved)
  {}

  lemma DueTwo(encode: nat -> string, answer: Processor, a: nat, b: nat)
    ensures Zip([a, b], Due(encode, answer, [a, b])) ==
            [(a, answer(0, Trim(encode(a)))), (b, answer(1, Trim(encode(b))))]
  {}

  /** All that the server sent arrives at once. */
  lemma BothArrive(encode: nat -> string, answer: Processor, s: Link, t: Link, a: nat, b: nat)
    requires s.arrived == 0 && t == Delivered(s, |s.sent|)
    requires Framed(encode, answer) && Aligned(encode, answer, t)
    requires s.written == [a, b] && s.answered == 2 && a in s.fates && b !in s.fates
    ensures var one, two := answer(0, Trim(encode(a))), answer(1, Trim(encode(b)));
            && t.written == [a, b] && t.client.pending == [] && t.client.resolved == [(a, one), (b, two)]
            && t.fates == s.fates[b := Replied(two)]
  {
    DeliveredWhole(s);
    AllArrived(encode, answer, t);
    DueTwo(encode, answer, a, b);
    SettleTwo(s.fates, (a, answer(0, Trim(encode(a)))), (b, answer(1, Trim(encode(b)))));
  }

  lemma DeliverIs(encode: nat -> string, answer: Processor, s: Link, size: nat)
    requires s.arrived + size <= |s.sent|
    ensures Apply(encode, answer, s, Deliver(size)) == Delivered(s, size)
  {}

  /** What the run is that answers both, from the state after both were called. */
  lemma AnsweringIs(encode: nat -> string, answer: Processor, s: Link, a: nat, b: nat)
    requires Framed(encode, answer) && Aligned(encode, answer, s) && Settled(s)
    requires s.written == [a, b] && s.sent == "" && s.answered == 0 && s.arrived == 0
    ensures var s2 := Apply(encode, answer, Apply(encode, answer, s, Answer), Answer);
            && s2.arrived == 0
            && Exec(encode, answer, s, Answering(encode, answer, a, b)) == Delivered(s2, |s2.sent|)
            && Aligned(encode, answer, Delivered(s2, |s2.sent|))
  {
    ServerAnswersBoth(encode, answer, s, a, b);
    var s2 := Apply(encode, answer, Apply(encode, answer, s, Answer), Answer);
    ExecThree(encode, answer, s, Answer, Answer, Deliver(|s2.sent|));
    DeliverIs(encode, answer, s2, |s2.sent|);
    DeliverStaysAligned(encode, answer, s2, |s2.sent|);
  }

  lemma BothAreAnswered(encode: nat -> string, answer: Processor, s: Link, a: nat, b: nat)
    requires Framed(encode, answer) && Aligned(encode, answer, s) && Settled(s)
    requires s.written == [a, b] && s.sent == "" && s.answered == 0 && s.arrived == 0
    requires a in s.fates && b !in s.fates
    ensures var t := Exec(encode, answer, s, Answering(encode, answer, a, b));
            var one, two := answer(0, Trim(encode(a))), answer(1, Trim(encode(b)));
            && t.written == [a, b] && t.client.pending == [] && t.client.resolved == [(a, one), (b, two)]
            && t.fates == s.fates[b := Replied(two)]
  {
    ServerAnswersBoth(encode, answer, s, a, b);
    AnsweringIs(encode, answer, s, a, b);
    var s2 := Apply(encode, answer, Apply(encode, answer, s, Answer), Answer);
    BothArrive(encode, answer, s2, Delivered(s2, |s2.sent|), a, b);
  }

  lemma SettleTwo(fates: map<nat, Fate>, x: (nat, string), y: (nat, string))
    requires x.0 in fates && y.0 !in fates
    ensures Settle(fates, [x, y]) == fates[y.0 := Replied(y.1)]
  {
    assert [x, y][..1] == [x] && [x][..0] == [];
    assert Settle(fates, [x]) == fates;
  }
}
