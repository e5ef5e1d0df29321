/** The NDJSON medium: one exchange a line, append only, read back line by line. */
module Jsonl {
  import opened Wrappers
  import opened Text
  import opened Recorded

  /** How one exchange becomes one line of text, and a line an exchange again. */
  datatype Codec = Codec(encode: Exchange -> string, decode: string -> Option<Exchange>)

  /** What JSON text gives: it can be read back, and it holds no line end, nor is it blank. */
  ghost predicate Faithful(codec: Codec) {
    forall e ::
      && codec.decode(codec.encode(e)) == Some(e)
      && Lacks(codec.encode(e), '\n') && Lacks(codec.encode(e), '\r') && !Blank(codec.encode(e))
  }

  /** What a load yields, and the 1-based number of the line it fails on, if it does. */
  datatype Loaded = Loaded(items: seq<Exchange>, badLine: Option<nat>)

  function LoadLines(codec: Codec, lines: seq<string>, lineno: nat): Loaded {
    if lines == [] then Loaded([], None)
    else if Blank(lines[0]) then LoadLines(codec, lines[1..], lineno + 1)
    else match codec.decode(lines[0])
      case None => Loaded([], Some(lineno + 1))
      case Some(e) =>
        var rest := LoadLines(codec, lines[1..], lineno + 1);
        rest.(items := [e] + rest.items)
  }

  function LoadText(codec: Codec, text: string): Loaded {
    LoadLines(codec, TextLines(text), 0)
  }

  class JsonlStorage {
    const codec: Codec
    var text: string

    /** Opening keeps what the file holds. */
    constructor Open(codec: Codec, text: string)
      ensures this.codec == codec && this.text == text
    {
      this.codec, this.text := codec, text;
    }

    method Append(e: Exchange)
      modifies this
      ensures text == old(text) + codec.encode(e) + "\n"
    {
      var line := codec.encode(e) + "\n";
      text := text + line;
    }

    method Load() returns (items: seq<Exchange>, badLine: Option<nat>)
      ensures Loaded(items, badLine) == LoadText(codec, text)
    {
      var lines := TextLines(text);
      items := [];
      var lineno := 0;
      while lineno < |lines|
        invariant 0 <= lineno <= |lines|
        invariant LoadText(codec, text) ==
                  var rest := LoadLines(codec, lines[lineno..], lineno); rest.(items := items + rest.items)
      {
        assert lines[lineno..][1..] == lines[lineno + 1..];
        if !Blank(lines[lineno]) {
          var parsed := codec.decode(lines[lineno]);
          if parsed.None? {
            return items, Some(lineno + 1);
          }
          items := items + [parsed.value];
        }
        lineno := lineno + 1;
      }
      return items, None;
    }
  }

  /** The text after appending `es` one after the other. */
  function Written(codec: Codec, text: string, es: seq<Exchange>): string {
    if es == [] then text
    else Written(codec, text, es[..|es| - 1]) + codec.encode(es[|es| - 1]) + "\n"
  }

  lemma {:induction false} LoadLinesAppend(codec: Codec, a: seq<string>, b: seq<string>, lineno: nat)
    ensures LoadLines(codec, a + b, lineno) ==
            var first := LoadLines(codec, a, lineno);
            if first.badLine.Some? then first
            else var rest := LoadLines(codec, b, lineno + |a|); rest.(items := first.items + rest.items)
    decreases |a|
  {
    if a == [] {
      assert a + b == b;
    } else {
      assert (a + b)[1..] == a[1..] + b;
      LoadLinesAppend(codec, a[1..], b, lineno + 1);
    }
  }

  /** A line appended to a text is cut together with what the text left unterminated. */
  lemma AppendCut(text: string, line: string)
    requires Lacks(line, '\n')
    ensures CutLines(text + line + "\n") == Cut(CutLines(text).lines + [CutLines(text).tail + line], "")
  {
    var tail := CutLines(text).tail;
    Reassociate(text, line, "\n");
    CutInTwo(text, line + "\n");
    OneLineCut(tail, line);
  }

  lemma OneLineCut(tail: string, line: string)
    requires Lacks(tail, '\n') && Lacks(line, '\n')
    ensures CutLines(tail + (line + "\n")) == Cut([tail + line], "")
  {
    assert Unlines([tail + line]) == tail + line + "\n" + Unlines([tail + line][1..]);
    assert Unlines([tail + line]) + "" == tail + (line + "\n");
    CutFindsLines([tail + line], "");
  }

  /** Appending to a text that ends in a newline adds one line of its own. */
  lemma AppendAddsLine(codec: Codec, text: string, e: Exchange)
    requires Faithful(codec) && CutLines(text).tail == ""
    ensures CutLines(text + codec.encode(e) + "\n").tail == ""
    ensures TextLines(text + codec.encode(e) + "\n") == TextLines(text) + [codec.encode(e)]
  {
    var line := codec.encode(e);
    assert Lacks(line, '\r') && Lacks(line, '\n');
    AppendCut(text, line);
    assert CutLines(text).tail + line == line;
    StripOne(CutLines(text).lines, line);
  }

  lemma OneLineLoads(codec: Codec, e: Exchange, lineno: nat)
    requires Faithful(codec)
    ensures LoadLines(codec, [codec.encode(e)], lineno) == Loaded([e], None)
  {
    assert codec.decode(codec.encode(e)) == Some(e);
    assert [codec.encode(e)][1..] == [];
  }

  lemma AppendLoads(codec: Codec, text: string, e: Exchange)
    requires Faithful(codec) && CutLines(text).tail == "" && LoadText(codec, text).badLine.None?
    ensures CutLines(text + codec.encode(e) + "\n").tail == ""
    ensures LoadText(codec, text + codec.encode(e) + "\n") == Loaded(LoadText(codec, text).items + [e], None)
  {
    AppendAddsLine(codec, text, e);
    LoadLinesAppend(codec, TextLines(text), [codec.encode(e)], 0);
    OneLineLoads(codec, e, |TextLines(text)|);
  }

  /**
   * The round trip: over a file that ends in a newline and loads, whatever was appended, over any number of
   * reopenings, a load yields what was there before and then exactly the appended exchanges, in order.
   */
  lemma {:induction false} LoadReturnsAppended(codec: Codec, text: string, es: seq<Exchange>)
    requires Faithful(codec) && CutLines(text).tail == "" && LoadText(codec, text).badLine.None?
    ensures CutLines(Written(codec, text, es)).tail == ""
    ensures LoadText(codec, Written(codec, text, es)) == Loaded(LoadText(codec, text).items + es, None)
  {
    if es != [] {
      var n := |es| - 1;
      LoadReturnsAppended(codec, text, es[..n]);
      AppendLoads(codec, Written(codec, text, es[..n]), es[n]);
      Snoc(LoadText(codec, text).items, es);
    }
  }

  lemma Snoc(items: seq<Exchange>, es: seq<Exchange>)
    requires es != []
    ensures items + es[..|es| - 1] + [es[|es| - 1]] == items + es
  {}

  /** An appended exchange has a line of its own exactly when no unterminated text was left before it. */
  lemma TornTextSwallowsAppend(codec: Codec, text: string, e: Exchange)
    requires Faithful(codec)
    ensures CutLines(text + codec.encode(e) + "\n").lines ==
            CutLines(text).lines + [CutLines(text).tail + codec.encode(e)]
    ensures CutLines(text).tail + codec.encode(e) == codec.encode(e) <==> CutLines(text).tail == ""
  {
    assert Lacks(codec.encode(e), '\n');
    AppendCut(text, codec.encode(e));
    if CutLines(text).tail != "" {
      assert |CutLines(text).tail + codec.encode(e)| > |codec.encode(e)|;
    }
  }

  /** A blank line changes nothing but the number of a later bad line. */
  lemma BlankLineOnlyCounts(codec: Codec, a: seq<string>, blank: string, b: seq<string>)
    requires Blank(blank)
    ensures var without := LoadLines(codec, a + b, 0);
            var with := LoadLines(codec, a + [blank] + b, 0);
            && with.items == without.items
            && with.badLine == if without.badLine.Some? && without.badLine.value > |a|
                               then Some(without.badLine.value + 1) else without.badLine
  {
    LoadLinesAppend(codec, a, b, 0);
    assert a + [blank] + b == a + ([blank] + b);
    LoadLinesAppend(codec, a, [blank] + b, 0);
    assert ([blank] + b)[1..] == b;
    BadLineIsLocated(codec, a, 0);
    LinesShift(codec, b, |a|);
  }

  lemma {:induction false} BadLineIsLocated(codec: Codec, lines: seq<string>, lineno: nat)
    ensures LoadLines(codec, lines, lineno).badLine.Some? ==>
              lineno < LoadLines(codec, lines, lineno).badLine.value <= lineno + |lines|
  {
    if lines != [] { BadLineIsLocated(codec, lines[1..], lineno + 1); }
  }

  lemma {:induction false} LinesShift(codec: Codec, lines: seq<string>, lineno: nat)
    ensures var here := LoadLines(codec, lines, lineno);
            var there := LoadLines(codec, lines, lineno + 1);
            && there.items == here.items
            && (here.badLine.None? <==> there.badLine.None?)
            && (here.badLine.Some? ==> here.badLine.value > lineno && there.badLine.value == here.badLine.value + 1)
    decreases |lines|
  {
    if lines != [] { LinesShift(codec, lines[1..], lineno + 1); }
  }

  predicate Good(codec: Codec, line: string) {
    Blank(line) || codec.decode(line).Some?
  }

  /** A load fails exactly on the first line that is neither blank nor readable, after all that precedes it. */
  lemma {:induction false} FirstBadLineStops(codec: Codec, lines: seq<string>, lineno: nat)
    ensures match LoadLines(codec, lines, lineno).badLine {
              case None => forall i :: 0 <= i < |lines| ==> Good(codec, lines[i])
              case Some(n) =>
                && lineno < n <= lineno + |lines|
                && !Good(codec, lines[n - 1 - lineno])
                && (forall i :: 0 <= i < n - 1 - lineno ==> Good(codec, lines[i]))
                && LoadLines(codec, lines, lineno).items == LoadLines(codec, lines[..n - 1 - lineno], lineno).items
            }
    decreases |lines|
  {
    if lines != [] {
      FirstBadLineStops(codec, lines[1..], lineno + 1);
      if Good(codec, lines[0]) {
        match LoadLines(codec, lines[1..], lineno + 1).badLine
        case None =>
        case Some(n) =>
          var k := n - 1 - lineno;
          assert lines[..k][1..] == lines[1..][..k - 1];
      }
    }
  }
}
