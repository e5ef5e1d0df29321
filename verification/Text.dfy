/** Text searching and newline framing, shared by the line protocols and by the NDJSON medium. */
module Text {
  import opened Wrappers

  predicate Lacks(s: string, c: char) {
    forall i :: 0 <= i < |s| ==> s[i] != c
  }

  /** The index of the first `c`, as `indexOf` and `find` report it. */
  function IndexOf(s: string, c: char): (r: Option<nat>)
    ensures r.Some? ==> r.value < |s| && s[r.value] == c && Lacks(s[..r.value], c)
    ensures r.None? <==> Lacks(s, c)
  {
    if s == [] then None
    else if s[0] == c then Some(0)
    else
      assert s == [s[0]] + s[1..];
      match IndexOf(s[1..], c)
      case None => None
      case Some(i) => Some(i + 1)
  }

  /** The index of the first occurrence of `pattern`. */
  function Find(s: string, pattern: string): (r: Option<nat>)
    ensures r.Some? ==> r.value + |pattern| <= |s| && s[r.value..r.value + |pattern|] == pattern
  {
    if pattern <= s then Some(0)
    else if s == [] then None
    else match Find(s[1..], pattern)
      case None => None
      case Some(i) => Some(i + 1)
  }

  lemma {:induction false} FirstCharacterAt(a: string, c: char, b: string)
    requires Lacks(a, c)
    ensures IndexOf(a + [c] + b, c) == Some(|a|)
  {
    if a != [] {
      assert (a + [c] + b)[1..] == a[1..] + [c] + b;
      FirstCharacterAt(a[1..], c, b);
    }
  }

  lemma {:induction false} FirstPatternAt(a: string, pattern: string, b: string)
    requires pattern != [] && Lacks(a, pattern[0])
    ensures Find(a + pattern + b, pattern) == Some(|a|)
  {
    if a == [] {
      assert a + pattern + b == pattern + b;
    } else {
      assert (a + pattern + b)[0] == a[0];
      assert (a + pattern + b)[1..] == a[1..] + pattern + b;
      FirstPatternAt(a[1..], pattern, b);
    }
  }

  /** Text cut at its newlines: the terminated lines, and the rest that no newline ends. */
  datatype Cut = Cut(lines: seq<string>, tail: string)

  function CutLines(s: string): (r: Cut)
    ensures Lacks(r.tail, '\n')
    ensures forall i :: 0 <= i < |r.lines| ==> Lacks(r.lines[i], '\n')
    decreases |s|
  {
    match IndexOf(s, '\n')
    case None => Cut([], s)
    case Some(i) =>
      var rest := CutLines(s[i + 1..]);
      Cut([s[..i]] + rest.lines, rest.tail)
  }

  lemma CutFirstLine(s: string, i: nat)
    requires IndexOf(s, '\n') == Some(i)
    ensures CutLines(s).lines == [s[..i]] + CutLines(s[i + 1..]).lines
    ensures CutLines(s).tail == CutLines(s[i + 1..]).tail
  {}

  function Unlines(lines: seq<string>): string {
    if lines == [] then "" else lines[0] + "\n" + Unlines(lines[1..])
  }

  /** Cutting loses nothing: the lines and the tail put back together are the text. */
  lemma {:induction false} CutIsLossless(s: string)
    ensures Unlines(CutLines(s).lines) + CutLines(s).tail == s
    decreases |s|
  {
    match IndexOf(s, '\n')
    case None =>
    case Some(i) =>
      CutIsLossless(s[i + 1..]);
      var rest := CutLines(s[i + 1..]);
      assert CutLines(s) == Cut([s[..i]] + rest.lines, rest.tail);
      JoinFirst(s[..i], rest.lines, rest.tail);
      SplitAt(s, i);
  }

  lemma SplitAt(s: string, i: nat)
    requires i < |s|
    ensures s == s[..i] + [s[i]] + s[i + 1..]
  {}

  lemma JoinFirst(line: string, lines: seq<string>, tail: string)
    ensures Unlines([line] + lines) + tail == line + ['\n'] + (Unlines(lines) + tail)
  {
    assert ([line] + lines)[1..] == lines;
    assert Unlines([line] + lines) == line + "\n" + Unlines(lines);
  }

  /** Cutting finds exactly the lines that were written. */
  lemma {:induction false} CutFindsLines(lines: seq<string>, tail: string)
    requires forall i :: 0 <= i < |lines| ==> Lacks(lines[i], '\n')
    requires Lacks(tail, '\n')
    ensures CutLines(Unlines(lines) + tail) == Cut(lines, tail)
    decreases |lines|
  {
    if lines == [] {
      assert Unlines(lines) + tail == tail;
    } else {
      var rest := Unlines(lines[1..]) + tail;
      var s := Unlines(lines) + tail;
      assert s == lines[0] + ['\n'] + rest;
      FirstCharacterAt(lines[0], '\n', rest);
      assert s[|lines[0]| + 1..] == rest;
      assert s[..|lines[0]|] == lines[0];
      CutFindsLines(lines[1..], tail);
    }
  }

  lemma {:induction false} UnlinesAppend(a: seq<string>, b: seq<string>)
    ensures Unlines(a + b) == Unlines(a) + Unlines(b)
  {
    if a == [] {
      assert a + b == b;
    } else {
      assert (a + b)[1..] == a[1..] + b;
      UnlinesAppend(a[1..], b);
    }
  }

  lemma Reassociate(a: string, b: string, c: string)
    ensures a + b + c == a + (b + c)
  {}

  /** Text may be cut in two anywhere: the first part's tail is carried over to the second. */
  lemma CutInTwo(a: string, b: string)
    ensures CutLines(a + b) ==
            Cut(CutLines(a).lines + CutLines(CutLines(a).tail + b).lines, CutLines(CutLines(a).tail + b).tail)
  {
    var first := CutLines(a);
    var second := CutLines(first.tail + b);
    CutIsLossless(a);
    CutIsLossless(first.tail + b);
    UnlinesAppend(first.lines, second.lines);
    Reassociate(Unlines(first.lines), first.tail, b);
    Reassociate(Unlines(first.lines), Unlines(second.lines), second.tail);
    CutFindsLines(first.lines + second.lines, second.tail);
  }

  // Lines as a buffered reader sees them.

  predicate IsSpace(c: char) {
    c in " \t\n\r" || c == 11 as char || c == 12 as char
  }

  predicate Blank(line: string) {
    forall i :: 0 <= i < |line| ==> IsSpace(line[i])
  }

  /** A terminated line without the carriage return that may precede its newline. */
  function Strip(line: string): string {
    if line != "" && line[|line| - 1] == '\r' then line[..|line| - 1] else line
  }

  function StripAll(lines: seq<string>): (r: seq<string>)
    ensures |r| == |lines|
  {
    seq(|lines|, i requires 0 <= i < |lines| => Strip(lines[i]))
  }

  /** The lines that a reader of the text sees; text after the last newline is a line too. */
  function TextLines(text: string): seq<string> {
    var cut := CutLines(text);
    StripAll(cut.lines) + (if cut.tail == "" then [] else [cut.tail])
  }

  lemma StripOne(lines: seq<string>, line: string)
    requires Lacks(line, '\r')
    ensures StripAll(lines + [line]) == StripAll(lines) + [line]
  {}

  /** The line without the white space around it. */
  function Trim(line: string): string {
    if line == "" then ""
    else if IsSpace(line[0]) then Trim(line[1..])
    else if IsSpace(line[|line| - 1]) then Trim(line[..|line| - 1])
    else line
  }

  /** White space is the control characters from tab to carriage return, and the blank. */
  lemma SpaceIs(c: char)
    ensures IsSpace(c) <==> 9 <= c as int <= 13 || c as int == 32
  {}

  /** No white space at either end. */
  predicate Snug(line: string) {
    line != "" && !IsSpace(line[0]) && !IsSpace(line[|line| - 1])
  }

  /** Trimming takes away the white space around a text, and nothing of the text. */
  lemma {:induction false} TrimFindsText(a: string, line: string, b: string)
    requires Blank(a) && Snug(line) && Blank(b)
    ensures Trim(a + line + b) == line
    decreases |a| + |b|
  {
    var s := a + line + b;
    if a != "" {
      assert s[0] == a[0] && s[1..] == a[1..] + line + b;
      TrimFindsText(a[1..], line, b);
    } else if b != "" {
      assert s[0] == line[0] && s[|s| - 1] == b[|b| - 1];
      assert s[..|s| - 1] == a + line + b[..|b| - 1];
      TrimFindsText(a, line, b[..|b| - 1]);
    } else {
      assert s == line;
    }
  }

  lemma SnugIsTrimmed(line: string)
    requires Snug(line)
    ensures Trim(line) == line && !Blank(line)
  {
    assert "" + line + "" == line;
    TrimFindsText("", line, "");
    assert !IsSpace(line[0]);
  }

  /** One carriage return before a newline belongs to the line end; nothing else is dropped. */
  lemma StripDropsOneReturn(line: string)
    ensures Strip(line + "\r") == line
    ensures line == "" || line[|line| - 1] != '\r' ==> Strip(line) == line
  {
    assert (line + "\r")[..|line|] == line;
  }

  /** A reader sees the terminated lines without their line ends, and text after the last newline as it is. */
  lemma TextLinesAre(lines: seq<string>, tail: string)
    requires forall i :: 0 <= i < |lines| ==> Lacks(lines[i], '\n')
    requires Lacks(tail, '\n')
    ensures TextLines(Unlines(lines) + tail) == StripAll(lines) + if tail == "" then [] else [tail]
  {
    CutFindsLines(lines, tail);
  }

  /** A line is blank exactly when nothing is left of it once it is trimmed. */
  lemma {:induction false} BlankIsTrimmedAway(line: string)
    ensures Blank(line) <==> Trim(line) == ""
    decreases |line|
  {
    if line != "" {
      if IsSpace(line[0]) {
        BlankIsTrimmedAway(line[1..]);
        assert line == [line[0]] + line[1..];
      } else if IsSpace(line[|line| - 1]) {
        BlankIsTrimmedAway(line[..|line| - 1]);
        assert !IsSpace(line[..|line| - 1][0]);
      }
    }
  }
}
