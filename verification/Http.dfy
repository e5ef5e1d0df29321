/** Requests, responses and header maps, and what of a header map a recorded exchange keeps. */
module Http {
  import opened Wrappers
  import opened Uris

  newtype Byte = x: int | 0 <= x < 256

  type Bytes = seq<Byte>

  type Status = n: nat | 100 <= n < 1000 witness 200

  const BAD_GATEWAY: Status := 502

  /** A header value that reads as text, or one holding a character that does not. */
  datatype HeaderValue = Visible(text: string) | Opaque(raw: string)

  type Headers = seq<(string, HeaderValue)>

  /** A header map in iteration order; a name may come several times. */
  type HeaderMap = h: Headers | forall i :: 0 <= i < |h| ==> ValidHeader(h[i])

  predicate ValidHeader(header: (string, HeaderValue)) {
    && ParseName(header.0) == Some(header.0)
    && ParseValue(match header.1 case Visible(t) => t case Opaque(r) => r) == Some(header.1)
  }

  datatype Request = Request(verb: string, uri: Uri, headers: HeaderMap, body: Bytes)

  datatype Response = Response(status: Status, headers: HeaderMap, body: Bytes)

  predicate TokenChar(c: char) {
    'a' <= c <= 'z' || 'A' <= c <= 'Z' || '0' <= c <= '9' || c in "!#$%&'*+-.^_`|~"
  }

  function LowerChar(c: char): char {
    if 'A' <= c <= 'Z' then (c as int + 32) as char else c
  }

  function ParseName(s: string): Option<string> {
    if s != "" && forall i :: 0 <= i < |s| ==> TokenChar(s[i])
    then Some(seq(|s|, i requires 0 <= i < |s| => LowerChar(s[i])))
    else None
  }

  predicate VisibleChar(c: char) {
    ' ' <= c <= '~' || c == '\t'
  }

  predicate ControlChar(c: char) {
    (c < ' ' && c != '\t') || c == 127 as char
  }

  function ParseValue(s: string): Option<HeaderValue> {
    if exists i :: 0 <= i < |s| && ControlChar(s[i]) then None
    else if forall i :: 0 <= i < |s| ==> VisibleChar(s[i]) then Some(Visible(s))
    else Some(Opaque(s))
  }

  /** Every value stored under `name`, in order. */
  function Values(h: Headers, name: string): seq<HeaderValue> {
    if h == [] then []
    else
      var n := |h| - 1;
      Values(h[..n], name) + (if h[n].0 == name then [h[n].1] else [])
  }

  /** Header maps are compared name by name; the order of different names does not count. */
  ghost predicate SameHeaders(a: Headers, b: Headers) {
    forall name :: Values(a, name) == Values(b, name)
  }

  function Without(h: HeaderMap, name: string): (r: HeaderMap)
    ensures Values(r, name) == []
    ensures forall other :: other != name ==> Values(r, other) == Values(h, other)
  {
    if h == [] then []
    else
      var n := |h| - 1;
      var front := Without(h[..n], name);
      if h[n].0 == name then front
      else
        assert (front + [h[n]])[..|front|] == front;
        front + [h[n]]
  }

  /** `HeaderMap::insert`: the new value replaces every value its name had. */
  function Insert(h: HeaderMap, header: (string, HeaderValue)): (r: HeaderMap)
    requires ValidHeader(header)
    ensures Values(r, header.0) == [header.1]
    ensures forall other :: other != header.0 ==> Values(r, other) == Values(h, other)
  {
    var rest := Without(h, header.0);
    assert (rest + [header])[..|rest|] == rest;
    rest + [header]
  }

  function RecordedText(v: HeaderValue): string {
    match v
    case Visible(text) => text
    case Opaque(_) => "<binary>"
  }

  /** The name and value texts a recorded exchange keeps of a header map. */
  function HeaderPairs(h: Headers): (pairs: seq<(string, string)>)
    ensures |pairs| == |h|
  {
    seq(|h|, i requires 0 <= i < |h| => (h[i].0, RecordedText(h[i].1)))
  }

  lemma ParsedNameIsStable(s: string)
    requires ParseName(s).Some?
    ensures ParseName(ParseName(s).value) == ParseName(s)
  {
    var t := ParseName(s).value;
    forall i | 0 <= i < |t| ensures TokenChar(t[i]) && LowerChar(t[i]) == t[i] { assert TokenChar(s[i]); }
    assert ParseName(t).value == t;
  }

  /** One recorded pair as a header, unless its name or its value does not parse. */
  function ParseHeader(pair: (string, string)): (r: Option<(string, HeaderValue)>)
    ensures r.Some? ==> ValidHeader(r.value)
  {
    match (ParseName(pair.0), ParseValue(pair.1))
    case (Some(name), Some(value)) =>
      ParsedNameIsStable(pair.0);
      Some((name, value))
    case _ => None
  }

  /** The header map that a replayed response carries for its recorded pairs. */
  ghost function Rebuilt(pairs: seq<(string, string)>): HeaderMap {
    if pairs == [] then []
    else
      var n := |pairs| - 1;
      match ParseHeader(pairs[n])
      case None => Rebuilt(pairs[..n])
      case Some(header) => Insert(Rebuilt(pairs[..n]), header)
  }

  method BuildHeaderMap(pairs: seq<(string, string)>) returns (h: HeaderMap)
    ensures h == Rebuilt(pairs)
  {
    h := [];
    for i := 0 to |pairs|
      invariant h == Rebuilt(pairs[..i])
    {
      assert pairs[..i + 1][..i] == pairs[..i];
      var header := ParseHeader(pairs[i]);
      if header.Some? {
        h := Insert(h, header.value);
      }
    }
    assert pairs[..|pairs|] == pairs;
  }

  /** The last value stored under `name`. */
  ghost function LastValue(h: Headers, name: string): (r: Option<HeaderValue>)
    ensures r.None? <==> Values(h, name) == []
    ensures r.Some? ==> Values(h, name)[|Values(h, name)| - 1] == r.value
  {
    if h == [] then None
    else
      var n := |h| - 1;
      if h[n].0 == name then Some(h[n].1) else LastValue(h[..n], name)
  }

  lemma RecordedHeaderParses(header: (string, HeaderValue))
    requires ValidHeader(header)
    ensures ParseHeader((header.0, RecordedText(header.1))) == Some((header.0, Visible(RecordedText(header.1))))
  {
    assert ParseValue("<binary>") == Some(Visible("<binary>"));
  }

  ghost function ReplayedUnder(h: Headers, name: string): seq<HeaderValue> {
    match LastValue(h, name)
    case None => []
    case Some(v) => [Visible(RecordedText(v))]
  }

  lemma RebuiltOne(pairs: seq<(string, string)>, pair: (string, string))
    ensures Rebuilt(pairs + [pair]) ==
            match ParseHeader(pair) { case None => Rebuilt(pairs) case Some(header) => Insert(Rebuilt(pairs), header) }
  {
    assert (pairs + [pair])[..|pairs|] == pairs;
  }

  lemma PairsOne(h: Headers)
    requires h != []
    ensures HeaderPairs(h) == HeaderPairs(h[..|h| - 1]) + [(h[|h| - 1].0, RecordedText(h[|h| - 1].1))]
  {}

  /** What a replay answers under one name: the last recorded value alone, binary values as a placeholder. */
  lemma {:induction false} ReplayedValues(h: Headers, name: string)
    requires forall i :: 0 <= i < |h| ==> ValidHeader(h[i])
    ensures Values(Rebuilt(HeaderPairs(h)), name) == ReplayedUnder(h, name)
  {
    if h != [] {
      var n := |h| - 1;
      ReplayedValues(h[..n], name);
      PairsOne(h);
      RecordedHeaderParses(h[n]);
      RebuiltOne(HeaderPairs(h[..n]), (h[n].0, RecordedText(h[n].1)));
    }
  }

  lemma {:induction false} ValueIsListed(h: Headers, i: nat)
    requires i < |h|
    ensures h[i].1 in Values(h, h[i].0)
  {
    if i < |h| - 1 {
      ValueIsListed(h[..|h| - 1], i);
    }
  }

  lemma {:induction false} RepeatedNameHasTwoValues(h: Headers, i: nat, j: nat)
    requires i < j < |h| && h[i].0 == h[j].0
    ensures |Values(h, h[i].0)| >= 2
  {
    var n := |h| - 1;
    if j < n {
      assert h[..n][i] == h[i] && h[..n][j] == h[j];
      RepeatedNameHasTwoValues(h[..n], i, j);
    } else {
      ValueIsListed(h[..n], i);
    }
  }

  ghost predicate DistinctNames(h: Headers) {
    forall i, j :: 0 <= i < j < |h| ==> h[i].0 != h[j].0
  }

  ghost predicate AllVisible(h: Headers) {
    forall i :: 0 <= i < |h| ==> h[i].1.Visible?
  }

  lemma {:induction false} DistinctNamesHaveOneValue(h: Headers, name: string)
    requires DistinctNames(h)
    ensures |Values(h, name)| <= 1
  {
    if h != [] {
      var n := |h| - 1;
      DistinctNamesHaveOneValue(h[..n], name);
      if Values(h[..n], name) != [] {
        ListedValueHasAPlace(h[..n], name);
      }
    }
  }

  lemma {:induction false} ListedValueHasAPlace(h: Headers, name: string)
    requires Values(h, name) != []
    ensures exists i :: 0 <= i < |h| && h[i] == (name, LastValue(h, name).value)
  {
    var n := |h| - 1;
    if h[n].0 != name {
      ListedValueHasAPlace(h[..n], name);
      var i :| 0 <= i < n && h[..n][i] == (name, LastValue(h[..n], name).value);
      assert h[i] == h[..n][i];
    } else {
      assert h[n] == (name, LastValue(h, name).value);
    }
  }

  lemma SurvivalNeedsDistinctNames(h: Headers)
    requires forall name :: ReplayedUnder(h, name) == Values(h, name)
    ensures DistinctNames(h)
  {
    forall i, j | 0 <= i < j < |h| ensures h[i].0 != h[j].0 {
      assert |ReplayedUnder(h, h[i].0)| <= 1;
      if h[i].0 == h[j].0 {
        RepeatedNameHasTwoValues(h, i, j);
      }
    }
  }

  lemma SurvivalNeedsText(h: Headers)
    requires forall name :: ReplayedUnder(h, name) == Values(h, name)
    ensures AllVisible(h)
  {
    forall i | 0 <= i < |h| ensures h[i].1.Visible? {
      ValueIsListed(h, i);
      assert h[i].1 in ReplayedUnder(h, h[i].0);
    }
  }

  lemma TextUnderDistinctNamesSurvives(h: Headers, name: string)
    requires DistinctNames(h) && AllVisible(h)
    ensures ReplayedUnder(h, name) == Values(h, name)
  {
    DistinctNamesHaveOneValue(h, name);
    if Values(h, name) != [] {
      ListedValueHasAPlace(h, name);
    }
  }

  /** Recording and replaying a header map gives it back exactly when no name repeats and every value is text. */
  lemma HeadersSurviveReplay(h: HeaderMap)
    ensures SameHeaders(Rebuilt(HeaderPairs(h)), h) <==> DistinctNames(h) && AllVisible(h)
  {
    forall name ensures Values(Rebuilt(HeaderPairs(h)), name) == ReplayedUnder(h, name) {
      ReplayedValues(h, name);
    }
    if SameHeaders(Rebuilt(HeaderPairs(h)), h) {
      SurvivalNeedsDistinctNames(h);
      SurvivalNeedsText(h);
    }
    if DistinctNames(h) && AllVisible(h) {
      forall name { TextUnderDistinctNamesSurvives(h, name); }
    }
  }

  /** A pair that does not parse is left out, and changes nothing about the others. */
  lemma {:induction false} BadPairIsSkipped(
      before: seq<(string, string)>, bad: (string, string), after: seq<(string, string)>)
    requires ParseName(bad.0).None? || ParseValue(bad.1).None?
    ensures Rebuilt(before + [bad] + after) == Rebuilt(before + after)
  {
    if after == [] {
      assert before + [bad] + after == before + [bad] && before + after == before;
      RebuiltOne(before, bad);
    } else {
      var n := |after| - 1;
      assert before + [bad] + after == before + [bad] + after[..n] + [after[n]];
      assert before + after == before + after[..n] + [after[n]];
      BadPairIsSkipped(before, bad, after[..n]);
      RebuiltOne(before + [bad] + after[..n], after[n]);
      RebuiltOne(before + after[..n], after[n]);
    }
  }
}
