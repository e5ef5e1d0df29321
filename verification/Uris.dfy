/** Request targets, how a recorded exchange prints them, and the path and query a replay key is made of. */
module Uris {
  import opened Wrappers
  import opened Text

  /** The four target forms of section 3.2 of RFC 9112. */
  datatype Target =
    | Origin(path: string, query: Option<string>)
    | Absolute(scheme: string, authority: string, path: string, query: Option<string>)
    | Authority(authority: string)
    | Asterisk

  predicate SchemeChar(c: char) {
    'a' <= c <= 'z' || 'A' <= c <= 'Z' || '0' <= c <= '9' || c in "+-."
  }

  predicate AuthorityChar(c: char) {
    '!' <= c <= '~' && c !in "/?#\"<>"
  }

  predicate QueryChar(c: char) {
    '!' <= c <= '~' && c !in "#\"<>"
  }

  predicate PathChar(c: char) {
    QueryChar(c) && c != '?'
  }

  predicate ValidScheme(s: string) {
    s != "" && forall i :: 0 <= i < |s| ==> SchemeChar(s[i])
  }

  predicate ValidAuthority(s: string) {
    s != "" && s != "*" && forall i :: 0 <= i < |s| ==> AuthorityChar(s[i])
  }

  predicate ValidPath(s: string) {
    s != "" && s[0] == '/' && forall i :: 0 <= i < |s| ==> PathChar(s[i])
  }

  predicate ValidQuery(q: Option<string>) {
    q.Some? ==> forall i :: 0 <= i < |q.value| ==> QueryChar(q.value[i])
  }

  predicate WellFormed(t: Target) {
    match t
    case Origin(path, query) => ValidPath(path) && ValidQuery(query)
    case Absolute(scheme, authority, path, query) =>
      ValidScheme(scheme) && ValidAuthority(authority) && ValidPath(path) && ValidQuery(query)
    case Authority(authority) => ValidAuthority(authority)
    case Asterisk => true
  }

  /** A parsed target with a path wherever the form has one; an absolute form that came without is not among them. */
  type Uri = t: Target | WellFormed(t) witness Asterisk

  function WithQuery(path: string, query: Option<string>): string {
    match query
    case None => path
    case Some(q) => path + "?" + q
  }

  /** The text a recorded request keeps. */
  function Print(u: Uri): string {
    match u
    case Origin(path, query) => WithQuery(path, query)
    case Absolute(scheme, authority, path, query) => scheme + "://" + (authority + WithQuery(path, query))
    case Authority(authority) => authority
    case Asterisk => "*"
  }

  function PathAndQueryOfUri(u: Uri): string {
    match u
    case Origin(path, query) => WithQuery(path, query)
    case Absolute(_, _, path, query) => WithQuery(path, query)
    case Authority(_) => ""
    case Asterisk => "*"
  }

  function ParsePath(s: string): (r: (string, Option<string>))
    ensures WithQuery(r.0, r.1) == s
  {
    match IndexOf(s, '?')
    case None => (s, None)
    case Some(i) => (s[..i], Some(s[i + 1..]))
  }

  /** The end of an authority: the first '/' or '?', or the end of the text. */
  function AuthorityEnd(s: string): (n: nat)
    ensures n <= |s|
  {
    if s == "" || s[0] == '/' || s[0] == '?' then 0 else 1 + AuthorityEnd(s[1..])
  }

  function Checked(t: Target): Option<Uri> {
    if WellFormed(t) then Some(t) else None
  }

  function ParseUri(s: string): Option<Uri> {
    if s == "" then None
    else if s == "*" then Some(Asterisk)
    else if s[0] == '/' then
      var (path, query) := ParsePath(s);
      Checked(Origin(path, query))
    else match Find(s, "://")
      case None => Checked(Authority(s))
      case Some(i) =>
        var rest := s[i + 3..];
        var n := AuthorityEnd(rest);
        var target := if n == |rest| then "/" else if rest[n] == '?' then "/" + rest[n..] else rest[n..];
        var (path, query) := ParsePath(target);
        Checked(Absolute(s[..i], rest[..n], path, query))
  }

  /** What is kept of a recorded text that does not parse. */
  function TolerantPathAndQuery(s: string): string {
    match Find(s, "://")
    case None => s
    case Some(i) =>
      match IndexOf(s[i + 3..], '/')
      case None => "/"
      case Some(slash) => s[i + 3 + slash..]
  }

  function PathAndQueryOfText(s: string): string {
    match ParseUri(s)
    case Some(u) => PathAndQueryOfUri(u)
    case None => TolerantPathAndQuery(s)
  }

  lemma PathIsCutAtQuery(path: string, query: Option<string>)
    requires ValidPath(path)
    ensures ParsePath(WithQuery(path, query)) == (path, query)
  {
    if query.Some? {
      FirstCharacterAt(path, '?', query.value);
      assert path + "?" + query.value == path + ['?'] + query.value;
      assert (path + ['?'] + query.value)[..|path|] == path;
      assert (path + ['?'] + query.value)[|path| + 1..] == query.value;
    } else {
      assert Lacks(path, '?');
    }
  }

  lemma {:induction false} AuthorityIsCutAtPath(authority: string, target: string)
    requires forall i :: 0 <= i < |authority| ==> AuthorityChar(authority[i])
    requires target != "" && target[0] == '/'
    ensures AuthorityEnd(authority + target) == |authority|
  {
    if authority == "" {
      assert authority + target == target;
    } else {
      assert AuthorityChar(authority[0]);
      assert (authority + target)[1..] == authority[1..] + target;
      AuthorityIsCutAtPath(authority[1..], target);
    }
  }

  lemma PrefixHoldsItsCharacter(s: string, pattern: string, k: nat)
    requires k < |pattern|
    ensures pattern <= s ==> !Lacks(s, pattern[k])
  {
    if pattern <= s {
      assert s[k] == pattern[k];
    }
  }

  lemma {:induction false} NoPatternWithoutItsCharacter(s: string, pattern: string, k: nat)
    requires k < |pattern| && Lacks(s, pattern[k])
    ensures Find(s, pattern) == None
  {
    PrefixHoldsItsCharacter(s, pattern, k);
    if s != [] {
      NoPatternWithoutItsCharacter(s[1..], pattern, k);
    }
  }

  lemma SchemeIsCut(u: Uri)
    requires u.Absolute?
    ensures Find(Print(u), "://") == Some(|u.scheme|)
    ensures Print(u)[|u.scheme| + 3..] == u.authority + WithQuery(u.path, u.query)
    ensures Print(u)[..|u.scheme|] == u.scheme
  {
    var rest := u.authority + WithQuery(u.path, u.query);
    assert Lacks(u.scheme, ':') by {
      forall i | 0 <= i < |u.scheme| ensures u.scheme[i] != ':' { assert SchemeChar(u.scheme[i]); }
    }
    FirstPatternAt(u.scheme, "://", rest);
  }

  lemma ParsePrintAbsolute(u: Uri)
    requires u.Absolute?
    ensures ParseUri(Print(u)) == Some(u)
  {
    var s := Print(u);
    var target := WithQuery(u.path, u.query);
    SchemeIsCut(u);
    AuthorityIsCutAtPath(u.authority, target);
    PathIsCutAtQuery(u.path, u.query);
    assert SchemeChar(u.scheme[0]) && s[0] == u.scheme[0];
    assert (u.authority + target)[|u.authority|..] == target;
    assert (u.authority + target)[..|u.authority|] == u.authority;
  }

  lemma ParsePrintAuthority(u: Uri)
    requires u.Authority?
    ensures ParseUri(Print(u)) == Some(u)
  {
    assert Lacks(u.authority, '/') by {
      forall i | 0 <= i < |u.authority| ensures u.authority[i] != '/' { assert AuthorityChar(u.authority[i]); }
    }
    NoPatternWithoutItsCharacter(u.authority, "://", 1);
  }

  /** Printing and parsing again gives the target back, so a printed target keeps its path and query. */
  lemma PrintedUriKeepsTarget(u: Uri)
    ensures ParseUri(Print(u)) == Some(u)
    ensures PathAndQueryOfText(Print(u)) == PathAndQueryOfUri(u)
  {
    match u
    case Origin(path, query) => PathIsCutAtQuery(path, query);
    case Absolute(_, _, _, _) => ParsePrintAbsolute(u);
    case Authority(_) => ParsePrintAuthority(u);
    case Asterisk =>
  }

  /** A target recorded in absolute form has the key of the same path and query in origin form. */
  lemma AbsoluteAndOriginAgree(u: Uri)
    requires u.Absolute?
    ensures PathAndQueryOfText(Print(u)) == PathAndQueryOfText(Print(Origin(u.path, u.query)))
  {
    PrintedUriKeepsTarget(u);
    PrintedUriKeepsTarget(Origin(u.path, u.query));
  }

  lemma DropTwice(s: string, a: nat, b: nat)
    requires a + b <= |s|
    ensures s[a..][b..] == s[a + b..]
  {}

  lemma SlashIsFound(authority: string, target: string)
    requires Lacks(authority, '/') && target != "" && target[0] == '/'
    ensures IndexOf(authority + target, '/') == Some(|authority|)
    ensures (authority + target)[|authority|..] == target
  {
    assert target == ['/'] + target[1..];
    Reassociate(authority, ['/'], target[1..]);
    FirstCharacterAt(authority, '/', target[1..]);
    DropFirst(authority, target);
  }

  lemma DropFirst(a: string, b: string)
    ensures (a + b)[|a|..] == b
  {}

  lemma TolerantCut(s: string, i: nat, rest: string, n: nat)
    requires Find(s, "://") == Some(i) && s[i + 3..] == rest && IndexOf(rest, '/') == Some(n)
    ensures TolerantPathAndQuery(s) == rest[n..]
  {
    DropTwice(s, i + 3, n);
  }

  /** The tolerant branch cuts a printed absolute form where the parser does. */
  lemma TolerantBranchAgrees(u: Uri)
    requires u.Absolute?
    ensures TolerantPathAndQuery(Print(u)) == PathAndQueryOfUri(u)
  {
    SchemeIsCut(u);
    assert Lacks(u.authority, '/') by {
      forall i | 0 <= i < |u.authority| ensures u.authority[i] != '/' { assert AuthorityChar(u.authority[i]); }
    }
    SlashIsFound(u.authority, WithQuery(u.path, u.query));
    TolerantCut(Print(u), |u.scheme|, u.authority + WithQuery(u.path, u.query), |u.authority|);
  }

  /** A text with a scheme and no path after it has the path "/", whatever else it holds. */
  lemma TolerantBranchWithoutPath(scheme: string, rest: string)
    requires Lacks(scheme, ':') && Lacks(rest, '/')
    ensures TolerantPathAndQuery(scheme + "://" + rest) == "/"
  {
    FirstPatternAt(scheme, "://", rest);
    assert (scheme + "://" + rest)[|scheme| + 3..] == rest;
  }

  /** What a target asks for, apart from the server that it names. */
  datatype Route = At(path: string, query: Option<string>) | Server | NoResource

  function RouteOf(u: Uri): Route {
    match u
    case Origin(path, query) => At(path, query)
    case Absolute(_, _, path, query) => At(path, query)
    case Authority(_) => NoResource
    case Asterisk => Server
  }

  /** The path and query of a key tell exactly the routes apart: path and query are not mixed up. */
  lemma SamePathAndQueryIff(a: Uri, b: Uri)
    ensures PathAndQueryOfUri(a) == PathAndQueryOfUri(b) <==> RouteOf(a) == RouteOf(b)
  {
    RouteIsRead(a);
    RouteIsRead(b);
  }

  /** A key's path and query can be read back. */
  lemma RouteIsRead(u: Uri)
    ensures var text := PathAndQueryOfUri(u);
            RouteOf(u) == if text == "" then NoResource else if text == "*" then Server
                          else At(ParsePath(text).0, ParsePath(text).1)
  {
    match u
    case Origin(path, query) => PathIsCutAtQuery(path, query);
    case Absolute(_, _, path, query) => PathIsCutAtQuery(path, query);
    case _ =>
  }

  /**
   * The tolerant branch keeps an origin-form text whole exactly when it holds no "://": an unparsable path
   * that quotes another URL loses its beginning.
   */
  lemma TolerantBranchKeepsOriginForm(s: string)
    requires s != "" && s[0] == '/'
    ensures TolerantPathAndQuery(s) == s <==> Find(s, "://").None?
  {
    match Find(s, "://")
    case None =>
    case Some(i) =>
      if IndexOf(s[i + 3..], '/').Some? {
        assert |TolerantPathAndQuery(s)| < |s|;
      }
  }
}
