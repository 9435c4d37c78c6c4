// Splitting a URL into its five parts and printing them again, as section 3 of
// RFC 3986 and Python's urllib.parse have it.

module UrlSplit {

  import opened Wrappers
  import opened Utf8
  import opened FormCodec

  const COLON: Byte := 0x3A
  const SLASH: Byte := 0x2F
  const QUESTION: Byte := 0x3F
  const HASH: Byte := 0x23
  const OPEN_BRACKET: Byte := 0x5B
  const CLOSE_BRACKET: Byte := 0x5D

  datatype Url = Url(scheme: Bytes, netloc: Bytes, path: Bytes, query: Bytes, fragment: Bytes)

  /** What the model does not look into: address literals in brackets, and characters that normalize to delimiters. */
  datatype Hosts = Hosts(bracketed: Bytes -> bool, disguised: Bytes -> bool)

  const NETLOC_SCHEMES: seq<string> := [
    "", "ftp", "http", "gopher", "nntp", "telnet", "imap", "wais", "file", "mms", "https", "shttp", "snews",
    "prospero", "rtsp", "rtsps", "rtspu", "rsync", "svn", "svn+ssh", "sftp", "nfs", "git", "git+ssh", "ws", "wss",
    "itms-services"]

  function Characters(b: Bytes): string {
    seq(|b|, i requires 0 <= i < |b| => b[i] as char)
  }

  predicate UsesNetloc(scheme: Bytes) {
    Characters(scheme) in NETLOC_SCHEMES
  }

  // ------------------------------------------------------------ splitting

  predicate SchemeByte(c: Byte) {
    Letter(c) || Digit(c) || c == PLUS || c == 0x2D || c == 0x2E
  }

  predicate SchemeText(s: Bytes) {
    forall i :: 0 <= i < |s| ==> SchemeByte(s[i])
  }

  function LowerByte(c: Byte): Byte {
    if 0x41 <= c <= 0x5A then c + 32 else c
  }

  function Lower(s: Bytes): (r: Bytes)
    ensures |r| == |s|
  {
    seq(|s|, i requires 0 <= i < |s| => LowerByte(s[i]))
  }

  /** The text before the first colon is a scheme. */
  predicate HasScheme(value: Bytes) {
    var i := Find(value, COLON);
    0 < i < |value| && Letter(value[0]) && SchemeText(value[..i])
  }

  predicate DoubleSlash(s: Bytes) {
    |s| >= 2 && s[0] == SLASH && s[1] == SLASH
  }

  predicate Delimiter(c: Byte) {
    c == SLASH || c == QUESTION || c == HASH
  }

  function FindDelimiter(s: Bytes): (i: nat)
    ensures i <= |s| && (i < |s| ==> Delimiter(s[i])) && forall j :: 0 <= j < i ==> !Delimiter(s[j])
  {
    if |s| == 0 || Delimiter(s[0]) then 0 else 1 + FindDelimiter(s[1..])
  }

  /** checkNetloc */
  predicate NetlocOk(hosts: Hosts, netloc: Bytes) {
    netloc == [] ||
    (&& (OPEN_BRACKET in netloc <==> CLOSE_BRACKET in netloc)
     && (OPEN_BRACKET in netloc ==> hosts.bracketed(netloc))
     && !hosts.disguised(netloc))
  }

  /** Path, query and fragment. */
  function SplitTail(scheme: Bytes, netloc: Bytes, tail: Bytes): Url {
    var upToFragment := Before(tail, HASH);
    Url(scheme, netloc, Before(upToFragment, QUESTION), After(upToFragment, QUESTION), After(tail, HASH))
  }

  function SplitRest(hosts: Hosts, scheme: Bytes, rest: Bytes): Option<Url> {
    if !DoubleSlash(rest) then Some(SplitTail(scheme, [], rest))
    else
      var end := 2 + FindDelimiter(rest[2..]);
      if !NetlocOk(hosts, rest[2..end]) then None else Some(SplitTail(scheme, rest[2..end], rest[end..]))
  }

  /** urlsplit; None is the invalid URL error. */
  function Split(hosts: Hosts, value: Bytes): Option<Url> {
    if HasScheme(value)
    then SplitRest(hosts, Lower(value[..Find(value, COLON)]), value[Find(value, COLON) + 1..])
    else SplitRest(hosts, [], value)
  }

  // ------------------------------------------------------------ printing

  predicate Rooted(path: Bytes) {
    |path| > 0 && path[0] == SLASH
  }

  function Optionally(mark: Byte, part: Bytes): Bytes {
    if part == [] then [] else [mark] + part
  }

  function Tail(u: Url): Bytes {
    u.path + (Optionally(QUESTION, u.query) + Optionally(HASH, u.fragment))
  }

  /** Does the network location, though it may be empty, get its two slashes? */
  predicate ShowsNetloc(u: Url) {
    u.netloc != [] || (u.scheme != [] && UsesNetloc(u.scheme) && (u.path == [] || Rooted(u.path)))
  }

  function Slashes(u: Url): Bytes {
    if ShowsNetloc(u) then [SLASH, SLASH] + u.netloc + (if u.path != [] && !Rooted(u.path) then [SLASH] else [])
    else if DoubleSlash(u.path) then [SLASH, SLASH]
    else []
  }

  function Unsplit(u: Url): Bytes {
    (if u.scheme == [] then [] else u.scheme + [COLON]) + (Slashes(u) + Tail(u))
  }

  /** A part with its mark, if there is one. */
  method WriteOptional(mark: Byte, part: Bytes, written: Bytes) returns (b: Bytes)
    ensures b == written + Optionally(mark, part)
  {
    b := written;
    if part != [] {
      b := b + [mark];
      b := b + part;
      Regroup(written, [mark], part);
    }
  }

  /** urlunsplit, writing part by part. */
  method Urlunsplit(u: Url) returns (b: Bytes)
    ensures b == Unsplit(u)
  {
    b := [];
    if u.scheme != [] {
      b := b + u.scheme;
      b := b + [COLON];
    }
    ghost var front := b;
    b := WriteSlashes(u, b);
    b := b + u.path;
    b := WriteOptional(QUESTION, u.query, b);
    b := WriteOptional(HASH, u.fragment, b);
    Written(front, Slashes(u), u.path, Optionally(QUESTION, u.query), Optionally(HASH, u.fragment));
  }

  lemma Written(front: Bytes, slashes: Bytes, path: Bytes, query: Bytes, fragment: Bytes)
    ensures front + slashes + path + query + fragment == front + (slashes + (path + (query + fragment)))
  {
    Regroup(front + slashes + path, query, fragment);
    Regroup(front + slashes, path, query + fragment);
    Regroup(front, slashes, path + (query + fragment));
  }

  method WriteSlashes(u: Url, written: Bytes) returns (b: Bytes)
    ensures b == written + Slashes(u)
  {
    b := written;
    if u.netloc != [] || (u.scheme != [] && UsesNetloc(u.scheme) && (u.path == [] || u.path[0] == SLASH)) {
      b := b + [SLASH, SLASH];
      b := b + u.netloc;
      Regroup(written, [SLASH, SLASH], u.netloc);
      if u.path != [] && u.path[0] != SLASH {
        Regroup(written, [SLASH, SLASH] + u.netloc, [SLASH]);
        b := b + [SLASH];
      }
    } else if DoubleSlash(u.path) {
      b := b + [SLASH, SLASH];
    }
  }

  // ------------------------------------------------------------ the parts that can be split off

  predicate Without(s: Bytes, c: Byte) {
    forall i :: 0 <= i < |s| ==> s[i] != c
  }

  predicate WithoutDelimiters(s: Bytes) {
    forall i :: 0 <= i < |s| ==> !Delimiter(s[i])
  }

  predicate SchemeOk(scheme: Bytes) {
    scheme == [] || (Letter(scheme[0]) && SchemeText(scheme) && Lower(scheme) == scheme)
  }

  /** The parts a URL can be split into. */
  predicate WellSplit(hosts: Hosts, u: Url) {
    && SchemeOk(u.scheme)
    && WithoutDelimiters(u.netloc) && NetlocOk(hosts, u.netloc)
    && Without(u.path, QUESTION) && Without(u.path, HASH) && Without(u.query, HASH)
    && (u.netloc != [] ==> u.path == [] || Rooted(u.path))
    && (u.scheme == [] && u.netloc == [] ==> !HasScheme(u.path))
  }

  // ------------------------------------------------------------ what splitting yields

  lemma BeforeIsWithout(s: Bytes, c: Byte, d: Byte)
    ensures Without(Before(s, c), c)
    ensures Without(s, d) ==> Without(Before(s, c), d) && Without(After(s, c), d)
  {
  }

  lemma TailParts(scheme: Bytes, netloc: Bytes, tail: Bytes)
    ensures var u := SplitTail(scheme, netloc, tail);
            Without(u.path, QUESTION) && Without(u.path, HASH) && Without(u.query, HASH)
  {
    var upTo := Before(tail, HASH);
    BeforeIsWithout(tail, HASH, HASH);
    BeforeIsWithout(upTo, QUESTION, HASH);
  }

  /** A tail that starts where a network location ended has no path, or a rooted one. */
  lemma TailIsRooted(scheme: Bytes, netloc: Bytes, tail: Bytes)
    requires tail == [] || Delimiter(tail[0])
    ensures var u := SplitTail(scheme, netloc, tail); u.path == [] || Rooted(u.path)
  {
  }

  /** The path is the front of the tail, up to a query or fragment. */
  lemma PathIsFront(scheme: Bytes, netloc: Bytes, tail: Bytes)
    ensures var u := SplitTail(scheme, netloc, tail); |u.path| <= |tail| && tail[..|u.path|] == u.path
  {
  }

  /** A scheme at the front of the path is a scheme of the whole. */
  lemma FrontHasScheme(value: Bytes, path: Bytes)
    requires |path| <= |value| && value[..|path|] == path && HasScheme(path)
    ensures HasScheme(value)
  {
    var i := Find(path, COLON);
    assert forall j :: 0 <= j < |path| ==> value[j] == path[j];
    FindIs(value, COLON, i);
    assert value[..i] == path[..i];
  }

  lemma LowerIsScheme(s: Bytes)
    requires |s| > 0 && Letter(s[0]) && SchemeText(s)
    ensures SchemeOk(Lower(s))
  {
    var l := Lower(s);
    assert forall i :: 0 <= i < |s| ==> SchemeByte(l[i]) && LowerByte(l[i]) == l[i];
    assert Lower(l) == l;
  }

  lemma RestIsWellSplit(hosts: Hosts, scheme: Bytes, rest: Bytes)
    requires SchemeOk(scheme) && (scheme == [] ==> !HasScheme(rest)) && SplitRest(hosts, scheme, rest).Some?
    ensures WellSplit(hosts, SplitRest(hosts, scheme, rest).value)
  {
    if DoubleSlash(rest) {
      var end := 2 + FindDelimiter(rest[2..]);
      TailParts(scheme, rest[2..end], rest[end..]);
      TailIsRooted(scheme, rest[2..end], rest[end..]);
      assert rest[2..end] == rest[2..][..FindDelimiter(rest[2..])];
    } else {
      TailParts(scheme, [], rest);
      PathIsFront(scheme, [], rest);
      var u := SplitTail(scheme, [], rest);
      if HasScheme(u.path) {
        FrontHasScheme(rest, u.path);
      }
    }
  }

  lemma SplitIsWellSplit(hosts: Hosts, value: Bytes)
    requires Split(hosts, value).Some?
    ensures WellSplit(hosts, Split(hosts, value).value)
  {
    if HasScheme(value) {
      LowerIsScheme(value[..Find(value, COLON)]);
      RestIsWellSplit(hosts, Lower(value[..Find(value, COLON)]), value[Find(value, COLON) + 1..]);
    } else {
      RestIsWellSplit(hosts, [], value);
    }
  }

  // ------------------------------------------------------------ what printing preserves

  lemma FindPast(s: Bytes, c: Byte, t: Bytes)
    requires Without(s, c) && (t == [] || t[0] == c)
    ensures Find(s + t, c) == |s| && Before(s + t, c) == s && After(s + t, c) == if t == [] then [] else t[1..]
  {
    if t != [] {
      FindIs(s + t, c, |s|);
    } else {
      assert s + t == s;
    }
  }

  lemma TailSplits(u: Url)
    requires Without(u.path, QUESTION) && Without(u.path, HASH) && Without(u.query, HASH)
    ensures SplitTail(u.scheme, u.netloc, Tail(u)) == u
  {
    var front := u.path + Optionally(QUESTION, u.query);
    assert Tail(u) == front + Optionally(HASH, u.fragment);
    assert Without(front, HASH);
    FindPast(front, HASH, Optionally(HASH, u.fragment));
    FindPast(u.path, QUESTION, Optionally(QUESTION, u.query));
  }

  lemma DelimiterPast(s: Bytes, t: Bytes)
    requires WithoutDelimiters(s) && (t == [] || Delimiter(t[0]))
    ensures FindDelimiter(s + t) == |s|
  {
    assert forall j :: 0 <= j < |s| ==> (s + t)[j] == s[j];
    assert t != [] ==> (s + t)[|s|] == t[0];
  }

  /** What follows the path, if anything, is a delimiter. */
  lemma AfterPath(u: Url)
    ensures |Tail(u)| >= |u.path| && Tail(u)[..|u.path|] == u.path
    ensures |Tail(u)| > |u.path| ==> Tail(u)[|u.path|] == QUESTION || Tail(u)[|u.path|] == HASH
  {
  }

  lemma SplitNetloc(hosts: Hosts, u: Url, rest: Bytes)
    requires WellSplit(hosts, u) && rest == [SLASH, SLASH] + (u.netloc + Tail(u))
    requires u.path == [] || Rooted(u.path)
    ensures SplitRest(hosts, u.scheme, rest) == Some(u)
  {
    AfterPath(u);
    assert Tail(u) == [] || Delimiter(Tail(u)[0]);
    DelimiterPast(u.netloc, Tail(u));
    CutAtNetloc(u.netloc, Tail(u), rest);
    TailSplits(u);
  }

  lemma CutAtNetloc(netloc: Bytes, tail: Bytes, rest: Bytes)
    requires rest == [SLASH, SLASH] + (netloc + tail)
    ensures DoubleSlash(rest) && rest[2..] == netloc + tail
    ensures rest[2..2 + |netloc|] == netloc && rest[2 + |netloc|..] == tail
  {
  }

  lemma NoNetloc(hosts: Hosts, u: Url)
    requires WellSplit(hosts, u) && u.netloc == [] && !DoubleSlash(u.path)
    ensures SplitRest(hosts, u.scheme, Tail(u)) == Some(u)
  {
    AfterPath(u);
    assert !DoubleSlash(Tail(u)) by {
      if |u.path| >= 2 {
        assert Tail(u)[0] == u.path[0] && Tail(u)[1] == u.path[1];
      } else if |u.path| == 1 && |Tail(u)| >= 2 {
        assert Tail(u)[1] == QUESTION || Tail(u)[1] == HASH;
      }
    }
    TailSplits(u);
  }

  lemma RestSplits(hosts: Hosts, u: Url)
    requires WellSplit(hosts, u)
    ensures SplitRest(hosts, u.scheme, Slashes(u) + Tail(u)) == Some(u)
  {
    if ShowsNetloc(u) {
      assert Slashes(u) + Tail(u) == [SLASH, SLASH] + (u.netloc + Tail(u));
      SplitNetloc(hosts, u, Slashes(u) + Tail(u));
    } else if DoubleSlash(u.path) {
      assert Slashes(u) + Tail(u) == [SLASH, SLASH] + (u.netloc + Tail(u));
      SplitNetloc(hosts, u, Slashes(u) + Tail(u));
    } else {
      assert Slashes(u) + Tail(u) == Tail(u);
      NoNetloc(hosts, u);
    }
  }

  /** A tail reads as no scheme unless its path does. */
  lemma TailHasNoScheme(u: Url)
    requires HasScheme(Tail(u)) && Without(u.path, QUESTION) && Without(u.path, HASH)
    ensures HasScheme(u.path)
  {
    AfterPath(u);
    var t, n := Tail(u), |u.path|;
    var i := Find(t, COLON);
    assert forall j :: 0 <= j < n ==> t[j] == t[..n][j] == u.path[j];
    FindIs(u.path, COLON, i);
    assert u.path[..i] == t[..i];
  }

  lemma PrintedHasNoScheme(hosts: Hosts, u: Url)
    requires WellSplit(hosts, u) && u.scheme == []
    ensures !HasScheme(Slashes(u) + Tail(u))
  {
    var text := Slashes(u) + Tail(u);
    if Slashes(u) == [] {
      assert text == Tail(u);
      if HasScheme(Tail(u)) {
        TailHasNoScheme(u);
      }
    } else {
      assert text[0] == SLASH;
    }
  }

  lemma SchemeSplits(scheme: Bytes, rest: Bytes)
    requires scheme != [] && SchemeOk(scheme)
    ensures var text := scheme + [COLON] + rest;
            && HasScheme(text) && Find(text, COLON) == |scheme|
            && Lower(text[..|scheme|]) == scheme && text[|scheme| + 1..] == rest
  {
    var text := scheme + [COLON] + rest;
    assert forall j :: 0 <= j < |scheme| ==> text[j] == scheme[j] && SchemeByte(text[j]);
    FindIs(text, COLON, |scheme|);
    assert text[..|scheme|] == scheme;
  }

  lemma PrintedSplits(hosts: Hosts, u: Url)
    requires WellSplit(hosts, u)
    ensures Split(hosts, Unsplit(u)) == Some(u)
  {
    RestSplits(hosts, u);
    if u.scheme == [] {
      PrintedHasNoScheme(hosts, u);
      assert Unsplit(u) == Slashes(u) + Tail(u);
    } else {
      SchemeSplits(u.scheme, Slashes(u) + Tail(u));
    }
  }

  /** Printing and splitting again gives the same URL exactly for the URLs that splitting can produce. */
  lemma UrlRoundTrip(hosts: Hosts, u: Url)
    ensures Split(hosts, Unsplit(u)) == Some(u) <==> exists value :: Split(hosts, value) == Some(u)
  {
    if value :| Split(hosts, value) == Some(u) {
      SplitIsWellSplit(hosts, value);
      PrintedSplits(hosts, u);
    }
  }

  /** Those URLs can be told by looking at their parts. */
  lemma ProducedIffWellSplit(hosts: Hosts, u: Url)
    ensures (exists value :: Split(hosts, value) == Some(u)) <==> WellSplit(hosts, u)
  {
    if WellSplit(hosts, u) {
      PrintedSplits(hosts, u);
    }
    if value :| Split(hosts, value) == Some(u) {
      SplitIsWellSplit(hosts, value);
    }
  }
}
