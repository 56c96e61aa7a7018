/** Normalisation of proxy requests: authorities, and the request forwarded for an absolute-form target
    (section 3.2.2 of RFC 9112). Heads are taken as decoded text. */
module Proxy {
  import opened RuntimeContract
  import opened Text

  const MAX_HOST_BYTES := 253

  function LowerChar(c: char): (r: char)
    ensures !('A' <= r <= 'Z') && (r == '.' <==> c == '.')
  {
    if 'A' <= c <= 'Z' then c - 'A' + 'a' else c
  }

  function Lower(s: string): (r: string)
    ensures |r| == |s| && forall i :: 0 <= i < |s| ==> r[i] == LowerChar(s[i])
  {
    if s == "" then "" else [LowerChar(s[0])] + Lower(s[1..])
  }

  /** `trim_end_matches('.')`. */
  function TrimDots(s: string): (r: string)
    ensures r == "" || r[|r| - 1] != '.'
    ensures r == s <==> s == "" || s[|s| - 1] != '.'
    ensures r <= s && forall i :: |r| <= i < |s| ==> s[i] == '.'
  {
    if s != "" && s[|s| - 1] == '.' then TrimDots(s[..|s| - 1]) else s
  }

  predicate HostChar(c: char) {
    'a' <= c <= 'z' || 'A' <= c <= 'Z' || IsDigit(c) || c == '.' || c == '-'
  }

  /** The hosts the proxy decides on: lower case, no trailing dot, only DNS characters, bounded length. */
  predicate NormalHost(host: string) {
    && host != "" && |host| <= MAX_HOST_BYTES
    && (forall i :: 0 <= i < |host| ==> HostChar(host[i]) && !('A' <= host[i] <= 'Z'))
    && host[|host| - 1] != '.'
  }

  function ParseAuthority(authority: string, defaultPort: nat): (r: Option<(string, nat)>)
    requires defaultPort <= 0xffff
    ensures r.Some? ==> NormalHost(r.value.0) && r.value.1 <= 0xffff
  {
    if authority == "" || '@' in authority || authority[0] == '[' then None
    else
      var split := RSplitOnce(authority, ':');
      if split.Some? && ':' !in split.value.0 then
        match ParseU16(split.value.1)
        case None => None
        case Some(port) => NormalizeHost(split.value.0, port)
      else NormalizeHost(authority, defaultPort)
  }

  lemma LoweredIsNormal(trimmed: string, host: string)
    requires host == Lower(trimmed) && host != "" && |host| <= MAX_HOST_BYTES && trimmed[|trimmed| - 1] != '.'
    requires forall i :: 0 <= i < |host| ==> HostChar(host[i])
    ensures NormalHost(host)
  {
    assert host[|host| - 1] == LowerChar(trimmed[|trimmed| - 1]);
  }

  function NormalizeHost(raw: string, port: nat): (r: Option<(string, nat)>)
    ensures r.Some? ==> NormalHost(r.value.0) && r.value.1 == port
  {
    var trimmed := TrimDots(raw);
    var host := Lower(trimmed);
    if host == "" || |host| > MAX_HOST_BYTES || exists i :: 0 <= i < |host| && !HostChar(host[i]) then None
    else
      LoweredIsNormal(trimmed, host);
      Some((host, port))
  }

  lemma {:induction false} LowerFixes(s: string)
    requires forall i :: 0 <= i < |s| ==> !('A' <= s[i] <= 'Z')
    ensures Lower(s) == s
  {
    assert forall i :: 0 <= i < |s| ==> Lower(s)[i] == s[i];
  }

  /** A normal host printed with its port parses back to itself, whatever the default port. */
  lemma AuthorityIsNormalForm(host: string, port: nat, defaultPort: nat)
    requires NormalHost(host) && port <= 0xffff && defaultPort <= 0xffff
    ensures ParseAuthority(host + ":" + Digits(port), defaultPort) == Some((host, port))
  {
    var authority := host + [':'] + Digits(port);
    assert authority == host + ":" + Digits(port);
    RSplitOnceAt(host, ':', Digits(port));
    U16RoundTrip(port);
    NormalHostIsFixed(host, port);
    assert authority[0] == host[0];
    assert '@' !in authority by {
      CharsOf(host, ':', Digits(port));
    }
  }

  lemma NormalHostIsFixed(host: string, port: nat)
    requires NormalHost(host)
    ensures NormalizeHost(host, port) == Some((host, port)) && '@' !in host && ':' !in host && host[0] != '['
  {
    LowerFixes(host);
  }

  /** `raw` is a way to write the host: in any case, with any number of trailing dots. */
  predicate Spells(raw: string, host: string) {
    && |host| <= |raw| && (forall i :: 0 <= i < |host| ==> LowerChar(raw[i]) == host[i])
    && forall i :: |host| <= i < |raw| ==> raw[i] == '.'
  }

  /** The authority names the host and port: a spelling of the host, alone or followed by a port. */
  ghost predicate Names(authority: string, defaultPort: nat, host: string, port: nat) {
    exists raw :: Spells(raw, host) && NamesAs(authority, defaultPort, raw, port)
  }

  ghost predicate NamesAs(authority: string, defaultPort: nat, raw: string, port: nat) {
    || (authority == raw && port == defaultPort)
    || (raw < authority && authority[|raw|] == ':' && ParseU16(authority[|raw| + 1..]) == Some(port))
  }

  lemma SpellingNormalizes(raw: string, host: string, port: nat)
    requires NormalHost(host)
    ensures NormalizeHost(raw, port) == Some((host, port)) <==> Spells(raw, host)
  {
    var trimmed := TrimDots(raw);
    if Spells(raw, host) {
      assert LowerChar(raw[|host| - 1]) == host[|host| - 1];
      assert |trimmed| == |host|;
      assert Lower(trimmed) == host;
    }
  }

  lemma SpellingChars(raw: string, host: string)
    requires NormalHost(host) && Spells(raw, host)
    ensures raw != "" && raw[0] != '[' && '@' !in raw && ':' !in raw
  {
    forall i | 0 <= i < |raw|
      ensures raw[i] != '[' && raw[i] != '@' && raw[i] != ':'
    {
      assert i < |host| ==> LowerChar(raw[i]) == host[i] && HostChar(host[i]);
    }
  }

  lemma {:induction false} DigitsOnly(s: string)
    requires DigitsValue(s).Some?
    ensures forall i :: 0 <= i < |s| ==> IsDigit(s[i])
  {
    if s != "" {
      DigitsOnly(s[..|s| - 1]);
    }
  }

  lemma PortChars(s: string)
    requires ParseU16(s).Some?
    ensures '@' !in s && ':' !in s
  {
    var digits := if s != "" && s[0] == '+' then s[1..] else s;
    DigitsOnly(digits);
    forall i | 0 <= i < |s|
      ensures s[i] != '@' && s[i] != ':'
    {
      assert s[0] == '+' && i > 0 ==> s[i] == digits[i - 1];
    }
  }

  lemma NamedParses(authority: string, defaultPort: nat, raw: string, host: string, port: nat)
    requires NormalHost(host) && defaultPort <= 0xffff && Spells(raw, host)
    requires NamesAs(authority, defaultPort, raw, port)
    ensures ParseAuthority(authority, defaultPort) == Some((host, port))
  {
    SpellingChars(raw, host);
    if authority == raw && port == defaultPort {
      SpellingNormalizes(raw, host, defaultPort);
    } else {
      var text := authority[|raw| + 1..];
      assert authority == raw + [':'] + text;
      PortChars(text);
      CharsOf(raw, ':', text);
      RSplitOnceAt(raw, ':', text);
      SpellingNormalizes(raw, host, port);
    }
  }

  /** `parse_authority` accepts an authority for a host and port exactly when it names them. */
  lemma AuthorityIffNamed(authority: string, defaultPort: nat, host: string, port: nat)
    requires defaultPort <= 0xffff
    ensures ParseAuthority(authority, defaultPort) == Some((host, port)) <==>
            NormalHost(host) && Names(authority, defaultPort, host, port)
  {
    if ParseAuthority(authority, defaultPort) == Some((host, port)) {
      var split := RSplitOnce(authority, ':');
      if split.Some? && ':' !in split.value.0 {
        var raw := split.value.0;
        SpellingNormalizes(raw, host, port);
        assert authority[|raw| + 1..] == split.value.1;
        assert NamesAs(authority, defaultPort, raw, port);
      } else {
        SpellingNormalizes(authority, host, port);
        assert NamesAs(authority, defaultPort, authority, port);
      }
    }
    if NormalHost(host) && Names(authority, defaultPort, host, port) {
      var raw :| Spells(raw, host) && NamesAs(authority, defaultPort, raw, port);
      NamedParses(authority, defaultPort, raw, host, port);
    }
  }

  // ---- Lines.

  predicate CrlfAt(s: string, i: nat) {
    i + 1 < |s| && s[i] == '\r' && s[i + 1] == '\n'
  }

  predicate CrlfFree(s: string) {
    forall i: nat :: i < |s| ==> !CrlfAt(s, i)
  }

  function FindCrlf(s: string): (r: Option<nat>)
    ensures r.None? ==> CrlfFree(s)
    ensures r.Some? ==> CrlfAt(s, r.value) && forall j: nat :: j < r.value ==> !CrlfAt(s, j)
  {
    if |s| < 2 then None
    else if CrlfAt(s, 0) then Some(0)
    else match FindCrlf(s[1..])
      case None =>
        assert forall i: nat :: 0 < i < |s| ==> CrlfAt(s, i) == CrlfAt(s[1..], i - 1);
        None
      case Some(i) =>
        assert forall j: nat :: 0 < j < |s| ==> CrlfAt(s, j) == CrlfAt(s[1..], j - 1);
        Some(i + 1)
  }

  /** `split("\r\n")`. */
  function SplitCrlf(s: string): (r: seq<string>)
    ensures r != [] && forall i :: 0 <= i < |r| ==> CrlfFree(r[i])
    decreases |s|
  {
    match FindCrlf(s)
    case None => [s]
    case Some(i) =>
      assert forall j: nat :: j < i && CrlfAt(s[..i], j) ==> CrlfAt(s, j);
      [s[..i]] + SplitCrlf(s[i + 2..])
  }

  predicate BlankAt(s: string, i: nat) {
    CrlfAt(s, i) && CrlfAt(s, i + 2)
  }

  /** Where the first blank line ends. */
  function BlankEnd(s: string): (r: Option<nat>)
    ensures r.Some? ==> 4 <= r.value <= |s| && BlankAt(s, r.value - 4)
    ensures r.Some? ==> forall j: nat :: j < r.value - 4 ==> !BlankAt(s, j)
    ensures r.None? ==> forall j: nat :: j < |s| ==> !BlankAt(s, j)
  {
    if |s| < 4 then None
    else if BlankAt(s, 0) then Some(4)
    else
      assert forall i: nat :: 0 < i < |s| ==> CrlfAt(s, i) == CrlfAt(s[1..], i - 1);
      match BlankEnd(s[1..])
      case None =>
        assert forall i: nat :: 0 < i < |s| ==> BlankAt(s, i) == BlankAt(s[1..], i - 1);
        None
      case Some(i) =>
        assert forall j: nat :: 0 < j < |s| ==> BlankAt(s, j) == BlankAt(s[1..], j - 1);
        Some(i + 1)
  }

  /** A message split at its first blank line: the lines before it and everything after it. */
  function Head(s: string): Option<(seq<string>, string)> {
    match BlankEnd(s)
    case None => None
    case Some(e) => Some((SplitCrlf(s[..e - 4]), s[e..]))
  }

  function Intercalate(lines: seq<string>): string
    requires lines != []
  {
    if |lines| == 1 then lines[0] else lines[0] + "\r\n" + Intercalate(lines[1..])
  }

  lemma CrlfOfJoin(a: string, b: string)
    requires CrlfFree(a)
    ensures forall j: nat :: j < |a| ==> !CrlfAt(a + "\r\n" + b, j)
    ensures CrlfAt(a + "\r\n" + b, |a|)
    ensures forall j: nat :: CrlfAt(a + "\r\n" + b, |a| + 2 + j) <==> CrlfAt(b, j)
  {
    var s := a + "\r\n" + b;
    forall j: nat | j < |a|
      ensures !CrlfAt(s, j)
    {
      assert j + 1 < |a| ==> CrlfAt(s, j) == CrlfAt(a, j);
      assert j + 1 == |a| ==> s[j + 1] == '\r';
    }
  }

  lemma {:induction false} SplitIntercalate(lines: seq<string>)
    requires lines != [] && forall i :: 0 <= i < |lines| ==> CrlfFree(lines[i])
    ensures SplitCrlf(Intercalate(lines)) == lines
  {
    if |lines| > 1 {
      var s, rest := Intercalate(lines), Intercalate(lines[1..]);
      CrlfOfJoin(lines[0], rest);
      assert FindCrlf(s) == Some(|lines[0]|);
      assert s[..|lines[0]|] == lines[0] && s[|lines[0]| + 2..] == rest;
      SplitIntercalate(lines[1..]);
    }
  }

  lemma {:induction false} NoEarlierBlank(lines: seq<string>, tail: string)
    requires lines != [] && forall i :: 0 <= i < |lines| ==> CrlfFree(lines[i]) && lines[i] != ""
    ensures var s := Intercalate(lines) + "\r\n\r\n" + tail;
            && (forall j: nat :: j < |Intercalate(lines)| ==> !BlankAt(s, j))
            && !CrlfAt(s, 0)
  {
    var s := Intercalate(lines) + "\r\n\r\n" + tail;
    if |lines| == 1 {
      assert s == lines[0] + "\r\n" + ("\r\n" + tail);
      CrlfOfJoin(lines[0], "\r\n" + tail);
    } else {
      var rest := Intercalate(lines[1..]) + "\r\n\r\n" + tail;
      assert s == lines[0] + "\r\n" + rest;
      CrlfOfJoin(lines[0], rest);
      NoEarlierBlank(lines[1..], tail);
      var n := |lines[0]|;
      forall j: nat | j < |Intercalate(lines)|
        ensures !BlankAt(s, j)
      {
        if j == n {
          assert CrlfAt(s, n + 2 + 0) <==> CrlfAt(rest, 0);
        } else if j >= n + 2 {
          assert CrlfAt(s, n + 2 + (j - n - 2)) <==> CrlfAt(rest, j - n - 2);
          assert CrlfAt(s, n + 2 + (j - n)) <==> CrlfAt(rest, j - n);
          assert !BlankAt(rest, j - n - 2);
        }
      }
    }
  }

  lemma BlankEndIs(s: string, i: nat)
    requires BlankAt(s, i) && forall j: nat :: j < i ==> !BlankAt(s, j)
    ensures BlankEnd(s) == Some(i + 4)
  {
  }

  lemma BlankAfter(text: string, tail: string)
    ensures var s := text + "\r\n\r\n" + tail;
            BlankAt(s, |text|) && s[..|text|] == text && s[|text| + 4..] == tail
  {
  }

  /** Printing nonempty lines and a blank line, then anything, is undone by splitting at the first blank line. */
  lemma HeadInverts(lines: seq<string>, tail: string)
    requires lines != [] && forall i :: 0 <= i < |lines| ==> CrlfFree(lines[i]) && lines[i] != ""
    ensures Head(Intercalate(lines) + "\r\n\r\n" + tail) == Some((lines, tail))
  {
    NoEarlierBlank(lines, tail);
    BlankAfter(Intercalate(lines), tail);
    BlankEndIs(Intercalate(lines) + "\r\n\r\n" + tail, |Intercalate(lines)|);
    SplitIntercalate(lines);
  }

  /** In a head cut before its first blank line only the first line can be empty. */
  lemma {:induction false} LaterLinesAreNonempty(s: string)
    requires forall j: nat :: j < |s| ==> !BlankAt(s + "\r\n", j)
    ensures forall i :: 1 <= i < |SplitCrlf(s)| ==> SplitCrlf(s)[i] != ""
    decreases |s|
  {
    match FindCrlf(s)
    case None =>
    case Some(i) =>
      var rest := s[i + 2..];
      var t := s + "\r\n";
      assert forall j: nat :: CrlfAt(rest + "\r\n", j) ==> CrlfAt(t, i + 2 + j);
      assert forall j: nat :: BlankAt(rest + "\r\n", j) ==> BlankAt(t, i + 2 + j);
      LaterLinesAreNonempty(rest);
      assert SplitCrlf(rest)[0] == "" ==> CrlfAt(rest + "\r\n", 0);
      assert CrlfAt(t, i) && (CrlfAt(t, i + 2) <==> CrlfAt(rest + "\r\n", 0));
      assert !BlankAt(t, i);
  }

  // ---- Requests.

  predicate IsWhitespace(c: char) {
    || '\t' <= c <= '\r' || c == ' ' || c == '\U{0085}' || c == '\U{00A0}' || c == '\U{1680}'
    || '\U{2000}' <= c <= '\U{200A}' || c == '\U{2028}' || c == '\U{2029}' || c == '\U{202F}' || c == '\U{205F}' ||
        c == '\U{3000}'
  }

  predicate Token(s: string) {
    s != "" && forall i :: 0 <= i < |s| ==> !IsWhitespace(s[i])
  }

  /** The longest prefix without whitespace. */
  function FirstWord(s: string): (r: string)
    ensures r <= s && forall i :: 0 <= i < |r| ==> !IsWhitespace(r[i])
    ensures s != "" && !IsWhitespace(s[0]) ==> r != ""
  {
    if s == "" || IsWhitespace(s[0]) then "" else [s[0]] + FirstWord(s[1..])
  }

  /** `split_whitespace`. */
  function SplitWhitespace(s: string): (r: seq<string>)
    ensures forall i :: 0 <= i < |r| ==> Token(r[i])
    decreases |s|
  {
    if s == "" then []
    else if IsWhitespace(s[0]) then SplitWhitespace(s[1..])
    else
      var w := FirstWord(s);
      [w] + SplitWhitespace(s[|w|..])
  }

  predicate IsProxyConnection(line: string) {
    var split := SplitOnce(line, ':');
    split.Some? && Lower(split.value.0) == "proxy-connection"
  }

  /** The header lines that are forwarded, in order. */
  function Kept(lines: seq<string>): (r: seq<string>)
    ensures forall x :: x in r ==> x in lines
  {
    if lines == [] then []
    else
      var rest := Kept(lines[..|lines| - 1]);
      if IsProxyConnection(lines[|lines| - 1]) then rest else rest + [lines[|lines| - 1]]
  }

  datatype ProxyRequest = ProxyRequest(connect: bool, host: string, port: nat, forward: string)

  /** An absolute-form target taken apart: `rest` is what follows the authority, `path` what is forwarded. */
  datatype Target = Target(authority: string, rest: string, host: string, port: nat, path: string)

  const SCHEME := "http://"

  /** The origin-form path for what follows the authority. A path of exactly two slashes loses one. */
  function OriginPath(rest: string): string {
    if rest == "" || rest == "/" || rest == "//" then "/" else rest
  }

  /** `split_once('/')` on an absolute target without its scheme: authority, what follows, forwarded path. */
  function SplitAuthority(absolute: string): (r: (string, string, string))
    ensures absolute == r.0 + r.1 && '/' !in r.0 && (r.1 == "" || r.1[0] == '/')
    ensures r.2 == OriginPath(r.1)
  {
    match SplitOnce(absolute, '/')
    case None => (absolute, "", "/")
    case Some((authority, path)) =>
      OriginPathOf(path);
      (authority, ['/'] + path, if path == "/" then "/" else "/" + path)
  }

  function ParseAbsolute(target: string): Option<Target> {
    if !(SCHEME <= target) then None
    else
      var (authority, rest, path) := SplitAuthority(target[|SCHEME|..]);
      match ParseAuthority(authority, 80)
      case None => None
      case Some((host, port)) => Some(Target(authority, rest, host, port, path))
  }

  /** What an accepted absolute-form target consists of, and the path that stands for it: the original path, with
      "/" for none, except that a path of exactly two slashes becomes one. */
  lemma AbsoluteTargetParts(target: string)
    requires ParseAbsolute(target).Some?
    ensures var t := ParseAbsolute(target).value;
            && target == SCHEME + t.authority + t.rest && '/' !in t.authority && (t.rest == "" || t.rest[0] == '/')
            && ParseAuthority(t.authority, 80) == Some((t.host, t.port))
            && t.path == OriginPath(t.rest) && (t.path == t.rest <==> t.rest != "" && t.rest != "//")
  {
    var (authority, rest, path) := SplitAuthority(target[|SCHEME|..]);
    PrefixParts(SCHEME, authority, rest, target);
    OriginPathKeeps(rest);
  }

  lemma SplitAuthorityAt(authority: string, rest: string)
    requires '/' !in authority && (rest == "" || rest[0] == '/')
    ensures SplitAuthority(authority + rest).0 == authority && SplitAuthority(authority + rest).1 == rest
  {
    if rest == "" {
      assert authority + rest == authority;
    } else {
      assert authority + rest == authority + ['/'] + rest[1..] && ['/'] + rest[1..] == rest;
      SplitOnceAt(authority, '/', rest[1..]);
    }
  }

  /** Conversely, every such target is accepted. */
  lemma AbsoluteTargetParses(target: string, authority: string, rest: string)
    requires SCHEME <= target && target[|SCHEME|..] == authority + rest
    requires ParseAuthority(authority, 80).Some? && '/' !in authority && (rest == "" || rest[0] == '/')
    ensures var t := ParseAbsolute(target);
            && t.Some? && t.value.authority == authority && t.value.rest == rest
            && (t.value.host, t.value.port) == ParseAuthority(authority, 80).value
  {
    SplitAuthorityAt(authority, rest);
  }

  lemma OriginPathKeeps(rest: string)
    ensures OriginPath(rest) == rest <==> rest != "" && rest != "//"
  {
    assert "/" != "//" && |"/"| == 1 && |"//"| == 2;
  }

  lemma BareHostParses(host: string)
    requires NormalHost(host)
    ensures ParseAuthority(host, 80) == Some((host, 80)) && '/' !in host
  {
    NormalHostIsFixed(host, 80);
  }

  /** The input that is not forwarded as it came: under any normal host the path of two slashes loses one. */
  lemma TwoSlashesLoseOne(host: string, target: string)
    requires NormalHost(host) && SCHEME <= target && target[|SCHEME|..] == host + ['/'] + "/"
    ensures ParseAbsolute(target) == Some(Target(host, ['/'] + "/", host, 80, "/"))
  {
    BareHostParses(host);
    SplitOnceAt(host, '/', "/");
  }

  lemma TwoSlashesInput()
    ensures var t := ParseAbsolute("http://h//"); t.Some? && t.value.rest == "//" && t.value.path == "/"
  {
    var target := "http://h//";
    assert target[|SCHEME|..] == "h" + ['/'] + "/" && ['/'] + "/" == "//";
    TwoSlashesLoseOne("h", target);
  }

  lemma PrefixParts(prefix: string, a: string, b: string, s: string)
    requires prefix <= s && s[|prefix|..] == a + b
    ensures s == prefix + a + b
  {
    assert s == prefix + s[|prefix|..];
  }

  lemma OriginPathOf(path: string)
    ensures OriginPath(['/'] + path) == if path == "/" then "/" else "/" + path
  {
    var rest := ['/'] + path;
    assert rest[1..] == path;
    assert "//"[1..] == "/" && "/"[1..] == "";
    assert path == "" ==> "/" + path == "/";
  }

  /** The lines before the first empty one. */
  function UntilEmpty(lines: seq<string>): seq<string> {
    if lines == [] || lines[0] == "" then [] else [lines[0]] + UntilEmpty(lines[1..])
  }

  lemma {:induction false} UntilEmptyIs(lines: seq<string>, i: nat)
    requires i <= |lines| && (forall j :: 0 <= j < i ==> lines[j] != "") && (i < |lines| ==> lines[i] == "")
    ensures UntilEmpty(lines) == lines[..i]
  {
    if i > 0 {
      UntilEmptyIs(lines[1..], i - 1);
      assert lines[..i] == [lines[0]] + lines[1..][..i - 1];
    }
  }

  lemma BlankLine(text: string, tail: string)
    ensures text + "\r\n" + "\r\n" + tail == text + "\r\n\r\n" + tail
  {
  }

  lemma KeptSnoc(lines: seq<string>, i: nat)
    requires i < |lines|
    ensures Kept(lines[..i + 1]) == Kept(lines[..i]) + if IsProxyConnection(lines[i]) then [] else [lines[i]]
  {
    assert lines[..i + 1][..i] == lines[..i];
  }

  /** The forwarded head up to the `i`-th header line. */
  function ForwardedSoFar(first: string, lines: seq<string>, i: nat): string
    requires i <= |lines|
  {
    Intercalate([first] + Kept(lines[..i]))
  }

  lemma OneLineMore(first: string, lines: seq<string>, i: nat)
    requires i < |lines|
    ensures IsProxyConnection(lines[i]) ==> ForwardedSoFar(first, lines, i + 1) == ForwardedSoFar(first, lines, i)
    ensures !IsProxyConnection(lines[i]) ==>
              ForwardedSoFar(first, lines, i + 1) == ForwardedSoFar(first, lines, i) + "\r\n" + lines[i]
  {
    KeptSnoc(lines, i);
    var kept := [first] + Kept(lines[..i]);
    if IsProxyConnection(lines[i]) {
      assert Kept(lines[..i]) + [] == Kept(lines[..i]);
    } else {
      IntercalateSnoc(kept, lines[i]);
      assert [first] + (Kept(lines[..i]) + [lines[i]]) == kept + [lines[i]];
    }
  }

  /** A header line is dropped exactly if its name is Proxy-Connection, in any case. */
  lemma DroppedByName(name: string, value: string)
    requires ':' !in name
    ensures Kept([name + [':'] + value]) == if Lower(name) == "proxy-connection" then [] else [name + [':'] + value]
  {
    SplitOnceAt(name, ':', value);
    var line := name + [':'] + value;
    assert [line][..0] == [];
  }

  /** A line without a name is forwarded. */
  lemma NamelessIsKept(line: string)
    requires ':' !in line
    ensures Kept([line]) == [line]
  {
    assert [line][..0] == [];
  }

  /** Each line is kept or dropped for itself, and the order stays. */
  lemma {:induction false} KeptPiecewise(a: seq<string>, b: seq<string>)
    ensures Kept(a + b) == Kept(a) + Kept(b)
  {
    if b == [] {
      assert a + b == a;
    } else {
      var n := |b| - 1;
      KeptPiecewise(a, b[..n]);
      assert (a + b)[..|a + b| - 1] == a + b[..n] && (a + b)[|a + b| - 1] == b[n];
      assert Kept(a) + Kept(b[..n]) + [b[n]] == Kept(a) + (Kept(b[..n]) + [b[n]]);
    }
  }

  /** The loop that builds the forwarded head: it stops at the first empty line. */
  method BuildForward(first: string, lines: seq<string>, tail: string) returns (forward: string)
    ensures forward == Intercalate([first] + Kept(UntilEmpty(lines))) + "\r\n\r\n" + tail
  {
    forward := first + "\r\n";
    assert [first] + Kept(lines[..0]) == [first];
    assert ForwardedSoFar(first, lines, 0) == first;
    var i := 0;
    while i < |lines| && lines[i] != ""
      invariant 0 <= i <= |lines| && forall j :: 0 <= j < i ==> lines[j] != ""
      invariant forward == ForwardedSoFar(first, lines, i) + "\r\n"
    {
      OneLineMore(first, lines, i);
      if !IsProxyConnection(lines[i]) {
        forward := forward + lines[i] + "\r\n";
      }
      i := i + 1;
    }
    UntilEmptyIs(lines, i);
    BlankLine(ForwardedSoFar(first, lines, i), tail);
    forward := forward + "\r\n" + tail;
  }

  /** Splitting loses nothing. */
  lemma {:induction false} IntercalateOfSplit(s: string)
    ensures Intercalate(SplitCrlf(s)) == s
    decreases |s|
  {
    match FindCrlf(s)
    case None =>
    case Some(i) =>
      IntercalateOfSplit(s[i + 2..]);
      assert SplitCrlf(s)[1..] == SplitCrlf(s[i + 2..]);
      assert s == s[..i] + "\r\n" + s[i + 2..];
  }

  /** Splitting the head with its blank line gives its lines and two empty ones. */
  lemma SplitWithBlank(body: string)
    ensures SplitCrlf(body + "\r\n\r\n") == SplitCrlf(body) + ["", ""]
  {
    var lines := SplitCrlf(body);
    IntercalateOfSplit(body);
    IntercalateSnoc(lines, "");
    IntercalateSnoc(lines + [""], "");
    assert lines + [""] + [""] == lines + ["", ""];
    SplitIntercalate(lines + ["", ""]);
    assert body + "\r\n" + "" + "\r\n" + "" == body + "\r\n\r\n";
  }

  /** Up to the first empty line after the request line, the split head is the head itself. */
  lemma HeadLines(header: string, end: nat)
    requires BlankEnd(header) == Some(end)
    ensures SplitCrlf(header[..end])[0] == SplitCrlf(header[..end - 4])[0]
    ensures UntilEmpty(SplitCrlf(header[..end])[1..]) == SplitCrlf(header[..end - 4])[1..]
  {
    var body := header[..end - 4];
    var lines := SplitCrlf(body);
    assert header[..end] == body + "\r\n\r\n";
    SplitWithBlank(body);
    NoBlankBefore(header, end);
    LaterLinesAreNonempty(body);
    assert (lines + ["", ""])[1..] == lines[1..] + ["", ""];
    UntilEmptyIs(lines[1..] + ["", ""], |lines| - 1);
  }

  lemma NoBlankBefore(header: string, end: nat)
    requires BlankEnd(header) == Some(end)
    ensures var t := header[..end - 4] + "\r\n"; forall j: nat :: j < end - 4 ==> !BlankAt(t, j)
  {
    var t := header[..end - 4] + "\r\n";
    assert forall k: nat :: CrlfAt(t, k) ==> CrlfAt(header, k);
    assert forall k: nat :: BlankAt(t, k) ==> BlankAt(header, k);
  }

  /** The parts of an accepted request line, and what routing needs of it. */
  datatype RequestLine = RequestLine(method_: string, target: string, version: string)

  function ParseRequestLine(line: string): (r: Option<RequestLine>)
    ensures r.Some? ==> Token(r.value.method_) && Token(r.value.target) && Token(r.value.version)
  {
    var parts := SplitWhitespace(line);
    if |parts| != 3 || !("HTTP/1." <= parts[2]) then None else Some(RequestLine(parts[0], parts[1], parts[2]))
  }

  /** A complete head whose request line names a CONNECT authority or an absolute target. */
  predicate Understood(header: string) {
    && Head(header).Some?
    && var line := ParseRequestLine(Head(header).value.0[0]);
      && line.Some?
      && if Lower(line.value.method_) == "connect" then ParseAuthority(line.value.target, 443).Some?
         else ParseAbsolute(line.value.target).Some?
  }

  /** `parse_request`. Exactly the understood requests are accepted; every accepted host is a normal form; a forwarded
      request, split at its first blank line, is a rebuilt request line, the original header lines without
      `Proxy-Connection` in order, and the same bytes after the blank line. */
  method ParseRequest(header: string) returns (r: Option<ProxyRequest>)
    ensures r.Some? <==> Understood(header)
    ensures r.Some? ==> Head(header).Some? && NormalHost(r.value.host) && r.value.port <= 0xffff
    ensures r.Some? ==>
            var line := ParseRequestLine(Head(header).value.0[0]);
            line.Some? && (r.value.connect <==> Lower(line.value.method_) == "connect")
    ensures r.Some? && r.value.connect ==>
            && r.value.forward == ""
            && ParseAuthority(ParseRequestLine(Head(header).value.0[0]).value.target, 443) ==
                Some((r.value.host, r.value.port))
    ensures r.Some? && !r.value.connect ==>
            var target := ParseAbsolute(ParseRequestLine(Head(header).value.0[0]).value.target);
            && target.Some? && target.value.host == r.value.host && target.value.port == r.value.port
            && Head(r.value.forward) ==
               Some(([FirstLine(ParseRequestLine(Head(header).value.0[0]).value, target.value)]
                       + Kept(Head(header).value.0[1..]),
                     Head(header).value.1))
  {
    var end := BlankEnd(header);
    if end.None? {
      return None;
    }
    var lines := SplitCrlf(header[..end.value]);
    HeadLines(header, end.value);
    var line := ParseRequestLine(lines[0]);
    if line.None? {
      return None;
    }
    if Lower(line.value.method_) == "connect" {
      var authority := ParseAuthority(line.value.target, 443);
      return if authority.None? then None else Some(ProxyRequest(true, authority.value.0, authority.value.1, ""));
    }
    r := ForwardAbsolute(header, end.value, line.value);
  }

  lemma ForwardedHead(header: string, end: nat, first: string)
    requires BlankEnd(header) == Some(end) && CrlfFree(first) && first != ""
    ensures var kept := [first] + Kept(SplitCrlf(header[..end - 4])[1..]);
            Head(Intercalate(kept) + "\r\n\r\n" + header[end..]) == Some((kept, header[end..]))
  {
    var later := SplitCrlf(header[..end - 4])[1..];
    var kept := [first] + Kept(later);
    HeaderLinesArePrintable(header, end);
    assert forall i :: 0 < i < |kept| ==> kept[i] in Kept(later);
    HeadInverts(kept, header[end..]);
  }

  /** The part of `parse_request` that rewrites an absolute-form request. */
  method ForwardAbsolute(header: string, end: nat, line: RequestLine) returns (r: Option<ProxyRequest>)
    requires BlankEnd(header) == Some(end) && ParseRequestLine(SplitCrlf(header[..end - 4])[0]) == Some(line)
    ensures r.Some? <==> ParseAbsolute(line.target).Some?
    ensures r.Some? ==> !r.value.connect && NormalHost(r.value.host) && r.value.port <= 0xffff
    ensures r.Some? ==>
            var target := ParseAbsolute(line.target);
            && target.Some? && target.value.host == r.value.host && target.value.port == r.value.port
            && Head(r.value.forward) ==
                Some(([FirstLine(line, target.value)] + Kept(SplitCrlf(header[..end - 4])[1..]), header[end..]))
  {
    var lines := SplitCrlf(header[..end]);
    HeadLines(header, end);
    var target := ParseAbsolute(line.target);
    if target.None? {
      return None;
    }
    var first := FirstLine(line, target.value);
    var forward := BuildForward(first, lines[1..], header[end..]);
    FirstLineIsPrintable(line, target.value);
    ForwardedHead(header, end, first);
    return Some(ProxyRequest(false, target.value.host, target.value.port, forward));
  }

  lemma {:induction false} IntercalateSnoc(lines: seq<string>, line: string)
    requires lines != []
    ensures Intercalate(lines + [line]) == Intercalate(lines) + "\r\n" + line
  {
    if |lines| > 1 {
      assert (lines + [line])[1..] == lines[1..] + [line];
      IntercalateSnoc(lines[1..], line);
    } else {
      assert (lines + [line])[1..] == [line];
    }
  }

  /** The request line that is forwarded. */
  function FirstLine(line: RequestLine, target: Target): string {
    line.method_ + " " + target.path + " " + line.version
  }

  lemma FirstLineIsPrintable(line: RequestLine, target: Target)
    requires Token(line.method_) && Token(line.target) && Token(line.version)
    requires ParseAbsolute(line.target) == Some(target)
    ensures CrlfFree(FirstLine(line, target)) && FirstLine(line, target) != ""
  {
    var first := FirstLine(line, target);
    PathChars(line.target);
    assert first == line.method_ + [' '] + target.path + [' '] + line.version;
    NoReturn(line.method_, line.target, target.path, line.version);
    NoReturnIsCrlfFree(first);
  }

  lemma {:induction false} FirstWordIs(w: string, rest: string)
    requires Token(w) && (rest == "" || IsWhitespace(rest[0]))
    ensures FirstWord(w + rest) == w
  {
    assert (w + rest)[0] == w[0] && (w + rest)[1..] == w[1..] + rest;
    if |w| == 1 {
      assert w[1..] + rest == rest && w == [w[0]];
    } else {
      FirstWordIs(w[1..], rest);
      assert w == [w[0]] + w[1..];
    }
  }

  lemma WordThenSpace(w: string, rest: string)
    requires Token(w)
    ensures SplitWhitespace(w + [' '] + rest) == [w] + SplitWhitespace(rest)
  {
    var s := w + [' '] + rest;
    assert s == w + ([' '] + rest);
    FirstWordIs(w, [' '] + rest);
    assert s[|w|..] == [' '] + rest && ([' '] + rest)[1..] == rest;
    assert s[0] == w[0];
  }

  lemma LastWord(w: string)
    requires Token(w)
    ensures SplitWhitespace(w) == [w]
  {
    assert w + "" == w;
    FirstWordIs(w, "");
  }

  /** Three words split into themselves. */
  lemma WordsSplit(a: string, b: string, c: string)
    requires Token(a) && Token(b) && Token(c)
    ensures SplitWhitespace(a + " " + b + " " + c) == [a, b, c]
  {
    assert a + " " + b + " " + c == a + [' '] + (b + [' '] + c);
    WordThenSpace(a, b + [' '] + c);
    WordThenSpace(b, c);
    LastWord(c);
  }

  /** A request line is read exactly from three words whose last names HTTP/1. */
  lemma RequestLineParses(a: string, b: string, c: string)
    requires Token(a) && Token(b) && Token(c)
    ensures ParseRequestLine(a + " " + b + " " + c) == if "HTTP/1." <= c then Some(RequestLine(a, b, c)) else None
  {
    WordsSplit(a, b, c);
  }

  /** The forwarded request line, read again, is the original with the path in place of the absolute target. */
  lemma ForwardedLineParses(text: string, line: RequestLine, target: Target)
    requires ParseRequestLine(text) == Some(line) && ParseAbsolute(line.target) == Some(target)
    ensures ParseRequestLine(FirstLine(line, target)) == Some(line.(target := target.path))
  {
    PathChars(line.target);
    assert target.path != "";
    forall i | 0 <= i < |target.path|
      ensures !IsWhitespace(target.path[i])
    {
      assert target.path[i] in target.path;
    }
    WordsSplit(line.method_, target.path, line.version);
  }

  lemma NoReturn(a: string, target: string, path: string, b: string)
    requires Token(a) && Token(target) && Token(b) && forall c :: c in path ==> c == '/' || c in target
    ensures '\r' !in a + [' '] + path + [' '] + b
  {
    assert '\r' !in a && '\r' !in target && '\r' !in b;
    CharsOf(a, ' ', path);
    CharsOf(a + [' '] + path, ' ', b);
  }

  lemma NoReturnIsCrlfFree(s: string)
    requires '\r' !in s
    ensures CrlfFree(s)
  {
  }

  lemma PathChars(target: string)
    requires ParseAbsolute(target).Some?
    ensures forall c :: c in ParseAbsolute(target).value.path ==> c == '/' || c in target
  {
    AbsoluteTargetParts(target);
  }

  lemma HeaderLinesArePrintable(header: string, end: nat)
    requires BlankEnd(header) == Some(end)
    ensures forall x :: x in Kept(SplitCrlf(header[..end - 4])[1..]) ==> CrlfFree(x) && x != ""
  {
    var body := header[..end - 4];
    var lines := SplitCrlf(body);
    NoBlankBefore(header, end);
    LaterLinesAreNonempty(body);
    forall x | x in lines[1..]
      ensures CrlfFree(x) && x != ""
    {
      var k :| 0 <= k < |lines[1..]| && lines[1..][k] == x;
      assert lines[k + 1] == x;
    }
  }
}
