/** The part of Python's `urllib.parse` the core uses: `urlparse` splits a
    URL into scheme, network location, path, parameters, query and fragment;
    the `hostname` and `port` attributes read the network location. */
module Urls {
  import opened Wrappers
  import opened Strings

  datatype ParsedUrl = ParsedUrl(
    scheme: string, netloc: string, path: string, params: string, query: string, fragment: string)

  /** What the `port` attribute gives: no port, a port number, or the
      `ValueError` it raises for a malformed or out-of-range port. */
  datatype PortField = NoPort | PortNumber(number: nat) | InvalidPort

  predicate IsAsciiLetter(ch: char)
  {
    'a' <= ch <= 'z' || 'A' <= ch <= 'Z'
  }

  predicate IsSchemeChar(ch: char)
  {
    IsAsciiLetter(ch) || IsDigit(ch) || ch == '+' || ch == '-' || ch == '.'
  }

  /** The schemes whose last path segment has `;parameters` split off. */
  const UsesParams: seq<string> := [
    "", "ftp", "hdl", "prospero", "http", "imap", "https", "shttp", "rtsp",
    "rtsps", "rtspu", "sip", "sips", "mms", "sftp", "tel"]

  /** Index of the last `c` in `s`, or `|s|` when there is none. */
  function LastIndexOf(s: string, c: char): (i: nat)
    ensures i <= |s|
    ensures i < |s| <==> c in s
    ensures i < |s| ==> s[i] == c && c !in s[i + 1..]
  {
    if s == [] then 0
    else if s[|s| - 1] == c then |s| - 1
    else
      var j := LastIndexOf(s[..|s| - 1], c);
      if j < |s| - 1 then
        assert s[j + 1..] == s[..|s| - 1][j + 1..] + [s[|s| - 1]];
        j
      else
        assert c !in s[..|s| - 1] + [s[|s| - 1]] by { assert c !in s[..|s| - 1]; }
        assert s == s[..|s| - 1] + [s[|s| - 1]];
        |s|
  }

  function Min(a: nat, b: nat): nat
  {
    if a <= b then a else b
  }

  /** `_splitnetloc`: the network location ends at the first `/`, `?` or `#`. */
  function NetlocEnd(s: string): (d: nat)
    ensures d <= |s|
  {
    Min(Min(IndexOf(s, '/'), IndexOf(s, '?')), IndexOf(s, '#'))
  }

  /** `_splitparams`: `;parameters` are looked for after the last `/`. */
  function SplitParams(path: string): (string, string)
  {
    if '/' in path then
      var slash := LastIndexOf(path, '/');
      var j := IndexOf(path[slash..], ';');
      if j == |path[slash..]| then (path, "")
      else (path[..slash + j], path[slash + j + 1..])
    else
      var i := IndexOf(path, ';');
      if i == |path| then (path, "") else (path[..i], path[i + 1..])
  }

  /** The length of the scheme prefix of `url`, when it has one. */
  function SchemeLength(url: string): Option<nat>
  {
    var i := IndexOf(url, ':');
    if 0 < i < |url| && IsAsciiLetter(url[0]) && forall k :: 0 <= k < i ==> IsSchemeChar(url[k])
    then Some(i) else None
  }

  /** `urllib.parse.urlparse(url)`. */
  function UrlParse(url: string): ParsedUrl
  {
    var (scheme, afterScheme) :=
      match SchemeLength(url)
      case Some(i) => (AsciiLower(url[..i]), url[i + 1..])
      case None => ("", url);
    var (netloc, afterNetloc) :=
      if |afterScheme| >= 2 && afterScheme[..2] == "//" then
        var rest := afterScheme[2..];
        (rest[..NetlocEnd(rest)], rest[NetlocEnd(rest)..])
      else ("", afterScheme);
    var (beforeFragment, fragment) :=
      if '#' in afterNetloc then (BeforeFirst(afterNetloc, '#'), AfterFirst(afterNetloc, '#'))
      else (afterNetloc, "");
    var (beforeQuery, query) :=
      if '?' in beforeFragment then (BeforeFirst(beforeFragment, '?'), AfterFirst(beforeFragment, '?'))
      else (beforeFragment, "");
    var split :=
      if scheme in UsesParams && ';' in beforeQuery then SplitParams(beforeQuery)
      else (beforeQuery, "");
    ParsedUrl(scheme, netloc, split.0, split.1, query, fragment)
  }

  /** The host part of a network location: after the last `@`, before the
      first `:`. */
  function HostInfo(netloc: string): string
  {
    var afterAt := if '@' in netloc then netloc[LastIndexOf(netloc, '@') + 1..] else netloc;
    afterAt
  }

  /** The `hostname` attribute: `None` when empty, lower-cased up to a `%`
      zone suffix otherwise. */
  function Hostname(netloc: string): Option<string>
  {
    var host := BeforeFirst(HostInfo(netloc), ':');
    if host == "" then None
    else if '%' in host then Some(AsciiLower(BeforeFirst(host, '%')) + host[IndexOf(host, '%')..])
    else Some(AsciiLower(host))
  }

  /** The `port` attribute. */
  function Port(netloc: string): PortField
  {
    var info := HostInfo(netloc);
    if ':' !in info then NoPort
    else
      var text := AfterFirst(info, ':');
      if text == "" then NoPort
      else match ParseNat(text)
        case None => InvalidPort
        case Some(n) => if n <= 65535 then PortNumber(n) else InvalidPort
  }

  // ---- the shape `https://host[:port]` ----

  /** A host name that `urlparse` gives back unchanged. */
  predicate PlainHost(host: string)
  {
    && host != ""
    && AsciiLower(host) == host
    && forall k :: 0 <= k < |host| ==> host[k] !in {':', '/', '?', '#', '@', '%', '[', ']'} && !IsSpace(host[k])
  }

  /** `https://` is read as the scheme `https` followed by `//`. */
  lemma HttpsScheme(rest: string)
    ensures SchemeLength("https://" + rest) == Some(5)
    ensures ("https://" + rest)[6..] == "//" + rest
  {
    var url := "https://" + rest;
    assert url == "https" + [':'] + ("//" + rest);
    IndexOfAfter("https", ':', "//" + rest);
  }

  lemma {:induction false} HttpsNetloc(host: string, tail: string)
    requires PlainHost(host)
    requires '/' !in tail && '?' !in tail && '#' !in tail
    ensures UrlParse("https://" + host + tail).netloc == host + tail
  {
    var rest := host + tail;
    assert "https://" + host + tail == "https://" + rest;
    HttpsScheme(rest);
    assert ("//" + rest)[2..] == rest;
    assert NetlocEnd(rest) == |rest| by {
      assert '/' !in rest && '?' !in rest && '#' !in rest by {
        forall k | 0 <= k < |rest| ensures rest[k] !in {'/', '?', '#'} {
          if k < |host| { assert rest[k] == host[k]; } else { assert rest[k] == tail[k - |host|]; }
        }
      }
    }
  }

  /** `host:port` splits at its first `:` into the host and the digits. */
  lemma HostPortSplit(host: string, port: nat)
    requires PlainHost(host)
    ensures var netloc := host + ":" + NatToString(port);
      HostInfo(netloc) == netloc && ':' in netloc &&
      BeforeFirst(netloc, ':') == host && AfterFirst(netloc, ':') == NatToString(port)
  {
    var digits := NatToString(port);
    var netloc := host + ":" + digits;
    assert '@' !in netloc by {
      NatToStringHasNo(port, '@');
      forall k | 0 <= k < |netloc| ensures netloc[k] != '@' {
        if k < |host| { assert netloc[k] == host[k]; }
        else if k > |host| { assert netloc[k] == digits[k - |host| - 1]; }
      }
    }
    assert IndexOf(netloc, ':') == |host| by {
      assert ':' !in host by { forall k | 0 <= k < |host| ensures host[k] != ':' { } }
      IndexOfAfter(host, ':', digits);
      assert netloc == host + [':'] + digits;
    }
    assert netloc[..|host|] == host;
    assert netloc[|host| + 1..] == digits;
  }

  /** The network location `host:port` names `host` and `port`. */
  lemma {:induction false} HostAndPort(host: string, port: nat)
    requires PlainHost(host) && port <= 65535
    ensures Hostname(host + ":" + NatToString(port)) == Some(host)
    ensures Port(host + ":" + NatToString(port)) == PortNumber(port)
  {
    HostPortSplit(host, port);
    assert '%' !in host by { forall k | 0 <= k < |host| ensures host[k] != '%' { } }
    NatToStringRoundTrip(port);
  }

  /** `https://host:port` names `host` and `port`. */
  lemma {:induction false} HttpsUrlWithPort(host: string, port: nat)
    requires PlainHost(host) && port <= 65535
    ensures Hostname(UrlParse("https://" + host + ":" + NatToString(port)).netloc) == Some(host)
    ensures Port(UrlParse("https://" + host + ":" + NatToString(port)).netloc) == PortNumber(port)
  {
    var digits := NatToString(port);
    var url := "https://" + host + ":" + digits;
    assert UrlParse(url).netloc == host + ":" + digits by {
      NatToStringHasNo(port, '/');
      NatToStringHasNo(port, '?');
      NatToStringHasNo(port, '#');
      var tail := ":" + digits;
      assert '/' !in tail && '?' !in tail && '#' !in tail;
      assert url == "https://" + host + tail;
      HttpsNetloc(host, tail);
      assert host + tail == host + ":" + digits;
    }
    HostAndPort(host, port);
  }

  /** `https://host` names `host` and no port. */
  lemma {:induction false} HttpsUrlWithoutPort(host: string)
    requires PlainHost(host)
    ensures Hostname(UrlParse("https://" + host).netloc) == Some(host)
    ensures Port(UrlParse("https://" + host).netloc) == NoPort
  {
    assert "https://" + host == "https://" + host + "";
    HttpsNetloc(host, "");
    assert host + "" == host;
    assert '@' !in host by { forall k | 0 <= k < |host| ensures host[k] != '@' { } }
    assert ':' !in host by { forall k | 0 <= k < |host| ensures host[k] != ':' { } }
    assert '%' !in host by { forall k | 0 <= k < |host| ensures host[k] != '%' { } }
  }
}
