/** The splitting of a stream URL into TLS flag, host, port and request path,
    and the URL text that splits back into a given target. */
module Url {
  import opened Text

  /** Where a connection goes. */
  datatype Target = Target(useTls: bool, port: int, host: string, path: string)

  /** A URL whose trimmed text has neither scheme is rejected before anything
      is written; any other URL is split into a target, and it is accepted
      only when the host part of that target is non-empty. */
  datatype UrlSplit = SchemeRejected | Split(target: Target)

  const HttpsScheme: string := "https://"
  const HttpScheme: string := "http://"
  const HttpsPort: int := 443
  const HttpPort: int := 80

  function ParseUrl(url: string): (r: UrlSplit)
    ensures var u := StripEdges(url);
      r.SchemeRejected? <==> !StartsWith(u, HttpsScheme) && !StartsWith(u, HttpScheme)
    ensures r.Split? ==> (r.target.useTls <==> StartsWith(StripEdges(url), HttpsScheme))
    ensures r.Split? ==> |r.target.path| > 0 && r.target.path[0] == '/'
    ensures r.Split? ==> '/' !in r.target.host
  {
    var u := StripEdges(url);
    if StartsWith(u, HttpsScheme) then Split(SplitAuthority(u[|HttpsScheme|..], true, HttpsPort))
    else if StartsWith(u, HttpScheme) then Split(SplitAuthority(u[|HttpScheme|..], false, HttpPort))
    else SchemeRejected
  }

  /** parse_url succeeds exactly when the scheme is known and the host is non-empty. */
  predicate Accepted(url: string) {
    ParseUrl(url).Split? && ParseUrl(url).target.host != []
  }

  /** What follows the scheme: the path runs from the first '/' (it is "/" when
      there is none), and a ':' in what precedes it, the last one, separates
      the host from a port that overrides the scheme's default. */
  function SplitAuthority(rest: string, useTls: bool, defaultPort: int): (t: Target)
    ensures t.useTls == useTls
    ensures |t.path| > 0 && t.path[0] == '/'
    ensures '/' !in t.host
  {
    var (hostPort, path) := SplitPath(rest);
    var (host, port) := SplitPort(hostPort, defaultPort);
    Target(useTls, port, host, path)
  }

  /** The host-and-port part before the first '/' and the path from it on;
      without a '/' the whole rest is the host part and the path is "/". */
  function SplitPath(rest: string): (r: (string, string))
    ensures '/' !in r.0 && |r.1| > 0 && r.1[0] == '/'
    ensures '/' !in rest ==> r == (rest, "/")
    ensures '/' in rest ==> r.0 + r.1 == rest
  {
    match IndexOf(rest, '/')
    case None => (rest, "/")
    case Some(slash) =>
      assert rest[..slash] + rest[slash..] == rest;
      (rest[..slash], rest[slash..])
  }

  /** The host before the last ':' and the integer reading of what follows it;
      without a ':' the whole part is the host and the port is the default. */
  function SplitPort(hostPort: string, defaultPort: int): (r: (string, int))
    ensures '/' !in hostPort ==> '/' !in r.0
    ensures ':' !in hostPort ==> r == (hostPort, defaultPort)
    ensures ':' in hostPort ==> |r.0| < |hostPort| && r.1 == ToInt(hostPort[|r.0| + 1..]) && r.0 + [':'] + hostPort[|r.0| + 1..] == hostPort && ':' !in hostPort[|r.0| + 1..]
  {
    match LastIndexOf(hostPort, ':')
    case None => (hostPort, defaultPort)
    case Some(colon) =>
      assert forall k :: 0 <= k < colon ==> hostPort[..colon][k] == hostPort[k];
      assert hostPort[..colon] + [':'] + hostPort[colon + 1..] == hostPort;
      (hostPort[..colon], ToInt(hostPort[colon + 1..]))
  }

  /** The URL that names a target explicitly: scheme, host, ':' and the port in
      decimal, then the path. */
  function FormatUrl(t: Target): (url: string)
    requires t.port >= 0
  {
    (if t.useTls then HttpsScheme else HttpScheme) + t.host + ":" + NatToString(t.port) + t.path
  }

  /** The targets FormatUrl can write down so that they split back unchanged. */
  predicate Writable(t: Target) {
    && t.port >= 0
    && t.host != [] && '/' !in t.host
    && |t.path| > 0 && t.path[0] == '/' && !IsEdgeSpace(t.path[|t.path| - 1])
  }

  /** The scheme decides TLS and the default port; the rest is split on its own. */
  lemma SchemeSplit(useTls: bool, rest: string)
    requires rest != [] && !IsEdgeSpace(rest[|rest| - 1])
    ensures var scheme := if useTls then HttpsScheme else HttpScheme;
      ParseUrl(scheme + rest) == Split(SplitAuthority(rest, useTls, if useTls then HttpsPort else HttpPort))
  {
    var scheme := if useTls then HttpsScheme else HttpScheme;
    Prefixed(scheme, rest);
    if !useTls {
      HttpIsNotHttps(scheme + rest);
    }
  }

  /** A scheme in front of text that ends in a visible character survives the
      trim, and what follows it is that text. */
  lemma Prefixed(scheme: string, rest: string)
    requires scheme != [] && !IsEdgeSpace(scheme[0])
    requires rest != [] && !IsEdgeSpace(rest[|rest| - 1])
    ensures StripEdges(scheme + rest) == scheme + rest
    ensures StartsWith(scheme + rest, scheme) && (scheme + rest)[|scheme|..] == rest
  {
    var url := scheme + rest;
    assert url[0] == scheme[0] && url[|url| - 1] == rest[|rest| - 1];
    StripEdgesUnchanged(url);
    assert url[..|scheme|] == scheme;
  }

  /** "http://" and "https://" differ at their fifth character. */
  lemma HttpIsNotHttps(url: string)
    requires StartsWith(url, HttpScheme)
    ensures !StartsWith(url, HttpsScheme)
  {
    assert url[4] == HttpScheme[4];
  }

  /** Round trip: a written target splits back into itself and is accepted. */
  lemma ParseFormat(t: Target)
    requires Writable(t)
    ensures ParseUrl(FormatUrl(t)) == Split(t)
    ensures Accepted(FormatUrl(t))
  {
    var digits := NatToString(t.port);
    var hostPort := t.host + ":" + digits;
    var rest := hostPort + t.path;
    assert FormatUrl(t) == (if t.useTls then HttpsScheme else HttpScheme) + rest;
    assert rest[|rest| - 1] == t.path[|t.path| - 1];
    SplitRestPath(hostPort, t.path);
    SplitHostPort(t, digits);
    SchemeSplit(t.useTls, rest);
  }

  /** The last ':' of host ":" digits is the one before the digits, and the
      digits read back as the port. */
  lemma SplitHostPort(t: Target, digits: string)
    requires t.port >= 0 && digits == NatToString(t.port)
    ensures var hostPort := t.host + ":" + digits;
      && LastIndexOf(hostPort, ':') == Some(|t.host|)
      && hostPort[..|t.host|] == t.host
      && ToInt(hostPort[|t.host| + 1..]) == t.port
  {
    var hostPort := t.host + ":" + digits;
    assert hostPort[|t.host| + 1..] == digits;
    assert ':' !in digits by {
      forall k | 0 <= k < |digits| ensures digits[k] != ':' {
        assert IsDigit(digits[k]);
      }
    }
    LastIndexOfLast(hostPort, ':', |t.host|);
    assert hostPort[..|t.host|] == t.host;
    ToIntOfDigits(digits);
    DecimalValueOfNatToString(t.port);
  }

  /** In a host part free of '/' followed by a path, the path starts at the first '/'. */
  lemma SplitRestPath(hostPort: string, path: string)
    requires '/' !in hostPort && |path| > 0 && path[0] == '/'
    ensures var rest := hostPort + path;
      && IndexOf(rest, '/') == Some(|hostPort|)
      && rest[..|hostPort|] == hostPort
      && rest[|hostPort|..] == path
  {
    var rest := hostPort + path;
    assert rest[..|hostPort|] == hostPort;
    IndexOfFirst(rest, '/', |hostPort|);
    assert rest[|hostPort|..] == path;
  }

  /** Without a ':' in the host part the port is the scheme's default: 443
      with TLS, 80 without. */
  lemma DefaultPort(useTls: bool, host: string, path: string)
    requires host != [] && '/' !in host && ':' !in host
    requires |path| > 0 && path[0] == '/' && !IsEdgeSpace(path[|path| - 1])
    ensures var scheme := if useTls then HttpsScheme else HttpScheme;
      ParseUrl(scheme + host + path) == Split(Target(useTls, if useTls then HttpsPort else HttpPort, host, path))
  {
    var scheme := if useTls then HttpsScheme else HttpScheme;
    var rest := host + path;
    assert scheme + host + path == scheme + rest;
    assert rest[|rest| - 1] == path[|path| - 1];
    SplitRestPath(host, path);
    SchemeSplit(useTls, rest);
  }

  /** Surrounding blanks and control characters do not change the split. */
  lemma TrimmedFirst(url: string)
    ensures ParseUrl(url) == ParseUrl(StripEdges(url))
  {
    var u := StripEdges(url);
    if u != [] {
      StripEdgesUnchanged(u);
    }
  }
}
