/** Which Ingresses get a monitor, and the URL a monitor checks
    (`pkg/monitor/url.go`). Only the first TLS entry and the first rule are ever
    consulted. `url.Parse` is an oracle (a `Parser`); `URL.String` is modelled for
    the scheme, host and path, including the path's percent-escaping and the '/'
    it puts before a relative path. */
module MonitorUrl {
  import opened Outcomes
  import opened Kube
  import Annotations

  const NginxForceSSLRedirect: string := "nginx.ingress.kubernetes.io/force-ssl-redirect"

  /** Wildcard hosts are recognised by a plain substring test for '*'. */
  predicate ContainsWildcard(host: string)
  {
    '*' in host
  }

  /** The Ingress declares a first TLS entry whose first host is non-empty. */
  predicate SupportsTLS(ing: Ingress)
  {
    |ing.tls| > 0 && |ing.tls[0].hosts| > 0 && |ing.tls[0].hosts[0]| > 0
  }

  /** `force-https` or nginx's `force-ssl-redirect` reads as true. */
  predicate ForceHTTPS(ing: Ingress)
  {
    Annotations.BoolValue(ing.annotations, Annotations.ForceHTTPS, [])
    || Annotations.BoolValue(ing.annotations, NginxForceSSLRedirect, [])
  }

  /** There is a host to monitor: a TLS host or at least one rule. */
  predicate HasHost(ing: Ingress)
  {
    SupportsTLS(ing) || |ing.rules| > 0
  }

  /** `isSupported`: a usable TLS host decides on its own; otherwise the
      Ingress needs a first rule whose host has no wildcard. */
  function IsSupported(ing: Ingress): (r: bool)
    ensures r ==> HasHost(ing)
    ensures |ing.tls| > 0 && |ing.tls[0].hosts| > 0 && ing.tls[0].hosts[0] != "" ==>
              (r <==> '*' !in ing.tls[0].hosts[0])
    ensures !(|ing.tls| > 0 && |ing.tls[0].hosts| > 0 && ing.tls[0].hosts[0] != "") ==>
              (r <==> |ing.rules| > 0 && '*' !in ing.rules[0].host)
  {
    if SupportsTLS(ing) then !ContainsWildcard(ing.tls[0].hosts[0])
    else if |ing.rules| == 0 then false
    else !ContainsWildcard(ing.rules[0].host)
  }

  /** `getHost`: the scheme-qualified host, by the precedence TLS, then
      force-https / force-ssl-redirect, then plain http. */
  function GetHost(ing: Ingress): (r: string)
    requires HasHost(ing)
    ensures SupportsTLS(ing) ==> r == "https://" + ing.tls[0].hosts[0]
    ensures !SupportsTLS(ing) && ForceHTTPS(ing) ==> r == "https://" + ing.rules[0].host
    ensures !SupportsTLS(ing) && !ForceHTTPS(ing) ==> r == "http://" + ing.rules[0].host
  {
    if SupportsTLS(ing) then "https://" + ing.tls[0].hosts[0]
    else if ForceHTTPS(ing) then "https://" + ing.rules[0].host
    else "http://" + ing.rules[0].host
  }

  /** The fields of a `net/url.URL` this model uses. */
  datatype Url = Url(scheme: string, host: string, path: string)

  /** `url.Parse`, supplied by the caller. */
  type Parser = string -> Result<Url>

  /** A character `URL.EscapedPath` writes as it is: an ASCII letter or
      digit, one of the unreserved "-_.~", or one of "$&+,/:;=@". */
  predicate PathSafe(c: char)
  {
    ('a' <= c <= 'z') || ('A' <= c <= 'Z') || ('0' <= c <= '9') || c in "-_.~$&+,/:;=@"
  }

  /** The UTF-8 encoding of a character, one byte per element. */
  function Utf8(c: char): (bs: seq<int>)
    ensures 1 <= |bs| <= 4
    ensures forall i :: 0 <= i < |bs| ==> 0 <= bs[i] < 256
    ensures |bs| == 1 <==> c as int < 0x80
    ensures |bs| == 1 ==> bs[0] == c as int
  {
    var n := c as int;
    if n < 0x80 then [n]
    else if n < 0x800 then [0xC0 + n / 64, 0x80 + n % 64]
    else if n < 0x10000 then [0xE0 + n / 4096, 0x80 + (n / 64) % 64, 0x80 + n % 64]
    else [0xF0 + n / 262144, 0x80 + (n / 4096) % 64, 0x80 + (n / 64) % 64, 0x80 + n % 64]
  }

  const HexDigits: string := "0123456789ABCDEF"

  /** Each byte written as '%' and two upper-case hex digits. */
  function PercentBytes(bs: seq<int>): (r: string)
    requires forall i :: 0 <= i < |bs| ==> 0 <= bs[i] < 256
    ensures |r| == 3 * |bs|
    ensures forall i :: 0 <= i < |r| ==> r[i] == '%' || r[i] in HexDigits
    decreases |bs|
  {
    if |bs| == 0 then []
    else ['%', HexDigits[bs[0] / 16], HexDigits[bs[0] % 16]] + PercentBytes(bs[1..])
  }

  /** One character of an escaped path. */
  function EscapeChar(c: char): string
  {
    if PathSafe(c) then [c] else PercentBytes(Utf8(c))
  }

  /** Go's `escape(p, encodePath)`: every character that is not path-safe is
      replaced by its UTF-8 bytes, each as '%' and two hex digits. The result
      holds only path-safe characters and escapes, so never a space, '?' or
      '#'. */
  function EscapePath(p: string): (r: string)
    ensures forall i :: 0 <= i < |r| ==> PathSafe(r[i]) || r[i] == '%'
    ensures |r| >= |p|
    decreases |p|
  {
    if |p| == 0 then ""
    else EscapeChar(p[0]) + EscapePath(p[1..])
  }

  /** A path of path-safe characters is written unchanged, and only such a
      path is: any other character makes the escaped text longer. */
  lemma {:induction false} EscapePathIdentity(p: string)
    ensures EscapePath(p) == p <==> forall i :: 0 <= i < |p| ==> PathSafe(p[i])
    decreases |p|
  {
    if |p| > 0 {
      EscapePathIdentity(p[1..]);
      var e, rest := EscapeChar(p[0]), EscapePath(p[1..]);
      assert EscapePath(p) == e + rest;
      if PathSafe(p[0]) {
        assert p == [p[0]] + p[1..];
        if forall i :: 0 <= i < |p| ==> PathSafe(p[i]) {
          assert forall i :: 0 <= i < |p[1..]| ==> PathSafe(p[1..][i]) by {
            forall i | 0 <= i < |p[1..]| ensures PathSafe(p[1..][i]) {
              assert p[1..][i] == p[i + 1];
            }
          }
        } else {
          var j :| 0 <= j < |p| && !PathSafe(p[j]);
          assert !PathSafe(p[1..][j - 1]);
          assert rest != p[1..];
        }
      } else {
        assert |e| >= 3;
        assert |EscapePath(p)| > |p|;
      }
    }
  }

  /** Escaping a concatenation is escaping each part. */
  lemma {:induction false} EscapePathAppend(a: string, b: string)
    ensures EscapePath(a + b) == EscapePath(a) + EscapePath(b)
    decreases |a|
  {
    if |a| == 0 {
      assert a + b == b;
    } else {
      assert (a + b)[0] == a[0];
      assert (a + b)[1..] == a[1..] + b;
      EscapePathAppend(a[1..], b);
    }
  }

  /** One byte is written as '%' and its two hex digits. */
  lemma PercentByte(b: int)
    requires 0 <= b < 256
    ensures PercentBytes([b]) == ['%', HexDigits[b / 16], HexDigits[b % 16]]
  {
    assert PercentBytes([b]) == ['%', HexDigits[b / 16], HexDigits[b % 16]] + PercentBytes([]);
  }

  /** A path of two safe characters around one escaped one. */
  lemma EscapeMiddle(a: char, m: char, b: char)
    requires PathSafe(a) && PathSafe(b) && !PathSafe(m)
    ensures EscapePath([a, m, b]) == [a] + PercentBytes(Utf8(m)) + [b]
  {
    assert [a, m, b][1..] == [m, b];
    assert [m, b][1..] == [b];
    assert [b][1..] == [];
    assert EscapePath([b]) == [b];
    assert EscapePath([m, b]) == PercentBytes(Utf8(m)) + [b];
    assert EscapePath([a, m, b]) == [a] + (PercentBytes(Utf8(m)) + [b]);
  }

  /** A space in a path is written "%20". */
  lemma EscapeSpace()
    ensures EscapePath("a b") == "a%20b"
  {
    EscapeMiddle('a', ' ', 'b');
    assert Utf8(' ') == [32];
    PercentByte(32);
  }

  /** A question mark in a path is written "%3F", so it does not start a query. */
  lemma EscapeQuestion()
    ensures EscapePath("x?y") == "x%3Fy"
  {
    EscapeMiddle('x', '?', 'y');
    assert Utf8('?') == [63];
    PercentByte(63);
  }

  /** `URL.EscapedPath` for a URL without a raw path: the path "*" is kept
      as it is, any other path goes through `EscapePath`. */
  function EscapedPath(p: string): (r: string)
    ensures p == "*" <==> r == "*"
    ensures r != "*" ==> forall i :: 0 <= i < |r| ==> PathSafe(r[i]) || r[i] == '%'
  {
    if p == "*" then "*" else EscapePath(p)
  }

  /** Only the path "*" is written as "*": any other path holding a '*' has
      it escaped. */
  lemma EscapedPathStar(p: string)
    ensures EscapedPath(p) == "*" <==> p == "*"
    ensures p != "*" ==> '*' !in EscapedPath(p)
  {
    assert !PathSafe('*');
  }

  /** The first path segment holds a ':'. */
  predicate ColonInFirstSegment(path: string)
  {
    exists i :: 0 <= i < |path| && path[i] == ':' && '/' !in path[..i]
  }

  /** `URL.String` for a URL with these three fields: "//" precedes a host or a
      path, the path is written as `URL.EscapedPath` gives it, an escaped
      relative path gets a leading '/' when there is a host, and "./" goes
      before a bare relative path whose first segment holds a ':'. The host is
      written as it is. */
  function Render(u: Url): string
  {
    var path := EscapedPath(u.path);
    var head := (if u.scheme != "" then u.scheme + ":" else "")
                + (if u.scheme != "" || u.host != "" then (if u.host != "" || u.path != "" then "//" else "") + u.host else "")
                + (if path != "" && path[0] != '/' && u.host != "" then "/" else "");
    head + (if head == "" && ColonInFirstSegment(path) then "./" else "") + path
  }

  /** `buildURL`: parse the scheme-qualified host; a path-override annotation
      that is present replaces the path, even when it is empty. */
  function BuildURL(ing: Ingress, parse: Parser): (r: Result<string>)
    requires HasHost(ing)
    ensures parse(GetHost(ing)).Err? ==> r == Err(parse(GetHost(ing)).error)
    ensures parse(GetHost(ing)).Ok? && Annotations.PathOverride !in ing.annotations ==>
              r == Ok(Render(parse(GetHost(ing)).value))
    ensures parse(GetHost(ing)).Ok? && Annotations.PathOverride in ing.annotations ==>
              r == Ok(Render(parse(GetHost(ing)).value.(path := ing.annotations[Annotations.PathOverride])))
  {
    match parse(GetHost(ing))
    case Err(e) => Err(e)
    case Ok(u) =>
      if Annotations.PathOverride in ing.annotations then
        Ok(Render(u.(path := ing.annotations[Annotations.PathOverride])))
      else Ok(Render(u))
  }

  /** A host name of ASCII letters, digits, '-' and '.': `url.Parse` accepts
      it as the host and `URL.String` writes it back unchanged. */
  predicate PlainHost(h: string)
  {
    |h| > 0 && forall i :: 0 <= i < |h| ==> ('a' <= h[i] <= 'z') || ('A' <= h[i] <= 'Z') || ('0' <= h[i] <= '9') || h[i] in "-."
  }

  /** `url.Parse` on the texts `GetHost` produces for a plain host name: the
      scheme, the host, and an empty path. Other texts are outside this
      reference parser and are rejected. */
  function PlainParse(raw: string): (r: Result<Url>)
    ensures r.Ok? ==> PlainHost(r.value.host) && r.value.path == ""
  {
    if |raw| >= 8 && raw[..8] == "https://" && PlainHost(raw[8..]) then Ok(Url("https", raw[8..], ""))
    else if |raw| >= 7 && raw[..7] == "http://" && PlainHost(raw[7..]) then Ok(Url("http", raw[7..], ""))
    else Err(Failure("not a plain scheme://host text"))
  }

  /** How a path override shows in the rendered URL after a plain host:
      escaped as `URL.EscapedPath` does, with a '/' put in front of a relative
      one. */
  function PathSuffix(path: string): string
  {
    var e := EscapedPath(path);
    if e == "" then "" else if e[0] == '/' then e else "/" + e
  }

  /** The path part of the monitored URL: the override when present, else none. */
  function OverrideSuffix(ing: Ingress): string
  {
    if Annotations.PathOverride in ing.annotations then PathSuffix(ing.annotations[Annotations.PathOverride]) else ""
  }

  /** The monitored URL of an Ingress with a plain host: "https://" and the TLS
      host when TLS is usable, whatever the annotations say; otherwise
      "https://" or "http://" and the first rule host, depending on force-https /
      force-ssl-redirect; then the escaped override path, with a '/' put in
      front of a relative one, or nothing when there is no override. */
  lemma BuildURLPlain(ing: Ingress)
    requires HasHost(ing)
    requires SupportsTLS(ing) ==> PlainHost(ing.tls[0].hosts[0])
    requires !SupportsTLS(ing) ==> PlainHost(ing.rules[0].host)
    ensures SupportsTLS(ing) ==>
              BuildURL(ing, PlainParse) == Ok("https://" + ing.tls[0].hosts[0] + OverrideSuffix(ing))
    ensures !SupportsTLS(ing) && ForceHTTPS(ing) ==>
              BuildURL(ing, PlainParse) == Ok("https://" + ing.rules[0].host + OverrideSuffix(ing))
    ensures !SupportsTLS(ing) && !ForceHTTPS(ing) ==>
              BuildURL(ing, PlainParse) == Ok("http://" + ing.rules[0].host + OverrideSuffix(ing))
  {
    var raw := GetHost(ing);
    var scheme, host := if SupportsTLS(ing) || ForceHTTPS(ing) then "https" else "http",
                        if SupportsTLS(ing) then ing.tls[0].hosts[0] else ing.rules[0].host;
    assert raw == scheme + "://" + host;
    if scheme == "https" {
      assert raw[..8] == "https://" && raw[8..] == host;
    } else {
      assert raw[..7] == "http://" && raw[7..] == host;
      assert !(|raw| >= 8 && raw[..8] == "https://") by {
        if |raw| >= 8 { assert raw[4] != "https://"[4]; }
      }
    }
    assert PlainParse(raw) == Ok(Url(scheme, host, ""));
    var path := if Annotations.PathOverride in ing.annotations then ing.annotations[Annotations.PathOverride] else "";
    assert BuildURL(ing, PlainParse) == Ok(Render(Url(scheme, host, path)));
    RenderPlain(scheme, host, path);
    assert OverrideSuffix(ing) == PathSuffix(path);
  }

  /** A URL with a scheme and a host renders as "scheme://host" and the path. */
  lemma RenderPlain(scheme: string, host: string, path: string)
    requires scheme != "" && host != ""
    ensures Render(Url(scheme, host, path)) == scheme + "://" + host + PathSuffix(path)
  {
    assert scheme + ":" + ("//" + host) == scheme + "://" + host;
  }

  /** A rule Ingress with force-https and a path override is monitored over
      https at its host, followed by the override as `PathSuffix` writes it. */
  lemma ForcedOverride(namespace: string, name: string, h: string, path: string)
    requires PlainHost(h)
    ensures BuildURL(RuleIngress(namespace, name, map[Annotations.ForceHTTPS := "true", Annotations.PathOverride := path], h), PlainParse)
              == Ok("https://" + h + PathSuffix(path))
  {
    var ing := RuleIngress(namespace, name, map[Annotations.ForceHTTPS := "true", Annotations.PathOverride := path], h);
    assert Annotations.ForceHTTPS in ing.annotations && ing.annotations[Annotations.ForceHTTPS] == "true" by {
      assert |Annotations.PathOverride| != |Annotations.ForceHTTPS|;
    }
    assert ForceHTTPS(ing);
    BuildURLPlain(ing);
    assert OverrideSuffix(ing) == PathSuffix(path);
  }

  /** The path override "*" is written after the host and a '/' without
      escaping; a '*' inside a longer override is escaped as "%2A". */
  lemma StarOverride(namespace: string, name: string, h: string)
    requires PlainHost(h)
    ensures BuildURL(RuleIngress(namespace, name, map[Annotations.ForceHTTPS := "true", Annotations.PathOverride := "*"], h), PlainParse)
              == Ok("https://" + h + "/*")
    ensures BuildURL(RuleIngress(namespace, name, map[Annotations.ForceHTTPS := "true", Annotations.PathOverride := "a*"], h), PlainParse)
              == Ok("https://" + h + "/a%2A")
  {
    ForcedOverride(namespace, name, h, "*");
    assert PathSuffix("*") == "/*";
    ForcedOverride(namespace, name, h, "a*");
    assert "a*"[1..] == "*" && "*"[1..] == "";
    assert Utf8('*') == [42];
    PercentByte(42);
    assert EscapePath("*") == "%2A";
    assert EscapePath("a*") == "a%2A";
    assert PathSuffix("a*") == "/a%2A";
  }

  /** Validation examples from the ingress package's tests. */
  lemma SupportExamples()
    ensures IsSupported(Ingress("", "", 0, map[], [], [IngressRule("foo.bar.baz")]))
    ensures IsSupported(Ingress("", "", 0, map[], [IngressTLS(["foo.bar.baz"])], [IngressRule("foo.bar.baz")]))
    ensures !IsSupported(Ingress("", "", 0, map[], [IngressTLS(["*.bar.baz"])], [IngressRule("foo.bar.baz")]))
    ensures !IsSupported(Ingress("", "", 0, map[], [], [IngressRule("*.bar.baz")]))
    ensures !IsSupported(Ingress("", "", 0, map[], [], []))
  {
    assert "*.bar.baz"[0] == '*';
  }

  /** An Ingress with one plain rule host without a wildcard, and none of the
      scheme or path annotations, is monitored over plain http at that host. */
  lemma PlainRuleURL(namespace: string, name: string, annotations: map<string, string>, h: string)
    requires PlainHost(h) && '*' !in h
    requires Annotations.ForceHTTPS !in annotations && NginxForceSSLRedirect !in annotations
    requires Annotations.PathOverride !in annotations
    ensures IsSupported(RuleIngress(namespace, name, annotations, h))
    ensures BuildURL(RuleIngress(namespace, name, annotations, h), PlainParse) == Ok("http://" + h)
  {
    var ing := RuleIngress(namespace, name, annotations, h);
    assert "http://" + h + "" == "http://" + h;
    BuildURLPlain(ing);
    assert OverrideSuffix(ing) == "";
  }

  /** URL examples from the ingress package's tests, for any plain host
      (the tests use "foo.bar.baz"). */
  lemma UrlExamples(h: string)
    requires PlainHost(h)
    ensures BuildURL(RuleIngress("", "", map[], h), PlainParse) == Ok("http://" + h)
    ensures BuildURL(Ingress("", "", 0, map[], [IngressTLS([h])], [IngressRule(h)]), PlainParse) == Ok("https://" + h)
    ensures BuildURL(RuleIngress("", "", map[NginxForceSSLRedirect := "true"], h), PlainParse) == Ok("https://" + h)
    ensures BuildURL(RuleIngress("", "", map[Annotations.ForceHTTPS := "true"], h), PlainParse) == Ok("https://" + h)
  {
    var plain := RuleIngress("", "", map[], h);
    assert "http://" + h + "" == "http://" + h;
    assert "https://" + h + "" == "https://" + h;
    BuildURLPlain(plain);
    assert OverrideSuffix(plain) == "";
    var tls := Ingress("", "", 0, map[], [IngressTLS([h])], [IngressRule(h)]);
    BuildURLPlain(tls);
    assert OverrideSuffix(tls) == "";
    var nginx := RuleIngress("", "", map[NginxForceSSLRedirect := "true"], h);
    BuildURLPlain(nginx);
    assert Annotations.PathOverride !in nginx.annotations by {
      assert |Annotations.PathOverride| != |NginxForceSSLRedirect|;
    }
    var forced := RuleIngress("", "", map[Annotations.ForceHTTPS := "true"], h);
    BuildURLPlain(forced);
    assert Annotations.PathOverride !in forced.annotations by {
      assert |Annotations.PathOverride| != |Annotations.ForceHTTPS|;
    }
  }

  /** The path-override example from the ingress package's tests: a relative
      override path gets a leading '/'. */
  lemma PathOverrideExample(h: string)
    requires PlainHost(h)
    ensures BuildURL(RuleIngress("", "", map[Annotations.ForceHTTPS := "true", Annotations.PathOverride := "health"], h), PlainParse)
            == Ok("https://" + h + "/health")
  {
    ForcedOverride("", "", h, "health");
    EscapePathIdentity("health");
    assert PathSuffix("health") == "/health";
  }
}
