/**
  The server endpoint: the websocket URI the agent builds from its options and
  the start-up guard that refuses a configuration naming no server.
 */
module Endpoint {
  import opened Wire
  import opened Config

  const DefaultPort := 16999
  const DefaultPath := "/"
  const ErrorHostRequired := "Either host or configUrl is a required option."
  const LegacyErrorHostRequired := "Host is a required option."

  predicate IsDigit(c: char) {
    '0' <= c <= '9'
  }

  function DigitChar(d: nat): (c: char)
    requires d < 10
    ensures IsDigit(c)
  {
    ('0' as int + d) as char
  }

  /** The decimal text of a number, as a template literal renders it. */
  function Decimal(n: nat): (r: string)
    ensures 1 <= |r|
    ensures forall i :: 0 <= i < |r| ==> IsDigit(r[i])
    ensures n >= 10 ==> |r| >= 2
  {
    if n < 10 then [DigitChar(n)] else Decimal(n / 10) + [DigitChar(n % 10)]
  }

  /** The value of one character as a decimal digit; anything else counts 0. */
  function DigitValue(c: char): (d: nat)
    ensures d < 10
    ensures IsDigit(c) ==> DigitChar(d) == c
  {
    if IsDigit(c) then c as int - '0' as int else 0
  }

  /** The number a digit string denotes, read left to right. */
  function DigitsValue(s: string): nat
    decreases |s|
  {
    if s == [] then 0 else DigitsValue(s[..|s| - 1]) * 10 + DigitValue(s[|s| - 1])
  }

  /** Reading the decimal text of a number back gives the number. */
  lemma {:induction false} DecimalValue(n: nat)
    ensures DigitsValue(Decimal(n)) == n
  {
    var s := Decimal(n);
    if n >= 10 {
      assert s[..|s| - 1] == Decimal(n / 10);
      DecimalValue(n / 10);
      assert DigitValue(s[|s| - 1]) == n % 10;
    } else {
      assert s[..|s| - 1] == [];
    }
  }

  /** Distinct numbers have distinct decimal texts. */
  lemma DecimalInjective(a: nat, b: nat)
    requires Decimal(a) == Decimal(b)
    ensures a == b
  {
    DecimalValue(a);
    DecimalValue(b);
  }

  /** Text made of `inRun` characters and followed by a character outside the
      run cannot be a strict prefix of another such run. */
  lemma RunNotShorter(a1: string, r1: string, a2: string, r2: string, inRun: char -> bool)
    requires forall i :: 0 <= i < |a2| ==> inRun(a2[i])
    requires |r1| > 0 && !inRun(r1[0])
    requires a1 + r1 == a2 + r2
    ensures |a1| >= |a2|
  {
    assert (a1 + r1)[|a1|] == r1[0];
    assert forall i :: 0 <= i < |a2| ==> (a2 + r2)[i] == a2[i];
  }

  /** A string made of a run of `inRun` characters followed by text starting
      with another character splits in exactly one way. */
  lemma UniqueSplit(a1: string, r1: string, a2: string, r2: string, inRun: char -> bool)
    requires forall i :: 0 <= i < |a1| ==> inRun(a1[i])
    requires forall i :: 0 <= i < |a2| ==> inRun(a2[i])
    requires |r1| > 0 && !inRun(r1[0])
    requires |r2| > 0 && !inRun(r2[0])
    requires a1 + r1 == a2 + r2
    ensures a1 == a2 && r1 == r2
  {
    RunNotShorter(a1, r1, a2, r2, inRun);
    RunNotShorter(a2, r2, a1, r1, inRun);
    assert a1 == (a1 + r1)[..|a1|];
    assert a2 == (a2 + r2)[..|a2|];
    assert r1 == (a1 + r1)[|a1|..];
    assert r2 == (a2 + r2)[|a2|..];
  }

  lemma CommonPrefix(pre: string, s1: string, s2: string)
    requires pre + s1 == pre + s2
    ensures s1 == s2
  {
    assert s1 == (pre + s1)[|pre|..];
    assert s2 == (pre + s2)[|pre|..];
  }

  /** The host as a template literal renders it: an absent host reads `undefined`. */
  function HostText(host: Option<string>): (t: string)
    ensures host.Some? ==> t == host.value
    ensures host.None? ==> t == "undefined"
  {
    if host.Some? then host.value else "undefined"
  }

  /** `port || 16999`. */
  function PortOf(port: Option<nat>): (r: nat)
    ensures r != 0
    ensures port.Some? && port.value != 0 ==> r == port.value
    ensures !(port.Some? && port.value != 0) ==> r == DefaultPort
  {
    if port.Some? && port.value != 0 then port.value else DefaultPort
  }

  /** `path || '/'`. */
  function PathOf(path: Option<string>): (r: string)
    ensures |r| >= 1
    ensures Given(path) ==> r == path.value
    ensures !Given(path) ==> r == DefaultPath
  {
    if Given(path) then path.value else DefaultPath
  }

  /** The final revision's URI: `ws://` host `:` port path. */
  function SocketUri(host: Option<string>, port: Option<nat>, path: Option<string>): (r: string)
    ensures |r| > 5 + |HostText(host)| + |PathOf(path)|
  {
    "ws://" + HostText(host) + ":" + Decimal(PortOf(port)) + PathOf(path)
  }

  /** The URI starts with the scheme and the host text, a `:` follows the
      host, and it ends with the path. */
  lemma SocketUriShape(host: Option<string>, port: Option<nat>, path: Option<string>)
    ensures var r := SocketUri(host, port, path);
      && r[..5] == "ws://"
      && r[5..5 + |HostText(host)|] == HostText(host)
      && r[5 + |HostText(host)|] == ':'
      && r[|r| - |PathOf(path)|..] == PathOf(path)
  {
    UriLayout(HostText(host), Decimal(PortOf(port)), PathOf(path));
  }

  /** The layout of `ws://` h `:` d p, for any three texts. */
  lemma UriLayout(h: string, d: string, p: string)
    ensures var r := "ws://" + h + ":" + d + p;
      && r[..5] == "ws://"
      && r[5..5 + |h|] == h
      && r[5 + |h|] == ':'
      && r[|r| - |p|..] == p
  {
    var rest := h + ([':'] + (d + p));
    Split("ws://", rest);
    Split(h, [':'] + (d + p));
    var r := "ws://" + h + ":" + d + p;
    assert r == "ws://" + rest;
    Split("ws://" + h + ":" + d, p);
  }

  lemma Split(a: string, b: string)
    ensures (a + b)[..|a|] == a && (a + b)[|a|..] == b
  {
  }

  /** The earliest revision's URI, which has no path option: always `/`. */
  function LegacySocketUri(host: Option<string>, port: Option<nat>): (r: string)
    ensures r == SocketUri(host, port, None)
  {
    "ws://" + HostText(host) + ":" + Decimal(PortOf(port)) + "/"
  }

  /** The URI names its endpoint unambiguously: when neither host contains a
      colon and neither path starts with a digit, two URIs are equal exactly
      when their host, port and path agree. */
  lemma SocketUriInjective(h1: Option<string>, p1: Option<nat>, q1: Option<string>,
                           h2: Option<string>, p2: Option<nat>, q2: Option<string>)
    requires ':' !in HostText(h1) && ':' !in HostText(h2)
    requires !IsDigit(PathOf(q1)[0]) && !IsDigit(PathOf(q2)[0])
    ensures SocketUri(h1, p1, q1) == SocketUri(h2, p2, q2)
        <==> HostText(h1) == HostText(h2) && PortOf(p1) == PortOf(p2) && PathOf(q1) == PathOf(q2)
  {
    if SocketUri(h1, p1, q1) == SocketUri(h2, p2, q2) {
      var d1, d2 := Decimal(PortOf(p1)), Decimal(PortOf(p2));
      var t1, t2 := d1 + PathOf(q1), d2 + PathOf(q2);
      UriParts(h1, p1, q1);
      UriParts(h2, p2, q2);
      CommonPrefix("ws://", HostText(h1) + (":" + t1), HostText(h2) + (":" + t2));
      UniqueSplit(HostText(h1), ":" + t1, HostText(h2), ":" + t2, c => c != ':');
      CommonPrefix(":", t1, t2);
      UniqueSplit(d1, PathOf(q1), d2, PathOf(q2), IsDigit);
      DecimalInjective(PortOf(p1), PortOf(p2));
    }
  }

  lemma UriParts(h: Option<string>, p: Option<nat>, q: Option<string>)
    ensures SocketUri(h, p, q) == "ws://" + (HostText(h) + (":" + (Decimal(PortOf(p)) + PathOf(q))))
  {
  }

  /** What construction does after the guard. */
  datatype Startup =
    | HostRequired(error: string) // the constructor throws
    | FetchConfig(url: string)    // the URI is built once the fetched configuration is merged
    | OpenSocket(uri: string)     // the URI is built at once

  /** The final revision's `init`: it throws unless a host or a configuration
      URL is given, and a configuration URL takes precedence over the host. */
  function Init(o: Options): (r: Startup)
    ensures r.HostRequired? <==> !Given(o.host) && !Given(o.configUrl)
    ensures r.HostRequired? ==> r.error == ErrorHostRequired
    ensures r.FetchConfig? <==> Given(o.configUrl)
    ensures r.FetchConfig? ==> r.url == o.configUrl.value
    ensures r.OpenSocket? ==> r.uri == SocketUri(o.host, o.port, o.path) && Given(o.host)
  {
    if !Given(o.host) && !Given(o.configUrl) then HostRequired(ErrorHostRequired)
    else if Given(o.configUrl) then FetchConfig(o.configUrl.value)
    else OpenSocket(SocketUri(o.host, o.port, o.path))
  }

  /** The earliest revision's `init`: only the host counts, and the URI has
      no path. */
  function LegacyInit(o: Options): (r: Startup)
    ensures r.HostRequired? <==> !Given(o.host)
    ensures r.HostRequired? ==> r.error == LegacyErrorHostRequired
    ensures !r.FetchConfig?
    ensures r.OpenSocket? ==> r.uri == LegacySocketUri(o.host, o.port)
  {
    if !Given(o.host) then HostRequired(LegacyErrorHostRequired)
    else OpenSocket(LegacySocketUri(o.host, o.port))
  }
}
