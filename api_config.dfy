// The base URL of the application's backend, derived from the configured
// EXPO_PUBLIC_DOMAIN host: a host with an explicit scheme is kept (with a
// trailing slash), a local or private-network host gets http, any other host
// https.

module ApiConfig {
  import opened Text
  import opened Js

  /** The number of decimal digits at the start of `s`. */
  function DigitRun(s: string): (n: nat)
    ensures n <= |s|
    ensures forall i :: 0 <= i < n ==> IsDigit(s[i])
    ensures n < |s| ==> !IsDigit(s[n])
    decreases |s|
  {
    if |s| > 0 && IsDigit(s[0]) then 1 + DigitRun(s[1..]) else 0
  }

  /** `s` starts with `count` runs of digits separated by dots (`\d+(\.\d+)*`, `count` runs). */
  predicate DottedNumbers(s: string, count: nat)
    requires count >= 1
    decreases count
  {
    var d := DigitRun(s);
    d > 0 && (count == 1 || (d < |s| && s[d] == '.' && DottedNumbers(s[d + 1..], count - 1)))
  }

  /** `/^192\.168\.\d+\.\d+/`. */
  predicate Private192(host: string) {
    IsPrefix("192.168.", host) && DottedNumbers(host[8..], 2)
  }

  /** `/^10\.\d+\.\d+\.\d+/`. */
  predicate Private10(host: string) {
    IsPrefix("10.", host) && DottedNumbers(host[3..], 3)
  }

  /** A host served over plain http. */
  predicate IsLocal(host: string) {
    Contains(host, "localhost") || Contains(host, "127.0.0.1") || Private192(host) || Private10(host)
  }

  predicate HasScheme(host: string) {
    IsPrefix("http://", host) || IsPrefix("https://", host)
  }

  /** A character that ends a URL's authority: the start of a path, query or fragment. */
  predicate EndsAuthority(c: char) {
    c == '/' || c == '?' || c == '#'
  }

  /** The length of the authority (host and port) at the start of `host`. */
  function AuthorityLength(host: string): (k: nat)
    ensures k <= |host|
    ensures forall i :: 0 <= i < k ==> !EndsAuthority(host[i])
    ensures k < |host| ==> EndsAuthority(host[k])
    decreases |host|
  {
    if |host| == 0 || EndsAuthority(host[0]) then 0 else 1 + AuthorityLength(host[1..])
  }

  /** The authority (user info, host and port) at the start of `host`. */
  function Authority(host: string): string {
    host[..AuthorityLength(host)]
  }

  /** What follows the last "@" of an authority: its host and port, without user info. */
  function HostAndPort(a: string): (r: string)
    ensures '@' !in r
    ensures '@' !in a ==> r == a
    decreases |a|
  {
    if |a| == 0 || a[|a| - 1] == '@' then ""
    else
      assert a == a[..|a| - 1] + [a[|a| - 1]];
      HostAndPort(a[..|a| - 1]) + [a[|a| - 1]]
  }

  /** The position of the first ":" in `s`, or its length. */
  function ColonAt(s: string): (k: nat)
    ensures k <= |s|
    ensures forall i :: 0 <= i < k ==> s[i] != ':'
    ensures k < |s| ==> s[k] == ':'
    decreases |s|
  {
    if |s| == 0 || s[0] == ':' then 0 else 1 + ColonAt(s[1..])
  }

  /** A forbidden domain code point of the URL Standard (C0 controls, space, DEL and the listed ASCII signs). */
  predicate ForbiddenInDomain(c: char) {
    c <= ' ' || c == '#' || c == '%' || c == '/' || c == ':' || c == '<' || c == '>' || c == '?' ||
    c == '@' || c == '[' || c == '\\' || c == ']' || c == '^' || c == '|' || c == '\U{7F}'
  }

  /** The largest port number a URL accepts. */
  const MaxPort: nat := 65535

  /**
   * Whether `new URL` accepts the authority of an http or https URL: after
   * any user info, a non-empty host with no forbidden domain code point and,
   * after a ":", a port of decimal digits no larger than 65535.
   */
  predicate ValidAuthority(a: string) {
    var hp := HostAndPort(a);
    var k := ColonAt(hp);
    k > 0 &&
    (forall i :: 0 <= i < k ==> !ForbiddenInDomain(hp[i])) &&
    (k < |hp| ==> AllDigits(hp[k + 1..]) && DigitsValue(hp[k + 1..]) <= MaxPort)
  }

  /** Whether `host` carries a path, query or fragment after the authority. */
  predicate HasPath(host: string) {
    '/' in host || '?' in host || '#' in host
  }

  /** The path the href carries after the authority: the host's own, or "/" before any query or fragment. */
  function PathPart(host: string): (path: string)
    ensures |path| > 0 && path[0] == '/'
  {
    var k := AuthorityLength(host);
    if k < |host| && host[k] == '/' then host[k..] else "/" + host[k..]
  }

  /**
   * `new URL(protocol + "://" + host).href`: an empty path becomes "/", which
   * goes before any query or fragment.
   */
  function Href(protocol: string, host: string): string {
    protocol + "://" + host[..AuthorityLength(host)] + PathPart(host)
  }

  /** `getAuthApiUrl()` with the configured host; a missing or empty host throws. */
  function GetAuthApiUrl(host: Option<string>): Outcome<string> {
    if host.None? || host.value == "" then Throws
    else
      var h := host.value;
      if HasScheme(h) then Returns(if IsSuffix("/", h) then h else h + "/")
      else if !ValidAuthority(Authority(h)) then Throws
      else Returns(Href(if IsLocal(h) then "http" else "https", h))
  }

  /** `getMusicApiUrl()`: the same backend serves the music routes. */
  function GetMusicApiUrl(host: Option<string>): Outcome<string> {
    GetAuthApiUrl(host)
  }

  /** The authority runs to the end of the host exactly when the host has no path, query or fragment. */
  lemma AuthorityIsWholeHost(host: string)
    ensures AuthorityLength(host) == |host| <==> !HasPath(host)
  {
    var k := AuthorityLength(host);
    if k < |host| {
      assert host[k] in host;
    } else {
      assert forall c :: c in host ==> !EndsAuthority(c);
    }
  }

  /** With a path of its own, the host is its authority followed by its path part. */
  lemma PathPartOwn(host: string)
    requires AuthorityLength(host) < |host| && host[AuthorityLength(host)] == '/'
    ensures host[..AuthorityLength(host)] + PathPart(host) == host
  {
    SplitAt(host, AuthorityLength(host));
  }

  /** Cutting a text and joining the halves gives it back. */
  lemma SplitAt(s: string, k: nat)
    requires k <= |s|
    ensures s[..k] + s[k..] == s
  {
  }

  /** Otherwise the path part is an inserted "/" before the rest of the host, one character longer. */
  lemma PathPartInserted(host: string)
    requires !(AuthorityLength(host) < |host| && host[AuthorityLength(host)] == '/')
    ensures host[..AuthorityLength(host)] + PathPart(host) == host[..AuthorityLength(host)] + "/" + host[AuthorityLength(host)..]
    ensures |host[..AuthorityLength(host)] + PathPart(host)| == |host| + 1
  {
  }

  /** The authority followed by the path part is the host itself exactly when the host has its own path. */
  lemma PathPartRules(host: string)
    ensures var k := AuthorityLength(host);
      (host[..k] + PathPart(host) == host <==> k < |host| && host[k] == '/') &&
      (host[..k] + PathPart(host) != host ==> host[..k] + PathPart(host) == host[..k] + "/" + host[k..]) &&
      (!HasPath(host) ==> host[..k] + PathPart(host) == host + "/") &&
      (HasPath(host) ==> PathPart(host)[|PathPart(host)| - 1] == host[|host| - 1])
  {
    var k := AuthorityLength(host);
    AuthorityIsWholeHost(host);
    if k < |host| && host[k] == '/' {
      PathPartOwnRules(host);
    } else {
      PathPartInsertedRules(host);
    }
  }

  /** The own-path case of `PathPartRules`: the path part is the rest of the host. */
  lemma PathPartOwnRules(host: string)
    requires AuthorityLength(host) < |host| && host[AuthorityLength(host)] == '/'
    ensures var k := AuthorityLength(host);
      host[..k] + PathPart(host) == host &&
      PathPart(host)[|PathPart(host)| - 1] == host[|host| - 1]
  {
    var k := AuthorityLength(host);
    PathPartOwn(host);
    assert PathPart(host) == host[k..];
  }

  /** The inserted case of `PathPartRules`: one character longer, ending as the host does when there is a rest. */
  lemma PathPartInsertedRules(host: string)
    requires !(AuthorityLength(host) < |host| && host[AuthorityLength(host)] == '/')
    ensures var k := AuthorityLength(host);
      host[..k] + PathPart(host) != host &&
      host[..k] + PathPart(host) == host[..k] + "/" + host[k..] &&
      (k == |host| ==> host[..k] + PathPart(host) == host + "/") &&
      (k < |host| ==> PathPart(host)[|PathPart(host)| - 1] == host[|host| - 1])
  {
    var k := AuthorityLength(host);
    var p := PathPart(host);
    PathPartInserted(host);
    assert p == "/" + host[k..];
    if k == |host| {
      assert host[..k] == host;
    }
  }

  /** The href starts with the scheme, then the authority, then a "/". */
  lemma HrefPrefix(protocol: string, host: string)
    ensures var r := Href(protocol, host); var s := protocol + "://"; var k := AuthorityLength(host);
      IsPrefix(s, r) && |s| + k < |r| && r[|s|..|s| + k] == host[..k] && r[|s| + k] == '/'
  {
    var k := AuthorityLength(host);
    JoinedParts(protocol + "://", host[..k], PathPart(host));
  }

  /** In `s + a + p`, `a` sits right after `s` and the first character of `p` right after `a`. */
  lemma JoinedParts(s: string, a: string, p: string)
    requires |p| > 0
    ensures var r := s + a + p;
      IsPrefix(s, r) && |s| + |a| < |r| && r[|s|..|s| + |a|] == a && r[|s| + |a|] == p[0]
  {
    var r := s + a + p;
    assert r[..|s|] == s;
    assert r[|s|..|s| + |a|] == a;
  }

  /** After the scheme, the href is the host with its path part in place of its own path. */
  lemma HrefTail(protocol: string, host: string)
    ensures var s := protocol + "://"; var k := AuthorityLength(host);
      Href(protocol, host) == s + (host[..k] + PathPart(host))
  {
  }

  /**
   * The href keeps the scheme and the authority, then has a "/" where the
   * path starts: the host's own when it has one, an inserted one otherwise,
   * with the query or fragment after it.
   */
  lemma HrefShape(protocol: string, host: string)
    ensures var r := Href(protocol, host); var s := protocol + "://"; var k := AuthorityLength(host);
      IsPrefix(s, r) && |s| + k < |r| && r[|s|..|s| + k] == host[..k] && r[|s| + k] == '/' &&
      (r == s + host <==> k < |host| && host[k] == '/') &&
      (r != s + host ==> r == s + host[..k] + "/" + host[k..]) &&
      (!HasPath(host) ==> r == s + host + "/")
  {
    var s := protocol + "://";
    var k := AuthorityLength(host);
    HrefPrefix(protocol, host);
    HrefTail(protocol, host);
    PathPartRules(host);
    AuthorityIsWholeHost(host);
    TailShape(s, host[..k] + PathPart(host), host, k);
  }

  /** Prefixing a scheme keeps how the href's tail relates to the host. */
  lemma TailShape(s: string, tail: string, host: string, k: nat)
    requires k <= |host|
    requires tail == host <==> k < |host| && host[k] == '/'
    requires tail != host ==> tail == host[..k] + "/" + host[k..]
    requires k == |host| ==> tail == host + "/"
    ensures s + tail == s + host <==> k < |host| && host[k] == '/'
    ensures s + tail != s + host ==> s + tail == s + host[..k] + "/" + host[k..]
    ensures k == |host| ==> s + tail == s + host + "/"
  {
    SameTail(s, tail, host);
    if tail != host {
      assert s + tail == s + (host[..k] + "/" + host[k..]);
    }
    if k == |host| {
      assert s + tail == s + (host + "/");
    }
  }

  /** Two texts with the same start are equal exactly when what follows it is. */
  lemma SameTail(s: string, t: string, u: string)
    ensures s + t == s + u <==> t == u
    ensures |t| > 0 ==> (s + t)[|s + t| - 1] == t[|t| - 1]
  {
    if s + t == s + u {
      assert t == (s + t)[|s|..];
    }
  }

  /**
   * A missing host throws. A host with a scheme is kept as it is when it ends
   * in "/" and gets one "/" appended otherwise. A bare host gets http when it
   * is local, https otherwise; its authority is kept, and a "/" is inserted
   * after it unless a path already starts there, so the result is the scheme
   * followed by the host itself exactly when the host's authority is followed
   * by a path.
   */
  lemma GetAuthApiUrlRules(host: Option<string>)
    ensures GetAuthApiUrl(host).Throws? <==>
      host.None? || host.value == "" || (!HasScheme(host.value) && !ValidAuthority(Authority(host.value)))
    ensures GetAuthApiUrl(host).Returns? && HasScheme(host.value) ==>
      (IsSuffix("/", host.value) ==> GetAuthApiUrl(host).value == host.value) &&
      (!IsSuffix("/", host.value) ==> GetAuthApiUrl(host).value == host.value + "/")
    ensures GetAuthApiUrl(host).Returns? && !HasScheme(host.value) ==>
      var h := host.value;
      var scheme := if IsLocal(h) then "http://" else "https://";
      var r := GetAuthApiUrl(host).value;
      var k := AuthorityLength(h);
      IsPrefix(scheme, r) && |scheme| + k < |r| &&
      r[|scheme|..|scheme| + k] == h[..k] && r[|scheme| + k] == '/' &&
      (r == scheme + h <==> k < |h| && h[k] == '/') &&
      (r != scheme + h ==> r == scheme + h[..k] + "/" + h[k..])
    ensures GetAuthApiUrl(host).Returns? && !HasScheme(host.value) && !HasPath(host.value) ==>
      GetAuthApiUrl(host).value == (if IsLocal(host.value) then "http://" else "https://") + host.value + "/"
    ensures GetMusicApiUrl(host) == GetAuthApiUrl(host)
  {
    if host.Some? && host.value != "" && !HasScheme(host.value) {
      var h := host.value;
      var p := if IsLocal(h) then "http" else "https";
      assert p + "://" == if IsLocal(h) then "http://" else "https://";
      HrefShape(p, h);
    }
  }

  /** Every result has a scheme, so the function is idempotent on results that end in "/". */
  lemma GetAuthApiUrlIdempotent(host: Option<string>)
    requires GetAuthApiUrl(host).Returns?
    requires IsSuffix("/", GetAuthApiUrl(host).value)
    ensures GetAuthApiUrl(Some(GetAuthApiUrl(host).value)) == GetAuthApiUrl(host)
  {
    var h := host.value;
    if !HasScheme(h) {
      HrefHasScheme(if IsLocal(h) then "http" else "https", h);
    }
  }

  /** The href of an http or https URL starts with its scheme. */
  lemma HrefHasScheme(protocol: string, host: string)
    requires protocol == "http" || protocol == "https"
    ensures HasScheme(Href(protocol, host))
  {
    var r := Href(protocol, host);
    HrefPrefix(protocol, host);
    assert r[..|protocol + "://"|] == protocol + "://";
  }

  /** With a path, query or fragment, the path part ends as the host does. */
  lemma PathPartLast(host: string)
    requires HasPath(host)
    ensures PathPart(host)[|PathPart(host)| - 1] == host[|host| - 1]
  {
    AuthorityIsWholeHost(host);
  }

  /** With a path, query or fragment, the href ends as the host does. */
  lemma HrefEndsAsHost(protocol: string, host: string)
    requires HasPath(host)
    ensures Href(protocol, host)[|Href(protocol, host)| - 1] == host[|host| - 1]
    ensures IsSuffix("/", Href(protocol, host)) <==> IsSuffix("/", host)
  {
    var r := Href(protocol, host);
    var k := AuthorityLength(host);
    var path := PathPart(host);
    PathPartLast(host);
    HrefTail(protocol, host);
    SameTail(host[..k], path, host);
    SameTail(protocol + "://", host[..k] + path, host);
    assert r[|r| - 1] == host[|host| - 1];
    assert r[|r| - 1..] == [r[|r| - 1]];
    assert host[|host| - 1..] == [host[|host| - 1]];
  }

  /**
   * A bare host with a path, query or fragment and no trailing slash gets
   * none, and a second pass appends one: idempotence needs the trailing slash.
   */
  lemma BareHostWithPathNotIdempotent(h: string)
    requires h != "" && !HasScheme(h) && HasPath(h) && !IsSuffix("/", h)
    ensures GetAuthApiUrl(Some(h)).Returns? <==> ValidAuthority(Authority(h))
    ensures GetAuthApiUrl(Some(h)).Returns? ==>
      GetAuthApiUrl(Some(GetAuthApiUrl(Some(h)).value)) == Returns(GetAuthApiUrl(Some(h)).value + "/")
  {
    var p := if IsLocal(h) then "http" else "https";
    HrefHasScheme(p, h);
    HrefEndsAsHost(p, h);
  }

  /** A host without "/", "?" or "#" is all authority, and a bare one throws exactly when that authority is invalid. */
  lemma BareAuthorityThrows(h: string)
    requires h != "" && !HasScheme(h) && '/' !in h && '?' !in h && '#' !in h
    ensures Authority(h) == h
    ensures GetAuthApiUrl(Some(h)).Throws? <==> !ValidAuthority(h)
  {
    AuthorityIsWholeHost(h);
    GetAuthApiUrlRules(Some(h));
  }

  /** A non-numeric port is not a valid authority. */
  lemma LetterPortInvalid()
    ensures !ValidAuthority("h:abc")
  {
    var h := "h:abc";
    assert h[1] == ':' && h[0] != ':';
    assert !IsDigit(h[2..][0]);
  }

  /** A port above 65535 is not a valid authority. */
  lemma LargePortInvalid()
    ensures !ValidAuthority("h:70000")
  {
    var h := "h:70000";
    assert h[1] == ':' && h[0] != ':';
    assert h[2..] == "70000";
    FiveDigitPort();
  }

  lemma FiveDigitPort()
    ensures AllDigits("70000") && DigitsValue("70000") == 70000
  {
    var p := "70000";
    assert p[..1] == "7" && p[..2] == "70" && p[..3] == "700" && p[..4] == "7000";
    assert "7000"[..3] == "700" && "700"[..2] == "70" && "70"[..1] == "7" && "7"[..0] == "";
  }

  /** A space in the host is not a valid authority. */
  lemma SpacedHostInvalid()
    ensures !ValidAuthority("a b")
  {
    var h := "a b";
    assert ColonAt(h) > 1 by {
      assert h[0] != ':' && h[1] != ':';
    }
    assert ForbiddenInDomain(h[1]);
  }

  /** A non-numeric port makes `new URL` throw. */
  lemma LetterPortThrows()
    ensures GetAuthApiUrl(Some("h:abc")).Throws?
  {
    LetterPortInvalid();
    BareAuthorityThrows("h:abc");
  }

  /** A port above 65535 makes `new URL` throw. */
  lemma LargePortThrows()
    ensures GetAuthApiUrl(Some("h:70000")).Throws?
  {
    LargePortInvalid();
    BareAuthorityThrows("h:70000");
  }

  /** A space in the host makes `new URL` throw. */
  lemma SpacedHostThrows()
    ensures GetAuthApiUrl(Some("a b")).Throws?
  {
    SpacedHostInvalid();
    BareAuthorityThrows("a b");
  }

  /** A LAN address counts as local, but only with two numbers after "192.168.". */
  lemma LanAddressIsLocal()
    ensures Private192("192.168.1.5:8081")
    ensures !Private192("192.168.1")
  {
    assert "192.168.1.5:8081"[8..] == "1.5:8081";
    assert DigitRun("1.5:8081") == 1;
    assert "1.5:8081"[2..] == "5:8081";
    assert DigitRun("5:8081") == 1;
    assert "192.168.1"[8..] == "1";
    assert DigitRun("1") == 1;
  }

  /** The Android emulator's address of the host machine counts as local. */
  lemma EmulatorAddressIsLocal()
    ensures Private10("10.0.2.2:3000")
  {
    assert "10.0.2.2:3000"[3..] == "0.2.2:3000";
    assert DigitRun("0.2.2:3000") == 1;
    assert "0.2.2:3000"[2..] == "2.2:3000";
    assert DigitRun("2.2:3000") == 1;
    assert "2.2:3000"[2..] == "2:3000";
    assert DigitRun("2:3000") == 1;
  }
}
