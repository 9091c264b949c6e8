/** The part of Go's net/url the injector relies on: scheme, userinfo (section 3.2.1 of
    RFC 3986), host, and an opaque rest (path, query, fragment). net/url itself is not part
    of this model; host and path are neither validated nor re-encoded here. */
module Url {
  import opened Strings

  datatype UserInfo = UserInfo(username: string, password: Option<string>)
  datatype Url = Url(scheme: string, user: Option<UserInfo>, host: string, rest: string)

  // ---- Percent-encoding of userinfo ----

  predicate IsLetter(c: char) { 'a' <= c <= 'z' || 'A' <= c <= 'Z' }

  predicate IsDigit(c: char) { '0' <= c <= '9' }

  /** The unreserved characters of section 2.3 of RFC 3986. */
  predicate Unreserved(c: char) {
    IsLetter(c) || IsDigit(c) || c in "-_.~"
  }

  /** The characters url.UserPassword(..).String() writes as they are. */
  predicate KeptInUserInfo(c: char) {
    Unreserved(c) || c in "$&+,;="
  }

  predicate IsByte(c: char) { c as int < 256 }

  predicate Bytes(s: string) { forall c | c in s :: IsByte(c) }

  function HexUpper(n: nat): char
    requires n < 16
  {
    "0123456789ABCDEF"[n]
  }

  function HexValue(c: char): Option<nat> {
    if IsDigit(c) then Some((c as int) - ('0' as int))
    else if 'a' <= c <= 'f' then Some((c as int) - ('a' as int) + 10)
    else if 'A' <= c <= 'F' then Some((c as int) - ('A' as int) + 10)
    else None
  }

  function EscapeChar(c: char): string
    requires IsByte(c)
  {
    if KeptInUserInfo(c) then [c] else ['%', HexUpper(c as int / 16), HexUpper(c as int % 16)]
  }

  function Escape(s: string): string
    requires Bytes(s)
  {
    if s == "" then "" else EscapeChar(s[0]) + Escape(s[1..])
  }

  function Unescape(s: string): Option<string> {
    if s == "" then Some("")
    else if s[0] == '%' then
      if |s| < 3 then None
      else
        match (HexValue(s[1]), HexValue(s[2]), Unescape(s[3..]))
        case (Some(h), Some(l), Some(t)) => if h < 16 && l < 16 then Some([(16 * h + l) as char] + t) else None
        case _ => None
    else
      match Unescape(s[1..])
      case Some(t) => Some([s[0]] + t)
      case None => None
  }

  lemma HexRoundTrip(c: char)
    requires IsByte(c)
    ensures HexValue(HexUpper(c as int / 16)) == Some(c as int / 16)
    ensures HexValue(HexUpper(c as int % 16)) == Some(c as int % 16)
  {
    HexDigitRoundTrip(c as int / 16);
    HexDigitRoundTrip(c as int % 16);
  }

  lemma HexDigitRoundTrip(n: nat)
    requires n < 16
    ensures HexValue(HexUpper(n)) == Some(n)
    ensures IsDigit(HexUpper(n)) || 'A' <= HexUpper(n) <= 'F'
  {
  }

  /** Escaping is undone by unescaping, for every byte string. */
  lemma {:induction false} EscapeRoundTrip(s: string)
    requires Bytes(s)
    ensures Unescape(Escape(s)) == Some(s)
  {
    if s != "" {
      var c, e := s[0], EscapeChar(s[0]);
      EscapeRoundTrip(s[1..]);
      HexRoundTrip(c);
      assert Escape(s) == e + Escape(s[1..]);
      assert Escape(s)[|e|..] == Escape(s[1..]);
      assert s == [c] + s[1..];
    }
  }

  /** Which characters are left as they are, and what becomes of the others. */
  lemma WhatIsEscaped(c: char)
    requires IsByte(c)
    ensures Escape([c]) == [c]
       <==> 'a' <= c <= 'z' || 'A' <= c <= 'Z' || '0' <= c <= '9' || c in "-_.~$&+,;="
    ensures Escape([c]) != [c] ==> |Escape([c])| == 3 && Escape([c])[0] == '%'
  {
    assert [c][1..] == "" && Escape([c]) == EscapeChar(c) + "" == EscapeChar(c);
  }

  /** The characters escaping can produce. */
  predicate Escaped(c: char) {
    KeptInUserInfo(c) || c == '%'
  }

  lemma {:induction false} EscapeAlphabet(s: string)
    requires Bytes(s)
    ensures forall c | c in Escape(s) :: Escaped(c)
    ensures |Escape(s)| >= |s|
    ensures |Escape(s)| == |s| <==> forall c | c in s :: KeptInUserInfo(c)
  {
    if s != "" {
      EscapeAlphabet(s[1..]);
      assert s[0] in s;
      HexDigitRoundTrip(s[0] as int / 16);
      HexDigitRoundTrip(s[0] as int % 16);
      assert s == [s[0]] + s[1..];
    }
  }

  lemma {:induction false} EscapeKept(s: string)
    requires Bytes(s) && forall c | c in s :: KeptInUserInfo(c)
    ensures Escape(s) == s
  {
    if s != "" {
      EscapeKept(s[1..]);
      assert s == [s[0]] + s[1..];
    }
  }

  // ---- Parsing ----

  predicate SchemeChar(c: char) { IsLetter(c) || IsDigit(c) || c in "+-." }

  predicate ValidScheme(s: string) {
    s != "" && IsLetter(s[0]) && forall c | c in s :: SchemeChar(c)
  }

  /** The characters Go accepts in the userinfo of a URL. */
  predicate ValidUserInfo(s: string) {
    forall c | c in s :: Unreserved(c) || c in ":!$&'()*+,;=%@"
  }

  /** Everything before the first '/' or '?', and the rest. */
  function Authority(s: string): (string, string) {
    if s == "" || s[0] == '/' || s[0] == '?' then ("", s)
    else var (a, r) := Authority(s[1..]); ([s[0]] + a, r)
  }

  /** Cut at the last '@'. */
  function CutLastAt(s: string): Option<(string, string)> {
    if s == "" then None
    else if s[|s| - 1] == '@' then Some((s[..|s| - 1], ""))
    else
      match CutLastAt(s[..|s| - 1])
      case Some(p) => Some((p.0, p.1 + [s[|s| - 1]]))
      case None => None
  }

  function ParseUserInfo(s: string): Option<UserInfo> {
    if !ValidUserInfo(s) then None
    else
      match Cut(s, ':')
      case None => (match Unescape(s) case Some(u) => Some(UserInfo(u, None)) case None => None)
      case Some(p) =>
        match (Unescape(p.0), Unescape(p.1))
        case (Some(u), Some(w)) => Some(UserInfo(u, Some(w)))
        case _ => None
  }

  /** The text after the scheme's colon, without fragment. */
  function ParseHierarchy(scheme: string, s: string, fragment: string): Option<Url> {
    if "//" <= s && (scheme != "" || !("///" <= s)) then
      var (authority, rest) := Authority(s[2..]);
      match CutLastAt(authority)
      case None => Some(Url(scheme, None, authority, rest + fragment))
      case Some(p) =>
        match ParseUserInfo(p.0)
        case Some(u) => Some(Url(scheme, Some(u), p.1, rest + fragment))
        case None => None
    else Some(Url(scheme, None, "", s + fragment))
  }

  /** The URL without its fragment: scheme, colon, hierarchy. */
  function ParseBody(body: string, fragment: string): Option<Url> {
    match Cut(body, ':')
    case None => ParseHierarchy("", body, fragment)
    case Some(p) =>
      if p.0 == "" then None
      else if ValidScheme(p.0) then ParseHierarchy(Lower(p.0), p.1, fragment)
      else ParseHierarchy("", body, fragment)
  }

  /** url.Parse; None is a parse error. */
  function Parse(raw: string): Option<Url> {
    match Cut(raw, '#')
    case None => ParseBody(raw, "")
    case Some(p) => ParseBody(p.0, "#" + p.1)
  }

  function PrintUserInfo(u: UserInfo): string
    requires Bytes(u.username) && (u.password.Some? ==> Bytes(u.password.value))
  {
    Escape(u.username) + if u.password.Some? then ":" + Escape(u.password.value) else ""
  }

  predicate OpensRest(s: string) {
    s == "" || s[0] == '/' || s[0] == '?' || s[0] == '#'
  }

  /** A URL such as mailto:somebody: parsing makes one only of a text whose part after the scheme
      does not begin with a slash, and it is printed without its userinfo. */
  predicate Opaque(u: Url) { u.scheme != "" && !OpensRest(u.rest) }

  /** The scheme with its colon, if there is one. */
  function Lead(scheme: string): string { if scheme == "" then "" else scheme + ":" }

  /** URL.String for a URL with a host or a user. */
  function Print(u: Url): string
    requires u.user.Some? ==> Bytes(u.user.value.username)
    requires u.user.Some? && u.user.value.password.Some? ==> Bytes(u.user.value.password.value)
  {
    if Opaque(u) then Lead(u.scheme) + u.rest
    else
      Lead(u.scheme)
      + (if u.host != "" || u.user.Some? then "//" else "")
      + (if u.user.Some? then PrintUserInfo(u.user.value) + "@" else "")
      + u.host + u.rest
  }

  // ---- Printing and parsing back ----

  /** What parsing guarantees of a URL whose rest is a path from the root, a query, a fragment or
      nothing; scheme and host may be missing. */
  ghost predicate WellFormed(u: Url) {
    && (u.scheme == "" || (ValidScheme(u.scheme) && Lower(u.scheme) == u.scheme))
    && (forall c | c in u.host :: c !in "/?#@")
    && OpensRest(u.rest)
  }

  lemma {:induction false} AuthorityParts(s: string)
    ensures var (a, r) := Authority(s);
      s == a + r && '/' !in a && '?' !in a && (r == "" || r[0] == '/' || r[0] == '?')
  {
    if s != "" && s[0] != '/' && s[0] != '?' {
      AuthorityParts(s[1..]);
      assert s == [s[0]] + s[1..];
    }
  }

  lemma {:induction false} AuthorityAt(a: string, r: string)
    requires '/' !in a && '?' !in a && (r == "" || r[0] == '/' || r[0] == '?')
    ensures Authority(a + r) == (a, r)
  {
    if a == "" {
      assert a + r == r;
    } else {
      assert (a + r)[1..] == a[1..] + r;
      AuthorityAt(a[1..], r);
      assert a == [a[0]] + a[1..];
    }
  }

  lemma {:induction false} CutLastAtParts(s: string)
    ensures CutLastAt(s).None? ==> '@' !in s
    ensures CutLastAt(s).Some? ==>
      s == CutLastAt(s).value.0 + "@" + CutLastAt(s).value.1 && '@' !in CutLastAt(s).value.1
  {
    if s != "" && s[|s| - 1] != '@' {
      CutLastAtParts(s[..|s| - 1]);
      assert s == s[..|s| - 1] + [s[|s| - 1]];
    } else if s != "" {
      assert s == s[..|s| - 1] + "@" + "";
    }
  }

  lemma {:induction false} CutLastAtAt(a: string, b: string)
    requires '@' !in b
    ensures CutLastAt(a + "@" + b) == Some((a, b))
    decreases |b|
  {
    var s := a + "@" + b;
    if b == "" {
      assert s[..|s| - 1] == a;
    } else {
      assert s[..|s| - 1] == a + "@" + b[..|b| - 1];
      CutLastAtAt(a, b[..|b| - 1]);
      assert b == b[..|b| - 1] + [b[|b| - 1]];
    }
  }

  lemma LowerScheme(s: string)
    requires ValidScheme(s)
    ensures ValidScheme(Lower(s)) && Lower(Lower(s)) == Lower(s)
  {
    forall i | 0 <= i < |s| ensures SchemeChar(Lower(s)[i]) && (i == 0 ==> IsLetter(Lower(s)[i])) {
      assert s[i] in s;
    }
  }

  predicate Suffix(s: string, t: string) {
    |t| <= |s| && s[|s| - |t|..] == t
  }

  lemma SuffixOf(a: string, t: string)
    ensures Suffix(a + t, t)
  {
  }

  /** The host is what follows the last '@' of the authority. */
  lemma HostParts(authority: string)
    ensures var host := match CutLastAt(authority) case None => authority case Some(p) => p.1;
      Suffix(authority, host) && '@' !in host && forall c | c in host :: c in authority
  {
    CutLastAtParts(authority);
    match CutLastAt(authority) {
      case None =>
      case Some(p) => SuffixOf(p.0 + "@", p.1);
    }
  }

  lemma HierarchyParts(scheme: string, s: string, fragment: string, u: Url)
    requires ParseHierarchy(scheme, s, fragment) == Some(u) && '#' !in s
    requires fragment == "" || fragment[0] == '#'
    ensures u.scheme == scheme && forall c | c in u.host :: c !in "/?#@"
    ensures Suffix(s + fragment, u.host + u.rest)
  {
    if "//" <= s && (scheme != "" || !("///" <= s)) {
      var (authority, rest) := Authority(s[2..]);
      AuthorityParts(s[2..]);
      HostParts(authority);
      AuthorityIsClean(s, authority, rest);
      HostEndsText(s, authority, rest, u.host, fragment);
    } else {
      assert "" + (s + fragment) == s + fragment;
    }
  }

  lemma AuthorityIsClean(s: string, authority: string, rest: string)
    requires 2 <= |s| && s[2..] == authority + rest && '#' !in s && '/' !in authority && '?' !in authority
    ensures forall c | c in authority :: c !in "/?#"
  {
    forall c | c in authority ensures c !in "/?#" {
      assert c in s[2..];
    }
  }

  lemma HostEndsText(s: string, authority: string, rest: string, host: string, fragment: string)
    requires 2 <= |s| && s[2..] == authority + rest && Suffix(authority, host)
    ensures Suffix(s + fragment, host + (rest + fragment))
  {
    var head := s[..2] + authority[..|authority| - |host|];
    assert authority == authority[..|authority| - |host|] + host;
    assert s == s[..2] + s[2..];
    assert s + fragment == head + (host + (rest + fragment));
    SuffixOf(head, host + (rest + fragment));
  }

  /** A parsed URL whose rest is a path from the root, a query, a fragment or nothing is well
      formed, and its host and rest end the text it was parsed from. */
  lemma ParsedIsWellFormed(raw: string, u: Url)
    requires Parse(raw) == Some(u) && OpensRest(u.rest)
    ensures WellFormed(u) && Suffix(raw, u.host + u.rest)
  {
    var (body, fragment) := match Cut(raw, '#') case None => (raw, "") case Some(p) => (p.0, "#" + p.1);
    assert raw == body + fragment && '#' !in body;
    assert Parse(raw) == ParseBody(body, fragment);
    BodyIsWellFormed(body, fragment, u);
  }

  lemma BodyIsWellFormed(body: string, fragment: string, u: Url)
    requires '#' !in body && (fragment == "" || fragment[0] == '#')
    requires ParseBody(body, fragment) == Some(u) && OpensRest(u.rest)
    ensures WellFormed(u) && Suffix(body + fragment, u.host + u.rest)
  {
    if Cut(body, ':').Some? && ValidScheme(Cut(body, ':').value.0) {
      var p := Cut(body, ':').value;
      BodyParts(body, fragment, p.0, p.1, u);
    } else {
      HierarchyParts("", body, fragment, u);
    }
  }

  lemma BodyParts(body: string, fragment: string, scheme: string, tail: string, u: Url)
    requires body == scheme + [':'] + tail && '#' !in body && (fragment == "" || fragment[0] == '#')
    requires ValidScheme(scheme) && ParseHierarchy(Lower(scheme), tail, fragment) == Some(u) && OpensRest(u.rest)
    ensures WellFormed(u) && Suffix(body + fragment, u.host + u.rest)
  {
    LowerScheme(scheme);
    NoHashInTail(scheme + [':'], tail);
    HierarchyParts(Lower(scheme), tail, fragment, u);
    SuffixLonger(scheme + [':'], tail, fragment, u.host + u.rest);
  }

  lemma NoHashInTail(a: string, b: string)
    requires '#' !in a + b
    ensures '#' !in b
  {
    assert forall c | c in b :: c in a + b;
  }

  lemma SuffixLonger(a: string, b: string, c: string, t: string)
    requires Suffix(b + c, t)
    ensures Suffix(a + b + c, t)
  {
    assert a + b + c == a + (b + c);
  }

  lemma UserInfoText(user: string, pass: string)
    requires Bytes(user) && Bytes(pass)
    ensures PrintUserInfo(UserInfo(user, Some(pass))) == Escape(user) + [':'] + Escape(pass)
    ensures ':' !in Escape(user)
    ensures forall c | c in Escape(user) + [':'] + Escape(pass) :: Escaped(c) || c == ':'
  {
    EscapeAlphabet(user);
    EscapeAlphabet(pass);
    NoColon(Escape(user));
    EscapedAround(Escape(user), Escape(pass));
  }

  lemma NoColon(s: string)
    requires forall c | c in s :: Escaped(c)
    ensures ':' !in s
  {
    assert !Escaped(':');
  }

  lemma EscapedAround(a: string, b: string)
    requires (forall c | c in a :: Escaped(c)) && (forall c | c in b :: Escaped(c))
    ensures forall c | c in a + [':'] + b :: Escaped(c) || c == ':'
  {
  }

  lemma EscapedIsValid(c: char)
    requires Escaped(c) || c == ':'
    ensures Unreserved(c) || c in ":!$&'()*+,;=%@"
    ensures c !in "/?#@"
  {
  }

  lemma UserInfoRoundTrip(user: string, pass: string)
    requires Bytes(user) && Bytes(pass)
    ensures var text := PrintUserInfo(UserInfo(user, Some(pass)));
      && ParseUserInfo(text) == Some(UserInfo(user, Some(pass)))
      && forall c | c in text :: c !in "/?#@"
  {
    UserInfoText(user, pass);
    EscapeRoundTrip(user);
    EscapeRoundTrip(pass);
    var text := Escape(user) + [':'] + Escape(pass);
    CutAt(Escape(user), ':', Escape(pass));
    forall c | c in text ensures (Unreserved(c) || c in ":!$&'()*+,;=%@") && c !in "/?#@" {
      EscapedIsValid(c);
    }
    assert ValidUserInfo(text);
  }

  /** The round trip: a well-formed URL, printed with any user name and password, parses back
      to itself. */
  lemma PrintParse(u: Url, user: string, pass: string)
    requires WellFormed(u) && Bytes(user) && Bytes(pass)
    ensures var v := u.(user := Some(UserInfo(user, Some(pass)))); Parse(Print(v)) == Some(v)
  {
    UserInfoRoundTrip(user, pass);
    match Cut(u.rest, '#') {
      case None =>
        assert u.rest == u.rest + "";
        PrintParsePieces(u, UserInfo(user, Some(pass)), u.rest, "");
      case Some(p) =>
        assert u.rest == p.0 + ("#" + p.1);
        PrintParsePieces(u, UserInfo(user, Some(pass)), p.0, "#" + p.1);
    }
  }

  lemma PrintParsePieces(u: Url, info: UserInfo, path: string, fragment: string)
    requires WellFormed(u) && Bytes(info.username) && (info.password.Some? ==> Bytes(info.password.value))
    requires ParseUserInfo(PrintUserInfo(info)) == Some(info) && forall c | c in PrintUserInfo(info) :: c !in "/?#@"
    requires u.rest == path + fragment && '#' !in path && (fragment == "" || fragment[0] == '#')
    ensures Parse(Print(u.(user := Some(info)))) == Some(u.(user := Some(info)))
  {
    var authority := PrintUserInfo(info) + "@" + u.host;
    assert path == "" || path[0] == u.rest[0];
    AuthorityChars(PrintUserInfo(info), u.host);
    PrintedText(u, info, path, fragment);
    ParseTail(u, info, authority, path, fragment);
    assert ("//" + (authority + path))[..2] == "//";
    ParseParts(u.scheme, "//" + (authority + path), fragment);
  }

  lemma PrintedText(u: Url, info: UserInfo, path: string, fragment: string)
    requires Bytes(info.username) && (info.password.Some? ==> Bytes(info.password.value))
    requires !Opaque(u) && u.rest == path + fragment
    ensures Print(u.(user := Some(info)))
         == Lead(u.scheme) + ("//" + (PrintUserInfo(info) + "@" + u.host + path)) + fragment
  {
    var a, b := Lead(u.scheme), PrintUserInfo(info) + "@";
    assert Print(u.(user := Some(info))) == a + "//" + b + u.host + (path + fragment);
  }

  lemma AuthorityChars(text: string, host: string)
    requires forall c | c in text :: c !in "/?#@"
    requires forall c | c in host :: c !in "/?#@"
    ensures forall c | c in text + "@" + host :: c !in "/?#"
  {
  }

  lemma ParseTail(u: Url, info: UserInfo, authority: string, path: string, fragment: string)
    requires Bytes(info.username) && (info.password.Some? ==> Bytes(info.password.value))
    requires ParseUserInfo(PrintUserInfo(info)) == Some(info)
    requires authority == PrintUserInfo(info) + "@" + u.host && '@' !in u.host
    requires forall c | c in authority :: c !in "/?#"
    requires path == "" || path[0] == '/' || path[0] == '?'
    requires u.rest == path + fragment
    ensures ParseHierarchy(u.scheme, "//" + (authority + path), fragment) == Some(u.(user := Some(info)))
  {
    assert ("//" + (authority + path))[2..] == authority + path;
    AuthorityAt(authority, path);
    CutLastAtAt(PrintUserInfo(info), u.host);
  }

  lemma ParseParts(scheme: string, tail: string, fragment: string)
    requires scheme == "" || (ValidScheme(scheme) && Lower(scheme) == scheme)
    requires '#' !in tail && "//" <= tail
    requires fragment == "" || fragment[0] == '#'
    ensures Parse(Lead(scheme) + tail + fragment) == ParseHierarchy(scheme, tail, fragment)
  {
    NoHash(scheme);
    WithoutFragment(Lead(scheme) + tail, fragment);
    if scheme == "" {
      assert Lead(scheme) + tail == tail;
      NoScheme(tail, fragment);
    } else {
      assert Lead(scheme) + tail == scheme + [':'] + tail;
      CutAt(scheme, ':', tail);
    }
  }

  lemma NoHash(scheme: string)
    requires scheme == "" || ValidScheme(scheme)
    ensures '#' !in Lead(scheme) && ':' !in scheme
  {
    assert !SchemeChar('#') && !SchemeChar(':');
  }

  lemma WithoutFragment(body: string, fragment: string)
    requires '#' !in body && (fragment == "" || fragment[0] == '#')
    ensures Parse(body + fragment) == ParseBody(body, fragment)
  {
    if fragment == "" {
      assert body + fragment == body;
    } else {
      assert body + fragment == body + ['#'] + fragment[1..];
      CutAt(body, '#', fragment[1..]);
      assert fragment == "#" + fragment[1..];
    }
  }

  /** A text that begins with slashes has no scheme, whatever colons follow. */
  lemma NoScheme(s: string, fragment: string)
    requires "//" <= s
    ensures ParseBody(s, fragment) == ParseHierarchy("", s, fragment)
  {
    assert !IsLetter('/');
    match Cut(s, ':') {
      case None =>
      case Some(p) =>
        assert p.0 != "" by { assert s[0] == '/'; }
        assert p.0[0] == s[0] == '/';
    }
  }
}
