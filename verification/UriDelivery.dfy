/** Delivery of credentials in URI mode: the webhook renders the template with the two
    placeholders as userinfo, the plugin parses the rendered URI to find them, and
    substitution puts the credentials in. (pkg/k8smutator/k8smutator.go, pkg/nri/plugin.go) */
module UriDelivery {
  import opened Strings
  import opened Placeholder
  import opened Substitution
  import opened ContainerHook
  import opened Annotations
  import opened ClassicDelivery
  import Url

  predicate ByteCreds(v: Creds) { Url.Bytes(v.username) && Url.Bytes(v.password) }

  /** The template's URL with the given userinfo. */
  function Dsn(u: Url.Url, v: Creds): string
    requires ByteCreds(v)
  {
    Url.Print(u.(user := Some(Url.UserInfo(v.username, Some(v.password)))))
  }

  /** applyURI; `generated` is the pair of generated placeholders. A template that does not
      parse is an error and leaves the pod alone. */
  method ApplyUri(pod: PodSpec, conf: DbConfiguration, creds: Creds, generated: Creds,
                  nriEnabled: bool) returns (ok: bool)
    requires ByteCreds(creds) && ByteCreds(generated)
    modifies pod
    ensures ok <==> Url.Parse(conf.template).Some?
    ensures !ok ==> pod.initContainers == old(pod.initContainers) && pod.containers == old(pod.containers)
    ensures ok ==>
      var dsn := Dsn(Url.Parse(conf.template).value, if nriEnabled then generated else creds);
      var vars := Vars(Split(conf.dbURIEnvKey, ','), dsn);
      && pod.initContainers == Extended(old(pod.initContainers), vars)
      && pod.containers == Extended(old(pod.containers), vars)
  {
    var parsed := Url.Parse(conf.template);
    if parsed.None? {
      return false;
    }
    var dsn := Dsn(parsed.value, if nriEnabled then generated else creds);
    var keys := Split(conf.dbURIEnvKey, ',');
    for i := 0 to |pod.initContainers|
      invariant |pod.initContainers| == |old(pod.initContainers)| && pod.containers == old(pod.containers)
      invariant forall j | 0 <= j < i :: pod.initContainers[j] == old(pod.initContainers)[j] + Vars(keys, dsn)
      invariant forall j | i <= j < |pod.initContainers| :: pod.initContainers[j] == old(pod.initContainers)[j]
    {
      var env := AppendVars(pod.initContainers[i], keys, dsn);
      pod.initContainers := pod.initContainers[i := env];
    }
    for i := 0 to |pod.containers|
      invariant |pod.containers| == |old(pod.containers)|
      invariant pod.initContainers == Extended(old(pod.initContainers), Vars(keys, dsn))
      invariant forall j | 0 <= j < i :: pod.containers[j] == old(pod.containers)[j] + Vars(keys, dsn)
      invariant forall j | i <= j < |pod.containers| :: pod.containers[j] == old(pod.containers)[j]
    {
      var env := AppendVars(pod.containers[i], keys, dsn);
      pod.containers := pod.containers[i := env];
    }
    return true;
  }

  // ---- Extraction ----

  function ClaimsOf(info: Url.UserInfo): map<string, Field> {
    (if IsPlaceholder(info.username) then map[info.username := Username] else map[])
    + (if info.password.Some? && IsPlaceholder(info.password.value)
       then map[info.password.value := Password] else map[])
  }

  /** The placeholders found on one line. */
  function UriClaims(keys: seq<string>, line: string): map<string, Field> {
    var (k, v) := SplitKV(line);
    if k !in keys then map[]
    else
      match Url.Parse(v)
      case None => map[]
      case Some(u) => if u.user.Some? then ClaimsOf(u.user.value) else map[]
  }

  type FieldMap = map<string, Field>

  /** The union of the maps, later ones overriding earlier ones. */
  function Union(ms: seq<FieldMap>): FieldMap {
    if ms == [] then map[] else Union(ms[..|ms| - 1]) + ms[|ms| - 1]
  }

  function LineClaims(keys: seq<string>, lines: seq<string>): seq<FieldMap> {
    seq(|lines|, i requires 0 <= i < |lines| => UriClaims(keys, lines[i]))
  }

  function UriFields(keys: seq<string>, lines: seq<string>): FieldMap {
    Union(LineClaims(keys, lines))
  }

  lemma UriFieldsOfNext(keys: seq<string>, lines: seq<string>, n: nat)
    requires n < |lines|
    ensures UriFields(keys, lines[..n + 1]) == UriFields(keys, lines[..n]) + UriClaims(keys, lines[n])
  {
    var all := LineClaims(keys, lines[..n + 1]);
    assert all[..n] == LineClaims(keys, lines[..n]);
  }

  /** extractPlaceholdersFromEnv, URI mode. */
  method ExtractFromUris(env: seq<string>, conf: DbConfiguration) returns (out: map<string, Field>)
    ensures out == UriFields(CsvKeys(conf.dbURIEnvKey), env)
  {
    out := map[];
    var uriKeys := SplitCsv(conf.dbURIEnvKey);
    for i := 0 to |env|
      invariant out == UriFields(uriKeys, env[..i])
    {
      UriFieldsOfNext(uriKeys, env, i);
      var k, v := ScanKV(env[i]);
      if k in uriKeys {
        var u := Url.Parse(v);
        if u.Some? && u.value.user.Some? {
          out := AddUserInfo(out, u.value.user.value);
        }
      }
    }
    assert env[..|env|] == env;
  }

  method AddUserInfo(found: map<string, Field>, info: Url.UserInfo) returns (out: map<string, Field>)
    ensures out == found + ClaimsOf(info)
  {
    out := found;
    var userOk := CheckPlaceholder(info.username);
    if userOk {
      out := out[info.username := Username];
    }
    if info.password.Some? {
      var passOk := CheckPlaceholder(info.password.value);
      if passOk {
        out := out[info.password.value := Password];
      }
    }
  }

  // ---- One rendered line ----

  lemma PlaceholderIsKept(p: string)
    requires IsPlaceholder(p)
    ensures Url.Bytes(p) && forall c | c in p :: Url.KeptInUserInfo(c)
    ensures Url.Escape(p) == p
  {
    PlaceholderAlphabet(p);
    forall c | c in p ensures Url.KeptInUserInfo(c) && Url.IsByte(c) {
      assert InAlphabet(c);
    }
    Url.EscapeKept(p);
  }

  /** For every template that parses and whose part after scheme and host is a path from the
      root, a query, a fragment or nothing, parsing the rendered URI recovers exactly the two
      placeholders. */
  lemma RenderedUriRecovers(template: string, u: Url.Url, keys: seq<string>, k: string, phs: Creds)
    requires Url.Parse(template) == Some(u) && Url.OpensRest(u.rest)
    requires IsPlaceholder(phs.username) && IsPlaceholder(phs.password) && phs.username != phs.password
    requires '=' !in k && k in keys && ByteCreds(phs)
    ensures UriClaims(keys, k + "=" + Dsn(u, phs)) == map[phs.username := Username, phs.password := Password]
  {
    Url.ParsedIsWellFormed(template, u);
    Url.PrintParse(u, phs.username, phs.password);
    ClaimsOfParsed(keys, k, Dsn(u, phs), Url.UserInfo(phs.username, Some(phs.password)));
  }

  lemma ClaimsOfParsed(keys: seq<string>, k: string, text: string, info: Url.UserInfo)
    requires '=' !in k && k in keys && Url.Parse(text).Some? && Url.Parse(text).value.user == Some(info)
    ensures UriClaims(keys, k + "=" + text) == ClaimsOf(info)
  {
    CutAt(k, '=', text);
    assert k + "=" + text == k + ['='] + text;
  }

  /** The line with credentials put in place of the placeholders, as they are. */
  function RawLine(k: string, u: Url.Url, v: Creds): string {
    k + "=" + Url.Lead(u.scheme) + "/" + "/" + v.username + ":" + v.password + "@" + (u.host + u.rest)
  }

  lemma DsnText(k: string, u: Url.Url, v: Creds)
    requires !Url.Opaque(u) && ByteCreds(v)
    ensures k + "=" + Dsn(u, v) == RawLine(k, u, Creds(Url.Escape(v.username), Url.Escape(v.password)))
  {
    var a, b := Url.Escape(v.username), Url.Escape(v.password);
    assert Dsn(u, v) == Url.Lead(u.scheme) + "//" + (a + (":" + b) + "@") + u.host + u.rest;
    SameText(k, Url.Lead(u.scheme), a, b, u.host, u.rest);
  }

  lemma SameText(k: string, lead: string, a: string, b: string, host: string, rest: string)
    ensures k + "=" + (lead + "//" + (a + (":" + b) + "@") + host + rest)
         == k + "=" + lead + "/" + "/" + a + ":" + b + "@" + (host + rest)
  {
  }

  predicate GoodScheme(scheme: string) { scheme == "" || Url.ValidScheme(scheme) }

  /** Text before the userinfo has no placeholder prefix, because a scheme has no '_'. */
  lemma HeadIsPlain(k: string, scheme: string)
    requires !Contains(k, PREFIX) && GoodScheme(scheme)
    ensures !Contains(k + "=" + Url.Lead(scheme) + "/", PREFIX)
  {
    var b := Url.Lead(scheme) + "/";
    assert '_' !in b;
    forall i | 0 <= i <= |b| ensures !OccursAt(b, PREFIX, i) {
      if i + |PREFIX| <= |b| {
        assert b[i..i + |PREFIX|][0] == b[i];
      }
    }
    PlainLine(k, b);
    assert k + "=" + b == k + "=" + Url.Lead(scheme) + "/";
  }

  lemma SuffixIsPlain(s: string, t: string)
    requires Url.Suffix(s, t) && !Contains(s, PREFIX)
    ensures !Contains(t, PREFIX)
  {
    if Contains(t, PREFIX) {
      assert s == s[..|s| - |t|] + t + "";
      ContainedInPart(s[..|s| - |t|], t, "", PREFIX);
    }
  }

  /** The pieces of a raw line, between characters outside the placeholder alphabet. */
  lemma RawLinePieces(k: string, u: Url.Url, v: Creds)
    ensures RawLine(k, u, v)
      == (k + "=" + Url.Lead(u.scheme) + "/") + ['/'] + (v.username + [':'] + (v.password + ['@'] + (u.host + u.rest)))
  {
  }

  function Shown(phs: Creds, m: Mapping): Creds { Creds(ShownAs(phs.username, m), ShownAs(phs.password, m)) }

  /** On a rendered line the placeholders are separated, and substitution puts the mapped
      values in their place. */
  lemma RenderedUriDelivered(k: string, u: Url.Url, phs: Creds, m: Mapping)
    requires !Contains(k, PREFIX) && GoodScheme(u.scheme) && !Contains(u.host + u.rest, PREFIX)
    requires IsPlaceholder(phs.username) && IsPlaceholder(phs.password)
    ensures Separated(RawLine(k, u, phs), m)
    ensures AtOnce(RawLine(k, u, phs), m) == RawLine(k, u, Shown(phs, m))
  {
    var head, tail := k + "=" + Url.Lead(u.scheme) + "/", u.host + u.rest;
    var mid := phs.password + ['@'] + tail;
    var rest := phs.username + [':'] + mid;
    RawLinePieces(k, u, phs);
    RawLinePieces(k, u, Shown(phs, m));
    HeadIsPlain(k, u.scheme);
    assert !InAlphabet('/') && !InAlphabet(':') && !InAlphabet('@');
    PlainIsSeparated(head, m);
    PlainIsSeparated(tail, m);
    KeyIsSeparated(phs.username, m);
    KeyIsSeparated(phs.password, m);
    SeparatedJoin(phs.password, '@', tail, m);
    SeparatedJoin(phs.username, ':', mid, m);
    SeparatedJoin(head, '/', rest, m);
    AtOnceAcross(phs.password, '@', tail, m);
    AtOnceAcross(phs.username, ':', mid, m);
    AtOnceAcross(head, '/', rest, m);
    AtOnceOfPlain(head, m);
    AtOnceOfPlain(tail, m);
    AtOnceOfKey(phs.username, m);
    AtOnceOfKey(phs.password, m);
  }

  predicate NeedsNoEscape(v: Creds) {
    (forall c | c in v.username :: Url.KeptInUserInfo(c)) && (forall c | c in v.password :: Url.KeptInUserInfo(c))
  }

  lemma RawLineLength(k: string, u: Url.Url, v: Creds)
    ensures |RawLine(k, u, v)|
         == |k| + |Url.Lead(u.scheme)| + |u.host| + |u.rest| + |v.username| + |v.password| + 5
  {
  }

  /** The exact condition on one line: putting the credentials in as they are gives the
      legacy rendering if and only if none of their characters needs escaping. */
  lemma RawIsLegacy(k: string, u: Url.Url, v: Creds)
    requires !Url.Opaque(u) && ByteCreds(v)
    ensures RawLine(k, u, v) == k + "=" + Dsn(u, v) <==> NeedsNoEscape(v)
  {
    var e := Creds(Url.Escape(v.username), Url.Escape(v.password));
    DsnText(k, u, v);
    Url.EscapeAlphabet(v.username);
    Url.EscapeAlphabet(v.password);
    RawLineLength(k, u, v);
    RawLineLength(k, u, e);
    if NeedsNoEscape(v) {
      Url.EscapeKept(v.username);
      Url.EscapeKept(v.password);
    }
  }

  /** Unreserved characters never need escaping. */
  lemma UnreservedNeedsNoEscape(v: Creds)
    requires forall c | c in v.username + v.password :: Url.Unreserved(c)
    ensures NeedsNoEscape(v)
  {
    forall c | c in v.username || c in v.password ensures Url.KeptInUserInfo(c) {
      assert c in v.username + v.password;
    }
  }

  // ---- One configuration ----

  function UriVars(conf: DbConfiguration, u: Url.Url, v: Creds): Env
    requires ByteCreds(v)
  {
    Vars(Split(conf.dbURIEnvKey, ','), Dsn(u, v))
  }

  lemma RenderedVarDelivered(k: string, u: Url.Url, phs: Creds, m: Mapping)
    requires !Url.Opaque(u) && !Contains(k, PREFIX) && GoodScheme(u.scheme) && !Contains(u.host + u.rest, PREFIX)
    requires IsPlaceholder(phs.username) && IsPlaceholder(phs.password) && ByteCreds(phs)
    ensures Separated(k + "=" + Dsn(u, phs), m)
    ensures AtOnce(k + "=" + Dsn(u, phs), m) == RawLine(k, u, Shown(phs, m))
  {
    PlaceholderIsKept(phs.username);
    PlaceholderIsKept(phs.password);
    DsnText(k, u, phs);
    RenderedUriDelivered(k, u, phs, m);
  }
}
