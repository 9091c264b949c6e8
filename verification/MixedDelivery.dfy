/** Delivery through webhook and plugin for any list of configurations, each in classic or URI
    mode, compared with legacy delivery. (pkg/k8smutator/k8smutator.go, pkg/nri/plugin.go,
    pkg/nri/vault.go, pkg/nri/substitute.go) */
module MixedDelivery {
  import opened Strings
  import opened Sequences
  import opened Placeholder
  import opened Substitution
  import opened ContainerHook
  import opened Annotations
  import opened ClassicDelivery
  import opened ClassicRefinement
  import opened UriDelivery
  import opened Delivery
  import opened MixedClaims
  import Url

  // ---- What the substitution makes of the environment ----

  /** The lines of one configuration with the credentials put in as they are. */
  function RawLines(conf: DbConfiguration, v: Creds): seq<string> {
    match ModeOf(conf)
    case Classic => Lines(ClassicVars(conf, v))
    case Uri =>
      (match Url.Parse(conf.template)
       case Some(u) => RawUriLines(Split(conf.dbURIEnvKey, ','), u, v)
       case None => [])
    case Unsupported => []
  }

  function RawUriLines(keys: seq<string>, u: Url.Url, v: Creds): seq<string> {
    seq(|keys|, i requires 0 <= i < |keys| => RawLine(keys[i], u, v))
  }

  function AllRaw(confs: seq<DbConfiguration>, vals: seq<Creds>): seq<seq<string>>
    requires |confs| == |vals|
  {
    seq(|confs|, i requires 0 <= i < |confs| => RawLines(confs[i], vals[i]))
  }

  /** A container's environment with the credentials put in as they are. */
  function RawEnv(base: Env, confs: seq<DbConfiguration>, vals: seq<Creds>): seq<string>
    requires |confs| == |vals|
  {
    Joined(Lines(base), AllRaw(confs, vals), |confs|)
  }

  function AllShownCreds(phs: seq<Creds>, m: Mapping): seq<Creds> {
    seq(|phs|, i requires 0 <= i < |phs| => Shown(phs[i], m))
  }

  /** Substitution works piece by piece. */
  lemma {:induction false} JoinedDelivered(base: seq<string>, parts: seq<seq<string>>, raws: seq<seq<string>>,
                                           m: Mapping, n: nat)
    requires n <= |parts| == |raws| && AllSeparated(base, m) && DeliveredLines(base, m) == base
    requires forall i | 0 <= i < |parts| :: AllSeparated(parts[i], m) && DeliveredLines(parts[i], m) == raws[i]
    ensures AllSeparated(Joined(base, parts, n), m)
    ensures DeliveredLines(Joined(base, parts, n), m) == Joined(base, raws, n)
  {
    if n > 0 {
      JoinedDelivered(base, parts, raws, m, n - 1);
      DeliveredConcat(Joined(base, parts, n - 1), parts[n - 1], m);
    }
  }

  lemma VarsDelivered(conf: DbConfiguration, ph: Creds, m: Mapping)
    requires Applies(conf) && ByteCreds(ph) && IsPlaceholder(ph.username) && IsPlaceholder(ph.password)
    ensures AllSeparated(Lines(VarsOf(conf, ph)), m)
    ensures DeliveredLines(Lines(VarsOf(conf, ph)), m) == RawLines(conf, Shown(ph, m))
  {
    if ModeOf(conf).Classic? {
      ListsDelivered(FieldKeys(conf, Username), FieldKeys(conf, Password), ph, m);
    } else {
      UriVarsDelivered(FieldKeys(conf, Username), conf.template, Url.Parse(conf.template).value, ph, m);
    }
  }

  lemma ListsDelivered(users: seq<string>, passes: seq<string>, ph: Creds, m: Mapping)
    requires GoodKeys(users) && GoodKeys(passes) && IsPlaceholder(ph.username) && IsPlaceholder(ph.password)
    ensures AllSeparated(Lines(Vars(users, ph.username) + Vars(passes, ph.password)), m)
    ensures DeliveredLines(Lines(Vars(users, ph.username) + Vars(passes, ph.password)), m)
         == Lines(Vars(users, ShownAs(ph.username, m)) + Vars(passes, ShownAs(ph.password, m)))
  {
    SlotLines(users, ph.username, m);
    SlotLines(passes, ph.password, m);
    LinesConcat(Vars(users, ph.username), Vars(passes, ph.password));
    LinesConcat(Vars(users, ShownAs(ph.username, m)), Vars(passes, ShownAs(ph.password, m)));
    DeliveredConcat(Lines(Vars(users, ph.username)), Lines(Vars(passes, ph.password)), m);
  }

  lemma UriVarsDelivered(keys: seq<string>, template: string, u: Url.Url, ph: Creds, m: Mapping)
    requires Url.Parse(template) == Some(u) && Url.OpensRest(u.rest) && Plain(template) && GoodKeys(keys)
    requires ByteCreds(ph) && IsPlaceholder(ph.username) && IsPlaceholder(ph.password)
    ensures AllSeparated(Lines(Vars(keys, Dsn(u, ph))), m)
    ensures DeliveredLines(Lines(Vars(keys, Dsn(u, ph))), m) == RawUriLines(keys, u, Shown(ph, m))
  {
    Url.ParsedIsWellFormed(template, u);
    SuffixIsPlain(template, u.host + u.rest);
    var lines := Lines(Vars(keys, Dsn(u, ph)));
    forall i | 0 <= i < |keys|
      ensures Separated(lines[i], m) && AtOnce(lines[i], m) == RawLine(keys[i], u, Shown(ph, m))
    {
      assert keys[i] in keys && lines[i] == keys[i] + "=" + Dsn(u, ph);
      RenderedVarDelivered(keys[i], u, ph, m);
    }
  }

  lemma EnvDelivered(base: Env, confs: seq<DbConfiguration>, phs: seq<Creds>, m: Mapping)
    requires |confs| == |phs| && AllBytes(phs) && DistinctPlaceholders(phs) && PlainEnv(base)
    requires forall i | 0 <= i < |confs| :: Applies(confs[i])
    ensures AllSeparated(Lines(Injected(base, confs, phs)), m)
    ensures DeliveredLines(Lines(Injected(base, confs, phs)), m) == RawEnv(base, confs, AllShownCreds(phs, m))
  {
    var vars := AllVars(confs, phs);
    PlainLines(base, m);
    LinesOfJoined(base, vars, |confs|);
    forall i | 0 <= i < |confs|
      ensures AllSeparated(LinesOf(vars)[i], m)
      ensures DeliveredLines(LinesOf(vars)[i], m) == AllRaw(confs, AllShownCreds(phs, m))[i]
    {
      OwnPlaceholders(phs, i);
      VarsDelivered(confs[i], phs[i], m);
    }
    JoinedDelivered(Lines(base), LinesOf(vars), AllRaw(confs, AllShownCreds(phs, m)), m, |confs|);
  }

  lemma {:induction false} MappingIsPlain(confs: seq<DbConfiguration>, creds: seq<Creds>, lines: seq<string>, n: nat)
    requires n <= |confs| == |creds| && forall i, f: Field | 0 <= i < |creds| :: Plain(FieldValue(creds[i], f))
    ensures PlainValues(MergedUpTo(confs, creds, lines, n))
  {
    if n > 0 {
      MappingIsPlain(confs, creds, lines, n - 1);
    }
  }

  lemma BaseIsPlain(containers: seq<Env>, confs: seq<DbConfiguration>, phs: seq<Creds>, creds: seq<Creds>, c: nat)
    requires Setting(containers, confs, phs, creds) && c < |containers|
    ensures PlainEnv(containers[c])
  {
    forall v | v in containers[c] ensures Plain(Line(v)) {
      assert containers[c] in containers && Unrelated(Line(v), confs, phs);
    }
  }

  /** Whatever the iteration order, every placeholder is shown as the mapping has it. */
  lemma PodDelivered(containers: seq<Env>, confs: seq<DbConfiguration>, phs: seq<Creds>, creds: seq<Creds>, c: nat,
                     out: seq<string>)
    requires Setting(containers, confs, phs, creds) && c < |containers|
    requires Substituted(Lines(Injected(containers[c], confs, phs)), PodMapping(containers, confs, phs, creds), out)
    ensures out == RawEnv(containers[c], confs, AllShownCreds(phs, PodMapping(containers, confs, phs, creds)))
  {
    var m := PodMapping(containers, confs, phs, creds);
    MappingIsPlain(confs, creds, AllLines(InjectedPod(containers, confs, phs)), |confs|);
    BaseIsPlain(containers, confs, phs, creds, c);
    EnvDelivered(containers[c], confs, phs, m);
    SubstitutedIsDelivered(Lines(Injected(containers[c], confs, phs)), m, out);
  }

  /** Where every field wins, every placeholder is shown as its own credential. */
  lemma WinnersAreShown(containers: seq<Env>, confs: seq<DbConfiguration>, phs: seq<Creds>, creds: seq<Creds>)
    requires Setting(containers, confs, phs, creds) && containers != [] && EveryFieldWins(confs)
    ensures AllShownCreds(phs, PodMapping(containers, confs, phs, creds)) == creds
  {
    var m := PodMapping(containers, confs, phs, creds);
    forall i | 0 <= i < |phs| ensures Shown(phs[i], m) == creds[i] {
      assert FieldWinner(confs, i, Username) == Some((i, Username));
      assert FieldWinner(confs, i, Password) == Some((i, Password));
      MappingHasWinner(containers, confs, phs, creds, i, Username);
      MappingHasWinner(containers, confs, phs, creds, i, Password);
    }
  }

  // ---- Against legacy delivery ----

  /** The credentials need no escaping, or are not put into a URI. */
  predicate FitsAsIs(conf: DbConfiguration, v: Creds) {
    ModeOf(conf).Uri? ==> NeedsNoEscape(v)
  }

  predicate AllFit(confs: seq<DbConfiguration>, creds: seq<Creds>)
    requires |confs| == |creds|
  {
    forall i | 0 <= i < |confs| :: FitsAsIs(confs[i], creds[i])
  }

  lemma RawVarsAreLegacy(conf: DbConfiguration, v: Creds)
    requires Applies(conf) && ByteCreds(v)
    ensures |RawLines(conf, v)| == |Lines(VarsOf(conf, v))|
    ensures RawLines(conf, v) == Lines(VarsOf(conf, v)) <==> FitsAsIs(conf, v)
  {
    if ModeOf(conf).Uri? {
      var u, keys := Url.Parse(conf.template).value, Split(conf.dbURIEnvKey, ',');
      var raw, legacy := RawLines(conf, v), Lines(Vars(keys, Dsn(u, v)));
      forall i | 0 <= i < |keys| ensures raw[i] == legacy[i] <==> NeedsNoEscape(v) {
        RawIsLegacy(keys[i], u, v);
      }
      assert raw[0] == legacy[0] <==> NeedsNoEscape(v);
    }
  }

  lemma RawEnvIsLegacy(base: Env, confs: seq<DbConfiguration>, creds: seq<Creds>)
    requires |confs| == |creds| && AllBytes(creds) && forall i | 0 <= i < |confs| :: Applies(confs[i])
    ensures RawEnv(base, confs, creds) == Lines(Injected(base, confs, creds)) <==> AllFit(confs, creds)
  {
    var raw, legacy := AllRaw(confs, creds), LinesOf(AllVars(confs, creds));
    LinesOfJoined(base, AllVars(confs, creds), |confs|);
    forall i | 0 <= i < |confs|
      ensures |raw[i]| == |legacy[i]| && (raw[i] == legacy[i] <==> FitsAsIs(confs[i], creds[i]))
    {
      RawVarsAreLegacy(confs[i], creds[i]);
    }
    SameJoined(Lines(base), raw, legacy, |confs|);
    assert raw[..|confs|] == raw && legacy[..|confs|] == legacy;
    SameParts(raw, legacy);
  }

  lemma SameParts(p: seq<seq<string>>, q: seq<seq<string>>)
    requires |p| == |q|
    ensures p == q <==> forall i | 0 <= i < |p| :: p[i] == q[i]
  {
  }

  /** The first exact condition, for any list of configurations of either mode in which every
      configuration wins its own fields: whatever the substitution makes of a container's
      injected environment is the container's legacy environment if and only if the
      credentials that go into URIs need no escaping. */
  lemma MixedExact(containers: seq<Env>, confs: seq<DbConfiguration>, phs: seq<Creds>, creds: seq<Creds>, c: nat,
                   out: seq<string>)
    requires Setting(containers, confs, phs, creds) && c < |containers| && EveryFieldWins(confs)
    requires Substituted(Lines(Injected(containers[c], confs, phs)), PodMapping(containers, confs, phs, creds), out)
    ensures out == Lines(Injected(containers[c], confs, creds)) <==> AllFit(confs, creds)
  {
    PodDelivered(containers, confs, phs, creds, c, out);
    WinnersAreShown(containers, confs, phs, creds);
    RawEnvIsLegacy(containers[c], confs, creds);
  }

  // ---- When the wrong configuration wins ----

  /** The values of a configuration can be read off its lines: in a URI, if neither user name
      has a colon. */
  lemma RawLinesTell(conf: DbConfiguration, a: Creds, b: Creds)
    requires Applies(conf) && RawLines(conf, a) == RawLines(conf, b)
    requires ModeOf(conf).Uri? ==> ':' !in a.username && ':' !in b.username
    ensures a == b
  {
    if ModeOf(conf).Classic? {
      ListsTell(FieldKeys(conf, Username), FieldKeys(conf, Password), a, b);
    } else {
      var u, keys := Url.Parse(conf.template).value, FieldKeys(conf, Username);
      assert RawUriLines(keys, u, a)[0] == RawUriLines(keys, u, b)[0];
      RawLineTells(keys[0], u, a, b);
    }
  }

  lemma ListsTell(users: seq<string>, passes: seq<string>, a: Creds, b: Creds)
    requires users != [] && passes != []
    requires Lines(Vars(users, a.username) + Vars(passes, a.password))
          == Lines(Vars(users, b.username) + Vars(passes, b.password))
    ensures a == b
  {
    var p := Lines(Vars(users, a.username) + Vars(passes, a.password));
    var q := Lines(Vars(users, b.username) + Vars(passes, b.password));
    assert p[0] == users[0] + "=" + a.username && q[0] == users[0] + "=" + b.username;
    assert p[|users|] == passes[0] + "=" + a.password && q[|users|] == passes[0] + "=" + b.password;
    SameRest(users[0] + "=", a.username, b.username);
    SameRest(passes[0] + "=", a.password, b.password);
  }

  lemma RawLineTells(k: string, u: Url.Url, a: Creds, b: Creds)
    requires RawLine(k, u, a) == RawLine(k, u, b) && ':' !in a.username && ':' !in b.username
    ensures a == b
  {
    var head, tail := k + "=" + Url.Lead(u.scheme) + "/" + "/", "@" + (u.host + u.rest);
    var x, y := a.username + [':'] + a.password, b.username + [':'] + b.password;
    RawLineText(k, u, a);
    RawLineText(k, u, b);
    SameRest(head, x + tail, y + tail);
    assert |x| == |y|;
    assert x == (x + tail)[..|x|] == (y + tail)[..|y|] == y;
    CutAt(a.username, ':', a.password);
    CutAt(b.username, ':', b.password);
  }

  lemma RawLineText(k: string, u: Url.Url, v: Creds)
    ensures RawLine(k, u, v)
         == k + "=" + Url.Lead(u.scheme) + "/" + "/" + (v.username + [':'] + v.password + ("@" + (u.host + u.rest)))
  {
  }

  lemma RawLinesLength(conf: DbConfiguration, a: Creds, b: Creds)
    ensures |RawLines(conf, a)| == |RawLines(conf, b)|
  {
  }

  /** The credentials can be told apart. */
  ghost predicate DistinctCreds(creds: seq<Creds>) {
    forall i, j, f: Field, g: Field
      | 0 <= i < |creds| && 0 <= j < |creds| && FieldValue(creds[i], f) == FieldValue(creds[j], g) :: i == j && f == g
  }

  ghost predicate Delivers(containers: seq<Env>, confs: seq<DbConfiguration>, creds: seq<Creds>, outs: seq<seq<string>>)
    requires |confs| == |creds| && |outs| == |containers| && AllBytes(creds)
  {
    forall c | 0 <= c < |containers| :: outs[c] == Lines(Injected(containers[c], confs, creds))
  }

  /** What a placeholder of a URI configuration is shown as has no colon. */
  lemma ShownHasNoColon(containers: seq<Env>, confs: seq<DbConfiguration>, phs: seq<Creds>, creds: seq<Creds>, i: nat)
    requires Setting(containers, confs, phs, creds) && containers != [] && i < |confs| && ModeOf(confs[i]).Uri?
    requires AllFit(confs, creds)
    ensures ':' !in ShownAs(phs[i].username, PodMapping(containers, confs, phs, creds))
  {
    MappingHasWinner(containers, confs, phs, creds, i, Username);
    OwnPlaceholders(phs, i);
    PlaceholderHasNoColon(phs[i].username);
    match FieldWinner(confs, i, Username) {
      case Some(w) => WinnerFits(confs, creds, i, w);
      case None =>
    }
  }

  lemma PlaceholderHasNoColon(ph: string)
    requires IsPlaceholder(ph)
    ensures ':' !in ph
  {
    PlaceholderAlphabet(ph);
    assert !InAlphabet(':');
  }

  lemma WinnerFits(confs: seq<DbConfiguration>, creds: seq<Creds>, i: nat, w: (nat, Field))
    requires |confs| == |creds| && i < |confs| && ModeOf(confs[i]).Uri? && AllFit(confs, creds)
    requires FieldWinner(confs, i, Username) == Some(w)
    ensures w.0 < |confs| && ':' !in FieldValue(creds[w.0], w.1)
  {
    LastClaims(ClaimsFor(confs, i, Username), |confs|);
    FitHasNoColon(confs, creds, w.0);
  }

  lemma {:induction false} LastClaims(claims: seq<Option<Field>>, n: nat)
    requires n <= |claims|
    ensures match LastSome(claims, n) case Some(w) => w.0 < n && claims[w.0] == Some(w.1) case None => true
  {
    if n > 0 {
      LastClaims(claims, n - 1);
    }
  }

  lemma ShownTellsWinner(containers: seq<Env>, confs: seq<DbConfiguration>, phs: seq<Creds>, creds: seq<Creds>,
                         i: nat, f: Field)
    requires Setting(containers, confs, phs, creds) && containers != [] && i < |confs| && DistinctCreds(creds)
    requires ShownAs(FieldValue(phs[i], f), PodMapping(containers, confs, phs, creds)) == FieldValue(creds[i], f)
    ensures FieldWinner(confs, i, f) == Some((i, f))
  {
    MappingHasWinner(containers, confs, phs, creds, i, f);
    assert IsPlaceholder(FieldValue(phs[i], f)) && Plain(FieldValue(creds[i], f));
    assert OccursAt(FieldValue(phs[i], f), PREFIX, 0);
  }

  /** Legacy environments need every configuration to win. */
  lemma DeliveryNeedsWinners(containers: seq<Env>, confs: seq<DbConfiguration>, phs: seq<Creds>, creds: seq<Creds>,
                             out: seq<string>)
    requires Setting(containers, confs, phs, creds) && containers != [] && DistinctCreds(creds) && AllFit(confs, creds)
    requires Substituted(Lines(Injected(containers[0], confs, phs)), PodMapping(containers, confs, phs, creds), out)
    requires out == Lines(Injected(containers[0], confs, creds))
    ensures EveryFieldWins(confs)
  {
    var m := PodMapping(containers, confs, phs, creds);
    var shown := AllShownCreds(phs, m);
    PodDelivered(containers, confs, phs, creds, 0, out);
    RawEnvIsLegacy(containers[0], confs, creds);
    SameRawEnv(containers[0], confs, shown, creds);
    forall i, f: Field | 0 <= i < |confs| ensures FieldWinner(confs, i, f) == Some((i, f)) {
      if ModeOf(confs[i]).Uri? {
        ShownHasNoColon(containers, confs, phs, creds, i);
        FitHasNoColon(confs, creds, i);
      }
      RawLinesTell(confs[i], shown[i], creds[i]);
      ShownTellsWinner(containers, confs, phs, creds, i, f);
    }
  }

  lemma FitHasNoColon(confs: seq<DbConfiguration>, creds: seq<Creds>, i: nat)
    requires |confs| == |creds| && AllFit(confs, creds) && i < |confs| && ModeOf(confs[i]).Uri?
    ensures ':' !in creds[i].username && ':' !in creds[i].password
  {
    assert FitsAsIs(confs[i], creds[i]) && !Url.KeptInUserInfo(':');
  }

  lemma SameRawEnv(base: Env, confs: seq<DbConfiguration>, a: seq<Creds>, b: seq<Creds>)
    requires |confs| == |a| == |b| && RawEnv(base, confs, a) == RawEnv(base, confs, b)
    ensures forall i | 0 <= i < |confs| :: RawLines(confs[i], a[i]) == RawLines(confs[i], b[i])
  {
    var p, q := AllRaw(confs, a), AllRaw(confs, b);
    forall i | 0 <= i < |confs| ensures |p[i]| == |q[i]| {
      RawLinesLength(confs[i], a[i], b[i]);
    }
    SameJoined(Lines(base), p, q, |confs|);
    assert p[..|confs|] == p && q[..|confs|] == q;
    forall i | 0 <= i < |confs| ensures RawLines(confs[i], a[i]) == RawLines(confs[i], b[i]) {
      assert p[i] == q[i];
    }
  }

  /** The second exact condition, for credentials that can be told apart and need no escaping
      where they go into URIs: the containers get their legacy environments if and only if
      every configuration wins its own fields, whatever env keys are shared. */
  lemma WinnersExact(containers: seq<Env>, confs: seq<DbConfiguration>, phs: seq<Creds>, creds: seq<Creds>,
                     outs: seq<seq<string>>)
    requires Setting(containers, confs, phs, creds) && containers != [] && |outs| == |containers|
    requires DistinctCreds(creds) && AllFit(confs, creds)
    requires forall c | 0 <= c < |containers| ::
      Substituted(Lines(Injected(containers[c], confs, phs)), PodMapping(containers, confs, phs, creds), outs[c])
    ensures Delivers(containers, confs, creds, outs) <==> EveryFieldWins(confs)
  {
    if EveryFieldWins(confs) {
      forall c | 0 <= c < |containers| ensures outs[c] == Lines(Injected(containers[c], confs, creds)) {
        MixedExact(containers, confs, phs, creds, c, outs[c]);
      }
    }
    if Delivers(containers, confs, creds, outs) {
      DeliveryNeedsWinners(containers, confs, phs, creds, outs[0]);
    }
  }

  // ---- From the webhook to the running container ----

  lemma RawLineIsPlain(k: string, u: Url.Url, v: Creds)
    requires Plain(k) && GoodScheme(u.scheme) && Plain(u.host + u.rest) && Plain(v.username) && Plain(v.password)
    ensures Plain(RawLine(k, u, v))
  {
    var head, tail := k + "=" + Url.Lead(u.scheme) + "/", u.host + u.rest;
    HeadIsPlain(k, u.scheme);
    PlainAcross(v.password, '@', tail);
    PlainAcross(v.username, ':', v.password + ['@'] + tail);
    PlainAcross(head, '/', v.username + [':'] + (v.password + ['@'] + tail));
    RawLinePieces(k, u, v);
  }

  lemma RawLinesArePlain(conf: DbConfiguration, v: Creds)
    requires Applies(conf) && Plain(v.username) && Plain(v.password)
    ensures NoPrefix(RawLines(conf, v))
  {
    if ModeOf(conf).Classic? {
      var vars := ClassicVars(conf, v);
      forall i | 0 <= i < |vars| ensures Plain(Lines(vars)[i]) {
        assert vars[i].name in FieldKeys(conf, Username) || vars[i].name in FieldKeys(conf, Password);
        PlainLine(vars[i].name, vars[i].value);
      }
    } else {
      var u, keys := Url.Parse(conf.template).value, Split(conf.dbURIEnvKey, ',');
      Url.ParsedIsWellFormed(conf.template, u);
      SuffixIsPlain(conf.template, u.host + u.rest);
      forall i | 0 <= i < |keys| ensures Plain(RawLines(conf, v)[i]) {
        assert keys[i] in FieldKeys(conf, Username);
        RawLineIsPlain(keys[i], u, v);
      }
    }
  }

  lemma {:induction false} JoinedIsPlain(base: seq<string>, parts: seq<seq<string>>, n: nat)
    requires n <= |parts| && NoPrefix(base) && forall i | 0 <= i < |parts| :: NoPrefix(parts[i])
    ensures NoPrefix(Joined(base, parts, n))
  {
    if n > 0 {
      JoinedIsPlain(base, parts, n - 1);
    }
  }

  lemma RawEnvIsPlain(base: Env, confs: seq<DbConfiguration>, creds: seq<Creds>)
    requires |confs| == |creds| && PlainEnv(base) && forall i | 0 <= i < |confs| :: Applies(confs[i])
    requires forall i, f: Field | 0 <= i < |creds| :: Plain(FieldValue(creds[i], f))
    ensures NoPrefix(RawEnv(base, confs, creds))
  {
    forall i | 0 <= i < |base| ensures Plain(Lines(base)[i]) {
      assert base[i] in base;
    }
    forall i | 0 <= i < |confs| ensures NoPrefix(AllRaw(confs, creds)[i]) {
      assert Plain(FieldValue(creds[i], Username)) && Plain(FieldValue(creds[i], Password));
      RawLinesArePlain(confs[i], creds[i]);
    }
    JoinedIsPlain(Lines(base), AllRaw(confs, creds), |confs|);
  }

  /** An injected environment shows a placeholder in some value. */
  lemma InjectionIsSeen(base: Env, confs: seq<DbConfiguration>, phs: seq<Creds>)
    requires |confs| == |phs| > 0 && AllBytes(phs) && DistinctPlaceholders(phs) && Applies(confs[0])
    ensures HasPlaceholder(Lines(Injected(base, confs, phs)))
  {
    OwnPlaceholders(phs, 0);
    var vars, env := AllVars(confs, phs), Injected(base, confs, phs);
    var x := FirstVar(confs[0], phs[0]);
    InJoined(base, vars, |confs|, x);
    assert x in vars[0];
    var i :| 0 <= i < |env| && env[i] == x;
    assert Lines(env)[i] == Line(x);
  }

  lemma FirstVar(conf: DbConfiguration, v: Creds) returns (x: EnvVar)
    requires Applies(conf) && ByteCreds(v) && IsPlaceholder(v.username) && IsPlaceholder(v.password)
    ensures x in VarsOf(conf, v) && Contains(SplitKV(Line(x)).1, PREFIX)
  {
    x := VarsOf(conf, v)[0];
    assert x.name == FieldKeys(conf, Username)[0] && x.name in FieldKeys(conf, Username);
    CutAt(x.name, '=', x.value);
    assert Line(x) == x.name + ['='] + x.value;
    ValueIsSeen(conf, v, x);
  }

  lemma ValueIsSeen(conf: DbConfiguration, v: Creds, x: EnvVar)
    requires Applies(conf) && ByteCreds(v) && x in VarsOf(conf, v)
    requires IsPlaceholder(v.username) && IsPlaceholder(v.password)
    ensures Contains(x.value, PREFIX)
  {
    assert OccursAt(v.username, PREFIX, 0) && OccursAt(v.password, PREFIX, 0);
    if ModeOf(conf).Uri? {
      DsnShows(Url.Parse(conf.template).value, v);
    }
  }

  lemma DsnShows(u: Url.Url, v: Creds)
    requires !Url.Opaque(u) && ByteCreds(v) && IsPlaceholder(v.username)
    ensures Contains(Dsn(u, v), PREFIX)
  {
    PlaceholderIsKept(v.username);
    var a, b := v.username, Url.Escape(v.password);
    assert OccursAt(a, PREFIX, 0);
    assert Dsn(u, v) == Url.Lead(u.scheme) + "//" + (a + (":" + b) + "@") + u.host + u.rest;
    ContainedInPart(Url.Lead(u.scheme) + "//", a, (":" + b) + "@" + u.host + u.rest, PREFIX);
    Regrouped(Url.Lead(u.scheme) + "//", a, ":" + b, u.host, u.rest);
  }

  lemma Regrouped(head: string, a: string, b: string, host: string, rest: string)
    ensures head + (a + b + "@") + host + rest == head + a + (b + "@" + host + rest)
  {
  }

  /** The whole way, for any list of configurations of either mode in which every one wins its
      own fields: the hook never skips nor refuses, and what containerd merges is the
      environment with the credentials put in as they are, which is the legacy environment if
      and only if those in URIs need no escaping. */
  lemma MixedEndToEnd(containers: seq<Env>, confs: seq<DbConfiguration>, phs: seq<Creds>, creds: seq<Creds>, c: nat,
                      podLabel: string, labels: map<string, string>, r: Verdict)
    requires Setting(containers, confs, phs, creds) && c < |containers| && confs != [] && EveryFieldWins(confs)
    requires Selected(podLabel, labels)
    requires var env := Lines(Injected(containers[c], confs, phs)); DistinctKeys(env) && PlainKeys(env)
    requires FailClosed(podLabel, labels, Lines(Injected(containers[c], confs, phs)),
                        Resolved(PodMapping(containers, confs, phs, creds)), r)
    ensures r.Adjust?
    ensures var merged := Merge(Lines(Injected(containers[c], confs, phs)), r.added);
      && merged == RawEnv(containers[c], confs, creds)
      && (merged == Lines(Injected(containers[c], confs, creds)) <==> AllFit(confs, creds))
  {
    var env, m := Lines(Injected(containers[c], confs, phs)), PodMapping(containers, confs, phs, creds);
    InjectionIsSeen(containers[c], confs, phs);
    assert FieldWinner(confs, 0, Username) == Some((0, Username));
    MappingHasWinner(containers, confs, phs, creds, 0, Username);
    assert Judged(env, m, r);
    var out :| Substituted(env, m, out) && r == Judge(env, out);
    PodDelivered(containers, confs, phs, creds, c, out);
    WinnersAreShown(containers, confs, phs, creds);
    BaseIsPlain(containers, confs, phs, creds, c);
    RawEnvIsPlain(containers[c], confs, creds);
    JudgedDelivered(env, m, out);
    RawEnvIsLegacy(containers[c], confs, creds);
  }
}
