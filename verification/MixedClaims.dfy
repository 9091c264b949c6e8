/** Which configuration's credential a placeholder gets, when configurations of both modes are
    applied to one pod and env keys may be shared: what each configuration reads back from the
    pod, and who wins. (extractPlaceholdersFromEnv in pkg/nri/plugin.go, pkg/nri/vault.go) */
module MixedClaims {
  import opened Strings
  import opened Sequences
  import opened Placeholder
  import opened Substitution
  import opened ContainerHook
  import opened Annotations
  import opened ClassicDelivery
  import opened ClassicRefinement
  import opened UriDelivery
  import opened Delivery
  import Url

  // ---- Extraction, line by line ----

  /** The placeholders a configuration finds on one line. */
  function ClaimsOn(reader: DbConfiguration, line: string): FieldMap {
    match ModeOf(reader)
    case Classic => (match Claim(Lists(reader), line) case None => map[] case Some(c) => map[c.0 := c.1])
    case Uri => UriClaims(CsvKeys(reader.dbURIEnvKey), line)
    case Unsupported => map[]
  }

  function AllClaims(reader: DbConfiguration, lines: seq<string>): seq<FieldMap> {
    seq(|lines|, i requires 0 <= i < |lines| => ClaimsOn(reader, lines[i]))
  }

  lemma AllClaimsFront(reader: DbConfiguration, lines: seq<string>)
    requires lines != []
    ensures AllClaims(reader, lines)[..|lines| - 1] == AllClaims(reader, lines[..|lines| - 1])
  {
    var whole, front := AllClaims(reader, lines), AllClaims(reader, lines[..|lines| - 1]);
    forall i | 0 <= i < |front| ensures whole[i] == front[i] {
      assert lines[..|lines| - 1][i] == lines[i];
    }
    TwoParts(whole, front, [whole[|lines| - 1]]);
  }

  lemma {:induction false} ClassicFieldsAreClaims(reader: DbConfiguration, lines: seq<string>)
    requires ModeOf(reader).Classic?
    ensures Fields(Lists(reader), lines) == Union(AllClaims(reader, lines))
  {
    if lines != [] {
      ClassicFieldsAreClaims(reader, lines[..|lines| - 1]);
      AllClaimsFront(reader, lines);
    }
  }

  lemma {:induction false} NoClaimsNoFields(ms: seq<FieldMap>)
    requires forall i | 0 <= i < |ms| :: ms[i] == map[]
    ensures Union(ms) == map[]
  {
    if ms != [] {
      NoClaimsNoFields(ms[..|ms| - 1]);
    }
  }

  /** In either mode, what is extracted is the union of what the lines claim. */
  lemma FieldsAreClaims(reader: DbConfiguration, lines: seq<string>)
    ensures FieldsIn(reader, lines) == Union(AllClaims(reader, lines))
  {
    match ModeOf(reader) {
      case Classic => ClassicFieldsAreClaims(reader, lines);
      case Uri => assert AllClaims(reader, lines) == LineClaims(CsvKeys(reader.dbURIEnvKey), lines);
      case Unsupported => NoClaimsNoFields(AllClaims(reader, lines));
    }
  }

  /** The field the last claim of `ph` gives it. */
  function LastOf(ms: seq<FieldMap>, ph: string): Option<Field> {
    if ms == [] then None
    else if ph in ms[|ms| - 1] then Some(ms[|ms| - 1][ph])
    else LastOf(ms[..|ms| - 1], ph)
  }

  lemma {:induction false} LastIsInUnion(ms: seq<FieldMap>, ph: string)
    ensures LastOf(ms, ph) == if ph in Union(ms) then Some(Union(ms)[ph]) else None
  {
    if ms != [] {
      LastIsInUnion(ms[..|ms| - 1], ph);
    }
  }

  function LastIn(reader: DbConfiguration, lines: seq<string>, ph: string): Option<Field> {
    LastOf(AllClaims(reader, lines), ph)
  }

  lemma {:induction false} LastConcat(a: seq<FieldMap>, b: seq<FieldMap>, ph: string)
    ensures LastOf(a + b, ph) == if LastOf(b, ph).Some? then LastOf(b, ph) else LastOf(a, ph)
    decreases |b|
  {
    if b == [] {
      assert a + b == a;
    } else {
      assert (a + b)[..|a + b| - 1] == a + b[..|b| - 1];
      LastConcat(a, b[..|b| - 1], ph);
    }
  }

  lemma AllClaimsConcat(reader: DbConfiguration, a: seq<string>, b: seq<string>)
    ensures AllClaims(reader, a + b) == AllClaims(reader, a) + AllClaims(reader, b)
  {
    var whole, first, second := AllClaims(reader, a + b), AllClaims(reader, a), AllClaims(reader, b);
    forall i | 0 <= i < |a| ensures whole[i] == first[i] {
      assert (a + b)[i] == a[i];
    }
    forall i | 0 <= i < |b| ensures whole[|a| + i] == second[i] {
      assert (a + b)[|a| + i] == b[i];
    }
    TwoParts(whole, first, second);
  }

  lemma LastInConcat(reader: DbConfiguration, a: seq<string>, b: seq<string>, ph: string)
    ensures LastIn(reader, a + b, ph)
         == if LastIn(reader, b, ph).Some? then LastIn(reader, b, ph) else LastIn(reader, a, ph)
  {
    AllClaimsConcat(reader, a, b);
    LastConcat(AllClaims(reader, a), AllClaims(reader, b), ph);
  }

  lemma {:induction false} NoneOf(ms: seq<FieldMap>, ph: string)
    requires forall i | 0 <= i < |ms| :: ph !in ms[i]
    ensures LastOf(ms, ph) == None
  {
    if ms != [] {
      NoneOf(ms[..|ms| - 1], ph);
    }
  }

  lemma NoneIn(reader: DbConfiguration, lines: seq<string>, ph: string)
    requires forall i | 0 <= i < |lines| :: ph !in ClaimsOn(reader, lines[i])
    ensures LastIn(reader, lines, ph) == None
  {
    NoneOf(AllClaims(reader, lines), ph);
  }

  lemma LastInNext(reader: DbConfiguration, lines: seq<string>, ph: string)
    requires lines != []
    ensures LastIn(reader, lines, ph)
         == var last := ClaimsOn(reader, lines[|lines| - 1]);
            if ph in last then Some(last[ph]) else LastIn(reader, lines[..|lines| - 1], ph)
  {
    AllClaimsFront(reader, lines);
  }

  // ---- The setting ----

  /** The env keys a configuration writes for a field. */
  function FieldKeys(conf: DbConfiguration, f: Field): seq<string> {
    match ModeOf(conf)
    case Classic => Split(if f.Username? then conf.dbUserEnvKey else conf.dbPasswordEnvKey, ',')
    case Uri => Split(conf.dbURIEnvKey, ',')
    case Unsupported => []
  }

  /** A template that parses, whose part after scheme and host is a path from the root, a query,
      a fragment or nothing, and which is free of the placeholder prefix. */
  predicate GoodTemplate(template: string) {
    match Url.Parse(template)
    case Some(u) => Url.OpensRest(u.rest) && Plain(template)
    case None => false
  }

  ghost predicate GoodKeys(keys: seq<string>) {
    forall k | k in keys :: '=' !in k && Plain(k)
  }

  /** A configuration that can be applied, with env keys free of '=' and of the prefix. */
  ghost predicate Applies(conf: DbConfiguration) {
    && !ModeOf(conf).Unsupported?
    && (ModeOf(conf).Uri? ==> GoodTemplate(conf.template))
    && GoodKeys(FieldKeys(conf, Username)) && GoodKeys(FieldKeys(conf, Password))
  }

  ghost predicate DistinctPlaceholders(phs: seq<Creds>) {
    && (forall i, f: Field | 0 <= i < |phs| :: IsPlaceholder(FieldValue(phs[i], f)))
    && (forall i, j, f: Field, g: Field
          | 0 <= i < |phs| && 0 <= j < |phs| && FieldValue(phs[i], f) == FieldValue(phs[j], g) :: i == j && f == g)
  }

  /** A line that was there before: free of the prefix, and giving none of the placeholders to
      any configuration (a percent-encoded one could). */
  ghost predicate Unrelated(line: string, confs: seq<DbConfiguration>, phs: seq<Creds>) {
    && Plain(line)
    && forall i, j, f: Field | 0 <= i < |confs| && 0 <= j < |phs| :: FieldValue(phs[j], f) !in ClaimsOn(confs[i], line)
  }

  ghost predicate AllBytes(vals: seq<Creds>) { forall i | 0 <= i < |vals| :: ByteCreds(vals[i]) }

  ghost predicate Setting(containers: seq<Env>, confs: seq<DbConfiguration>, phs: seq<Creds>, creds: seq<Creds>) {
    && |confs| == |phs| == |creds|
    && (forall i | 0 <= i < |confs| :: Applies(confs[i]))
    && DistinctPlaceholders(phs) && AllBytes(phs) && AllBytes(creds)
    && (forall i, f: Field | 0 <= i < |creds| :: Plain(FieldValue(creds[i], f)))
    && (forall env, v | env in containers && v in env :: Unrelated(Line(v), confs, phs))
  }

  function VarsOf(conf: DbConfiguration, v: Creds): Env
    requires ByteCreds(v)
  {
    match AddedVars(conf, v) case Some(vars) => vars case None => []
  }

  function AllVars(confs: seq<DbConfiguration>, vals: seq<Creds>): seq<Env>
    requires |confs| == |vals| && AllBytes(vals)
  {
    seq(|confs|, i requires 0 <= i < |confs| => VarsOf(confs[i], vals[i]))
  }

  /** A container's environment once the configurations have been applied. */
  function Injected(base: Env, confs: seq<DbConfiguration>, vals: seq<Creds>): Env
    requires |confs| == |vals| && AllBytes(vals)
  {
    Joined(base, AllVars(confs, vals), |confs|)
  }

  function InjectedPod(containers: seq<Env>, confs: seq<DbConfiguration>, vals: seq<Creds>): seq<Env>
    requires |confs| == |vals| && AllBytes(vals)
  {
    seq(|containers|, c requires 0 <= c < |containers| => Injected(containers[c], confs, vals))
  }

  /** The mapping the plugin builds for the pod. */
  function PodMapping(containers: seq<Env>, confs: seq<DbConfiguration>, phs: seq<Creds>, creds: seq<Creds>): Mapping
    requires |confs| == |phs| == |creds| && AllBytes(phs)
  {
    MergedUpTo(confs, creds, AllLines(InjectedPod(containers, confs, phs)), |confs|)
  }

  lemma OwnPlaceholders(phs: seq<Creds>, j: nat)
    requires DistinctPlaceholders(phs) && j < |phs|
    ensures IsPlaceholder(phs[j].username) && IsPlaceholder(phs[j].password) && phs[j].username != phs[j].password
  {
    assert IsPlaceholder(FieldValue(phs[j], Username)) && IsPlaceholder(FieldValue(phs[j], Password));
    assert FieldValue(phs[j], Username) != FieldValue(phs[j], Password);
  }

  // ---- One line ----

  /** A placeholder by itself has no userinfo. */
  lemma NoUserInfo(ph: string)
    requires IsPlaceholder(ph)
    ensures Url.Parse(ph) == Some(Url.Url("", None, "", ph))
  {
    PlaceholderAlphabet(ph);
    assert !InAlphabet('#') && !InAlphabet(':') && !InAlphabet('/');
    assert Cut(ph, '#') == None by { NotCut(ph, '#'); }
    assert Cut(ph, ':') == None by { NotCut(ph, ':'); }
    assert ph[0] != '/' by { assert ph[0] in ph; }
    assert ph + "" == ph;
  }

  lemma NotCut(s: string, c: char)
    requires c !in s
    ensures Cut(s, c) == None
  {
  }

  /** What a reader finds on a line that shows a placeholder as its value. */
  function ClassicLineClaims(reader: DbConfiguration, k: string, ph: string): FieldMap {
    if !ModeOf(reader).Classic? then map[]
    else if k in Lists(reader).users then map[ph := Username]
    else if k in Lists(reader).passes then map[ph := Password]
    else map[]
  }

  lemma ClassicLine(reader: DbConfiguration, k: string, ph: string)
    requires IsPlaceholder(ph) && '=' !in k
    ensures ClaimsOn(reader, k + "=" + ph) == ClassicLineClaims(reader, k, ph)
  {
    match ModeOf(reader) {
      case Classic => ClaimOfLine(Lists(reader), k, ph);
      case Uri =>
        SplitRendered(k, ph);
        NoUserInfo(ph);
      case Unsupported =>
    }
  }

  /** What a reader finds on a line that shows the two placeholders in a URI. */
  function UriLineClaims(reader: DbConfiguration, k: string, v: Creds): FieldMap {
    if ModeOf(reader).Uri? && k in CsvKeys(reader.dbURIEnvKey) then map[v.username := Username, v.password := Password]
    else map[]
  }

  lemma UriLine(reader: DbConfiguration, template: string, u: Url.Url, k: string, v: Creds)
    requires Url.Parse(template) == Some(u) && Url.OpensRest(u.rest) && '=' !in k && ByteCreds(v)
    requires IsPlaceholder(v.username) && IsPlaceholder(v.password) && v.username != v.password
    ensures ClaimsOn(reader, k + "=" + Dsn(u, v)) == UriLineClaims(reader, k, v)
  {
    CutAt(k, '=', Dsn(u, v));
    assert k + "=" + Dsn(u, v) == k + ['='] + Dsn(u, v);
    match ModeOf(reader) {
      case Classic => DsnIsNoPlaceholder(u, v);
      case Uri =>
        if k in CsvKeys(reader.dbURIEnvKey) {
          RenderedUriRecovers(template, u, CsvKeys(reader.dbURIEnvKey), k, v);
        }
      case Unsupported =>
    }
  }

  lemma DsnIsNoPlaceholder(u: Url.Url, v: Creds)
    requires !Url.Opaque(u) && ByteCreds(v)
    ensures !IsPlaceholder(Dsn(u, v))
  {
    var dsn, n := Dsn(u, v), |Url.Lead(u.scheme)|;
    DsnText("", u, v);
    assert dsn[n] == ("" + "=" + dsn)[n + 1] == '/';
    assert !InAlphabet('/');
    if IsPlaceholder(dsn) {
      PlaceholderAlphabet(dsn);
    }
  }

  // ---- The lines of one configuration ----

  lemma VarLines(keys: seq<string>, value: string, n: nat)
    requires n < |keys|
    ensures Lines(Vars(keys, value))[n] == keys[n] + "=" + value
    ensures Lines(Vars(keys, value))[..n] == Lines(Vars(keys[..n], value))
  {
  }

  lemma {:induction false} OwnSlot(reader: DbConfiguration, keys: seq<string>, ph: string)
    requires IsPlaceholder(ph) && GoodKeys(keys)
    ensures LastIn(reader, Lines(Vars(keys, ph)), ph)
         == if ModeOf(reader).Classic? then KeyClaim(Lists(reader), keys) else None
  {
    if keys != [] {
      var n := |keys| - 1;
      assert keys[n] in keys;
      VarLines(keys, ph, n);
      ClassicLine(reader, keys[n], ph);
      LastInNext(reader, Lines(Vars(keys, ph)), ph);
      OwnSlot(reader, keys[..n], ph);
    }
  }

  lemma OtherSlot(reader: DbConfiguration, keys: seq<string>, other: string, ph: string)
    requires IsPlaceholder(other) && other != ph && GoodKeys(keys)
    ensures LastIn(reader, Lines(Vars(keys, other)), ph) == None
  {
    var lines := Lines(Vars(keys, other));
    forall n | 0 <= n < |lines| ensures ph !in ClaimsOn(reader, lines[n]) {
      assert keys[n] in keys;
      VarLines(keys, other, n);
      ClassicLine(reader, keys[n], other);
    }
    NoneIn(reader, lines, ph);
  }

  predicate SharesKey(keys: seq<string>, read: seq<string>) {
    exists k | k in keys :: k in read
  }

  function UriSlotClaim(reader: DbConfiguration, keys: seq<string>, v: Creds, ph: string): Option<Field> {
    if !ModeOf(reader).Uri? || !SharesKey(keys, CsvKeys(reader.dbURIEnvKey)) then None
    else if ph == v.username then Some(Username)
    else if ph == v.password then Some(Password)
    else None
  }

  lemma UriSlot(reader: DbConfiguration, keys: seq<string>, template: string, u: Url.Url, v: Creds, ph: string)
    requires Url.Parse(template) == Some(u) && Url.OpensRest(u.rest) && ByteCreds(v)
    requires IsPlaceholder(v.username) && IsPlaceholder(v.password) && v.username != v.password
    requires GoodKeys(keys)
    ensures LastIn(reader, Lines(Vars(keys, Dsn(u, v))), ph) == UriSlotClaim(reader, keys, v, ph)
  {
    forall k | k in keys ensures ClaimsOn(reader, k + "=" + Dsn(u, v)) == UriLineClaims(reader, k, v) {
      UriLine(reader, template, u, k, v);
    }
    UriValues(reader, keys, Dsn(u, v), v, ph);
  }

  lemma {:induction false} UriValues(reader: DbConfiguration, keys: seq<string>, value: string, v: Creds, ph: string)
    requires v.username != v.password
    requires forall k | k in keys :: ClaimsOn(reader, k + "=" + value) == UriLineClaims(reader, k, v)
    ensures LastIn(reader, Lines(Vars(keys, value)), ph) == UriSlotClaim(reader, keys, v, ph)
  {
    if keys != [] {
      var n := |keys| - 1;
      assert keys[n] in keys && keys == keys[..n] + [keys[n]];
      VarLines(keys, value, n);
      LastInNext(reader, Lines(Vars(keys, value)), ph);
      UriValues(reader, keys[..n], value, v, ph);
      SharesKeyNext(keys, CsvKeys(reader.dbURIEnvKey));
    }
  }

  lemma SharesKeyNext(keys: seq<string>, read: seq<string>)
    requires keys != []
    ensures SharesKey(keys, read) <==> SharesKey(keys[..|keys| - 1], read) || keys[|keys| - 1] in read
  {
    assert keys == keys[..|keys| - 1] + [keys[|keys| - 1]];
  }

  /** The field a reader takes a configuration's field for, if it reads it at all: told by the
      modes and the env keys alone. */
  function ClaimOf(reader: DbConfiguration, conf: DbConfiguration, f: Field): Option<Field> {
    if ModeOf(reader).Classic? && ModeOf(conf).Classic? then KeyClaim(Lists(reader), FieldKeys(conf, f))
    else if ModeOf(reader).Uri? && ModeOf(conf).Uri? && SharesKey(FieldKeys(conf, f), CsvKeys(reader.dbURIEnvKey))
    then Some(f)
    else None
  }

  lemma OwnPart(reader: DbConfiguration, conf: DbConfiguration, v: Creds, f: Field)
    requires Applies(conf) && ByteCreds(v)
    requires IsPlaceholder(v.username) && IsPlaceholder(v.password) && v.username != v.password
    ensures LastIn(reader, Lines(VarsOf(conf, v)), FieldValue(v, f)) == ClaimOf(reader, conf, f)
  {
    if ModeOf(conf).Classic? {
      OwnLists(reader, FieldKeys(conf, Username), FieldKeys(conf, Password), v, f);
    } else {
      UriPart(reader, conf, v, FieldValue(v, f));
    }
  }

  lemma OtherPart(reader: DbConfiguration, conf: DbConfiguration, v: Creds, ph: string)
    requires Applies(conf) && ByteCreds(v) && ph != v.username && ph != v.password
    requires IsPlaceholder(v.username) && IsPlaceholder(v.password) && v.username != v.password
    ensures LastIn(reader, Lines(VarsOf(conf, v)), ph) == None
  {
    if ModeOf(conf).Classic? {
      OtherLists(reader, FieldKeys(conf, Username), FieldKeys(conf, Password), v, ph);
    } else {
      UriPart(reader, conf, v, ph);
    }
  }

  lemma UriPart(reader: DbConfiguration, conf: DbConfiguration, v: Creds, ph: string)
    requires ModeOf(conf).Uri? && GoodTemplate(conf.template) && ByteCreds(v)
    requires GoodKeys(Split(conf.dbURIEnvKey, ','))
    requires IsPlaceholder(v.username) && IsPlaceholder(v.password) && v.username != v.password
    ensures LastIn(reader, Lines(VarsOf(conf, v)), ph) == UriSlotClaim(reader, Split(conf.dbURIEnvKey, ','), v, ph)
  {
    var u := Url.Parse(conf.template).value;
    assert VarsOf(conf, v) == UriVars(conf, u, v);
    UriSlot(reader, Split(conf.dbURIEnvKey, ','), conf.template, u, v, ph);
  }

  lemma OwnLists(reader: DbConfiguration, users: seq<string>, passes: seq<string>, v: Creds, f: Field)
    requires GoodKeys(users) && GoodKeys(passes)
    requires IsPlaceholder(v.username) && IsPlaceholder(v.password) && v.username != v.password
    ensures LastIn(reader, Lines(Vars(users, v.username) + Vars(passes, v.password)), FieldValue(v, f))
         == if ModeOf(reader).Classic? then KeyClaim(Lists(reader), if f.Username? then users else passes) else None
  {
    TwoSlots(reader, users, passes, v, FieldValue(v, f));
    if f.Username? {
      OwnSlot(reader, users, v.username);
      OtherSlot(reader, passes, v.password, v.username);
    } else {
      OwnSlot(reader, passes, v.password);
      OtherSlot(reader, users, v.username, v.password);
    }
  }

  lemma OtherLists(reader: DbConfiguration, users: seq<string>, passes: seq<string>, v: Creds, ph: string)
    requires GoodKeys(users) && GoodKeys(passes)
    requires IsPlaceholder(v.username) && IsPlaceholder(v.password) && ph != v.username && ph != v.password
    ensures LastIn(reader, Lines(Vars(users, v.username) + Vars(passes, v.password)), ph) == None
  {
    TwoSlots(reader, users, passes, v, ph);
    OtherSlot(reader, users, v.username, ph);
    OtherSlot(reader, passes, v.password, ph);
  }

  /** Two slots in a row: the second decides if it is read. */
  lemma TwoSlots(reader: DbConfiguration, users: seq<string>, passes: seq<string>, v: Creds, ph: string)
    ensures var a := LastIn(reader, Lines(Vars(users, v.username)), ph);
      var b := LastIn(reader, Lines(Vars(passes, v.password)), ph);
      LastIn(reader, Lines(Vars(users, v.username) + Vars(passes, v.password)), ph) == if b.Some? then b else a
  {
    LinesConcat(Vars(users, v.username), Vars(passes, v.password));
    LastInConcat(reader, Lines(Vars(users, v.username)), Lines(Vars(passes, v.password)), ph);
  }

  // ---- A container, the pod, the mapping ----

  function LinesOf(parts: seq<Env>): seq<seq<string>> {
    seq(|parts|, i requires 0 <= i < |parts| => Lines(parts[i]))
  }

  lemma {:induction false} LinesOfJoined(base: Env, parts: seq<Env>, n: nat)
    requires n <= |parts|
    ensures Lines(Joined(base, parts, n)) == Joined(Lines(base), LinesOf(parts), n)
  {
    if n > 0 {
      LinesOfJoined(base, parts, n - 1);
      LinesConcat(Joined(base, parts, n - 1), parts[n - 1]);
    }
  }

  /** Where only one part claims the placeholder, that part's claim stands. */
  lemma {:induction false} LastInJoined(reader: DbConfiguration, base: seq<string>, parts: seq<seq<string>>, i: nat,
                                        ph: string, n: nat)
    requires n <= |parts| && i < |parts| && LastIn(reader, base, ph) == None
    requires forall l | 0 <= l < |parts| && l != i :: LastIn(reader, parts[l], ph) == None
    ensures LastIn(reader, Joined(base, parts, n), ph) == if i < n then LastIn(reader, parts[i], ph) else None
  {
    if n > 0 {
      LastInJoined(reader, base, parts, i, ph, n - 1);
      LastInConcat(reader, Joined(base, parts, n - 1), parts[n - 1], ph);
    }
  }

  lemma FieldInContainer(containers: seq<Env>, confs: seq<DbConfiguration>, phs: seq<Creds>, creds: seq<Creds>,
                         c: nat, reader: nat, i: nat, f: Field)
    requires Setting(containers, confs, phs, creds) && c < |containers| && reader < |confs| && i < |confs|
    ensures LastIn(confs[reader], Lines(Injected(containers[c], confs, phs)), FieldValue(phs[i], f))
         == ClaimOf(confs[reader], confs[i], f)
  {
    var base, vars, ph := containers[c], AllVars(confs, phs), FieldValue(phs[i], f);
    forall n | 0 <= n < |base| ensures ph !in ClaimsOn(confs[reader], Lines(base)[n]) {
      assert base in containers && base[n] in base && Unrelated(Line(base[n]), confs, phs);
    }
    NoneIn(confs[reader], Lines(base), ph);
    forall l | 0 <= l < |confs| && l != i ensures LastIn(confs[reader], LinesOf(vars)[l], ph) == None {
      OwnPlaceholders(phs, l);
      assert ph != FieldValue(phs[l], Username) && ph != FieldValue(phs[l], Password);
      OtherPart(confs[reader], confs[l], phs[l], ph);
    }
    OwnPlaceholders(phs, i);
    OwnPart(confs[reader], confs[i], phs[i], f);
    LinesOfJoined(base, vars, |confs|);
    LastInJoined(confs[reader], Lines(base), LinesOf(vars), i, ph, |confs|);
  }

  lemma {:induction false} SameInAll(reader: DbConfiguration, pod: seq<Env>, ph: string, r: Option<Field>)
    requires pod != [] && forall c | 0 <= c < |pod| :: LastIn(reader, Lines(pod[c]), ph) == r
    ensures LastIn(reader, AllLines(pod), ph) == r
  {
    LastInConcat(reader, Lines(pod[0]), AllLines(pod[1..]), ph);
    if |pod| > 1 {
      SameInAll(reader, pod[1..], ph, r);
    } else {
      assert pod[1..] == [] && AllClaims(reader, []) == [];
    }
  }

  /** Each configuration reads each placeholder back as modes and env keys tell. */
  lemma FieldsRead(containers: seq<Env>, confs: seq<DbConfiguration>, phs: seq<Creds>, creds: seq<Creds>,
                   reader: nat, i: nat, f: Field)
    requires Setting(containers, confs, phs, creds) && containers != [] && reader < |confs| && i < |confs|
    ensures var fields := FieldsIn(confs[reader], AllLines(InjectedPod(containers, confs, phs)));
      var ph := FieldValue(phs[i], f);
      ClaimOf(confs[reader], confs[i], f) == if ph in fields then Some(fields[ph]) else None
  {
    var pod, ph := InjectedPod(containers, confs, phs), FieldValue(phs[i], f);
    forall c | 0 <= c < |pod| ensures LastIn(confs[reader], Lines(pod[c]), ph) == ClaimOf(confs[reader], confs[i], f) {
      FieldInContainer(containers, confs, phs, creds, c, reader, i, f);
    }
    SameInAll(confs[reader], pod, ph, ClaimOf(confs[reader], confs[i], f));
    FieldsAreClaims(confs[reader], AllLines(pod));
    LastIsInUnion(AllClaims(confs[reader], AllLines(pod)), ph);
  }

  /** What every configuration takes a field of the `i`-th one for. */
  function ClaimsFor(confs: seq<DbConfiguration>, i: nat, f: Field): seq<Option<Field>>
    requires i < |confs|
  {
    seq(|confs|, j requires 0 <= j < |confs| => ClaimOf(confs[j], confs[i], f))
  }

  function LastSome(claims: seq<Option<Field>>, n: nat): Option<(nat, Field)>
    requires n <= |claims|
  {
    if n == 0 then None
    else if claims[n - 1].Some? then Some((n - 1, claims[n - 1].value))
    else LastSome(claims, n - 1)
  }

  /** The configuration and field whose credential a placeholder gets: the last configuration
      that reads it decides. */
  function FieldWinner(confs: seq<DbConfiguration>, i: nat, f: Field): Option<(nat, Field)>
    requires i < |confs|
  {
    LastSome(ClaimsFor(confs, i, f), |confs|)
  }

  /** The condition, on modes and env keys alone: every configuration wins its own fields. */
  ghost predicate EveryFieldWins(confs: seq<DbConfiguration>) {
    forall i, f: Field | 0 <= i < |confs| :: FieldWinner(confs, i, f) == Some((i, f))
  }

  /** Whether a mapping has the placeholder as the claim says. */
  predicate ReadAs(m: Mapping, ph: string, claim: Option<Field>, creds: Creds) {
    match claim
    case Some(g) => ph in m && m[ph] == FieldValue(creds, g)
    case None => ph !in m
  }

  lemma {:induction false} CombinedFollows(ms: seq<Mapping>, claims: seq<Option<Field>>, creds: seq<Creds>,
                                           ph: string, n: nat)
    requires n <= |ms| == |claims| == |creds|
    requires forall j | 0 <= j < |ms| :: ReadAs(ms[j], ph, claims[j], creds[j])
    ensures match LastSome(claims, n)
      case Some(w) => w.0 < n && ph in Combined(ms, n) && Combined(ms, n)[ph] == FieldValue(creds[w.0], w.1)
      case None => ph !in Combined(ms, n)
  {
    if n > 0 {
      CombinedFollows(ms, claims, creds, ph, n - 1);
      assert ReadAs(ms[n - 1], ph, claims[n - 1], creds[n - 1]);
    }
  }

  lemma ContributionReads(containers: seq<Env>, confs: seq<DbConfiguration>, phs: seq<Creds>, creds: seq<Creds>,
                          j: nat, i: nat, f: Field)
    requires Setting(containers, confs, phs, creds) && containers != [] && j < |confs| && i < |confs|
    ensures ReadAs(Contribution(confs[j], creds[j], AllLines(InjectedPod(containers, confs, phs))),
                   FieldValue(phs[i], f), ClaimOf(confs[j], confs[i], f), creds[j])
  {
    FieldsRead(containers, confs, phs, creds, j, i, f);
  }

  /** The merged mapping gives every placeholder the credential that wins it, and leaves out the
      placeholders nobody reads. */
  lemma MappingHasWinner(containers: seq<Env>, confs: seq<DbConfiguration>, phs: seq<Creds>, creds: seq<Creds>,
                             i: nat, f: Field)
    requires Setting(containers, confs, phs, creds) && containers != [] && i < |confs|
    ensures var m, ph := PodMapping(containers, confs, phs, creds), FieldValue(phs[i], f);
      match FieldWinner(confs, i, f)
      case Some(w) => w.0 < |confs| && ph in m && m[ph] == FieldValue(creds[w.0], w.1)
      case None => ph !in m
  {
    var ms := Contributions(confs, creds, AllLines(InjectedPod(containers, confs, phs)));
    var claims, ph := ClaimsFor(confs, i, f), FieldValue(phs[i], f);
    forall j | 0 <= j < |ms| ensures ReadAs(ms[j], ph, claims[j], creds[j]) {
      ContributionReads(containers, confs, phs, creds, j, i, f);
    }
    CombinedFollows(ms, claims, creds, ph, |confs|);
  }

  // ---- When everybody wins ----

  /** All env keys are written without surrounding blanks, no two configurations share one, and
      the user and password keys of a configuration differ. */
  ghost predicate DistinctCleanEnvKeys(confs: seq<DbConfiguration>) {
    && (forall i, f: Field, k | 0 <= i < |confs| && k in FieldKeys(confs[i], f) :: CleanKey(k))
    && (forall i, j, f: Field, g: Field, k
          | 0 <= i < |confs| && 0 <= j < |confs| && i != j && k in FieldKeys(confs[i], f) ::
          k !in FieldKeys(confs[j], g))
    && (forall i, k | 0 <= i < |confs| && ModeOf(confs[i]).Classic? && k in FieldKeys(confs[i], Username) ::
          k !in FieldKeys(confs[i], Password))
  }

  lemma OwnKeysAreClean(confs: seq<DbConfiguration>, j: nat, f: Field)
    requires DistinctCleanEnvKeys(confs) && j < |confs|
    ensures forall k | k in FieldKeys(confs[j], f) :: CleanKey(k)
  {
  }

  lemma FieldByConf(confs: seq<DbConfiguration>, j: nat, i: nat, f: Field)
    requires DistinctCleanEnvKeys(confs) && j < |confs| && i < |confs| && !ModeOf(confs[i]).Unsupported?
    ensures ClaimOf(confs[j], confs[i], f) == if i == j then Some(f) else None
  {
    var keys := FieldKeys(confs[i], f);
    if ModeOf(confs[j]).Classic? && ModeOf(confs[i]).Classic? {
      ClassicClaimByConf(confs, j, i, f);
    } else if ModeOf(confs[j]).Uri? && ModeOf(confs[i]).Uri? {
      OwnKeysAreClean(confs, j, f);
      forall k | k in keys ensures k in CsvKeys(confs[j].dbURIEnvKey) <==> i == j {
        CleanKeysAreRead(confs[j].dbURIEnvKey, k);
        assert i != j ==> k !in FieldKeys(confs[j], f);
      }
      assert keys[0] in keys;
    }
  }

  lemma ClassicClaimByConf(confs: seq<DbConfiguration>, j: nat, i: nat, f: Field)
    requires DistinctCleanEnvKeys(confs) && j < |confs| && i < |confs|
    requires ModeOf(confs[j]).Classic? && ModeOf(confs[i]).Classic?
    ensures KeyClaim(Lists(confs[j]), FieldKeys(confs[i], f)) == if i == j then Some(f) else None
  {
    var kl, keys := Lists(confs[j]), FieldKeys(confs[i], f);
    OwnKeysAreClean(confs, j, Username);
    OwnKeysAreClean(confs, j, Password);
    forall k | k in keys
      ensures CleanKey(k) && (k in kl.users <==> i == j && f.Username?) && (k in kl.passes <==> i == j && f.Password?)
    {
      CleanKeysAreRead(confs[j].dbUserEnvKey, k);
      CleanKeysAreRead(confs[j].dbPasswordEnvKey, k);
      assert i != j ==> k !in FieldKeys(confs[j], Username) && k !in FieldKeys(confs[j], Password);
      assert k in FieldKeys(confs[j], Username) ==> k !in FieldKeys(confs[j], Password);
    }
    if i == j {
      ClaimOfAll(kl, keys, f);
    } else {
      ClaimOfNone(kl, keys);
    }
  }

  lemma {:induction false} OnlyOneClaims(claims: seq<Option<Field>>, i: nat, f: Field, n: nat)
    requires i < |claims| && n <= |claims|
    requires forall j | 0 <= j < |claims| :: claims[j] == if i == j then Some(f) else None
    ensures LastSome(claims, n) == if i < n then Some((i, f)) else None
  {
    if n > 0 {
      OnlyOneClaims(claims, i, f, n - 1);
    }
  }

  /** Distinct env keys without surrounding blanks are enough. */
  lemma DistinctEnvKeysWin(confs: seq<DbConfiguration>)
    requires DistinctCleanEnvKeys(confs) && forall i | 0 <= i < |confs| :: !ModeOf(confs[i]).Unsupported?
    ensures EveryFieldWins(confs)
  {
    forall i, f: Field | 0 <= i < |confs| ensures FieldWinner(confs, i, f) == Some((i, f)) {
      var claims := ClaimsFor(confs, i, f);
      forall j | 0 <= j < |claims| ensures claims[j] == if i == j then Some(f) else None {
        FieldByConf(confs, j, i, f);
      }
      OnlyOneClaims(claims, i, f, |confs|);
    }
  }

  lemma {:induction false} LaterClaimStands(claims: seq<Option<Field>>, j: nat, n: nat)
    requires j < n <= |claims| && claims[j].Some?
    ensures LastSome(claims, n).Some? && LastSome(claims, n).value.0 >= j
  {
    if j < n - 1 {
      LaterClaimStands(claims, j, n - 1);
    }
  }

  /** A later URI configuration that reads one of the keys of an earlier one takes both its
      fields over. */
  lemma SharedUriKeysLose(confs: seq<DbConfiguration>, i: nat, j: nat, f: Field)
    requires i < j < |confs| && ModeOf(confs[i]).Uri? && ModeOf(confs[j]).Uri?
    requires SharesKey(FieldKeys(confs[i], f), CsvKeys(confs[j].dbURIEnvKey))
    ensures FieldWinner(confs, i, f).Some? && FieldWinner(confs, i, f).value.0 >= j
  {
    LaterClaimStands(ClaimsFor(confs, i, f), j, |confs|);
  }
}
