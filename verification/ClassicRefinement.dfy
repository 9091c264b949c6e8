/** When classic NRI delivery gives every container the environment of legacy delivery.

    A *slot* is one credential field: slot 2i is the user name of the i-th configuration,
    slot 2i + 1 its password. */
module ClassicRefinement {
  import opened Strings
  import opened Placeholder
  import opened Substitution
  import opened ContainerHook
  import opened Annotations
  import opened ClassicDelivery

  // ---- Slots ----

  /** The values of all slots. */
  function SlotValues(vals: seq<Creds>): (r: seq<string>)
    ensures |r| == 2 * |vals|
  {
    if vals == [] then []
    else SlotValues(vals[..|vals| - 1]) + [vals[|vals| - 1].username, vals[|vals| - 1].password]
  }

  /** The environment keys the webhook writes for all slots. */
  function SlotKeys(confs: seq<DbConfiguration>): (r: seq<seq<string>>)
    ensures |r| == 2 * |confs|
  {
    if confs == [] then []
    else
      var last := confs[|confs| - 1];
      SlotKeys(confs[..|confs| - 1]) + [Split(last.dbUserEnvKey, ','), Split(last.dbPasswordEnvKey, ',')]
  }

  /** A container's environment once the first `n` slots have been appended. */
  function Rendered(base: Env, keys: seq<seq<string>>, vals: seq<string>, n: nat): Env
    requires n <= |keys| == |vals|
  {
    if n == 0 then base
    else Rendered(base, keys, vals, n - 1) + Vars(keys[n - 1], vals[n - 1])
  }

  /** The environment the webhook gives a container: every configuration applied in turn. */
  function Applied(base: Env, confs: seq<DbConfiguration>, vals: seq<Creds>): Env
    requires |confs| == |vals|
  {
    if confs == [] then base
    else Applied(base, confs[..|confs| - 1], vals[..|vals| - 1]) + ClassicVars(confs[|confs| - 1], vals[|vals| - 1])
  }

  lemma {:induction false} AppliedIsRendered(base: Env, confs: seq<DbConfiguration>, vals: seq<Creds>)
    requires |confs| == |vals|
    ensures Applied(base, confs, vals) == Rendered(base, SlotKeys(confs), SlotValues(vals), 2 * |vals|)
  {
    if confs != [] {
      var n := |confs| - 1;
      AppliedIsRendered(base, confs[..n], vals[..n]);
      SlotKeysOfNext(confs);
      SlotValuesOfNext(vals);
      SlotKeysAt(confs, n);
      SlotValueAt(vals, n);
      RenderedPrefix(base, SlotKeys(confs[..n]), SlotValues(vals[..n]), SlotKeys(confs), SlotValues(vals), 2 * n);
      RenderedPair(base, SlotKeys(confs), SlotValues(vals), 2 * n, confs[n], vals[n]);
    }
  }

  lemma SlotKeysOfNext(confs: seq<DbConfiguration>)
    requires confs != []
    ensures SlotKeys(confs[..|confs| - 1]) <= SlotKeys(confs)
  {
  }

  lemma SlotValuesOfNext(vals: seq<Creds>)
    requires vals != []
    ensures SlotValues(vals[..|vals| - 1]) <= SlotValues(vals)
  {
  }

  lemma RenderedPair(base: Env, keys: seq<seq<string>>, vals: seq<string>, n: nat, conf: DbConfiguration, v: Creds)
    requires n + 2 <= |keys| == |vals|
    requires keys[n] == Split(conf.dbUserEnvKey, ',') && keys[n + 1] == Split(conf.dbPasswordEnvKey, ',')
    requires vals[n] == v.username && vals[n + 1] == v.password
    ensures Rendered(base, keys, vals, n + 2) == Rendered(base, keys, vals, n) + ClassicVars(conf, v)
  {
    var r := Rendered(base, keys, vals, n);
    assert Rendered(base, keys, vals, n + 1) == r + Vars(keys[n], vals[n]);
    assert Rendered(base, keys, vals, n + 2) == r + Vars(keys[n], vals[n]) + Vars(keys[n + 1], vals[n + 1]);
  }

  lemma {:induction false} RenderedPrefix(base: Env, keys: seq<seq<string>>, vals: seq<string>,
                                          keys': seq<seq<string>>, vals': seq<string>, n: nat)
    requires n <= |keys| == |vals| && |keys'| == |vals'| && keys <= keys' && vals <= vals'
    ensures Rendered(base, keys, vals, n) == Rendered(base, keys', vals', n)
  {
    if n > 0 { RenderedPrefix(base, keys, vals, keys', vals', n - 1); }
  }

  /** The field claimed for variables with these keys: that of the last claimed key. A key
      with an '=' hides the placeholder from the plugin. */
  function KeyClaim(kl: KeyLists, keys: seq<string>): Option<Field> {
    if keys == [] then None
    else
      var k := keys[|keys| - 1];
      if '=' !in k && k in kl.users then Some(Username)
      else if '=' !in k && k in kl.passes then Some(Password)
      else KeyClaim(kl, keys[..|keys| - 1])
  }

  function SlotOf(i: nat, f: Field): nat {
    match f case Username => 2 * i case Password => 2 * i + 1
  }

  /** The slot whose value ends up in variables with these keys: the last configuration
      that claims them decides. */
  function Winner(kls: seq<KeyLists>, keys: seq<string>, n: nat): Option<nat>
    requires n <= |kls|
  {
    if n == 0 then None
    else
      match KeyClaim(kls[n - 1], keys)
      case Some(f) => Some(SlotOf(n - 1, f))
      case None => Winner(kls, keys, n - 1)
  }

  function AllLists(confs: seq<DbConfiguration>): seq<KeyLists> {
    seq(|confs|, i requires 0 <= i < |confs| => Lists(confs[i]))
  }

  /** The condition, on the annotations alone: every slot wins its own variables. */
  ghost predicate EverySlotWins(confs: seq<DbConfiguration>) {
    forall s | 0 <= s < 2 * |confs| :: Winner(AllLists(confs), SlotKeys(confs)[s], |confs|) == Some(s)
  }

  predicate Plain(s: string) { !Contains(s, PREFIX) }

  ghost predicate PlainEnv(env: Env) { forall v | v in env :: Plain(Line(v)) }

  ghost predicate AllPlain(ss: seq<string>) { forall s | s in ss :: Plain(s) }

  ghost predicate AllPlaceholders(phs: seq<string>) {
    && (forall s | 0 <= s < |phs| :: IsPlaceholder(phs[s]))
    && (forall s, t | 0 <= s < t < |phs| :: phs[s] != phs[t])
  }

  /** Nothing but the injected placeholders shows the placeholder prefix, and the
      placeholders are distinct. */
  ghost predicate FreshPlaceholders(containers: seq<Env>, confs: seq<DbConfiguration>, phs: seq<Creds>,
                                    creds: seq<Creds>) {
    && |confs| == |phs| == |creds|
    && (forall c | c in containers :: PlainEnv(c))
    && (forall keys | keys in SlotKeys(confs) :: AllPlain(keys))
    && AllPlaceholders(SlotValues(phs))
    && AllPlain(SlotValues(creds))
  }

  function AppliedPod(containers: seq<Env>, confs: seq<DbConfiguration>, vals: seq<Creds>): seq<Env>
    requires |confs| == |vals|
  {
    seq(|containers|, i requires 0 <= i < |containers| => Applied(containers[i], confs, vals))
  }

  /** The mapping the plugin builds for the pod the webhook mutated. */
  function PluginMapping(containers: seq<Env>, confs: seq<DbConfiguration>, phs: seq<Creds>, creds: seq<Creds>): Mapping
    requires |confs| == |phs| == |creds|
  {
    Merged(AllLists(confs), creds, AllLines(AppliedPod(containers, confs, phs)), |confs|)
  }

  // ---- What the extraction finds ----

  /** The field of the last line on which `ph` is claimed. */
  function LastClaim(kl: KeyLists, lines: seq<string>, ph: string): Option<Field> {
    if lines == [] then None
    else
      match Claim(kl, lines[|lines| - 1])
      case Some(c) => if c.0 == ph then Some(c.1) else LastClaim(kl, lines[..|lines| - 1], ph)
      case None => LastClaim(kl, lines[..|lines| - 1], ph)
  }

  lemma {:induction false} FieldsAreLastClaims(kl: KeyLists, lines: seq<string>, ph: string)
    ensures LastClaim(kl, lines, ph) == if ph in Fields(kl, lines) then Some(Fields(kl, lines)[ph]) else None
  {
    if lines != [] {
      FieldsAreLastClaims(kl, lines[..|lines| - 1], ph);
    }
  }

  lemma {:induction false} LastClaimConcat(kl: KeyLists, a: seq<string>, b: seq<string>, ph: string)
    ensures LastClaim(kl, a + b, ph)
         == if LastClaim(kl, b, ph).Some? then LastClaim(kl, b, ph) else LastClaim(kl, a, ph)
    decreases |b|
  {
    if b == [] {
      assert a + b == a;
    } else {
      assert (a + b)[..|a + b| - 1] == a + b[..|b| - 1];
      LastClaimConcat(kl, a, b[..|b| - 1], ph);
    }
  }

  lemma {:induction false} NoClaim(kl: KeyLists, lines: seq<string>, ph: string)
    requires forall i | 0 <= i < |lines| :: SplitKV(lines[i]).1 != ph
    ensures LastClaim(kl, lines, ph) == None
  {
    if lines != [] {
      NoClaim(kl, lines[..|lines| - 1], ph);
    }
  }

  /** A rendered line gives key and placeholder back if and only if the key has no '='. */
  lemma SplitRendered(k: string, ph: string)
    requires IsPlaceholder(ph)
    ensures '=' !in k ==> SplitKV(k + "=" + ph) == (k, ph)
    ensures '=' in k ==> !IsPlaceholder(SplitKV(k + "=" + ph).1)
  {
    var line := k + "=" + ph;
    if '=' in k {
      var (a, b) := Cut(k, '=').value;
      assert line == a + ['='] + (b + "=" + ph);
      CutAt(a, '=', b + "=" + ph);
      var v := b + "=" + ph;
      assert v[|b|] == '=';
      if IsPlaceholder(v) { PlaceholderAlphabet(v); }
    } else {
      CutAt(k, '=', ph);
    }
  }

  lemma ClaimOfLine(kl: KeyLists, k: string, ph: string)
    requires IsPlaceholder(ph)
    ensures Claim(kl, k + "=" + ph)
         == if '=' in k then None else if k in kl.users then Some((ph, Username))
            else if k in kl.passes then Some((ph, Password)) else None
  {
    SplitRendered(k, ph);
  }

  lemma LinesOfVars(keys: seq<string>, v: string)
    ensures |Lines(Vars(keys, v))| == |keys|
    ensures forall i | 0 <= i < |keys| :: Lines(Vars(keys, v))[i] == keys[i] + "=" + v
    ensures keys != [] ==> Lines(Vars(keys, v))[..|keys| - 1] == Lines(Vars(keys[..|keys| - 1], v))
  {
  }

  lemma {:induction false} ClaimOfSlot(kl: KeyLists, keys: seq<string>, ph: string)
    requires IsPlaceholder(ph)
    ensures LastClaim(kl, Lines(Vars(keys, ph)), ph) == KeyClaim(kl, keys)
  {
    LinesOfVars(keys, ph);
    if keys != [] {
      ClaimOfLine(kl, keys[|keys| - 1], ph);
      ClaimOfSlot(kl, keys[..|keys| - 1], ph);
    }
  }

  lemma NoClaimOfOther(kl: KeyLists, keys: seq<string>, other: string, ph: string)
    requires IsPlaceholder(ph) && IsPlaceholder(other) && other != ph
    ensures LastClaim(kl, Lines(Vars(keys, other)), ph) == None
  {
    var lines := Lines(Vars(keys, other));
    forall i | 0 <= i < |lines| ensures SplitKV(lines[i]).1 != ph {
      SplitRendered(keys[i], other);
    }
    NoClaim(kl, lines, ph);
  }

  lemma NoClaimOfPlain(kl: KeyLists, env: Env, ph: string)
    requires IsPlaceholder(ph) && PlainEnv(env)
    ensures LastClaim(kl, Lines(env), ph) == None
  {
    var lines := Lines(env);
    forall i | 0 <= i < |lines| ensures SplitKV(lines[i]).1 != ph {
      assert Plain(Line(env[i]));
      var (k, v) := SplitKV(lines[i]);
      if v == ph {
        assert OccursAt(ph, PREFIX, 0);
        assert lines[i] == k + "=" + v + "";
        ContainedInPart(k + "=", ph, "", PREFIX);
      }
    }
    NoClaim(kl, lines, ph);
  }

  lemma LinesConcat(a: Env, b: Env)
    ensures Lines(a + b) == Lines(a) + Lines(b)
  {
  }

  /** In one container's environment the placeholder of slot `s` is claimed through the
      keys of slot `s` and through nothing else. */
  lemma ClaimInContainer(kl: KeyLists, base: Env, keys: seq<seq<string>>, phs: seq<string>, s: nat)
    requires |keys| == |phs| && s < |phs| && PlainEnv(base) && AllPlaceholders(phs)
    ensures LastClaim(kl, Lines(Rendered(base, keys, phs, |phs|)), phs[s]) == KeyClaim(kl, keys[s])
  {
    var last := (env: Env) => LastClaim(kl, Lines(env), phs[s]);
    forall a, b ensures last(a + b) == if last(b).Some? then last(b) else last(a) {
      LinesConcat(a, b);
      LastClaimConcat(kl, Lines(a), Lines(b), phs[s]);
    }
    NoClaimOfPlain(kl, base, phs[s]);
    forall i | 0 <= i < |phs| && i != s ensures last(Vars(keys[i], phs[i])) == None {
      assert phs[i] != phs[s];
      NoClaimOfOther(kl, keys[i], phs[i], phs[s]);
    }
    ClaimOfSlot(kl, keys[s], phs[s]);
    SlotDecides(last, base, keys, phs, s, |phs|);
  }

  /** For anything read off an environment in which later variables override earlier ones: if
      neither the container's own variables nor the other slots have any, slot `s` decides. */
  lemma {:induction false} SlotDecides(last: Env -> Option<Field>, base: Env, keys: seq<seq<string>>,
                                       vals: seq<string>, s: nat, n: nat)
    requires n <= |keys| == |vals| && s < |vals|
    requires forall a, b :: last(a + b) == if last(b).Some? then last(b) else last(a)
    requires last(base) == None
    requires forall i | 0 <= i < |vals| && i != s :: last(Vars(keys[i], vals[i])) == None
    ensures last(Rendered(base, keys, vals, n)) == if s < n then last(Vars(keys[s], vals[s])) else None
  {
    if n > 0 {
      SlotDecides(last, base, keys, vals, s, n - 1);
    }
  }

  /** What every container claims, the pod claims. */
  lemma {:induction false} ClaimInAll(kl: KeyLists, pod: seq<Env>, ph: string, claim: Option<Field>)
    requires pod != [] && forall env | env in pod :: LastClaim(kl, Lines(env), ph) == claim
    ensures LastClaim(kl, AllLines(pod), ph) == claim
  {
    var first, rest := Lines(pod[0]), AllLines(pod[1..]);
    LastClaimConcat(kl, first, rest, ph);
    if |pod| > 1 {
      ClaimInAll(kl, pod[1..], ph, claim);
    } else {
      assert pod[1..] == [];
    }
  }

  lemma ClaimInPod(kl: KeyLists, containers: seq<Env>, confs: seq<DbConfiguration>, phs: seq<Creds>, s: nat)
    requires |confs| == |phs| && s < 2 * |phs| && containers != []
    requires (forall c | c in containers :: PlainEnv(c)) && AllPlaceholders(SlotValues(phs))
    ensures LastClaim(kl, AllLines(AppliedPod(containers, confs, phs)), SlotValues(phs)[s])
         == KeyClaim(kl, SlotKeys(confs)[s])
  {
    var pod, ph, claim := AppliedPod(containers, confs, phs), SlotValues(phs)[s], KeyClaim(kl, SlotKeys(confs)[s]);
    forall i | 0 <= i < |pod| ensures LastClaim(kl, Lines(pod[i]), ph) == claim {
      ClaimInApplied(kl, containers[i], confs, phs, s);
    }
    ClaimInAll(kl, pod, ph, claim);
  }

  lemma ClaimInApplied(kl: KeyLists, base: Env, confs: seq<DbConfiguration>, phs: seq<Creds>, s: nat)
    requires |confs| == |phs| && s < 2 * |phs| && PlainEnv(base) && AllPlaceholders(SlotValues(phs))
    ensures LastClaim(kl, Lines(Applied(base, confs, phs)), SlotValues(phs)[s]) == KeyClaim(kl, SlotKeys(confs)[s])
  {
    AppliedIsRendered(base, confs, phs);
    ClaimInContainer(kl, base, SlotKeys(confs), SlotValues(phs), s);
  }

  /** A configuration's part maps `ph` to the claimed field. */
  ghost predicate Follows(part: Mapping, creds: Creds, ph: string, claim: Option<Field>) {
    && (ph in part <==> claim.Some?)
    && (claim.Some? ==> part[ph] == FieldValue(creds, claim.value))
  }

  /** The plugin maps a placeholder to the value of the slot that wins its keys. */
  lemma MappingFollowsWinner(kls: seq<KeyLists>, creds: seq<Creds>, lines: seq<string>, keys: seq<string>, ph: string,
                             n: nat)
    requires n <= |kls| == |creds|
    requires forall i | 0 <= i < |kls| :: LastClaim(kls[i], lines, ph) == KeyClaim(kls[i], keys)
    ensures var m, w := Merged(kls, creds, lines, n), Winner(kls, keys, n);
      && (ph in m <==> w.Some?)
      && (w.Some? ==> w.value < 2 * n && m[ph] == SlotValues(creds)[w.value])
  {
    forall i | 0 <= i < |kls|
      ensures Follows(PartialMapping(kls[i], creds[i], lines), creds[i], ph, KeyClaim(kls[i], keys))
    {
      FieldsAreLastClaims(kls[i], lines, ph);
    }
    forall i: nat, f | i < |creds| ensures SlotValues(creds)[SlotOf(i, f)] == FieldValue(creds[i], f) {
      SlotValueOf(creds, i, f);
    }
    MergedFollowsWinner(kls, creds, SlotValues(creds), lines, keys, ph, n);
  }

  lemma {:induction false} MergedFollowsWinner(kls: seq<KeyLists>, creds: seq<Creds>, values: seq<string>,
                                               lines: seq<string>, keys: seq<string>, ph: string, n: nat)
    requires n <= |kls| == |creds| && |values| == 2 * |creds|
    requires forall i: nat, f | i < |creds| :: values[SlotOf(i, f)] == FieldValue(creds[i], f)
    requires forall i | 0 <= i < |kls| ::
      Follows(PartialMapping(kls[i], creds[i], lines), creds[i], ph, KeyClaim(kls[i], keys))
    ensures var m, w := Merged(kls, creds, lines, n), Winner(kls, keys, n);
      && (ph in m <==> w.Some?)
      && (w.Some? ==> w.value < 2 * n && m[ph] == values[w.value])
  {
    if n > 0 {
      MergedFollowsWinner(kls, creds, values, lines, keys, ph, n - 1);
    }
  }

  lemma SlotValueOf(vals: seq<Creds>, i: nat, f: Field)
    requires i < |vals|
    ensures SlotValues(vals)[SlotOf(i, f)] == FieldValue(vals[i], f)
  {
    SlotValueAt(vals, i);
  }

  lemma {:induction false} SlotValueAt(vals: seq<Creds>, i: nat)
    requires i < |vals|
    ensures SlotValues(vals)[2 * i] == vals[i].username && SlotValues(vals)[2 * i + 1] == vals[i].password
  {
    if i < |vals| - 1 { SlotValueAt(vals[..|vals| - 1], i); }
  }

  lemma {:induction false} MergedIsPlain(kls: seq<KeyLists>, creds: seq<Creds>, lines: seq<string>, n: nat)
    requires n <= |kls| == |creds| && AllPlain(SlotValues(creds))
    ensures PlainValues(Merged(kls, creds, lines, n))
  {
    if n > 0 {
      MergedIsPlain(kls, creds, lines, n - 1);
      SlotValueAt(creds, n - 1);
      assert creds[n - 1].username in SlotValues(creds) && creds[n - 1].password in SlotValues(creds);
    }
  }

  // ---- What the substitution makes of it ----

  /** The line of an injected variable is separated, and its placeholder is replaced by
      its value in the mapping. */
  lemma InjectedLine(k: string, ph: string, m: Mapping)
    requires Plain(k) && IsPlaceholder(ph)
    ensures Separated(k + "=" + ph, m)
    ensures AtOnce(k + "=" + ph, m) == k + "=" + ShownAs(ph, m)
  {
    assert k + "=" + ph == k + ['='] + ph;
    PlainIsSeparated(k, m);
    KeyIsSeparated(ph, m);
    SeparatedJoin(k, '=', ph, m);
    AtOnceAcross(k, '=', ph, m);
    AtOnceOfPlain(k, m);
    AtOnceOfKey(ph, m);
  }

  function DeliveredLines(lines: seq<string>, m: Mapping): seq<string> {
    seq(|lines|, i requires 0 <= i < |lines| => AtOnce(lines[i], m))
  }

  ghost predicate AllSeparated(lines: seq<string>, m: Mapping) {
    forall i | 0 <= i < |lines| :: Separated(lines[i], m)
  }

  lemma DeliveredConcat(a: seq<string>, b: seq<string>, m: Mapping)
    ensures DeliveredLines(a + b, m) == DeliveredLines(a, m) + DeliveredLines(b, m)
    ensures AllSeparated(a, m) && AllSeparated(b, m) ==> AllSeparated(a + b, m)
  {
  }

  /** Substitution by `m` turns the lines of `env` into those of `delivered`. */
  ghost predicate TurnsInto(env: Env, delivered: Env, m: Mapping) {
    AllSeparated(Lines(env), m) && DeliveredLines(Lines(env), m) == Lines(delivered)
  }

  lemma SlotLines(keys: seq<string>, ph: string, m: Mapping)
    requires IsPlaceholder(ph) && AllPlain(keys)
    ensures TurnsInto(Vars(keys, ph), Vars(keys, ShownAs(ph, m)), m)
  {
    LinesOfVars(keys, ph);
    LinesOfVars(keys, ShownAs(ph, m));
    forall i | 0 <= i < |keys|
      ensures Separated(Lines(Vars(keys, ph))[i], m)
      ensures AtOnce(Lines(Vars(keys, ph))[i], m) == Lines(Vars(keys, ShownAs(ph, m)))[i]
    {
      assert keys[i] in keys;
      InjectedLine(keys[i], ph, m);
    }
  }

  lemma PlainLines(env: Env, m: Mapping)
    requires PlainEnv(env)
    ensures TurnsInto(env, env, m)
  {
    forall i | 0 <= i < |env| ensures Separated(Lines(env)[i], m) && AtOnce(Lines(env)[i], m) == Lines(env)[i] {
      assert Plain(Line(env[i]));
      PlainIsSeparated(Lines(env)[i], m);
      AtOnceOfPlain(Lines(env)[i], m);
    }
  }

  function AllShown(phs: seq<string>, m: Mapping): seq<string> {
    seq(|phs|, i requires 0 <= i < |phs| => ShownAs(phs[i], m))
  }

  lemma TurnsConcat(a: Env, a': Env, b: Env, b': Env, m: Mapping)
    requires TurnsInto(a, a', m) && TurnsInto(b, b', m)
    ensures TurnsInto(a + b, a' + b', m)
  {
    LinesConcat(a, b);
    LinesConcat(a', b');
    DeliveredConcat(Lines(a), Lines(b), m);
  }

  /** Environments built up slot by slot are related if their parts are. */
  lemma {:induction false} RenderedAlike(alike: (Env, Env) -> bool, base: Env, keys: seq<seq<string>>,
                                         vals: seq<string>, vals': seq<string>, n: nat)
    requires n <= |keys| == |vals| == |vals'| && alike(base, base)
    requires forall a, a', b, b' | alike(a, a') && alike(b, b') :: alike(a + b, a' + b')
    requires forall i | 0 <= i < |keys| :: alike(Vars(keys[i], vals[i]), Vars(keys[i], vals'[i]))
    ensures alike(Rendered(base, keys, vals, n), Rendered(base, keys, vals', n))
  {
    if n > 0 {
      RenderedAlike(alike, base, keys, vals, vals', n - 1);
    }
  }

  lemma DeliveredEnv(base: Env, keys: seq<seq<string>>, phs: seq<string>, m: Mapping, n: nat)
    requires n <= |keys| == |phs| && PlainEnv(base) && AllPlaceholders(phs)
    requires forall ks | ks in keys :: AllPlain(ks)
    ensures TurnsInto(Rendered(base, keys, phs, n), Rendered(base, keys, AllShown(phs, m), n), m)
  {
    var alike := (a: Env, b: Env) => TurnsInto(a, b, m);
    PlainLines(base, m);
    forall a, a', b, b' | alike(a, a') && alike(b, b') ensures alike(a + b, a' + b') {
      TurnsConcat(a, a', b, b', m);
    }
    forall i | 0 <= i < |keys| ensures alike(Vars(keys[i], phs[i]), Vars(keys[i], AllShown(phs, m)[i])) {
      assert keys[i] in keys;
      SlotLines(keys[i], phs[i], m);
    }
    RenderedAlike(alike, base, keys, phs, AllShown(phs, m), n);
  }

  // ---- Main results ----

  /** Classic delivery refines legacy delivery: when every slot wins its own variables,
      whatever `Substitute` makes of a container's injected environment is the environment
      legacy mode gives it. */
  lemma ClassicRefinement(containers: seq<Env>, confs: seq<DbConfiguration>, phs: seq<Creds>, creds: seq<Creds>,
                          c: nat, out: seq<string>)
    requires FreshPlaceholders(containers, confs, phs, creds) && c < |containers|
    requires EverySlotWins(confs)
    requires Substituted(Lines(Applied(containers[c], confs, phs)), PluginMapping(containers, confs, phs, creds), out)
    ensures out == Lines(Applied(containers[c], confs, creds))
  {
    DeliveredByPlugin(containers, confs, phs, creds, c, out);
    var m := PluginMapping(containers, confs, phs, creds);
    forall s | 0 <= s < 2 * |phs| ensures AllShown(SlotValues(phs), m)[s] == SlotValues(creds)[s] {
      SlotInPluginMapping(containers, confs, phs, creds, s);
    }
    assert AllShown(SlotValues(phs), m) == SlotValues(creds);
    AppliedIsRendered(containers[c], confs, creds);
  }

  lemma DeliveredByPlugin(containers: seq<Env>, confs: seq<DbConfiguration>, phs: seq<Creds>, creds: seq<Creds>,
                          c: nat, out: seq<string>)
    requires FreshPlaceholders(containers, confs, phs, creds) && c < |containers|
    requires Substituted(Lines(Applied(containers[c], confs, phs)), PluginMapping(containers, confs, phs, creds), out)
    ensures var shown := AllShown(SlotValues(phs), PluginMapping(containers, confs, phs, creds));
      out == Lines(Rendered(containers[c], SlotKeys(confs), shown, 2 * |phs|))
  {
    var m := PluginMapping(containers, confs, phs, creds);
    MergedIsPlain(AllLists(confs), creds, AllLines(AppliedPod(containers, confs, phs)), |confs|);
    AppliedIsRendered(containers[c], confs, phs);
    DeliveredEnv(containers[c], SlotKeys(confs), SlotValues(phs), m, 2 * |phs|);
    SubstitutedIsDelivered(Lines(Applied(containers[c], confs, phs)), m, out);
  }

  lemma SubstitutedIsDelivered(env: seq<string>, m: Mapping, out: seq<string>)
    requires Substituted(env, m, out) && PlainValues(m) && AllSeparated(env, m)
    ensures out == DeliveredLines(env, m)
  {
  }

  /** The plugin's value for the placeholder of slot `s`. */
  lemma SlotInPluginMapping(containers: seq<Env>, confs: seq<DbConfiguration>, phs: seq<Creds>, creds: seq<Creds>,
                            s: nat)
    requires FreshPlaceholders(containers, confs, phs, creds) && containers != [] && s < 2 * |phs|
    ensures var m := PluginMapping(containers, confs, phs, creds);
      var w := Winner(AllLists(confs), SlotKeys(confs)[s], |confs|);
      && (w.Some? ==> w.value < 2 * |creds|)
      && ShownAs(SlotValues(phs)[s], m) == if w.Some? then SlotValues(creds)[w.value] else SlotValues(phs)[s]
  {
    var lines := AllLines(AppliedPod(containers, confs, phs));
    forall i | 0 <= i < |confs|
      ensures LastClaim(AllLists(confs)[i], lines, SlotValues(phs)[s])
           == KeyClaim(AllLists(confs)[i], SlotKeys(confs)[s])
    {
      ClaimInPod(AllLists(confs)[i], containers, confs, phs, s);
    }
    MappingFollowsWinner(AllLists(confs), creds, lines, SlotKeys(confs)[s], SlotValues(phs)[s], |confs|);
  }

  ghost predicate AllDifferent(ss: seq<string>) {
    forall s, t | 0 <= s < t < |ss| :: ss[s] != ss[t]
  }

  ghost predicate Delivers(containers: seq<Env>, confs: seq<DbConfiguration>, creds: seq<Creds>, outs: seq<seq<string>>)
    requires |confs| == |creds| && |outs| == |containers|
  {
    forall c | 0 <= c < |containers| :: outs[c] == Lines(Applied(containers[c], confs, creds))
  }

  /** The exact condition: for credentials that can be told apart, the containers get their
      legacy environments if and only if every slot wins its own variables. */
  lemma ClassicExact(containers: seq<Env>, confs: seq<DbConfiguration>, phs: seq<Creds>, creds: seq<Creds>,
                     outs: seq<seq<string>>)
    requires FreshPlaceholders(containers, confs, phs, creds) && containers != []
    requires AllDifferent(SlotValues(creds)) && |outs| == |containers|
    requires forall c | 0 <= c < |containers| ::
      Substituted(Lines(Applied(containers[c], confs, phs)), PluginMapping(containers, confs, phs, creds), outs[c])
    ensures Delivers(containers, confs, creds, outs) <==> EverySlotWins(confs)
  {
    if EverySlotWins(confs) {
      forall c | 0 <= c < |containers| ensures outs[c] == Lines(Applied(containers[c], confs, creds)) {
        ClassicRefinement(containers, confs, phs, creds, c, outs[c]);
      }
    }
    if Delivers(containers, confs, creds, outs) {
      DeliveryNeedsWins(containers, confs, phs, creds, outs[0]);
    }
  }

  lemma DeliveryNeedsWins(containers: seq<Env>, confs: seq<DbConfiguration>, phs: seq<Creds>, creds: seq<Creds>,
                          out: seq<string>)
    requires FreshPlaceholders(containers, confs, phs, creds) && containers != [] && AllDifferent(SlotValues(creds))
    requires Substituted(Lines(Applied(containers[0], confs, phs)), PluginMapping(containers, confs, phs, creds), out)
    requires out == Lines(Applied(containers[0], confs, creds))
    ensures EverySlotWins(confs)
  {
    var m := PluginMapping(containers, confs, phs, creds);
    DeliveredByPlugin(containers, confs, phs, creds, 0, out);
    AppliedIsRendered(containers[0], confs, creds);
    SlotsHaveKeys(confs);
    SlotsShow(containers[0], SlotKeys(confs), AllShown(SlotValues(phs), m), SlotValues(creds), 2 * |phs|);
    forall s | 0 <= s < 2 * |confs| ensures Winner(AllLists(confs), SlotKeys(confs)[s], |confs|) == Some(s) {
      assert AllShown(SlotValues(phs), m)[..2 * |phs|][s] == SlotValues(creds)[..2 * |phs|][s];
      ShownSlotWins(containers, confs, phs, creds, s);
    }
  }

  lemma SlotsHaveKeys(confs: seq<DbConfiguration>)
    ensures forall s | 0 <= s < 2 * |confs| :: SlotKeys(confs)[s] != []
  {
    forall s | 0 <= s < 2 * |confs| ensures SlotKeys(confs)[s] != [] {
      SlotKeysAt(confs, s / 2);
    }
  }

  /** A slot whose placeholder becomes its own credential wins its own variables. */
  lemma ShownSlotWins(containers: seq<Env>, confs: seq<DbConfiguration>, phs: seq<Creds>, creds: seq<Creds>, s: nat)
    requires FreshPlaceholders(containers, confs, phs, creds) && containers != [] && AllDifferent(SlotValues(creds))
    requires s < 2 * |confs|
    requires ShownAs(SlotValues(phs)[s], PluginMapping(containers, confs, phs, creds)) == SlotValues(creds)[s]
    ensures Winner(AllLists(confs), SlotKeys(confs)[s], |confs|) == Some(s)
  {
    SlotInPluginMapping(containers, confs, phs, creds, s);
    CredIsNoPlaceholder(phs, creds, s);
    var w := Winner(AllLists(confs), SlotKeys(confs)[s], |confs|);
    assert w.Some? && SlotValues(creds)[w.value] == SlotValues(creds)[s];
  }

  lemma CredIsNoPlaceholder(phs: seq<Creds>, creds: seq<Creds>, s: nat)
    requires |phs| == |creds| && s < 2 * |phs|
    requires AllPlaceholders(SlotValues(phs)) && AllPlain(SlotValues(creds))
    ensures SlotValues(creds)[s] != SlotValues(phs)[s]
  {
    assert SlotValues(creds)[s] in SlotValues(creds);
    assert OccursAt(SlotValues(phs)[s], PREFIX, 0);
  }

  /** Rendered lines show the slot values: every slot has at least one variable. */
  lemma {:induction false} SlotsShow(base: Env, keys: seq<seq<string>>, a: seq<string>, b: seq<string>, n: nat)
    requires n <= |keys| == |a| == |b| && forall s | 0 <= s < |keys| :: keys[s] != []
    requires Lines(Rendered(base, keys, a, n)) == Lines(Rendered(base, keys, b, n))
    ensures a[..n] == b[..n]
  {
    if n > 0 {
      var a0, b0 := Rendered(base, keys, a, n - 1), Rendered(base, keys, b, n - 1);
      RenderedLength(base, keys, a, b, n - 1);
      LinesConcat(a0, Vars(keys[n - 1], a[n - 1]));
      LinesConcat(b0, Vars(keys[n - 1], b[n - 1]));
      var la, lb := Lines(Rendered(base, keys, a, n)), Lines(Rendered(base, keys, b, n));
      assert Lines(a0) == la[..|a0|] == lb[..|a0|] == Lines(b0);
      SlotsShow(base, keys, a, b, n - 1);
      var k := keys[n - 1][0];
      assert la[|a0|] == k + "=" + a[n - 1] && lb[|a0|] == k + "=" + b[n - 1];
      assert a[n - 1] == la[|a0|][|k| + 1..] == lb[|a0|][|k| + 1..] == b[n - 1];
      assert a[..n] == a[..n - 1] + [a[n - 1]] && b[..n] == b[..n - 1] + [b[n - 1]];
    }
  }

  lemma {:induction false} RenderedLength(base: Env, keys: seq<seq<string>>, a: seq<string>, b: seq<string>, n: nat)
    requires n <= |keys| == |a| == |b|
    ensures |Rendered(base, keys, a, n)| == |Rendered(base, keys, b, n)|
  {
    if n > 0 {
      RenderedLength(base, keys, a, b, n - 1);
      assert |Rendered(base, keys, a, n)| == |Rendered(base, keys, a, n - 1)| + |keys[n - 1]|;
      assert |Rendered(base, keys, b, n)| == |Rendered(base, keys, b, n - 1)| + |keys[n - 1]|;
    }
  }

  // ---- The condition in terms of the annotations ----

  /** A key the plugin reads as the webhook writes it. */
  predicate CleanKey(k: string) {
    k != "" && TrimSpace(k) == k && '=' !in k
  }

  /** All env keys are clean, and no two slots share one. */
  ghost predicate DistinctCleanKeys(confs: seq<DbConfiguration>) {
    && (forall s, k | 0 <= s < 2 * |confs| && k in SlotKeys(confs)[s] :: CleanKey(k))
    && (forall s, t, k | 0 <= s < t < 2 * |confs| && k in SlotKeys(confs)[s] :: k !in SlotKeys(confs)[t])
  }

  ghost predicate Trimmed(parts: seq<string>, k: string) {
    exists p :: p in parts && TrimSpace(p) == k
  }

  lemma {:induction false} TrimAllKeeps(parts: seq<string>, k: string)
    ensures k in TrimAll(parts) <==> k != "" && Trimmed(parts, k)
  {
    if parts != [] {
      var n := |parts| - 1;
      TrimAllKeeps(parts[..n], k);
      assert parts == parts[..n] + [parts[n]];
      assert Trimmed(parts, k) <==> Trimmed(parts[..n], k) || TrimSpace(parts[n]) == k by {
        assert forall p :: p in parts <==> p in parts[..n] || p == parts[n];
      }
    }
  }

  lemma CleanKeysAreRead(s: string, k: string)
    requires forall p | p in Split(s, ',') :: CleanKey(p)
    ensures k in CsvKeys(s) <==> k in Split(s, ',')
  {
    TrimAllKeeps(Split(s, ','), k);
    assert Split("", ',') == [""];
    assert "" in Split("", ',');
  }

  lemma {:induction false} SlotKeysAt(confs: seq<DbConfiguration>, i: nat)
    requires i < |confs|
    ensures SlotKeys(confs)[2 * i] == Split(confs[i].dbUserEnvKey, ',')
    ensures SlotKeys(confs)[2 * i + 1] == Split(confs[i].dbPasswordEnvKey, ',')
  {
    if i < |confs| - 1 { SlotKeysAt(confs[..|confs| - 1], i); }
  }

  lemma {:induction false} ClaimOfAll(kl: KeyLists, keys: seq<string>, f: Field)
    requires keys != [] && forall k | k in keys :: '=' !in k
    requires forall k | k in keys :: k in (if f.Username? then kl.users else kl.passes)
    requires f.Password? ==> forall k | k in keys :: k !in kl.users
    ensures KeyClaim(kl, keys) == Some(f)
  {
    assert keys[|keys| - 1] in keys;
  }

  lemma {:induction false} ClaimOfNone(kl: KeyLists, keys: seq<string>)
    requires forall k | k in keys :: k !in kl.users && k !in kl.passes
    ensures KeyClaim(kl, keys) == None
  {
    if keys != [] {
      assert keys[|keys| - 1] in keys;
      ClaimOfNone(kl, keys[..|keys| - 1]);
    }
  }

  /** A slot's keys are read from its own annotation (`text` is that of slot `t`) and from no
      other. */
  lemma ReadFromOwn(confs: seq<DbConfiguration>, s: nat, t: nat, text: string, k: string)
    requires DistinctCleanKeys(confs) && s < 2 * |confs| && t < 2 * |confs|
    requires SlotKeys(confs)[t] == Split(text, ',') && k in SlotKeys(confs)[s]
    ensures '=' !in k && (k in CsvKeys(text) <==> s == t)
  {
    assert CleanKey(k);
    forall p | p in Split(text, ',') ensures CleanKey(p) {
      assert p in SlotKeys(confs)[t];
    }
    CleanKeysAreRead(text, k);
  }

  function KeyText(conf: DbConfiguration, f: Field): string {
    match f case Username => conf.dbUserEnvKey case Password => conf.dbPasswordEnvKey
  }

  lemma SlotKeysOf(confs: seq<DbConfiguration>, i: nat, f: Field)
    requires i < |confs|
    ensures SlotKeys(confs)[SlotOf(i, f)] == Split(KeyText(confs[i], f), ',')
  {
    SlotKeysAt(confs, i);
  }

  lemma ClaimByConf(confs: seq<DbConfiguration>, j: nat, i: nat, f: Field)
    requires DistinctCleanKeys(confs) && i < |confs| && j < |confs|
    ensures KeyClaim(Lists(confs[j]), SlotKeys(confs)[SlotOf(i, f)]) == if i == j then Some(f) else None
  {
    var s, u, p := SlotOf(i, f), SlotOf(j, Username), SlotOf(j, Password);
    SlotKeysOf(confs, i, f);
    SlotKeysOf(confs, j, Username);
    SlotKeysOf(confs, j, Password);
    forall k | k in SlotKeys(confs)[s]
      ensures '=' !in k && (k in Lists(confs[j]).users <==> s == u) && (k in Lists(confs[j]).passes <==> s == p)
    {
      ReadFromOwn(confs, s, u, KeyText(confs[j], Username), k);
      ReadFromOwn(confs, s, p, KeyText(confs[j], Password), k);
    }
    ClaimFromKeys(Lists(confs[j]), SlotKeys(confs)[s], i, j, f);
  }

  lemma ClaimFromKeys(kl: KeyLists, keys: seq<string>, i: nat, j: nat, f: Field)
    requires keys != []
    requires forall k | k in keys :: '=' !in k && (k in kl.users <==> SlotOf(i, f) == SlotOf(j, Username))
                                  && (k in kl.passes <==> SlotOf(i, f) == SlotOf(j, Password))
    ensures KeyClaim(kl, keys) == if i == j then Some(f) else None
  {
    if i == j {
      ClaimOfAll(kl, keys, f);
    } else {
      ClaimOfNone(kl, keys);
    }
  }

  /** Clean and distinct env keys are enough. */
  lemma DistinctKeysWin(confs: seq<DbConfiguration>)
    requires DistinctCleanKeys(confs)
    ensures EverySlotWins(confs)
  {
    forall s | 0 <= s < 2 * |confs| ensures Winner(AllLists(confs), SlotKeys(confs)[s], |confs|) == Some(s) {
      var i, f := s / 2, if s % 2 == 0 then Username else Password;
      assert s == SlotOf(i, f);
      forall j | 0 <= j < |confs|
        ensures KeyClaim(AllLists(confs)[j], SlotKeys(confs)[s]) == if i == j then Some(f) else None
      {
        ClaimByConf(confs, j, i, f);
      }
      OnlyClaimWins(AllLists(confs), SlotKeys(confs)[s], i, f, |confs|);
    }
  }

  lemma {:induction false} OnlyClaimWins(kls: seq<KeyLists>, keys: seq<string>, i: nat, f: Field, n: nat)
    requires n <= |kls|
    requires forall j | 0 <= j < |kls| :: KeyClaim(kls[j], keys) == if i == j then Some(f) else None
    ensures Winner(kls, keys, n) == if i < n then Some(SlotOf(i, f)) else None
  {
    if n > 0 {
      OnlyClaimWins(kls, keys, i, f, n - 1);
    }
  }

  /** A configuration that claims variables of an earlier one takes them over: with a
      shared env key the two databases' credentials cannot both be delivered. */
  lemma {:induction false} SharedKeysLose(confs: seq<DbConfiguration>, i: nat, j: nat, f: Field)
    requires i < j < |confs|
    requires KeyClaim(AllLists(confs)[j], SlotKeys(confs)[SlotOf(i, f)]).Some?
    ensures Winner(AllLists(confs), SlotKeys(confs)[SlotOf(i, f)], |confs|) != Some(SlotOf(i, f))
  {
    LaterClaimWins(AllLists(confs), SlotKeys(confs)[SlotOf(i, f)], j, |confs|);
  }

  lemma {:induction false} LaterClaimWins(kls: seq<KeyLists>, keys: seq<string>, j: nat, n: nat)
    requires j < n <= |kls| && KeyClaim(kls[j], keys).Some?
    ensures Winner(kls, keys, n).Some? && Winner(kls, keys, n).value >= 2 * j
  {
    if j < n - 1 { LaterClaimWins(kls, keys, j, n - 1); }
  }

  // ---- From the webhook to the running container ----

  lemma ValueShows(k: string, ph: string)
    requires IsPlaceholder(ph)
    ensures Contains(SplitKV(k + "=" + ph).1, PREFIX)
  {
    assert OccursAt(ph, PREFIX, 0);
    if '=' in k {
      var (a, b) := Cut(k, '=').value;
      assert k + "=" + ph == a + ['='] + (b + "=" + ph);
      CutAt(a, '=', b + "=" + ph);
      ContainedInPart(b + "=", ph, "", PREFIX);
      assert b + "=" + ph + "" == b + "=" + ph;
    } else {
      CutAt(k, '=', ph);
    }
  }

  /** An injected environment shows a placeholder. */
  lemma InjectionShows(base: Env, confs: seq<DbConfiguration>, phs: seq<Creds>)
    requires |confs| == |phs| > 0 && AllPlaceholders(SlotValues(phs))
    ensures HasPlaceholder(Lines(Applied(base, confs, phs)))
  {
    AppliedIsRendered(base, confs, phs);
    var n := 2 * |phs| - 1;
    var keys, ph := SlotKeys(confs)[n], SlotValues(phs)[n];
    var before := Rendered(base, SlotKeys(confs), SlotValues(phs), n);
    SlotKeysAt(confs, |confs| - 1);
    var env := Lines(Applied(base, confs, phs));
    assert env[|before|] == keys[0] + "=" + ph;
    ValueShows(keys[0], ph);
  }

  lemma {:induction false} LegacyIsPlain(base: Env, keys: seq<seq<string>>, vals: seq<string>, n: nat)
    requires n <= |keys| == |vals| && PlainEnv(base) && AllPlain(vals)
    requires forall ks | ks in keys :: AllPlain(ks)
    ensures PlainEnv(Rendered(base, keys, vals, n))
  {
    if n > 0 {
      LegacyIsPlain(base, keys, vals, n - 1);
      var last := Vars(keys[n - 1], vals[n - 1]);
      forall v | v in last ensures Plain(Line(v)) {
        var i :| 0 <= i < |last| && v == last[i];
        assert keys[n - 1] in keys && keys[n - 1][i] in keys[n - 1] && vals[n - 1] in vals;
        PlainLine(keys[n - 1][i], vals[n - 1]);
      }
    }
  }

  /** The whole way: for an injected container with distinct variable names, the hook never
      skips nor refuses, and the environment containerd merges is the legacy one. */
  lemma EndToEnd(containers: seq<Env>, confs: seq<DbConfiguration>, phs: seq<Creds>, creds: seq<Creds>, c: nat,
                 podLabel: string, labels: map<string, string>, r: Verdict)
    requires FreshPlaceholders(containers, confs, phs, creds) && c < |containers| && confs != []
    requires EverySlotWins(confs) && Selected(podLabel, labels)
    requires var env := Lines(Applied(containers[c], confs, phs)); DistinctKeys(env) && PlainKeys(env)
    requires FailClosed(podLabel, labels, Lines(Applied(containers[c], confs, phs)),
                        Resolved(PluginMapping(containers, confs, phs, creds)), r)
    ensures r.Adjust?
    ensures Merge(Lines(Applied(containers[c], confs, phs)), r.added) == Lines(Applied(containers[c], confs, creds))
  {
    var env, m := Lines(Applied(containers[c], confs, phs)), PluginMapping(containers, confs, phs, creds);
    InjectionShows(containers[c], confs, phs);
    MappingIsNotEmpty(containers, confs, phs, creds);
    assert Judged(env, m, r);
    var out :| Substituted(env, m, out) && r == Judge(env, out);
    ClassicRefinement(containers, confs, phs, creds, c, out);
    LegacyHasNoPrefix(containers[c], confs, creds);
    JudgedDelivered(env, m, out);
  }

  lemma JudgedDelivered(env: seq<string>, m: Mapping, out: seq<string>)
    requires Substituted(env, m, out) && HasPlaceholder(env) && NoPrefix(out)
    requires DistinctKeys(env) && PlainKeys(env)
    ensures Judge(env, out).Adjust? && Merge(env, Judge(env, out).added) == out
  {
    ShownIsPrefix(env);
    SubstitutionKeepsKeys(env, m, out);
    MergedIsOut(env, out);
  }

  lemma MappingIsNotEmpty(containers: seq<Env>, confs: seq<DbConfiguration>, phs: seq<Creds>, creds: seq<Creds>)
    requires FreshPlaceholders(containers, confs, phs, creds) && containers != [] && confs != [] && EverySlotWins(confs)
    ensures PluginMapping(containers, confs, phs, creds) != map[]
  {
    SlotInPluginMapping(containers, confs, phs, creds, 0);
    CredIsNoPlaceholder(phs, creds, 0);
  }

  lemma LegacyHasNoPrefix(base: Env, confs: seq<DbConfiguration>, creds: seq<Creds>)
    requires |confs| == |creds| && PlainEnv(base) && AllPlain(SlotValues(creds))
    requires forall ks | ks in SlotKeys(confs) :: AllPlain(ks)
    ensures NoPrefix(Lines(Applied(base, confs, creds)))
  {
    AppliedIsRendered(base, confs, creds);
    LegacyIsPlain(base, SlotKeys(confs), SlotValues(creds), 2 * |creds|);
    var env := Applied(base, confs, creds);
    forall i | 0 <= i < |env| ensures !Contains(Lines(env)[i], PREFIX) {
      assert env[i] in env;
    }
  }

  lemma ShownIsPrefix(env: seq<string>)
    requires HasPlaceholder(env)
    ensures !NoPrefix(env)
  {
    var i :| 0 <= i < |env| && Contains(SplitKV(env[i]).1, PREFIX);
    var (k, v) := SplitKV(env[i]);
    assert v != "";
    assert env[i] == k + "=" + v + "";
    ContainedInPart(k + "=", v, "", PREFIX);
  }
}
