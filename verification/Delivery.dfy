/** Both delivery modes behind the program's two entry points: applying a configuration to a
    pod's environment, and reading the placeholders back from it.
    (pkg/k8smutator/k8smutator.go, pkg/nri/plugin.go, pkg/nri/vault.go) */
module Delivery {
  import opened Strings
  import opened Substitution
  import opened Annotations
  import opened ClassicDelivery
  import opened ClassicRefinement
  import opened UriDelivery
  import Url

  datatype Mode = Classic | Uri | Unsupported

  function ModeOf(conf: DbConfiguration): Mode {
    var mode := Lower(conf.mode);
    if mode == "" || mode == "classic" then Classic else if mode == "uri" then Uri else Unsupported
  }

  /** The variables a configuration adds to every container; None if it cannot be applied. */
  function AddedVars(conf: DbConfiguration, v: Creds): Option<Env>
    requires ByteCreds(v)
  {
    match ModeOf(conf)
    case Classic => Some(ClassicVars(conf, v))
    case Uri =>
      (match Url.Parse(conf.template)
       case Some(u) => Some(UriVars(conf, u, v))
       case None => None)
    case Unsupported => None
  }

  // ---- The same, spelled out ----

  /** What the mode's text means, in any letter case. */
  lemma ModeText(conf: DbConfiguration)
    ensures ModeOf(conf).Classic? <==> conf.mode == "" || Spells(conf.mode, "classic")
    ensures ModeOf(conf).Uri? <==> Spells(conf.mode, "uri")
  {
    LowerSpells(conf.mode, "classic");
    LowerSpells(conf.mode, "uri");
  }

  /** One variable for each of the comma-separated keys, with the same value. */
  predicate AreVars(env: Env, keys: string, value: string) {
    && |env| == |Split(keys, ',')|
    && forall j | 0 <= j < |env| :: env[j].name == Split(keys, ',')[j] && env[j].value == value
  }

  /** The container has kept its variables and gained those of the keys. */
  predicate GainsKeys(before: Env, after: Env, keys: string, value: string) {
    before <= after && AreVars(after[|before|..], keys, value)
  }

  /** ... those of the user keys with the user name, then those of the password keys with the
      password. */
  predicate GainsPair(before: Env, after: Env, userKeys: string, passKeys: string, v: Creds) {
    var n := |before| + |Split(userKeys, ',')|;
    && before <= after && n <= |after|
    && AreVars(after[|before|..n], userKeys, v.username)
    && AreVars(after[n..], passKeys, v.password)
  }

  predicate AllGainKeys(before: seq<Env>, after: seq<Env>, keys: string, value: string) {
    |after| == |before| && forall c | 0 <= c < |before| :: GainsKeys(before[c], after[c], keys, value)
  }

  predicate AllGainPairs(before: seq<Env>, after: seq<Env>, conf: DbConfiguration, v: Creds) {
    && |after| == |before|
    && forall c | 0 <= c < |before| :: GainsPair(before[c], after[c], conf.dbUserEnvKey, conf.dbPasswordEnvKey, v)
  }

  lemma ExtendedByPairs(before: seq<Env>, conf: DbConfiguration, v: Creds)
    ensures AllGainPairs(before, Extended(before, ClassicVars(conf, v)), conf, v)
  {
    var users := Vars(Split(conf.dbUserEnvKey, ','), v.username);
    var passes := Vars(Split(conf.dbPasswordEnvKey, ','), v.password);
    forall c | 0 <= c < |before|
      ensures GainsPair(before[c], before[c] + (users + passes), conf.dbUserEnvKey, conf.dbPasswordEnvKey, v)
    {
      ThreeParts(before[c], users, passes);
    }
  }

  lemma ThreeParts<T>(a: seq<T>, b: seq<T>, c: seq<T>)
    ensures var whole := a + (b + c);
      a <= whole && whole[|a|..|a| + |b|] == b && whole[|a| + |b|..] == c
  {
  }

  lemma ExtendedByKeys(before: seq<Env>, keys: string, value: string)
    ensures AllGainKeys(before, Extended(before, Vars(Split(keys, ','), value)), keys, value)
  {
    forall c | 0 <= c < |before| ensures GainsKeys(before[c], before[c] + Vars(Split(keys, ','), value), keys, value) {
      ThreeParts(before[c], Vars(Split(keys, ','), value), []);
    }
  }

  /** applyEnvToContainers; `generated` is the pair of generated placeholders. */
  method ApplyEnv(pod: PodSpec, conf: DbConfiguration, creds: Creds, generated: Creds,
                  nriEnabled: bool) returns (ok: bool)
    requires ByteCreds(creds) && ByteCreds(generated)
    modifies pod
    ensures var vars := AddedVars(conf, if nriEnabled then generated else creds);
      && (ok <==> vars.Some?)
      && pod.initContainers == (if ok then Extended(old(pod.initContainers), vars.value) else old(pod.initContainers))
      && pod.containers == (if ok then Extended(old(pod.containers), vars.value) else old(pod.containers))
    ensures conf.mode == "" || Spells(conf.mode, "classic") ==>
      var v := if nriEnabled then generated else creds;
      && ok
      && AllGainPairs(old(pod.initContainers), pod.initContainers, conf, v)
      && AllGainPairs(old(pod.containers), pod.containers, conf, v)
    ensures Spells(conf.mode, "uri") ==>
      && (ok <==> Url.Parse(conf.template).Some?)
      && (ok ==>
            var dsn := Dsn(Url.Parse(conf.template).value, if nriEnabled then generated else creds);
            && AllGainKeys(old(pod.initContainers), pod.initContainers, conf.dbURIEnvKey, dsn)
            && AllGainKeys(old(pod.containers), pod.containers, conf.dbURIEnvKey, dsn))
    ensures conf.mode != "" && !Spells(conf.mode, "classic") && !Spells(conf.mode, "uri") ==> !ok
    ensures !ok ==> pod.initContainers == old(pod.initContainers) && pod.containers == old(pod.containers)
  {
    ModeText(conf);
    match ModeOf(conf) {
      case Classic =>
        ExtendedByPairs(pod.initContainers, conf, if nriEnabled then generated else creds);
        ExtendedByPairs(pod.containers, conf, if nriEnabled then generated else creds);
        ApplyClassic(pod, conf, creds, generated, nriEnabled);
        ok := true;
      case Uri =>
        if Url.Parse(conf.template).Some? {
          ghost var dsn := Dsn(Url.Parse(conf.template).value, if nriEnabled then generated else creds);
          ExtendedByKeys(pod.initContainers, conf.dbURIEnvKey, dsn);
          ExtendedByKeys(pod.containers, conf.dbURIEnvKey, dsn);
        }
        ok := ApplyUri(pod, conf, creds, generated, nriEnabled);
      case Unsupported => ok := false;
    }
  }

  /** The credential field each placeholder on the lines stands for. */
  function FieldsIn(conf: DbConfiguration, lines: seq<string>): map<string, Field> {
    match ModeOf(conf)
    case Classic => Fields(Lists(conf), lines)
    case Uri => UriFields(CsvKeys(conf.dbURIEnvKey), lines)
    case Unsupported => map[]
  }

  /** The mapping one configuration contributes. */
  function Contribution(conf: DbConfiguration, creds: Creds, lines: seq<string>): Mapping {
    map ph | ph in FieldsIn(conf, lines) :: FieldValue(creds, FieldsIn(conf, lines)[ph])
  }

  lemma {:induction false} AllLinesAppend(a: seq<Env>, c: Env)
    ensures AllLines(a + [c]) == AllLines(a) + Lines(c)
  {
    if a == [] {
      assert a + [c] == [c] && [c][1..] == [];
    } else {
      assert (a + [c])[1..] == a[1..] + [c];
      AllLinesAppend(a[1..], c);
    }
  }

  /** extractPlaceholdersFromEnv. */
  method ExtractFields(lines: seq<string>, conf: DbConfiguration) returns (fields: map<string, Field>)
    ensures fields == FieldsIn(conf, lines)
    ensures conf.mode == "" || Spells(conf.mode, "classic") ==> fields == Fields(Lists(conf), lines)
    ensures Spells(conf.mode, "uri") ==> fields == UriFields(CsvKeys(conf.dbURIEnvKey), lines)
    ensures conf.mode != "" && !Spells(conf.mode, "classic") && !Spells(conf.mode, "uri") ==> fields == map[]
  {
    ModeText(conf);
    match ModeOf(conf) {
      case Classic => fields := ExtractPlaceholders(lines, conf);
      case Uri => fields := ExtractFromUris(lines, conf);
      case Unsupported => fields := map[];
    }
  }

  method GatherLines(all: seq<Env>) returns (lines: seq<string>)
    ensures lines == AllLines(all)
  {
    lines := [];
    for i := 0 to |all|
      invariant lines == AllLines(all[..i])
    {
      AllLinesAppend(all[..i], all[i]);
      assert all[..i + 1] == all[..i] + [all[i]];
      lines := lines + Lines(all[i]);
    }
    assert all[..|all|] == all;
  }

  /** buildMappingFromPodEnv. */
  method BuildMapping(initContainers: seq<Env>, containers: seq<Env>, conf: DbConfiguration,
                      creds: Creds) returns (out: Mapping)
    ensures out == Contribution(conf, creds, AllLines(initContainers + containers))
  {
    var lines := GatherLines(initContainers + containers);
    var fields := ExtractFields(lines, conf);
    out := FillIn(fields, creds);
  }

  method FillIn(fields: map<string, Field>, creds: Creds) returns (out: Mapping)
    ensures out == map ph | ph in fields :: FieldValue(creds, fields[ph])
  {
    out := map[];
    var todo := fields.Keys;
    while todo != {}
      invariant PartlyFilled(out, fields, creds, todo)
      decreases |todo|
    {
      var ph :| ph in todo;
      FilledNext(out, fields, creds, todo, ph);
      todo := todo - {ph};
      out := out[ph := FieldValue(creds, fields[ph])];
    }
  }

  predicate PartlyFilled(out: Mapping, fields: map<string, Field>, creds: Creds, todo: set<string>) {
    && todo <= fields.Keys && out.Keys == fields.Keys - todo
    && forall ph | ph in out :: out[ph] == FieldValue(creds, fields[ph])
  }

  lemma FilledNext(out: Mapping, fields: map<string, Field>, creds: Creds, todo: set<string>, ph: string)
    requires PartlyFilled(out, fields, creds, todo) && ph in todo
    ensures PartlyFilled(out[ph := FieldValue(creds, fields[ph])], fields, creds, todo - {ph})
  {
  }

  /** The first `n` mappings merged, later ones overriding earlier ones. */
  function Combined(ms: seq<Mapping>, n: nat): Mapping
    requires n <= |ms|
  {
    if n == 0 then map[] else Combined(ms, n - 1) + ms[n - 1]
  }

  function Contributions(confs: seq<DbConfiguration>, creds: seq<Creds>, lines: seq<string>): seq<Mapping>
    requires |confs| == |creds|
  {
    seq(|confs|, i requires 0 <= i < |confs| => Contribution(confs[i], creds[i], lines))
  }

  /** The plugin's merged mapping of the first `n` configurations. */
  function MergedUpTo(confs: seq<DbConfiguration>, creds: seq<Creds>, lines: seq<string>, n: nat): Mapping
    requires n <= |confs| == |creds|
  {
    Combined(Contributions(confs, creds, lines), n)
  }

  /** For classic configurations this is the mapping the classic refinement is about. */
  lemma {:induction false} ClassicMerge(confs: seq<DbConfiguration>, creds: seq<Creds>, lines: seq<string>, n: nat)
    requires n <= |confs| == |creds| && forall i | 0 <= i < n :: ModeOf(confs[i]).Classic?
    ensures MergedUpTo(confs, creds, lines, n) == Merged(AllLists(confs), creds, lines, n)
  {
    if n > 0 {
      ClassicMerge(confs, creds, lines, n - 1);
    }
  }
}
