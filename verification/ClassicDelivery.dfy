/** Delivery of credentials in classic mode, both ways.

    Legacy: the webhook appends KEY=value variables to every container. NRI: the webhook
    appends KEY=placeholder variables; later the plugin extracts the placeholders from the
    pod's environment and maps each to a credential.
    (pkg/k8smutator/k8smutator.go, pkg/nri/plugin.go, pkg/nri/vault.go) */
module ClassicDelivery {
  import opened Strings
  import opened Placeholder
  import opened Substitution
  import opened ContainerHook
  import opened Annotations

  datatype EnvVar = EnvVar(name: string, value: string)
  datatype Creds = Creds(username: string, password: string)
  datatype Field = Username | Password

  type Env = seq<EnvVar>

  function Line(v: EnvVar): string { v.name + "=" + v.value }

  function Lines(env: Env): seq<string> {
    seq(|env|, i requires 0 <= i < |env| => Line(env[i]))
  }

  function Vars(keys: seq<string>, value: string): Env {
    seq(|keys|, i requires 0 <= i < |keys| => EnvVar(keys[i], value))
  }

  /** What the webhook appends for one configuration. */
  function ClassicVars(conf: DbConfiguration, v: Creds): Env {
    Vars(Split(conf.dbUserEnvKey, ','), v.username) + Vars(Split(conf.dbPasswordEnvKey, ','), v.password)
  }

  function Extended(containers: seq<Env>, vars: Env): seq<Env> {
    seq(|containers|, i requires 0 <= i < |containers| => containers[i] + vars)
  }

  class PodSpec {
    var initContainers: seq<Env>
    var containers: seq<Env>

    constructor (initContainers: seq<Env>, containers: seq<Env>)
      ensures this.initContainers == initContainers && this.containers == containers
    {
      this.initContainers, this.containers := initContainers, containers;
    }
  }

  /** applyClassic; `generated` is the pair of generated placeholders. */
  method ApplyClassic(pod: PodSpec, conf: DbConfiguration, creds: Creds, generated: Creds, nriEnabled: bool)
    modifies pod
    ensures var v := if nriEnabled then generated else creds;
      && pod.initContainers == Extended(old(pod.initContainers), ClassicVars(conf, v))
      && pod.containers == Extended(old(pod.containers), ClassicVars(conf, v))
  {
    var v := if nriEnabled then generated else creds;
    var userKeys, passKeys := Split(conf.dbUserEnvKey, ','), Split(conf.dbPasswordEnvKey, ',');
    for i := 0 to |pod.initContainers|
      invariant |pod.initContainers| == |old(pod.initContainers)| && pod.containers == old(pod.containers)
      invariant forall j | 0 <= j < i :: pod.initContainers[j] == old(pod.initContainers)[j] + ClassicVars(conf, v)
      invariant forall j | i <= j < |pod.initContainers| :: pod.initContainers[j] == old(pod.initContainers)[j]
    {
      var env := AppendVars(pod.initContainers[i], userKeys, v.username);
      env := AppendVars(env, passKeys, v.password);
      pod.initContainers := pod.initContainers[i := env];
    }
    for i := 0 to |pod.containers|
      invariant |pod.containers| == |old(pod.containers)|
      invariant pod.initContainers == Extended(old(pod.initContainers), ClassicVars(conf, v))
      invariant forall j | 0 <= j < i :: pod.containers[j] == old(pod.containers)[j] + ClassicVars(conf, v)
      invariant forall j | i <= j < |pod.containers| :: pod.containers[j] == old(pod.containers)[j]
    {
      var env := AppendVars(pod.containers[i], userKeys, v.username);
      env := AppendVars(env, passKeys, v.password);
      pod.containers := pod.containers[i := env];
    }
  }

  method AppendVars(env: Env, keys: seq<string>, value: string) returns (r: Env)
    ensures r == env + Vars(keys, value)
  {
    r := env;
    for i := 0 to |keys|
      invariant r == env + Vars(keys[..i], value)
    {
      assert Vars(keys[..i + 1], value) == Vars(keys[..i], value) + [EnvVar(keys[i], value)];
      r := r + [EnvVar(keys[i], value)];
    }
    assert keys[..|keys|] == keys;
  }

  // ---- Extraction ----

  function TrimAll(parts: seq<string>): seq<string> {
    if parts == [] then []
    else
      var p := TrimSpace(parts[|parts| - 1]);
      TrimAll(parts[..|parts| - 1]) + (if p == "" then [] else [p])
  }

  function CsvKeys(s: string): seq<string> {
    if s == "" then [] else TrimAll(Split(s, ','))
  }

  method SplitCsv(s: string) returns (out: seq<string>)
    ensures out == CsvKeys(s)
  {
    if s == "" {
      return [];
    }
    var parts := Split(s, ',');
    out := [];
    for i := 0 to |parts|
      invariant out == TrimAll(parts[..i])
    {
      assert parts[..i + 1][..i] == parts[..i];
      var p := TrimSpace(parts[i]);
      if p != "" {
        out := out + [p];
      }
    }
    assert parts[..|parts|] == parts;
  }

  /** The two key lists of a configuration, as the plugin reads them. */
  datatype KeyLists = KeyLists(users: seq<string>, passes: seq<string>)

  function Lists(conf: DbConfiguration): KeyLists {
    KeyLists(CsvKeys(conf.dbUserEnvKey), CsvKeys(conf.dbPasswordEnvKey))
  }

  /** The field a configuration assigns to the placeholder on a line, if any. */
  function Claim(kl: KeyLists, line: string): Option<(string, Field)> {
    var (k, v) := SplitKV(line);
    if !IsPlaceholder(v) then None
    else if k in kl.users then Some((v, Username))
    else if k in kl.passes then Some((v, Password))
    else None
  }

  /** Placeholder to field, later lines overriding earlier ones. */
  function Fields(kl: KeyLists, lines: seq<string>): map<string, Field> {
    if lines == [] then map[]
    else
      var before := Fields(kl, lines[..|lines| - 1]);
      match Claim(kl, lines[|lines| - 1])
      case None => before
      case Some(c) => before[c.0 := c.1]
  }

  /** extractPlaceholdersFromEnv, classic mode. */
  method ExtractPlaceholders(env: seq<string>, conf: DbConfiguration) returns (out: map<string, Field>)
    ensures out == Fields(Lists(conf), env)
  {
    out := map[];
    var userKeys := SplitCsv(conf.dbUserEnvKey);
    var passKeys := SplitCsv(conf.dbPasswordEnvKey);
    for i := 0 to |env|
      invariant out == Fields(Lists(conf), env[..i])
    {
      assert env[..i + 1][..i] == env[..i];
      var k, v := ScanKV(env[i]);
      var ok := CheckPlaceholder(v);
      if ok {
        if k in userKeys {
          out := out[v := Username];
        } else if k in passKeys {
          out := out[v := Password];
        }
      }
    }
    assert env[..|env|] == env;
  }

  function FieldValue(creds: Creds, f: Field): string {
    match f case Username => creds.username case Password => creds.password
  }

  function PartialMapping(kl: KeyLists, creds: Creds, lines: seq<string>): Mapping {
    map ph | ph in Fields(kl, lines) :: FieldValue(creds, Fields(kl, lines)[ph])
  }

  function AllLines(containers: seq<Env>): seq<string> {
    if containers == [] then [] else Lines(containers[0]) + AllLines(containers[1..])
  }

  /** The plugin's merged mapping of the first `n` configurations. */
  function Merged(kls: seq<KeyLists>, creds: seq<Creds>, lines: seq<string>, n: nat): Mapping
    requires n <= |kls| == |creds|
  {
    if n == 0 then map[]
    else Merged(kls, creds, lines, n - 1) + PartialMapping(kls[n - 1], creds[n - 1], lines)
  }
}
