/** The plugin's CreateContainer hook (pkg/nri/plugin.go): fail-closed substitution. */
module ContainerHook {
  import opened Strings
  import opened Placeholder
  import opened Substitution

  datatype Resolution = Resolved(mapping: Mapping) | FetchFailed
  datatype Refusal = FetchError | EmptyMapping | NoChange | ResidualPlaceholder
  datatype Verdict =
    | Skip
    | Refuse(reason: Refusal)
    | Adjust(added: seq<(string, string)>)

  /** Split at the first '='; without one the whole line is the key. */
  function SplitKV(line: string): (string, string) {
    match Cut(line, '=')
    case None => (line, "")
    case Some(parts) => parts
  }

  function Key(line: string): string { SplitKV(line).0 }

  /** The scan of the program for the first '='. */
  method ScanKV(line: string) returns (k: string, v: string)
    ensures (k, v) == SplitKV(line)
  {
    for i := 0 to |line|
      invariant '=' !in line[..i]
    {
      if line[i] == '=' {
        assert line == line[..i] + ['='] + line[i + 1..];
        CutAt(line[..i], '=', line[i + 1..]);
        return line[..i], line[i + 1..];
      }
    }
    assert line[..|line|] == line;
    return line, "";
  }

  ghost predicate HasPlaceholder(env: seq<string>) {
    exists i :: 0 <= i < |env| && Contains(SplitKV(env[i]).1, PREFIX)
  }

  method EnvHasAnyPlaceholder(env: seq<string>) returns (found: bool)
    ensures found == HasPlaceholder(env)
  {
    for i := 0 to |env|
      invariant forall j | 0 <= j < i :: !Contains(SplitKV(env[j]).1, PREFIX)
    {
      var _, v := ScanKV(env[i]);
      if Contains(v, PREFIX) {
        return true;
      }
    }
    return false;
  }

  /** The program's wishes for its pod: no label configured, or the label set to "true". */
  predicate Selected(podLabel: string, labels: map<string, string>) {
    podLabel == "" || (podLabel in labels && labels[podLabel] == "true")
  }

  // ---- What containerd does with an adjustment ----

  /** containerd sets the variable `k` to `v`, in place where the environment has it. */
  function SetVar(env: seq<string>, k: string, v: string): seq<string> {
    if env == [] then [k + "=" + v]
    else if Key(env[0]) == k then [k + "=" + v] + env[1..]
    else [env[0]] + SetVar(env[1..], k, v)
  }

  function Merge(env: seq<string>, added: seq<(string, string)>): seq<string>
    decreases |added|
  {
    if added == [] then env
    else Merge(SetVar(env, added[0].0, added[0].1), added[1..])
  }

  /** The changed lines among the first `n`, as key and value. */
  function Changed(env: seq<string>, out: seq<string>, n: nat): seq<(string, string)>
    requires n <= |env| == |out|
  {
    if n == 0 then []
    else Changed(env, out, n - 1) + if env[n - 1] == out[n - 1] then [] else [SplitKV(out[n - 1])]
  }

  /** `out` is what substitution may make of the environment. */
  ghost predicate Substituted(env: seq<string>, m: Mapping, out: seq<string>) {
    && |out| == |env|
    && (forall i | 0 <= i < |env| :: SomeOrder(env[i], m, out[i]))
    && (PlainValues(m) ==> forall i | 0 <= i < |env| && Separated(env[i], m) :: out[i] == AtOnce(env[i], m))
  }

  ghost predicate NoPrefix(env: seq<string>) {
    forall i | 0 <= i < |env| :: !Contains(env[i], PREFIX)
  }

  /** Nothing changed: refuse. A prefix left over: refuse. Otherwise adjust. */
  ghost function Judge(env: seq<string>, out: seq<string>): Verdict
    requires |env| == |out|
  {
    if out == env then Refuse(NoChange)
    else if !NoPrefix(out) then Refuse(ResidualPlaceholder)
    else Adjust(Changed(env, out, |env|))
  }

  ghost predicate Judged(env: seq<string>, m: Mapping, r: Verdict) {
    exists out :: Substituted(env, m, out) && r == Judge(env, out)
  }

  /** The hook's verdict, case by case. `Skip` only for a pod that is not selected or an
      environment without the prefix; `Adjust` only if the substituted environment is free
      of the prefix; everything else is refused. */
  ghost predicate FailClosed(podLabel: string, labels: map<string, string>, env: seq<string>, res: Resolution,
                             r: Verdict) {
    if !Selected(podLabel, labels) || !HasPlaceholder(env) then r == Skip
    else if res.FetchFailed? then r == Refuse(FetchError)
    else if res.mapping == map[] then r == Refuse(EmptyMapping)
    else Judged(env, res.mapping, r)
  }

  /** The line is a variable whose value has the placeholder prefix in it. */
  ghost predicate ValueShows(line: string) {
    exists k, v :: line == k + "=" + v && '=' !in k && Contains(v, "__VDBI_PH_")
  }

  lemma SeenIsShown(env: seq<string>)
    ensures HasPlaceholder(env) <==> exists line :: line in env && ValueShows(line)
  {
    forall line ensures Contains(SplitKV(line).1, PREFIX) <==> ValueShows(line) {
      SeenInLine(line);
    }
  }

  lemma SeenInLine(line: string)
    ensures Contains(SplitKV(line).1, PREFIX) <==> ValueShows(line)
  {
    var (k, v) := SplitKV(line);
    if Contains(v, PREFIX) {
      assert '=' in line && line == k + "=" + v;
    }
    if k, v :| line == k + "=" + v && '=' !in k && Contains(v, "__VDBI_PH_") {
      assert line == k + ['='] + v;
      CutAt(k, '=', v);
    }
  }

  /** CreateContainer, with the resolved mapping as a parameter. */
  method CreateContainer(podLabel: string, labels: map<string, string>, env: seq<string>, res: Resolution)
    returns (r: Verdict)
    ensures FailClosed(podLabel, labels, env, res, r)
    ensures r == Skip
       <==> (podLabel != "" && (podLabel !in labels || labels[podLabel] != "true"))
            || forall line | line in env :: !ValueShows(line)
    ensures r != Skip && res.FetchFailed? ==> r == Refuse(FetchError)
    ensures r != Skip && res == Resolved(map[]) ==> r == Refuse(EmptyMapping)
  {
    SeenIsShown(env);
    if podLabel != "" {
      if !(podLabel in labels && labels[podLabel] == "true") {
        return Skip;
      }
    }
    var any := EnvHasAnyPlaceholder(env);
    if !any {
      return Skip;
    }
    if res.FetchFailed? {
      return Refuse(FetchError);
    }
    if res.mapping == map[] {
      return Refuse(EmptyMapping);
    }
    var out := Substitute(env, res.mapping);
    assert Substituted(env, res.mapping, out);
    r := Emit(env, out);
  }

  /** The hook's last part: collect the changed lines, then check for residual prefixes. */
  method Emit(env: seq<string>, out: seq<string>) returns (r: Verdict)
    requires |env| == |out|
    ensures r == Judge(env, out)
  {
    var added: seq<(string, string)> := [];
    for i := 0 to |env|
      invariant added == Changed(env, out, i)
      invariant added == [] <==> forall j | 0 <= j < i :: env[j] == out[j]
    {
      if env[i] != out[i] {
        var k, v := ScanKV(out[i]);
        added := added + [(k, v)];
      }
    }
    if added == [] {
      assert out == env;
      return Refuse(NoChange);
    }
    for i := 0 to |out|
      invariant forall j | 0 <= j < i :: !Contains(out[j], PREFIX)
    {
      if Contains(out[i], PREFIX) {
        return Refuse(ResidualPlaceholder);
      }
    }
    return Adjust(added);
  }

  // ---- Merging the adjustment gives the substituted environment ----

  ghost predicate DistinctKeys(env: seq<string>) {
    forall i, j | 0 <= i < j < |env| :: Key(env[i]) != Key(env[j])
  }

  ghost predicate PlainKeys(env: seq<string>) {
    forall i | 0 <= i < |env| :: !Contains(Key(env[i]), PREFIX)
  }

  /** Substitution keeps a prefix-free key, and a line it changes keeps its '='. */
  lemma KeyIsKept(line: string, m: Mapping, out: string)
    requires SomeOrder(line, m, out) && !Contains(Key(line), PREFIX)
    ensures Key(out) == Key(line)
    ensures out != line ==> out == Key(out) + "=" + SplitKV(out).1
  {
    var order :| IsOrder(order, m) && out == InOrder(line, order, m);
    var (k, v) := SplitKV(line);
    if '=' in line {
      InOrderAcross(k, '=', v, order, m);
      InOrderOfPlain(k, order, m);
      CutAt(k, '=', InOrder(v, order, m));
    } else {
      InOrderOfPlain(k, order, m);
    }
  }

  /** Setting the variable of line `i` rewrites that line and no other. */
  lemma {:induction false} SetVarAt(env: seq<string>, i: nat, k: string, v: string)
    requires i < |env| && DistinctKeys(env) && Key(env[i]) == k
    ensures SetVar(env, k, v) == env[i := k + "=" + v]
  {
    if i > 0 {
      assert Key(env[0]) != k;
      DistinctTail(env);
      UpdateInTail(env, i, k + "=" + v);
      SetVarAt(env[1..], i - 1, k, v);
      assert SetVar(env, k, v) == [env[0]] + SetVar(env[1..], k, v);
    } else {
      assert [k + "=" + v] + env[1..] == env[0 := k + "=" + v];
    }
  }

  lemma UpdateInTail<T>(s: seq<T>, i: nat, x: T)
    requires 0 < i < |s|
    ensures s[1..][i - 1] == s[i] && s[i := x] == [s[0]] + s[1..][i - 1 := x]
  {
  }

  lemma DistinctTail(env: seq<string>)
    requires env != [] && DistinctKeys(env)
    ensures DistinctKeys(env[1..])
  {
  }

  lemma {:induction false} MergeAppend(env: seq<string>, added: seq<(string, string)>, kv: (string, string))
    ensures Merge(env, added + [kv]) == SetVar(Merge(env, added), kv.0, kv.1)
    decreases |added|
  {
    if added == [] {
      assert added + [kv] == [kv];
      assert Merge(SetVar(env, kv.0, kv.1), [kv][1..]) == SetVar(env, kv.0, kv.1);
    } else {
      assert (added + [kv])[1..] == added[1..] + [kv];
      MergeAppend(SetVar(env, added[0].0, added[0].1), added[1..], kv);
    }
  }

  /** `out` has the keys of `env`, and its changed lines are of the form KEY=value. */
  ghost predicate KeysKept(env: seq<string>, out: seq<string>) {
    && |out| == |env|
    && (forall i | 0 <= i < |env| :: Key(out[i]) == Key(env[i]))
    && (forall i | 0 <= i < |env| :: out[i] == env[i] || out[i] == Key(env[i]) + "=" + SplitKV(out[i]).1)
  }

  lemma SubstitutionKeepsKeys(env: seq<string>, m: Mapping, out: seq<string>)
    requires Substituted(env, m, out) && PlainKeys(env)
    ensures KeysKept(env, out)
  {
    forall i | 0 <= i < |env|
      ensures Key(out[i]) == Key(env[i]) && (out[i] == env[i] || out[i] == Key(env[i]) + "=" + SplitKV(out[i]).1)
    {
      KeyIsKept(env[i], m, out[i]);
    }
  }

  function Half(env: seq<string>, out: seq<string>, n: nat): seq<string>
    requires n <= |env| == |out|
  {
    out[..n] + env[n..]
  }

  /** Setting the variable of a changed line completes that line. */
  ghost predicate Mergeable(env: seq<string>, out: seq<string>) {
    && |out| == |env|
    && forall n | 0 <= n < |env| && out[n] != env[n] ::
      SetVar(Half(env, out, n), SplitKV(out[n]).0, SplitKV(out[n]).1) == Half(env, out, n + 1)
  }

  lemma DistinctIsMergeable(env: seq<string>, out: seq<string>)
    requires KeysKept(env, out) && DistinctKeys(env)
    ensures Mergeable(env, out)
  {
    forall n | 0 <= n < |env| && out[n] != env[n]
      ensures SetVar(Half(env, out, n), SplitKV(out[n]).0, SplitKV(out[n]).1) == Half(env, out, n + 1)
    {
      HalfKeys(env, out, n);
      SetVarAt(Half(env, out, n), n, Key(out[n]), SplitKV(out[n]).1);
      HalfNext(env, out, n);
    }
  }

  lemma HalfKeys(env: seq<string>, out: seq<string>, n: nat)
    requires n < |env| == |out| && DistinctKeys(env) && forall i | 0 <= i < |env| :: Key(out[i]) == Key(env[i])
    ensures DistinctKeys(Half(env, out, n)) && Key(Half(env, out, n)[n]) == Key(out[n])
  {
    var now := Half(env, out, n);
    forall i | 0 <= i < |now| ensures Key(now[i]) == Key(env[i]) {
      assert now[i] == if i < n then out[i] else env[i];
    }
  }

  lemma HalfNext(env: seq<string>, out: seq<string>, n: nat)
    requires n < |env| == |out|
    ensures Half(env, out, n)[n := out[n]] == Half(env, out, n + 1)
  {
  }

  lemma {:induction false} MergeChanged(env: seq<string>, out: seq<string>, n: nat)
    requires Mergeable(env, out) && n <= |env|
    ensures Merge(env, Changed(env, out, n)) == Half(env, out, n)
  {
    if n > 0 {
      MergeChanged(env, out, n - 1);
      if env[n - 1] != out[n - 1] {
        MergeAppend(env, Changed(env, out, n - 1), SplitKV(out[n - 1]));
      } else {
        UnchangedHalf(env, out, n - 1);
        assert Changed(env, out, n) == Changed(env, out, n - 1) + [] == Changed(env, out, n - 1);
      }
    } else {
      assert Half(env, out, 0) == env;
    }
  }

  lemma UnchangedHalf(env: seq<string>, out: seq<string>, n: nat)
    requires n < |env| == |out| && env[n] == out[n]
    ensures Half(env, out, n + 1) == Half(env, out, n)
  {
  }

  /** A returned adjustment, merged by containerd, yields exactly the substituted
      environment; no placeholder prefix reaches the container, and the adjustment lists
      the changed lines and no others. */
  lemma AdjustmentIsComplete(env: seq<string>, m: Mapping, r: Verdict)
    requires Judged(env, m, r) && r.Adjust?
    requires DistinctKeys(env) && PlainKeys(env)
    ensures var merged := Merge(env, r.added);
      Substituted(env, m, merged) && NoPrefix(merged) && r.added == Changed(env, merged, |env|)
  {
    var out :| Substituted(env, m, out) && r == Judge(env, out);
    SubstitutionKeepsKeys(env, m, out);
    MergedIsOut(env, out);
  }

  lemma MergedIsOut(env: seq<string>, out: seq<string>)
    requires KeysKept(env, out) && DistinctKeys(env)
    ensures Merge(env, Changed(env, out, |env|)) == out
  {
    DistinctIsMergeable(env, out);
    MergeChanged(env, out, |env|);
    assert Half(env, out, |env|) == out;
  }

  /** `Changed` lists one entry for each line that differs. */
  lemma {:induction false} ChangedCount(env: seq<string>, out: seq<string>, n: nat)
    requires n <= |env| == |out|
    ensures |Changed(env, out, n)| == |ChangedLines(env, out, n)|
  {
    if n > 0 {
      ChangedCount(env, out, n - 1);
      ChangedLinesNext(env, out, n - 1);
    }
  }

  lemma ChangedLinesNext(env: seq<string>, out: seq<string>, n: nat)
    requires n < |env| == |out|
    ensures n !in ChangedLines(env, out, n)
    ensures ChangedLines(env, out, n + 1) == ChangedLines(env, out, n) + if env[n] == out[n] then {} else {n}
  {
    forall i ensures i in ChangedLines(env, out, n + 1)
                <==> i in ChangedLines(env, out, n) || (i == n && env[n] != out[n]) {
    }
  }

  ghost function ChangedLines(env: seq<string>, out: seq<string>, n: nat): set<int>
    requires n <= |env| == |out|
  {
    set i | 0 <= i < n && env[i] != out[i]
  }
}
