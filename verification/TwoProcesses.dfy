/** From the webhook's parse to the running container: the mapping the plugin fetches, in a
    process of its own, is the one the delivery results are about.
    (pkg/k8smutator/k8smutator.go, pkg/nri/vault.go, pkg/nri/plugin.go) */
module TwoProcesses {
  import opened Strings
  import opened Sequences
  import opened Substitution
  import opened ContainerHook
  import opened Annotations
  import opened ClassicDelivery
  import opened UriDelivery
  import opened Delivery
  import opened Connectors
  import opened Accounts
  import opened MixedClaims
  import opened MixedDelivery
  import opened CredentialFetch
  import Url

  // ---- The webhook's side ----

  /** The containers once the first `n` configurations have been applied. */
  function InjectedUpTo(containers: seq<Env>, confs: seq<DbConfiguration>, vals: seq<Creds>, n: nat): seq<Env>
    requires n <= |confs| == |vals| && AllBytes(vals)
  {
    seq(|containers|, c requires 0 <= c < |containers| => Joined(containers[c], AllVars(confs, vals), n))
  }

  predicate CanApply(conf: DbConfiguration) {
    ModeOf(conf).Classic? || (ModeOf(conf).Uri? && Url.Parse(conf.template).Some?)
  }

  /** The webhook's loop over the configurations as far as the pod's environment goes: with NRI
      it injects the generated placeholders, without it the credentials. */
  method InjectAll(pod: PodSpec, confs: seq<DbConfiguration>, creds: seq<Creds>, generated: seq<Creds>,
                   nriEnabled: bool) returns (ok: bool)
    requires |confs| == |creds| == |generated| && AllBytes(creds) && AllBytes(generated)
    modifies pod
    ensures ok <==> forall i | 0 <= i < |confs| :: CanApply(confs[i])
    ensures ok ==> var vals := if nriEnabled then generated else creds;
      && pod.initContainers == InjectedPod(old(pod.initContainers), confs, vals)
      && pod.containers == InjectedPod(old(pod.containers), confs, vals)
  {
    ghost var vals, init, main := if nriEnabled then generated else creds, pod.initContainers, pod.containers;
    for n := 0 to |confs|
      invariant forall i | 0 <= i < n :: CanApply(confs[i])
      invariant InjectedSoFar(pod, init, main, confs, vals, n)
    {
      ok := InjectNext(pod, confs[n], creds[n], generated[n], nriEnabled, init, main, confs, vals, n);
      if !ok {
        return;
      }
    }
    return true;
  }

  ghost predicate InjectedSoFar(pod: PodSpec, init: seq<Env>, main: seq<Env>, confs: seq<DbConfiguration>,
                                vals: seq<Creds>, n: nat)
    requires n <= |confs| == |vals| && AllBytes(vals)
    reads pod
  {
    && pod.initContainers == InjectedUpTo(init, confs, vals, n)
    && pod.containers == InjectedUpTo(main, confs, vals, n)
  }

  method InjectNext(pod: PodSpec, conf: DbConfiguration, creds: Creds, generated: Creds, nriEnabled: bool,
                    ghost init: seq<Env>, ghost main: seq<Env>, ghost confs: seq<DbConfiguration>,
                    ghost vals: seq<Creds>, ghost n: nat) returns (ok: bool)
    requires ByteCreds(creds) && ByteCreds(generated)
    requires n < |confs| == |vals| && AllBytes(vals)
    requires conf == confs[n] && vals[n] == if nriEnabled then generated else creds
    requires InjectedSoFar(pod, init, main, confs, vals, n)
    modifies pod
    ensures ok <==> CanApply(conf)
    ensures ok ==> InjectedSoFar(pod, init, main, confs, vals, n + 1)
  {
    AddedExactly(conf, vals[n]);
    InjectedNext(init, confs, vals, n);
    InjectedNext(main, confs, vals, n);
    ok := ApplyEnv(pod, conf, creds, generated, nriEnabled);
  }

  lemma AddedExactly(conf: DbConfiguration, v: Creds)
    requires ByteCreds(v)
    ensures AddedVars(conf, v) == if CanApply(conf) then Some(VarsOf(conf, v)) else None
  {
  }

  lemma InjectedNext(containers: seq<Env>, confs: seq<DbConfiguration>, vals: seq<Creds>, n: nat)
    requires n < |confs| == |vals| && AllBytes(vals)
    ensures Extended(InjectedUpTo(containers, confs, vals, n), VarsOf(confs[n], vals[n]))
         == InjectedUpTo(containers, confs, vals, n + 1)
  {
  }

  // ---- What reaches the plugin ----

  /** The webhook read `confs` off the annotations, and stamps one generated UUID for each. */
  ghost predicate Admits(a: Annotations, confs: seq<DbConfiguration>, uuids: seq<string>) {
    && (forall k | k in a :: !IsV1(k)) && IsParse(a, confs)
    && |uuids| == |confs| > 0 && forall u | u in uuids :: u != "" && ',' !in u
  }

  function Stamped(a: Annotations, uuids: seq<string>): Annotations {
    a[ANNOTATION_VAULT_POD_UUID := Join(uuids, ',')]
  }

  function PodLines(init: seq<Env>, main: seq<Env>, confs: seq<DbConfiguration>, phs: seq<Creds>): seq<string>
    requires |confs| == |phs| && AllBytes(phs)
  {
    AllLines(InjectedPod(init, confs, phs) + InjectedPod(main, confs, phs))
  }

  lemma SameConfs(a: Annotations, confs: seq<DbConfiguration>, uuids: seq<string>, uid: string,
                  plugin: seq<DbConfiguration>)
    requires Admits(a, confs, uuids) && IsParse(Stamped(a, uuids), plugin)
    ensures plugin == confs
    ensures forall i | 0 <= i < |uuids| :: KvKey(Stamped(a, uuids), uid, i) == uuids[i]
  {
    var b := Stamped(a, uuids);
    forall k | k in b ensures !IsV1(k) {
      StampIsNotV1();
    }
    IndexAgreement(a, uid, "", Parsed(confs, DbPath(a, "")), uuids, "", Parsed(plugin, DbPath(b, "")));
  }

  lemma StampIsNotV1()
    ensures !IsV1(ANNOTATION_VAULT_POD_UUID)
  {
  }

  lemma SameMapping(init: seq<Env>, main: seq<Env>, confs: seq<DbConfiguration>, phs: seq<Creds>, answers: Oracle)
    requires |confs| == |phs| && AllBytes(phs)
    ensures MappingUpTo(Items(confs, answers), PodLines(init, main, confs, phs), |confs|)
         == PodMapping(init + main, confs, phs, CredsOf(Items(confs, answers)))
  {
    assert Confs(Items(confs, answers)) == confs;
    InjectedPodConcat(init, main, confs, phs);
  }

  lemma InjectedPodConcat(init: seq<Env>, main: seq<Env>, confs: seq<DbConfiguration>, phs: seq<Creds>)
    requires |confs| == |phs| && AllBytes(phs)
    ensures InjectedPod(init + main, confs, phs) == InjectedPod(init, confs, phs) + InjectedPod(main, confs, phs)
  {
    var whole, first, second := InjectedPod(init + main, confs, phs), InjectedPod(init, confs, phs),
                                InjectedPod(main, confs, phs);
    forall c | 0 <= c < |first| ensures whole[c] == first[c] {
      assert (init + main)[c] == init[c];
    }
    forall c | 0 <= c < |second| ensures whole[|first| + c] == second[c] {
      assert (init + main)[|init| + c] == main[c];
    }
    TwoParts(whole, first, second);
  }

  /** One entry under each stamped UUID, with the token the credential was issued under. */
  ghost predicate RecordsUnder(uuids: seq<string>, projected: bool, items: seq<Item>, added: seq<(string, Token)>)
    requires |uuids| == |items|
  {
    && |added| == |uuids|
    && forall i | 0 <= i < |uuids| ::
      && added[i].0 == uuids[i]
      && Some(added[i].1) == if projected then items[i].replies.login else items[i].replies.orphan
  }

  lemma SuccessRecords(projected: bool, pod: Pod, items: seq<Item>, uuids: seq<string>, lines: seq<string>,
                       r: Option<Mapping>, attempts: seq<Token>, was: Requests, ledger: Ledger)
    requires |uuids| == |items| && Outcome(projected, pod.uid, pod, items, lines, r, attempts, was, ledger) && r.Some?
    requires forall i | 0 <= i < |uuids| :: KvKey(pod.annotations, pod.uid, i) == uuids[i]
    ensures was.stored <= ledger.stored
    ensures RecordsUnder(uuids, projected, items, ledger.stored[|was.stored|..])
  {
    var keys := StampedUuids(pod.annotations, pod.uid);
    ReachedIs(Done(projected, items), |items|);
    JoinedAfter(was.stored, Records(projected, items, keys, pod.uid), |items|);
    RecordsOfAll(projected, items, uuids, keys, pod.uid);
  }

  lemma RecordsOfAll(projected: bool, items: seq<Item>, uuids: seq<string>, keys: seq<string>, uid: string)
    requires AllDone(Done(projected, items)) && |uuids| == |items|
    requires forall i | 0 <= i < |uuids| :: KeyAt(keys, uid, i) == uuids[i]
    ensures RecordsUnder(uuids, projected, items, Joined([], Records(projected, items, keys, uid), |items|))
  {
    SuccessIsRecorded(projected, items, keys, uid, |items|);
    LoginsOfAll(projected, items, |items|);
  }

  /** On success the `i`-th login token is that of the `i`-th configuration. */
  lemma {:induction false} LoginsOfAll(projected: bool, items: seq<Item>, n: nat)
    requires n <= |items| && AllDone(Done(projected, items))
    ensures |SuccessfulLogins(items, n)| == n
    ensures forall i | 0 <= i < n :: Some(SuccessfulLogins(items, n)[i]) == items[i].replies.login
  {
    if n > 0 {
      LoginsOfAll(projected, items, n - 1);
      assert Done(projected, items)[n - 1];
    }
  }

  // ---- The whole way through both processes ----

  /** The webhook parses the annotations, injects placeholders and stamps UUIDs; the plugin, in
      its own process, parses the stamped pod, fetches, and substitutes in container `c`. If
      every configuration wins its fields, the fetch succeeds exactly when every configuration
      goes through; then the container gets the environment with the credentials put in
      as they are, which is the legacy environment if and only if those in URIs need no
      escaping, and each credential is recorded under the UUID the webhook stamped for it.
      Otherwise the container is refused. */
  lemma TwoProcesses(a: Annotations, confs: seq<DbConfiguration>, uuids: seq<string>, phs: seq<Creds>,
                     init: seq<Env>, main: seq<Env>, c: nat,
                     projected: bool, pod: Pod, plugin: seq<DbConfiguration>, answers: Oracle, r: Option<Mapping>,
                     attempts: seq<Token>, was: Requests, ledger: Ledger,
                     podLabel: string, labels: map<string, string>, v: Verdict)
    requires Admits(a, confs, uuids) && pod.annotations == Stamped(a, uuids) && IsParse(pod.annotations, plugin)
    requires var creds := CredsOf(Items(confs, answers));
      Setting(init + main, confs, phs, creds) && EveryFieldWins(confs)
    requires Outcome(projected, pod.uid, pod, Items(plugin, answers), PodLines(init, main, confs, phs),
                     r, attempts, was, ledger)
    requires c < |init + main| && Selected(podLabel, labels)
    requires var env := Lines(Injected((init + main)[c], confs, phs)); DistinctKeys(env) && PlainKeys(env)
    requires FailClosed(podLabel, labels, Lines(Injected((init + main)[c], confs, phs)),
                        if r.Some? then Resolved(r.value) else FetchFailed, v)
    ensures r.Some? <==> forall i | 0 <= i < |confs| :: GoesThrough(projected, Items(confs, answers)[i])
    ensures r.None? ==> v == Refuse(FetchError)
    ensures r.Some? ==>
      var creds := CredsOf(Items(confs, answers));
      var merged := Merge(Lines(Injected((init + main)[c], confs, phs)), if v.Adjust? then v.added else []);
      && v.Adjust? && merged == RawEnv((init + main)[c], confs, creds)
      && (merged == Lines(Injected((init + main)[c], confs, creds)) <==> AllFit(confs, creds))
    ensures r.Some? ==>
      && was.stored <= ledger.stored
      && RecordsUnder(uuids, projected, Items(confs, answers), ledger.stored[|was.stored|..])
  {
    var items := Items(confs, answers);
    var creds := CredsOf(items);
    SameConfs(a, confs, uuids, pod.uid, plugin);
    SameMapping(init, main, confs, phs, answers);
    OutcomeSpelledOut(projected, pod.uid, pod, items, PodLines(init, main, confs, phs), r, attempts, was, ledger);
    SomeMapping(init + main, confs, phs, creds);
    InjectionIsSeen((init + main)[c], confs, phs);
    if r.Some? {
      MixedEndToEnd(init + main, confs, phs, creds, c, podLabel, labels, v);
      SuccessRecords(projected, pod, items, uuids, PodLines(init, main, confs, phs), r, attempts, was, ledger);
    }
  }

  lemma SomeMapping(containers: seq<Env>, confs: seq<DbConfiguration>, phs: seq<Creds>, creds: seq<Creds>)
    requires Setting(containers, confs, phs, creds) && containers != [] && confs != [] && EveryFieldWins(confs)
    ensures PodMapping(containers, confs, phs, creds) != map[]
  {
    assert FieldWinner(confs, 0, Username) == Some((0, Username));
    MappingHasWinner(containers, confs, phs, creds, 0, Username);
  }
}
