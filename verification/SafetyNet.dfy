/** Who may lose a credential, and when: the plugin's fetches, the webhook's admissions, the
    asynchronous KV writes, the revoker (safety-net pass and Deleted events) and the renewer,
    in any interleaving with each other and with the Kubernetes API, any call failing.
    (pkg/revoker/revoker.go, pkg/renewer/renewer.go, pkg/vault/handle_token.go,
    pkg/nri/vault.go, pkg/k8s/pod_utils.go)

    Labels and annotations of a pod do not change, and UIDs are never reused. A lease dies
    with the token it was issued under, so tokens stand for both. */
module SafetyNet {
  import opened Strings
  import opened Annotations

  type Token = string
  type Entry = (string, Token)

  /** Whose credential a token carries, and the KV key it is recorded under. */
  datatype Issue = Issue(pod: Pod, key: string)

  datatype JobPhase = ToRevoke | ToDeleteData | ToDeleteMetadata

  /** One HandlePodDeletionToken call of the revoker, at its next Vault request. */
  datatype Job = Job(key: string, token: Token, phase: JobPhase)

  datatype World = World(
    api: set<Pod>,                // pods in the API
    born: set<Pod>,               // pods that were ever in the API
    seen: set<Pod>,              // pods a plugin fetch has read from the API
    issued: map<Token, Issue>,
    live: set<Token>,
    stores: set<Entry>,           // KV writes in flight
    kv: map<string, Token>,
    found: set<Entry>,            // what the running safety-net pass has read from KV
    jobs: set<Job>,
    renewals: set<Entry>,         // what the running renewer cycle has read from KV
    revoked: set<Token>)          // tokens the revoker has revoked

  /** How the system is set up: `nri` for delivery by the plugin, and whether KV keys are
      unique to a pod, as generated UUIDs are. */
  datatype Setting = Setting(nri: bool, uniqueKeys: bool)

  datatype Step =
    | Create(p: Pod) | Delete(p: Pod)
    | Read(p: Pod)                           // the plugin gets the pod, with matching UID
    | Fetch(p: Pod, i: nat, t: Token)        // the plugin's credential for the i-th dbConfig
    | Admit(p: Pod, key: string, t: Token)   // the webhook's credential, before the pod exists
    | Store(e: Entry) | StoreFail(e: Entry)
    | Expire(t: Token)
    | ListEntry(k: string) | ListPods        // safety net: KV key by key, then the pods
    | Watch(p: Pod, k: string)               // Deleted event
    | Revoke(j: Job) | DeleteData(j: Job) | DeleteMetadata(j: Job) | GiveUp(j: Job)
    | RenewEntry(k: string) | RenewerStore(e: Entry) | RenewerRevoke(e: Entry) | RenewerDelete(e: Entry)

  function Reported(p: Pod): set<string> {
    set k | k in ReportedUuids(p.annotations, p.uid)
  }

  /** The keys the Deleted-event loop looks at: a present but empty annotation counts here. */
  function Watched(p: Pod): set<string> {
    if ANNOTATION_VAULT_POD_UUID in p.annotations
    then set k | k in Split(p.annotations[ANNOTATION_VAULT_POD_UUID], ',') else {}
  }

  function KeysOf(p: Pod): set<string> { Reported(p) + Watched(p) }

  /** The UUIDs of all pods in the API. */
  function Uuids(api: set<Pod>): set<string> {
    set p, k | p in api && k in Reported(p) :: k
  }

  predicate Enabled(cfg: Setting, s: World, step: Step) {
    match step
    case Create(p) =>
      && (forall q | q in s.born :: q.uid != p.uid)
      && (cfg.uniqueKeys ==> forall q | q in s.born :: KeysOf(q) !! KeysOf(p))
    case Delete(p) => p in s.api
    case Read(p) => cfg.nri && p in s.api
    case Fetch(p, _, t) => cfg.nri && p in s.seen && t !in s.issued
    case Admit(p, key, t) => !cfg.nri && p !in s.born && key in Reported(p) && t !in s.issued
    case Store(e) => e in s.stores
    case StoreFail(e) => e in s.stores
    case Expire(t) => t in s.live
    case ListEntry(k) => k in s.kv
    case ListPods => true
    case Watch(p, k) => p in s.born - s.api && k in Watched(p) && k in s.kv
    case Revoke(j) => j in s.jobs && j.phase == ToRevoke
    case DeleteData(j) => j in s.jobs && j.phase == ToDeleteData
    case DeleteMetadata(j) => j in s.jobs && j.phase == ToDeleteMetadata
    case GiveUp(j) => j in s.jobs
    case RenewEntry(k) => k in s.kv
    case RenewerStore(e) => e in s.renewals
    case RenewerRevoke(e) => e in s.renewals
    case RenewerDelete(e) => e in s.renewals
  }

  function Orphans(found: set<Entry>, api: set<Pod>): set<Job> {
    set e | e in found && e.0 !in Uuids(api) :: Job(e.0, e.1, ToRevoke)
  }

  function Issued(s: World, p: Pod, key: string, t: Token): World {
    s.(issued := s.issued[t := Issue(p, key)], live := s.live + {t}, stores := s.stores + {(key, t)})
  }

  function Apply(s: World, step: Step): World
    requires step.ListEntry? ==> step.k in s.kv
    requires step.RenewEntry? ==> step.k in s.kv
    requires step.Watch? ==> step.k in s.kv
  {
    match step
    case Create(p) => s.(api := s.api + {p}, born := s.born + {p})
    case Delete(p) => s.(api := s.api - {p})
    case Read(p) => s.(seen := s.seen + {p})
    case Fetch(p, i, t) => Issued(s, p, KvKey(p.annotations, p.uid, i), t)
    case Admit(p, key, t) => Issued(s, p, key, t)
    case Store(e) => s.(kv := s.kv[e.0 := e.1], stores := s.stores - {e})
    case StoreFail(e) => s.(stores := s.stores - {e})
    case Expire(t) => s.(live := s.live - {t})
    case ListEntry(k) => s.(found := s.found + {(k, s.kv[k])})
    case ListPods =>
      // an empty listing of pods is an error and ends the pass
      s.(found := {}, jobs := if s.api == {} then s.jobs else s.jobs + Orphans(s.found, s.api))
    case Watch(p, k) => s.(jobs := s.jobs + {Job(k, s.kv[k], ToRevoke)})
    case Revoke(j) =>
      s.(live := s.live - {j.token}, revoked := s.revoked + {j.token},
         jobs := s.jobs - {j} + {j.(phase := ToDeleteData)})
    case DeleteData(j) => s.(kv := s.kv - {j.key}, jobs := s.jobs - {j} + {j.(phase := ToDeleteMetadata)})
    case DeleteMetadata(j) => s.(kv := s.kv - {j.key}, jobs := s.jobs - {j})
    case GiveUp(j) => s.(jobs := s.jobs - {j})
    case RenewEntry(k) => s.(renewals := s.renewals + {(k, s.kv[k])})
    case RenewerStore(e) => s.(kv := s.kv[e.0 := e.1])
    case RenewerRevoke(e) => s.(live := s.live - {e.1})
    case RenewerDelete(e) => s.(kv := s.kv - {e.0})
  }

  function Start(): World {
    World({}, {}, {}, map[], {}, {}, map[], {}, {}, {}, {})
  }

  /** The step takes `s` to `next`. */
  ghost predicate Next(cfg: Setting, s: World, step: Step, next: World) {
    Enabled(cfg, s, step) && next == Apply(s, step)
  }

  /** `states` are the states that `steps` go through. */
  ghost predicate Path(cfg: Setting, states: seq<World>, steps: seq<Step>) {
    && |states| == |steps| + 1
    && forall i | 0 <= i < |steps| :: Next(cfg, states[i], steps[i], states[i + 1])
  }

  /** A run from the beginning. */
  ghost predicate Behaviour(cfg: Setting, states: seq<World>, steps: seq<Step>) {
    Path(cfg, states, steps) && states[0] == Start()
  }

  type Trace = (seq<World>, seq<Step>)

  /** A behaviour with one more step. */
  lemma Then(cfg: Setting, run: Trace, step: Step) returns (longer: Trace, s: World)
    requires Behaviour(cfg, run.0, run.1) && Enabled(cfg, run.0[|run.1|], step)
    ensures Behaviour(cfg, longer.0, longer.1) && longer.1 == run.1 + [step]
    ensures s == Apply(run.0[|run.1|], step) == longer.0[|longer.1|]
    ensures longer.0[|run.1|] == run.0[|run.1|]
  {
    s := Apply(run.0[|run.1|], step);
    longer := (run.0 + [s], run.1 + [step]);
  }

  /** A path with one step before it. */
  lemma StepFirst(cfg: Setting, s: World, step: Step, states: seq<World>, steps: seq<Step>)
    requires Enabled(cfg, s, step) && Path(cfg, states, steps) && states[0] == Apply(s, step)
    ensures Path(cfg, [s] + states, [step] + steps)
  {
    var longer, taken := [s] + states, [step] + steps;
    forall i | 0 <= i < |taken| ensures Next(cfg, longer[i], taken[i], longer[i + 1]) {
      if i > 0 {
        assert Next(cfg, states[i - 1], steps[i - 1], states[i]);
      }
    }
  }

  // ---- What holds in every setting ----

  predicate IssuedAs(s: World, k: string, t: Token) {
    t in s.issued && s.issued[t].key == k
  }

  /** Wherever an entry is held, its token was issued for its key. */
  ghost predicate EntriesAreIssued(s: World) {
    && (forall e | e in s.stores :: IssuedAs(s, e.0, e.1))
    && (forall k | k in s.kv :: IssuedAs(s, k, s.kv[k]))
    && (forall e | e in s.found :: IssuedAs(s, e.0, e.1))
    && (forall j | j in s.jobs :: IssuedAs(s, j.key, j.token))
    && (forall e | e in s.renewals :: IssuedAs(s, e.0, e.1))
    && s.revoked <= s.issued.Keys && s.live <= s.issued.Keys
  }

  /** The revoker deletes an entry only after its token is dead. */
  ghost predicate DeadBeforeDelete(s: World) {
    && (forall j | j in s.jobs && j.phase != ToRevoke :: j.token !in s.live)
    && s.revoked !! s.live
  }

  ghost predicate Bookkeeping(s: World) {
    && s.api <= s.born
    && EntriesAreIssued(s)
    && DeadBeforeDelete(s)
  }

  lemma StaysIssued(cfg: Setting, s: World, step: Step)
    requires EntriesAreIssued(s) && Enabled(cfg, s, step)
    ensures forall k, x | IssuedAs(s, k, x) :: IssuedAs(Apply(s, step), k, x)
    ensures Apply(s, step).revoked <= Apply(s, step).issued.Keys && Apply(s, step).live <= Apply(s, step).issued.Keys
  {
  }

  lemma KvStaysIssued(cfg: Setting, s: World, step: Step)
    requires EntriesAreIssued(s) && Enabled(cfg, s, step)
    ensures var t := Apply(s, step);
      (forall k | k in t.kv :: IssuedAs(t, k, t.kv[k])) && (forall e | e in t.stores :: IssuedAs(t, e.0, e.1))
  {
    StaysIssued(cfg, s, step);
  }

  lemma ReadingsStayIssued(cfg: Setting, s: World, step: Step)
    requires EntriesAreIssued(s) && Enabled(cfg, s, step)
    ensures var t := Apply(s, step);
      (forall e | e in t.found :: IssuedAs(t, e.0, e.1)) && (forall e | e in t.renewals :: IssuedAs(t, e.0, e.1))
  {
    StaysIssued(cfg, s, step);
  }

  lemma JobsStayIssued(cfg: Setting, s: World, step: Step)
    requires EntriesAreIssued(s) && Enabled(cfg, s, step)
    ensures forall j | j in Apply(s, step).jobs :: IssuedAs(Apply(s, step), j.key, j.token)
  {
    StaysIssued(cfg, s, step);
  }

  lemma EntriesStayIssued(cfg: Setting, s: World, step: Step)
    requires EntriesAreIssued(s) && Enabled(cfg, s, step)
    ensures EntriesAreIssued(Apply(s, step))
  {
    StaysIssued(cfg, s, step);
    KvStaysIssued(cfg, s, step);
    ReadingsStayIssued(cfg, s, step);
    JobsStayIssued(cfg, s, step);
  }

  lemma DeadStayDead(cfg: Setting, s: World, step: Step)
    requires EntriesAreIssued(s) && DeadBeforeDelete(s) && Enabled(cfg, s, step)
    ensures DeadBeforeDelete(Apply(s, step))
  {
  }

  lemma BookkeepingKept(cfg: Setting, s: World, step: Step)
    requires Bookkeeping(s) && Enabled(cfg, s, step)
    ensures Bookkeeping(Apply(s, step))
  {
    EntriesStayIssued(cfg, s, step);
    DeadStayDead(cfg, s, step);
  }

  // ---- Safety of running pods ----

  /** In NRI mode a token is only ever issued for a pod that was in the API, under a key
      that is reported for the pod. */
  ghost predicate IssuedForPods(s: World) {
    && s.seen <= s.born
    && forall t | t in s.issued :: s.issued[t].pod in s.born && s.issued[t].key in Reported(s.issued[t].pod)
  }

  predicate Gone(s: World, t: Token) {
    t in s.issued && s.issued[t].pod in s.born && s.issued[t].pod !in s.api
  }

  ghost predicate OnlyGoneAreRevoked(s: World) {
    && (forall j | j in s.jobs :: Gone(s, j.token))
    && (forall t | t in s.revoked :: Gone(s, t))
  }

  ghost predicate Unique(born: set<Pod>) {
    forall p, q | p in born && q in born && p != q :: KeysOf(p) !! KeysOf(q)
  }

  lemma IssuedForPodsKept(cfg: Setting, s: World, step: Step)
    requires cfg.nri && s.api <= s.born && IssuedForPods(s) && Enabled(cfg, s, step)
    ensures IssuedForPods(Apply(s, step))
  {
    if step.Fetch? {
      KvKeyIsReported(step.p.annotations, step.p.uid, step.i);
    }
  }

  /** A pod that is gone stays gone, whatever happens. */
  lemma GoneStaysGone(cfg: Setting, s: World, step: Step, t: Token)
    requires Enabled(cfg, s, step) && Gone(s, t)
    ensures Gone(Apply(s, step), t)
  {
  }

  lemma OrphansAreGone(s: World, j: Job)
    requires EntriesAreIssued(s) && IssuedForPods(s) && j in Orphans(s.found, s.api)
    ensures Gone(s, j.token)
  {
    var p := s.issued[j.token].pod;
    assert p in s.api ==> j.key in Uuids(s.api);
  }

  /** The pod of an entry read on a Deleted event is the deleted pod, when keys are unique. */
  lemma WatchedAreGone(s: World, p: Pod, k: string)
    requires EntriesAreIssued(s) && IssuedForPods(s) && Unique(s.born)
    requires p in s.born - s.api && k in Watched(p) && k in s.kv
    ensures Gone(s, s.kv[k])
  {
    var q := s.issued[s.kv[k]].pod;
    assert k in KeysOf(p) && k in KeysOf(q);
    assert p != q ==> KeysOf(p) !! KeysOf(q);
  }

  lemma OnlyGoneAreRevokedKept(cfg: Setting, s: World, step: Step)
    requires Bookkeeping(s) && IssuedForPods(s) && OnlyGoneAreRevoked(s) && Enabled(cfg, s, step)
    requires step.Watch? ==> Unique(s.born)
    ensures OnlyGoneAreRevoked(Apply(s, step))
  {
    forall j | j in Apply(s, step).jobs ensures Gone(Apply(s, step), j.token) {
      JobsAreGone(cfg, s, step, j);
      GoneStaysGone(cfg, s, step, j.token);
    }
    forall t | t in Apply(s, step).revoked ensures Gone(Apply(s, step), t) {
      assert t in s.revoked || (step.Revoke? && step.j.token == t);
      GoneStaysGone(cfg, s, step, t);
    }
  }

  /** The pod of a job in the next state is gone already. */
  lemma JobsAreGone(cfg: Setting, s: World, step: Step, j: Job)
    requires Bookkeeping(s) && IssuedForPods(s) && OnlyGoneAreRevoked(s) && Enabled(cfg, s, step)
    requires step.Watch? ==> Unique(s.born)
    requires j in Apply(s, step).jobs
    ensures Gone(s, j.token)
  {
    if step.ListPods? && j !in s.jobs {
      OrphansAreGone(s, j);
    }
    if step.Watch? {
      WatchedAreGone(s, step.p, step.k);
    }
  }

  ghost predicate Safe(cfg: Setting, s: World) {
    && Bookkeeping(s) && IssuedForPods(s) && OnlyGoneAreRevoked(s)
    && (cfg.uniqueKeys ==> Unique(s.born))
  }

  lemma {:induction false} SafeThroughout(cfg: Setting, states: seq<World>, steps: seq<Step>, n: nat)
    requires cfg.nri && Behaviour(cfg, states, steps) && n <= |steps|
    requires cfg.uniqueKeys || forall step | step in steps :: !step.Watch?
    ensures Safe(cfg, states[n])
  {
    if n > 0 {
      SafeThroughout(cfg, states, steps, n - 1);
      assert steps[n - 1] in steps;
      assert Next(cfg, states[n - 1], steps[n - 1], states[n]);
      SafeKept(cfg, states[n - 1], steps[n - 1]);
    }
  }

  lemma SafeKept(cfg: Setting, s: World, step: Step)
    requires cfg.nri && Safe(cfg, s) && Enabled(cfg, s, step) && (cfg.uniqueKeys || !step.Watch?)
    ensures Safe(cfg, Apply(s, step))
  {
    BookkeepingKept(cfg, s, step);
    IssuedForPodsKept(cfg, s, step);
    OnlyGoneAreRevokedKept(cfg, s, step);
    UniqueKept(cfg, s, step);
  }

  lemma UniqueKept(cfg: Setting, s: World, step: Step)
    requires cfg.uniqueKeys && Unique(s.born) ==> Enabled(cfg, s, step)
    ensures cfg.uniqueKeys && Unique(s.born) ==> Unique(Apply(s, step).born)
  {
  }

  lemma {:induction false} RevokedForGood(cfg: Setting, states: seq<World>, steps: seq<Step>, m: nat, n: nat)
    requires Behaviour(cfg, states, steps) && m <= n <= |steps|
    ensures states[m].revoked <= states[n].revoked
    ensures forall t | t in states[m].issued :: t in states[n].issued && states[n].issued[t] == states[m].issued[t]
  {
    if m < n {
      RevokedForGood(cfg, states, steps, m, n - 1);
      assert Next(cfg, states[n - 1], steps[n - 1], states[n]);
      NothingForgotten(cfg, states[n - 1], steps[n - 1]);
    }
  }

  lemma NothingForgotten(cfg: Setting, s: World, step: Step)
    requires Enabled(cfg, s, step)
    ensures s.revoked <= Apply(s, step).revoked
    ensures forall t | t in s.issued :: t in Apply(s, step).issued && Apply(s, step).issued[t] == s.issued[t]
  {
  }

  /** Over any run: a pod that is gone never comes back. */
  lemma {:induction false} GoneForGood(cfg: Setting, states: seq<World>, steps: seq<Step>, m: nat, n: nat, p: Pod)
    requires Behaviour(cfg, states, steps) && m <= n <= |steps| && p in states[m].born - states[m].api
    ensures p in states[n].born - states[n].api
  {
    if m < n {
      GoneForGood(cfg, states, steps, m, n - 1, p);
      PodStaysGone(cfg, states[n - 1], steps[n - 1], states[n], p);
    }
  }

  lemma PodStaysGone(cfg: Setting, s: World, step: Step, next: World, p: Pod)
    requires Next(cfg, s, step, next) && p in s.born - s.api
    ensures p in next.born - next.api
  {
  }

  /** The main safety result. In NRI mode the revoker never revokes a credential of a pod
      that is in the API at that time or at any later time, in any interleaving with fetches,
      asynchronous stores, the renewer and pod deletions, whatever calls fail. */
  lemma NriSafety(cfg: Setting, states: seq<World>, steps: seq<Step>, m: nat, n: nat, t: Token)
    requires cfg.nri && cfg.uniqueKeys && Behaviour(cfg, states, steps) && m <= n <= |steps|
    requires t in states[m].revoked
    ensures t in states[m].issued && states[m].issued[t].pod !in states[n].api
  {
    SafeThroughout(cfg, states, steps, m);
    SafeThroughout(cfg, states, steps, n);
    RevokedForGood(cfg, states, steps, m, n);
  }

  /** The safety-net pass alone does not even need keys that are unique to a pod; only the
      Deleted-event loop does. */
  lemma PassNeedsNoUniqueKeys(cfg: Setting, states: seq<World>, steps: seq<Step>, m: nat, n: nat, t: Token)
    requires cfg.nri && Behaviour(cfg, states, steps) && m <= n <= |steps|
    requires forall step | step in steps :: !step.Watch?
    requires t in states[m].revoked
    ensures t in states[m].issued && states[m].issued[t].pod !in states[n].api
  {
    SafeThroughout(cfg, states, steps, m);
    SafeThroughout(cfg, states, steps, n);
    RevokedForGood(cfg, states, steps, m, n);
  }

  // ---- Runs ----

  /** One whole listing by the revoker, with `other` the only pod. */
  lemma PassListed(cfg: Setting, run: Trace, other: Pod, key: string, t: Token) returns (longer: Trace, s: World)
    requires Behaviour(cfg, run.0, run.1)
    requires var was := run.0[|run.1|]; was.api == {other} && key !in KeysOf(other) && was.kv == map[key := t]
    ensures Behaviour(cfg, longer.0, longer.1) && s == longer.0[|longer.1|]
    ensures var was := run.0[|run.1|];
      exists jobs :: Job(key, t, ToRevoke) in jobs && s == was.(found := {}, jobs := jobs)
  {
    var listed;
    longer, listed := Then(cfg, run, ListEntry(key));
    NotReportedByOther(listed, other, key);
    assert (key, t) in listed.found;
    longer, s := Then(cfg, longer, ListPods);
    assert Job(key, t, ToRevoke) in s.jobs;
  }

  lemma NotReportedByOther(s: World, other: Pod, key: string)
    requires s.api == {other} && key !in KeysOf(other)
    ensures key !in Uuids(s.api)
  {
  }

  // ---- No live token loses its record ----

  predicate Holds(s: World, k: string, t: Token) { k in s.kv && s.kv[k] == t }

  predicate Tracked(s: World, t: Token) {
    t in s.issued && Holds(s, s.issued[t].key, t)
  }

  /** The record of a live token goes away in this step. */
  predicate Untracks(cfg: Setting, s: World, step: Step, t: Token) {
    Enabled(cfg, s, step) && Tracked(s, t) && !Tracked(Apply(s, step), t) && t in Apply(s, step).live
  }

  /** Exactly the steps that can cost a live token its record: a store of another token under
      its key (by the plugin's asynchronous write or by the renewer), the renewer's purge,
      or a deletion the revoker started for another token that had the key before. */
  lemma WhatUntracks(cfg: Setting, s: World, step: Step, t: Token)
    requires Bookkeeping(s) && Enabled(cfg, s, step) && Tracked(s, t) && t in s.live
    ensures Untracks(cfg, s, step, t) <==>
      match step
      case Store(e) => e.0 == s.issued[t].key && e.1 != t
      case RenewerStore(e) => e.0 == s.issued[t].key && e.1 != t
      case RenewerDelete(e) => e.0 == s.issued[t].key
      case DeleteData(j) => j.key == s.issued[t].key && j.token != t
      case DeleteMetadata(j) => j.key == s.issued[t].key && j.token != t
      case _ => false
  {
  }

  lemma {:induction false} BookkeepingThroughout(cfg: Setting, states: seq<World>, steps: seq<Step>, n: nat)
    requires Behaviour(cfg, states, steps) && n <= |steps|
    ensures Bookkeeping(states[n])
  {
    if n > 0 {
      BookkeepingThroughout(cfg, states, steps, n - 1);
      assert Next(cfg, states[n - 1], steps[n - 1], states[n]);
      BookkeepingKept(cfg, states[n - 1], steps[n - 1]);
    }
  }

  // ---- When the revoker's own deletions cost a live token its record ----

  /** At step `m` the revoker reads the entry `(k, x)`, in a pass or on a Deleted event. */
  predicate ReadsEntry(s: World, step: Step, k: string, x: Token) {
    && (step == ListEntry(k) || (step.Watch? && step.k == k))
    && Holds(s, k, x)
  }

  predicate StoresEntry(step: Step, k: string, t: Token) {
    step == Store((k, t)) || step == RenewerStore((k, t))
  }

  /** The step puts or deletes the entry under `k`. */
  predicate Writes(step: Step, k: string) {
    match step
    case Store(e) => e.0 == k
    case RenewerStore(e) => e.0 == k
    case RenewerDelete(e) => e.0 == k
    case DeleteData(j) => j.key == k
    case DeleteMetadata(j) => j.key == k
    case _ => false
  }

  ghost predicate WasRead(states: seq<World>, steps: seq<Step>, n: nat, k: string, x: Token)
    requires n <= |steps| && |states| == |steps| + 1
  {
    exists m :: 0 <= m < n && ReadsEntry(states[m], steps[m], k, x)
  }

  lemma WasReadLater(states: seq<World>, steps: seq<Step>, n: nat, k: string, x: Token)
    requires n < |steps| && |states| == |steps| + 1
    requires WasRead(states, steps, n, k, x) || ReadsEntry(states[n], steps[n], k, x)
    ensures WasRead(states, steps, n + 1, k, x)
  {
  }

  /** Whatever the revoker works on, it has read. */
  lemma {:induction false} WorkWasRead(cfg: Setting, states: seq<World>, steps: seq<Step>, n: nat)
    requires Behaviour(cfg, states, steps) && n <= |steps|
    ensures forall e | e in states[n].found :: WasRead(states, steps, n, e.0, e.1)
    ensures forall j | j in states[n].jobs :: WasRead(states, steps, n, j.key, j.token)
  {
    if n > 0 {
      WorkWasRead(cfg, states, steps, n - 1);
      var s, step := states[n - 1], steps[n - 1];
      assert Next(cfg, s, step, states[n]);
      forall e | e in states[n].found ensures WasRead(states, steps, n, e.0, e.1) {
        WasReadLater(states, steps, n - 1, e.0, e.1);
      }
      forall j | j in states[n].jobs ensures WasRead(states, steps, n, j.key, j.token) {
        NewJobs(cfg, s, step, j);
        WasReadLater(states, steps, n - 1, j.key, j.token);
      }
    }
  }

  /** A job in the next state was there in an earlier phase, or comes from the listing, or is
      read in this step. */
  lemma NewJobs(cfg: Setting, s: World, step: Step, j: Job)
    requires Enabled(cfg, s, step) && j in Apply(s, step).jobs
    ensures (exists i :: i in s.jobs && i.key == j.key && i.token == j.token)
      || (j.key, j.token) in s.found || ReadsEntry(s, step, j.key, j.token)
  {
  }

  /** Step `i` stores the entry `(k, t)`, and no later step before `n` writes the key. */
  predicate StoredAndKept(steps: seq<Step>, i: nat, n: nat, k: string, t: Token)
    requires n <= |steps|
  {
    i < n && StoresEntry(steps[i], k, t) && forall l | i < l < n :: !Writes(steps[l], k)
  }

  /** What a step does to a key. */
  lemma WrittenOrNot(cfg: Setting, s: World, step: Step, k: string, t: Token)
    requires Enabled(cfg, s, step)
    ensures !Writes(step, k) ==> (Holds(Apply(s, step), k, t) <==> Holds(s, k, t))
    ensures Writes(step, k) ==> (Holds(Apply(s, step), k, t) <==> StoresEntry(step, k, t))
  {
  }

  /** The last step before `n` that writes the key, when the entry has come to be `t`. */
  lemma {:induction false} LastWriter(cfg: Setting, states: seq<World>, steps: seq<Step>, m: nat, n: nat, k: string,
                                      t: Token)
      returns (i: nat)
    requires Behaviour(cfg, states, steps) && m <= n <= |steps|
    requires Holds(states[n], k, t) && !Holds(states[m], k, t)
    ensures m <= i && StoredAndKept(steps, i, n, k, t)
  {
    assert m < n;
    assert Next(cfg, states[n - 1], steps[n - 1], states[n]);
    WrittenOrNot(cfg, states[n - 1], steps[n - 1], k, t);
    if Writes(steps[n - 1], k) {
      i := n - 1;
    } else {
      i := LastWriter(cfg, states, steps, m, n - 1, k, t);
    }
  }

  lemma {:induction false} Unwritten(cfg: Setting, states: seq<World>, steps: seq<Step>, i: nat, n: nat, k: string,
                                     t: Token)
    requires Behaviour(cfg, states, steps) && n <= |steps| && StoredAndKept(steps, i, n, k, t)
    ensures Holds(states[n], k, t)
    decreases n
  {
    assert Next(cfg, states[n - 1], steps[n - 1], states[n]);
    WrittenOrNot(cfg, states[n - 1], steps[n - 1], k, t);
    if i < n - 1 {
      Unwritten(cfg, states, steps, i, n - 1, k, t);
    }
  }

  /** The revoker read the entry of the job, and after that `t` was stored under the job's key
      and not written over before step `n`. */
  ghost predicate StoredSinceRead(states: seq<World>, steps: seq<Step>, n: nat, j: Job, t: Token)
    requires n <= |steps| && |states| == |steps| + 1
  {
    exists m, i: nat ::
      0 <= m < i < n && ReadsEntry(states[m], steps[m], j.key, j.token) && StoredAndKept(steps, i, n, j.key, t)
  }

  lemma LossNeedsAStore(cfg: Setting, states: seq<World>, steps: seq<Step>, n: nat, j: Job, t: Token)
    requires Behaviour(cfg, states, steps) && n <= |steps| && j in states[n].jobs && j.token != t
    requires Holds(states[n], j.key, t)
    ensures StoredSinceRead(states, steps, n, j, t)
  {
    WorkWasRead(cfg, states, steps, n);
    assert WasRead(states, steps, n, j.key, j.token);
    var m :| 0 <= m < n && ReadsEntry(states[m], steps[m], j.key, j.token);
    var i := LastWriter(cfg, states, steps, m, n, j.key, t);
    assert m != i;
  }

  lemma StoreMakesLoss(cfg: Setting, states: seq<World>, steps: seq<Step>, n: nat, j: Job, t: Token)
    requires Behaviour(cfg, states, steps) && n <= |steps| && StoredSinceRead(states, steps, n, j, t)
    ensures Holds(states[n], j.key, t)
  {
    var m, i: nat :|
      0 <= m < i < n && ReadsEntry(states[m], steps[m], j.key, j.token) && StoredAndKept(steps, i, n, j.key, t);
    Unwritten(cfg, states, steps, i, n, j.key, t);
  }

  /** In any setting and any run: when the revoker deletes an entry, the token it has read is
      dead; and the deletion costs a live token its record if and only if that token was
      stored under the key after the revoker's read, with no later write of the key. */
  lemma RevokerDeletes(cfg: Setting, states: seq<World>, steps: seq<Step>, n: nat, t: Token)
    requires Behaviour(cfg, states, steps) && n < |steps|
    requires (steps[n].DeleteData? || steps[n].DeleteMetadata?) && t in states[n].live
    ensures steps[n].j.token !in states[n].live
    ensures Untracks(cfg, states[n], steps[n], t) <==> StoredSinceRead(states, steps, n, steps[n].j, t)
  {
    BookkeepingThroughout(cfg, states, steps, n);
    assert Next(cfg, states[n], steps[n], states[n + 1]);
    if Untracks(cfg, states[n], steps[n], t) {
      LossNeedsAStore(cfg, states, steps, n, steps[n].j, t);
    }
    if StoredSinceRead(states, steps, n, steps[n].j, t) {
      StoreMakesLoss(cfg, states, steps, n, steps[n].j, t);
    }
  }

  /** Each KV key is used for one token only. */
  ghost predicate KeysUsedOnce(s: World) {
    forall t, u | t in s.issued && u in s.issued && s.issued[t].key == s.issued[u].key :: t == u
  }

  /** If no key is used for a second token, only the renewer's purge can cost a live token its
      record: never the revoker, never a store. */
  lemma KeysUsedOnceSuffices(cfg: Setting, states: seq<World>, steps: seq<Step>, n: nat, t: Token)
    requires Behaviour(cfg, states, steps) && n < |steps|
    requires KeysUsedOnce(states[n]) && Untracks(cfg, states[n], steps[n], t)
    ensures steps[n].RenewerDelete? && steps[n].e == (states[n].issued[t].key, t)
  {
    BookkeepingThroughout(cfg, states, steps, n);
    assert Next(cfg, states[n], steps[n], states[n + 1]);
  }

  /** The purge can: after reading an entry the renewer can delete it while its token is live. */
  lemma PurgeCanUntrack(cfg: Setting, s: World, t: Token) returns (states: seq<World>, steps: seq<Step>)
    requires Tracked(s, t) && t in s.live
    ensures Path(cfg, states, steps) && states[0] == s && steps != []
    ensures Untracks(cfg, states[|steps| - 1], steps[|steps| - 1], t) && steps[|steps| - 1].RenewerDelete?
  {
    var k := s.issued[t].key;
    var s1 := Apply(s, RenewEntry(k));
    steps := [RenewEntry(k), RenewerDelete((k, t))];
    states := [s, s1, Apply(s1, steps[1])];
  }

  /** A live token that had its record at one moment and has none at a later one lost it at a
      step in between. */
  lemma {:induction false} LossHasAStep(cfg: Setting, states: seq<World>, steps: seq<Step>, m: nat, n: nat, t: Token)
      returns (i: nat)
    requires Behaviour(cfg, states, steps) && m <= n <= |steps|
    requires Tracked(states[m], t) && t in states[n].live && !Tracked(states[n], t)
    ensures m <= i < n && Untracks(cfg, states[i], steps[i], t)
    decreases n - m
  {
    assert m < n;
    assert Next(cfg, states[m], steps[m], states[m + 1]);
    if Tracked(states[m + 1], t) {
      i := LossHasAStep(cfg, states, steps, m + 1, n, t);
    } else {
      RevokedForGood(cfg, states, steps, m, m);
      DeadStaysDead(cfg, states, steps, m + 1, n, t);
      i := m;
    }
  }

  lemma {:induction false} DeadStaysDead(cfg: Setting, states: seq<World>, steps: seq<Step>, m: nat, n: nat, t: Token)
    requires Behaviour(cfg, states, steps) && m <= n <= |steps|
    requires t in states[m].issued && t in states[n].live
    ensures t in states[m].live
    decreases n - m
  {
    if m < n {
      assert Next(cfg, states[m], steps[m], states[m + 1]);
      DeadStaysDead(cfg, states, steps, m + 1, n, t);
    }
  }

  /** The condition is needed. A pod is fetched for twice under one key; the second store
      lands after the revoker has read the entry of the first and before it deletes the key:
      the second token is live and nothing records it. */
  lemma RevokerCanUntrack(p: Pod, other: Pod, t1: Token, t2: Token) returns (states: seq<World>, steps: seq<Step>)
    requires p.uid != other.uid && KeysOf(p) !! KeysOf(other) && t1 != t2
    ensures Behaviour(Setting(true, true), states, steps) && steps != []
    ensures Untracks(Setting(true, true), states[|steps| - 1], steps[|steps| - 1], t2)
    ensures steps[|steps| - 1].DeleteData?
  {
    var cfg, key := Setting(true, true), KvKey(p.annotations, p.uid, 0);
    KvKeyIsReported(p.annotations, p.uid, 0);
    var j := Job(key, t1, ToRevoke);
    var run, s := DeletedPodListed(p, other, key, t1);
    run, s := Then(cfg, run, Revoke(j));
    run, s := Then(cfg, run, Fetch(p, 0, t2));
    run, s := Then(cfg, run, Store((key, t2)));
    assert Tracked(s, t2) && t2 in s.live && j.(phase := ToDeleteData) in s.jobs;
    run, s := Then(cfg, run, DeleteData(j.(phase := ToDeleteData)));
    states, steps := run.0, run.1;
  }

  lemma DeletedPodListed(p: Pod, other: Pod, key: string, t1: Token) returns (run: Trace, s: World)
    requires p.uid != other.uid && KeysOf(p) !! KeysOf(other)
    requires key == KvKey(p.annotations, p.uid, 0) && key in Reported(p)
    ensures Behaviour(Setting(true, true), run.0, run.1) && s == run.0[|run.1|]
    ensures Job(key, t1, ToRevoke) in s.jobs && p in s.seen && s.issued == map[t1 := Issue(p, key)] && s.live == {t1}
  {
    var cfg := Setting(true, true);
    run, s := FetchedOnce(p, other, key, t1);
    run, s := Then(cfg, run, Store((key, t1)));
    run, s := Then(cfg, run, Delete(p));
    assert s.api == {other};
    run, s := PassListed(cfg, run, other, key, t1);
  }

  lemma FetchedOnce(p: Pod, other: Pod, key: string, t1: Token) returns (run: Trace, s: World)
    requires p.uid != other.uid && KeysOf(p) !! KeysOf(other) && key == KvKey(p.annotations, p.uid, 0)
    ensures Behaviour(Setting(true, true), run.0, run.1) && s == run.0[|run.1|]
    ensures s == World({other, p}, {other, p}, {p}, map[t1 := Issue(p, key)], {t1}, {(key, t1)}, map[], {}, {}, {}, {})
  {
    var cfg := Setting(true, true);
    run, s := Then(cfg, ([Start()], []), Create(other));
    run, s := Then(cfg, run, Create(p));
    run, s := Then(cfg, run, Read(p));
    run, s := Then(cfg, run, Fetch(p, 0, t1));
  }
}
