/** When the revoker can hit a pod that is running: the exact condition on a state of the machine
    of SafetyNet, from which it follows that with NRI it never can. (pkg/revoker/revoker.go,
    pkg/k8smutator/k8smutator.go) */
module RunningPods {
  import opened Strings
  import opened Annotations
  import opened SafetyNet

  /** In either mode tokens are issued under keys their pod reports. */
  ghost predicate KeysAreReported(s: World) {
    forall t | t in s.issued :: s.issued[t].key in Reported(s.issued[t].pod)
  }

  /** A job past its revocation has revoked its token. */
  ghost predicate LaterJobsRevoked(s: World) {
    forall j | j in s.jobs && j.phase != ToRevoke :: j.token in s.revoked
  }

  ghost predicate Sound(cfg: Setting, s: World) {
    && Bookkeeping(s) && KeysAreReported(s) && LaterJobsRevoked(s)
    && (cfg.uniqueKeys ==> Unique(s.born))
  }

  lemma SoundKept(cfg: Setting, s: World, step: Step)
    requires Sound(cfg, s) && Enabled(cfg, s, step)
    ensures Sound(cfg, Apply(s, step))
  {
    BookkeepingKept(cfg, s, step);
    KeysStayReported(cfg, s, step);
    LaterJobsStayRevoked(cfg, s, step);
    UniqueKept(cfg, s, step);
  }

  lemma LaterJobsStayRevoked(cfg: Setting, s: World, step: Step)
    requires LaterJobsRevoked(s) && Enabled(cfg, s, step)
    ensures LaterJobsRevoked(Apply(s, step))
  {
  }

  lemma {:induction false} SoundThroughout(cfg: Setting, states: seq<World>, steps: seq<Step>, n: nat)
    requires Behaviour(cfg, states, steps) && n <= |steps|
    ensures Sound(cfg, states[n])
  {
    if n > 0 {
      SoundThroughout(cfg, states, steps, n - 1);
      assert Next(cfg, states[n - 1], steps[n - 1], states[n]);
      SoundKept(cfg, states[n - 1], steps[n - 1]);
    }
  }

  lemma KeysStayReported(cfg: Setting, s: World, step: Step)
    requires KeysAreReported(s) && Enabled(cfg, s, step)
    ensures KeysAreReported(Apply(s, step))
  {
    if step.Fetch? {
      KvKeyIsReported(step.p.annotations, step.p.uid, step.i);
    }
  }

  // ---- Runs from any state ----

  /** The token is revoked while its pod is in the API. */
  predicate HitsRunning(s: World, t: Token) {
    t in s.revoked && t in s.issued && s.issued[t].pod in s.api
  }

  ghost predicate Leads(cfg: Setting, states: seq<World>, steps: seq<Step>, s: World, t: Token) {
    Path(cfg, states, steps) && states[0] == s && HitsRunning(states[|steps|], t)
  }

  /** Some continuation ends with the token revoked and its pod in the API. */
  ghost predicate CanHitRunning(cfg: Setting, s: World, t: Token) {
    exists states, steps :: Leads(cfg, states, steps, s, t)
  }

  // ---- The condition ----

  /** The pod is in the API, or can still be created. */
  predicate MayRun(cfg: Setting, s: World, p: Pod) { p in s.api || Enabled(cfg, s, Create(p)) }

  /** The entry is in KV, or somebody holds it who can put it there or has read it. */
  predicate HasEntry(s: World, k: string, t: Token) {
    (k, t) in s.stores || Holds(s, k, t) || (k, t) in s.found || (k, t) in s.renewals
  }

  ghost predicate HasJob(s: World, t: Token) { exists j :: j in s.jobs && j.token == t }

  /** The token's pod may run, and the token is revoked, or is being revoked, or its pod is not in
      the API yet while its entry is about. */
  ghost predicate AtRisk(cfg: Setting, s: World, t: Token) {
    && t in s.issued
    && MayRun(cfg, s, s.issued[t].pod)
    && (t in s.revoked || HasJob(s, t) || (s.issued[t].pod !in s.api && HasEntry(s, s.issued[t].key, t)))
  }

  // ---- Without risk there is none later ----

  ghost predicate WithoutRisk(cfg: Setting, s: World, t: Token) {
    cfg.uniqueKeys && Sound(cfg, s) && t in s.issued && !AtRisk(cfg, s, t)
  }

  /** A pass takes an entry that it has read and whose pod is not in the API. */
  lemma OrphansAreAbsent(s: World, j: Job)
    requires EntriesAreIssued(s) && KeysAreReported(s) && j in Orphans(s.found, s.api)
    ensures IssuedAs(s, j.key, j.token) && (j.key, j.token) in s.found && s.issued[j.token].pod !in s.api
  {
    assert (j.key, j.token) in s.found;
    assert s.issued[j.token].pod in s.api ==> j.key in Uuids(s.api);
  }

  /** A Deleted event does not bring up the entry of a pod that may run. */
  lemma NoNewWatch(cfg: Setting, s: World, p: Pod, k: string, t: Token)
    requires cfg.uniqueKeys && Sound(cfg, s) && t in s.issued && MayRun(cfg, s, s.issued[t].pod)
    requires p in s.born - s.api && k in Watched(p) && k in s.kv
    ensures s.kv[k] != t
  {
    var q := s.issued[t].pod;
    assert p != q && KeysOf(p) !! KeysOf(q);
    assert k in KeysOf(p) && IssuedAs(s, k, s.kv[k]);
  }

  lemma StillWithoutRisk(cfg: Setting, s: World, step: Step, next: World, t: Token)
    requires WithoutRisk(cfg, s, t) && Next(cfg, s, step, next)
    ensures !AtRisk(cfg, next, t)
  {
    var p := s.issued[t].pod;
    SameIssue(cfg, s, step, next, t);
    if MayRun(cfg, next, p) {
      MayRunBefore(cfg, s, step, next, p);
      NotRevokedNow(cfg, s, step, next, t);
      NoJobNow(cfg, s, step, next, t);
      if p in s.api {
        StillInApi(cfg, s, step, next, p);
      } else {
        NoEntryNow(cfg, s, step, next, t);
      }
    }
  }

  lemma SameIssue(cfg: Setting, s: World, step: Step, next: World, t: Token)
    requires Next(cfg, s, step, next) && t in s.issued
    ensures t in next.issued && next.issued[t] == s.issued[t]
  {
    NothingForgotten(cfg, s, step);
  }

  lemma MayRunBefore(cfg: Setting, s: World, step: Step, next: World, p: Pod)
    requires s.api <= s.born && Next(cfg, s, step, next) && MayRun(cfg, next, p)
    ensures MayRun(cfg, s, p)
  {
    assert s.born <= next.born;
    assert p in next.api ==> p in s.api || step == Create(p);
  }

  lemma StillInApi(cfg: Setting, s: World, step: Step, next: World, p: Pod)
    requires s.api <= s.born && Next(cfg, s, step, next) && p in s.api && MayRun(cfg, next, p)
    ensures p in next.api
  {
  }

  lemma NotRevokedNow(cfg: Setting, s: World, step: Step, next: World, t: Token)
    requires Next(cfg, s, step, next) && t !in s.revoked && !HasJob(s, t)
    ensures t !in next.revoked
  {
  }

  lemma NoJobNow(cfg: Setting, s: World, step: Step, next: World, t: Token)
    requires WithoutRisk(cfg, s, t) && Next(cfg, s, step, next) && MayRun(cfg, s, s.issued[t].pod)
    ensures !HasJob(next, t)
  {
    if step.Watch? {
      NoNewWatch(cfg, s, step.p, step.k, t);
      assert next.jobs == s.jobs + {Job(step.k, s.kv[step.k], ToRevoke)};
    } else if step.ListPods? {
      NoJobFromPass(cfg, s, t);
      assert next.jobs <= s.jobs + Orphans(s.found, s.api);
    } else {
      NoOtherJob(cfg, s, step, next, t);
    }
  }

  lemma NoJobFromPass(cfg: Setting, s: World, t: Token)
    requires WithoutRisk(cfg, s, t) && MayRun(cfg, s, s.issued[t].pod)
    ensures forall j | j in Orphans(s.found, s.api) :: j.token != t
  {
    forall j | j in Orphans(s.found, s.api) ensures j.token != t {
      OrphansAreAbsent(s, j);
    }
  }

  lemma NoOtherJob(cfg: Setting, s: World, step: Step, next: World, t: Token)
    requires Next(cfg, s, step, next) && !step.Watch? && !step.ListPods? && !HasJob(s, t)
    ensures !HasJob(next, t)
  {
  }

  lemma NoEntryNow(cfg: Setting, s: World, step: Step, next: World, t: Token)
    requires t in s.issued && !HasEntry(s, s.issued[t].key, t) && Next(cfg, s, step, next)
    ensures !HasEntry(next, s.issued[t].key, t)
  {
  }

  lemma WithoutRiskKept(cfg: Setting, s: World, step: Step, next: World, t: Token)
    requires WithoutRisk(cfg, s, t) && Next(cfg, s, step, next)
    ensures WithoutRisk(cfg, next, t)
  {
    SoundKept(cfg, s, step);
    StillWithoutRisk(cfg, s, step, next, t);
    SameIssue(cfg, s, step, next, t);
  }

  /** A token that is not at risk is not at risk at any later state. */
  lemma {:induction false} WithoutRiskThroughout(cfg: Setting, states: seq<World>, steps: seq<Step>, n: nat,
                                               t: Token)
    requires Path(cfg, states, steps) && n <= |steps| && WithoutRisk(cfg, states[0], t)
    ensures WithoutRisk(cfg, states[n], t)
  {
    if n > 0 {
      WithoutRiskThroughout(cfg, states, steps, n - 1, t);
      WithoutRiskKept(cfg, states[n - 1], steps[n - 1], states[n], t);
    }
  }

  // ---- With risk there is a run ----

  lemma HitNow(cfg: Setting, s: World, t: Token)
    requires HitsRunning(s, t)
    ensures CanHitRunning(cfg, s, t)
  {
    assert Leads(cfg, [s], [], s, t);
  }

  lemma StepBack(cfg: Setting, s: World, step: Step, t: Token)
    requires Enabled(cfg, s, step) && CanHitRunning(cfg, Apply(s, step), t)
    ensures CanHitRunning(cfg, s, t)
  {
    var states, steps :| Leads(cfg, states, steps, Apply(s, step), t);
    StepFirst(cfg, s, step, states, steps);
    assert Leads(cfg, [s] + states, [step] + steps, s, t);
  }

  lemma FromRevoked(cfg: Setting, s: World, t: Token)
    requires t in s.revoked && t in s.issued && MayRun(cfg, s, s.issued[t].pod)
    ensures CanHitRunning(cfg, s, t)
  {
    var p := s.issued[t].pod;
    if p in s.api {
      HitNow(cfg, s, t);
    } else {
      HitNow(cfg, Apply(s, Create(p)), t);
      StepBack(cfg, s, Create(p), t);
    }
  }

  lemma FromJob(cfg: Setting, s: World, t: Token, j: Job)
    requires LaterJobsRevoked(s) && j in s.jobs && j.token == t && t in s.issued && MayRun(cfg, s, s.issued[t].pod)
    ensures CanHitRunning(cfg, s, t)
  {
    if j.phase == ToRevoke {
      FromRevoked(cfg, Apply(s, Revoke(j)), t);
      StepBack(cfg, s, Revoke(j), t);
    } else {
      FromRevoked(cfg, s, t);
    }
  }

  /** What the run from an entry needs: the pod can be created, under keys of its own. */
  ghost predicate Creatable(cfg: Setting, s: World, t: Token) {
    && cfg.uniqueKeys && LaterJobsRevoked(s) && s.api <= s.born && t in s.issued
    && s.issued[t].key in Reported(s.issued[t].pod)
    && Enabled(cfg, s, Create(s.issued[t].pod))
  }

  lemma FromFound(cfg: Setting, s: World, t: Token)
    requires Creatable(cfg, s, t) && (s.issued[t].key, t) in s.found && s.api != {}
    ensures CanHitRunning(cfg, s, t)
  {
    var p, k := s.issued[t].pod, s.issued[t].key;
    forall q | q in s.api ensures k !in Reported(q) {
      assert KeysOf(q) !! KeysOf(p) && k in KeysOf(p);
    }
    assert k !in Uuids(s.api);
    assert Job(k, t, ToRevoke) in Orphans(s.found, s.api);
    FromJob(cfg, Apply(s, ListPods), t, Job(k, t, ToRevoke));
    StepBack(cfg, s, ListPods, t);
  }

  /** With no pod at all a pass gives up, but then another pod can come. */
  lemma FromFoundByAnother(cfg: Setting, s: World, t: Token)
    requires Creatable(cfg, s, t) && (s.issued[t].key, t) in s.found
    ensures CanHitRunning(cfg, s, t)
  {
    if s.api == {} {
      var other := FreshPod(s.born + {s.issued[t].pod});
      assert KeysOf(s.issued[t].pod) !! KeysOf(other);
      FromFound(cfg, Apply(s, Create(other)), t);
      StepBack(cfg, s, Create(other), t);
    } else {
      FromFound(cfg, s, t);
    }
  }

  lemma FromKv(cfg: Setting, s: World, t: Token)
    requires Creatable(cfg, s, t) && Holds(s, s.issued[t].key, t)
    ensures CanHitRunning(cfg, s, t)
  {
    var step := ListEntry(s.issued[t].key);
    FromFoundByAnother(cfg, Apply(s, step), t);
    StepBack(cfg, s, step, t);
  }

  lemma FromEntry(cfg: Setting, s: World, t: Token)
    requires Creatable(cfg, s, t) && HasEntry(s, s.issued[t].key, t)
    ensures CanHitRunning(cfg, s, t)
  {
    var e := (s.issued[t].key, t);
    if e in s.found {
      FromFoundByAnother(cfg, s, t);
    } else if e in s.stores {
      FromKv(cfg, Apply(s, Store(e)), t);
      StepBack(cfg, s, Store(e), t);
    } else if e in s.renewals {
      FromKv(cfg, Apply(s, RenewerStore(e)), t);
      StepBack(cfg, s, RenewerStore(e), t);
    } else {
      FromKv(cfg, s, t);
    }
  }

  /** A pod whose UID is none of the keys of the others. */
  lemma FreshPod(pods: set<Pod>) returns (other: Pod)
    ensures forall q | q in pods :: q.uid != other.uid && KeysOf(q) !! KeysOf(other)
  {
    var uid := FreshString(set q, k | q in pods && k in KeysOf(q) :: k);
    other := Pod(uid, "", "", "", "", map[]);
    assert KeysOf(other) == {uid};
    forall q | q in pods ensures q.uid in KeysOf(q) {
      assert ReportedUuids(q.annotations, q.uid)[0] == q.uid;
    }
  }

  lemma FreshString(ks: set<string>) returns (x: string)
    ensures x !in ks
  {
    var n := LongerThanAll(ks);
    x := seq(n, i => 'a');
  }

  lemma {:induction false} LongerThanAll(ks: set<string>) returns (n: nat)
    ensures forall k | k in ks :: |k| < n
    decreases |ks|
  {
    n := 0;
    if ks != {} {
      var k :| k in ks;
      n := LongerThanAll(ks - {k});
      n := if n > |k| then n else |k| + 1;
    }
  }

  lemma RiskLeads(cfg: Setting, s: World, t: Token)
    requires cfg.uniqueKeys && Sound(cfg, s) && AtRisk(cfg, s, t)
    ensures CanHitRunning(cfg, s, t)
  {
    if t in s.revoked {
      FromRevoked(cfg, s, t);
    } else if HasJob(s, t) {
      var j :| j in s.jobs && j.token == t;
      FromJob(cfg, s, t, j);
    } else {
      FromEntry(cfg, s, t);
    }
  }

  // ---- Main results ----

  /** The exact condition, in every reachable state, with NRI or without: some continuation ends
      with a token revoked and its pod in the API if and only if the token is at risk. */
  lemma HitExactly(cfg: Setting, states: seq<World>, steps: seq<Step>, n: nat, t: Token)
    requires cfg.uniqueKeys && Behaviour(cfg, states, steps) && n <= |steps| && t in states[n].issued
    ensures CanHitRunning(cfg, states[n], t) <==> AtRisk(cfg, states[n], t)
  {
    SoundThroughout(cfg, states, steps, n);
    if AtRisk(cfg, states[n], t) {
      RiskLeads(cfg, states[n], t);
    } else if later, taken :| Leads(cfg, later, taken, states[n], t) {
      WithoutRiskThroughout(cfg, later, taken, |taken|, t);
      assert false;
    }
  }

  /** With NRI no token ever is: its pod was in the API before it was issued. */
  lemma NriIsNeverAtRisk(cfg: Setting, states: seq<World>, steps: seq<Step>, n: nat, t: Token)
    requires cfg.nri && cfg.uniqueKeys && Behaviour(cfg, states, steps) && n <= |steps| && t in states[n].issued
    ensures !AtRisk(cfg, states[n], t) && !CanHitRunning(cfg, states[n], t)
  {
    SafeThroughout(cfg, states, steps, n);
    HitExactly(cfg, states, steps, n, t);
    var s := states[n];
    assert s.issued[t].pod in s.born;
    if HasJob(s, t) {
      var j :| j in s.jobs && j.token == t;
      assert Gone(s, j.token);
    }
  }

  /** Without NRI the result fails: the webhook's entry is in KV before its pod is in the
      API, so a pass in between takes it for an orphan. `other` is any running pod (with no
      pod at all a pass gives up). */
  lemma LegacyPassCanHitARunningPod(p: Pod, other: Pod, key: string, t: Token) returns (states: seq<World>,
                                    steps: seq<Step>)
    requires p.uid != other.uid && key in Reported(p) && KeysOf(p) !! KeysOf(other)
    ensures Behaviour(Setting(false, true), states, steps)
    ensures var s := states[|steps|]; t in s.revoked && t in s.issued && s.issued[t].pod == p && p in s.api
  {
    var cfg, j := Setting(false, true), Job(key, t, ToRevoke);
    var run, s := AdmittedPodListed(p, other, key, t);
    run, s := Then(cfg, run, Create(p));
    run, s := Then(cfg, run, Revoke(j));
    states, steps := run.0, run.1;
  }

  lemma AdmittedPodListed(p: Pod, other: Pod, key: string, t: Token) returns (run: Trace, s: World)
    requires p.uid != other.uid && key in Reported(p) && KeysOf(p) !! KeysOf(other)
    ensures Behaviour(Setting(false, true), run.0, run.1) && s == run.0[|run.1|]
    ensures s.born == s.api == {other} && Job(key, t, ToRevoke) in s.jobs && s.issued == map[t := Issue(p, key)]
  {
    var cfg := Setting(false, true);
    run, s := Then(cfg, ([Start()], []), Create(other));
    run, s := Then(cfg, run, Admit(p, key, t));
    run, s := Then(cfg, run, Store((key, t)));
    run, s := PassListed(cfg, run, other, key, t);
  }
}
