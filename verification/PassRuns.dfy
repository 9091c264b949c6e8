/** What the machine of SafetyNet can do: the clean-ups it makes possible, and that a whole pass
    of the revoker, as the program makes it, is one of its runs. (pkg/revoker/revoker.go) */
module PassRuns {
  import opened Strings
  import opened Annotations
  import V = VaultRecords
  import R = Revoker
  import opened SafetyNet

  // ---- What can be cleaned up ----

  /** The token is revoked and its entry is gone. */
  predicate CleanedUp(s: World, k: string, t: Token) {
    t in s.revoked && t !in s.live && k !in s.kv
  }

  lemma JobCleansUp(cfg: Setting, s: World, k: string, t: Token) returns (states: seq<World>, steps: seq<Step>)
    requires Job(k, t, ToRevoke) in s.jobs
    ensures Path(cfg, states, steps) && states[0] == s && CleanedUp(states[|steps|], k, t)
  {
    var j := Job(k, t, ToRevoke);
    var s1 := Apply(s, Revoke(j));
    var s2 := Apply(s1, DeleteData(j.(phase := ToDeleteData)));
    steps := [Revoke(j), DeleteData(j.(phase := ToDeleteData)), DeleteMetadata(j.(phase := ToDeleteMetadata))];
    states := [s, s1, s2, Apply(s2, steps[2])];
  }

  /** An entry under a key of no pod in the API can be cleaned up by a pass, as long as there is
      some pod. */
  lemma OrphanCanBeCleaned(cfg: Setting, s: World, k: string, t: Token)
      returns (states: seq<World>, steps: seq<Step>)
    requires Holds(s, k, t) && s.api != {} && forall p | p in s.api :: !IsKeyOf(k, p)
    ensures Path(cfg, states, steps) && states[0] == s && CleanedUp(states[|steps|], k, t)
  {
    var s1 := Apply(s, ListEntry(k));
    NoneReports(s1, k);
    assert (k, t) in s1.found && Job(k, t, ToRevoke) in Orphans(s1.found, s1.api);
    states, steps := JobCleansUp(cfg, Apply(s1, ListPods), k, t);
    StepFirst(cfg, s1, ListPods, states, steps);
    states, steps := [s1] + states, [ListPods] + steps;
    StepFirst(cfg, s, ListEntry(k), states, steps);
    states, steps := [s] + states, [ListEntry(k)] + steps;
  }

  lemma NoneReports(s: World, k: string)
    requires forall p | p in s.api :: !IsKeyOf(k, p)
    ensures k !in Uuids(s.api)
  {
    forall p | p in s.api ensures k !in Reported(p) {
      ReportedAreKeys(p);
    }
  }

  /** With no pod at all a pass takes nothing: an empty listing of pods is an error. */
  lemma NothingWithoutPods(cfg: Setting, s: World)
    requires s.api == {}
    ensures Enabled(cfg, s, ListPods) && Apply(s, ListPods) == s.(found := {})
  {
  }

  /** An entry under one of the stamped UUIDs of a deleted pod can be cleaned up on its event. */
  lemma DeletedCanBeCleaned(cfg: Setting, s: World, p: Pod, k: string, t: Token)
      returns (states: seq<World>, steps: seq<Step>)
    requires p in s.born - s.api && Holds(s, k, t)
    requires var stamp := ValueOr(p.annotations, "db-creds-injector.numberly.io/uuid", "");
      stamp != "" && k in Split(stamp, ',')
    ensures Path(cfg, states, steps) && states[0] == s && CleanedUp(states[|steps|], k, t)
  {
    assert ANNOTATION_VAULT_POD_UUID == "db-creds-injector.numberly.io/uuid" && k in Watched(p);
    states, steps := JobCleansUp(cfg, Apply(s, Watch(p, k)), k, t);
    StepFirst(cfg, s, Watch(p, k), states, steps);
    states, steps := [s] + states, [Watch(p, k)] + steps;
  }

  /** The renewer can purge an entry: its token is dead then, though not by the revoker. */
  lemma PurgeCleansUp(cfg: Setting, s: World, k: string, t: Token) returns (states: seq<World>, steps: seq<Step>)
    requires Holds(s, k, t)
    ensures Path(cfg, states, steps) && states[0] == s
    ensures var end := states[|steps|]; t !in end.live && k !in end.kv && end.revoked == s.revoked
  {
    var s1 := Apply(s, RenewEntry(k));
    var s2 := Apply(s1, RenewerRevoke((k, t)));
    steps := [RenewEntry(k), RenewerRevoke((k, t)), RenewerDelete((k, t))];
    states := [s, s1, s2, Apply(s2, steps[2])];
  }

  /** Any call may fail or never be made: a store in flight, a job, a renewal read. Tokens expire. */
  lemma CallsMayFail(cfg: Setting, s: World)
    ensures forall e | e in s.stores ::
      Enabled(cfg, s, StoreFail(e)) && Apply(s, StoreFail(e)) == s.(stores := s.stores - {e})
    ensures forall j | j in s.jobs :: Enabled(cfg, s, GiveUp(j)) && Apply(s, GiveUp(j)) == s.(jobs := s.jobs - {j})
    ensures forall t | t in s.live :: Enabled(cfg, s, Expire(t)) && Apply(s, Expire(t)) == s.(live := s.live - {t})
  {
  }

  // ---- The program's pass is a run of the machine ----

  /** The machine's state shows these records. */
  ghost predicate Shows(s: World, v: V.Records) {
    s.live == v.live && s.kv == map k | k in v.data :: v.data[k].tokenID
  }

  /** There is a run from `s` to `t`. */
  ghost predicate Goes(cfg: Setting, s: World, t: World) {
    exists states, steps :: Path(cfg, states, steps) && states[0] == s && states[|steps|] == t
  }

  lemma Stays(cfg: Setting, s: World)
    ensures Goes(cfg, s, s)
  {
    var states, steps: seq<Step> := [s], [];
    assert Path(cfg, states, steps) && states[|steps|] == s;
  }

  lemma GoesFirst(cfg: Setting, s: World, step: Step, t: World)
    requires Enabled(cfg, s, step) && Goes(cfg, Apply(s, step), t)
    ensures Goes(cfg, s, t)
  {
    var states, steps :| Path(cfg, states, steps) && states[0] == Apply(s, step) && states[|steps|] == t;
    StepFirst(cfg, s, step, states, steps);
    var longer, taken := [s] + states, [step] + steps;
    assert longer[0] == s && longer[|taken|] == t;
  }

  lemma {:induction false} GoesOn(cfg: Setting, states: seq<World>, steps: seq<Step>, t: World)
    requires Path(cfg, states, steps) && Goes(cfg, states[|steps|], t)
    ensures Goes(cfg, states[0], t)
    decreases |steps|
  {
    if steps != [] {
      forall i | 0 <= i < |steps[1..]| ensures Next(cfg, states[1..][i], steps[1..][i], states[1..][i + 1]) {
        assert Next(cfg, states[i + 1], steps[i + 1], states[i + 2]);
      }
      GoesOn(cfg, states[1..], steps[1..], t);
      assert Next(cfg, states[0], steps[0], states[1]);
      GoesFirst(cfg, states[0], steps[0], t);
    }
  }

  lemma GoesTo(cfg: Setting, s: World, t: World, u: World)
    requires Goes(cfg, s, t) && Goes(cfg, t, u)
    ensures Goes(cfg, s, u)
  {
    var states, steps :| Path(cfg, states, steps) && states[0] == s && states[|steps|] == t;
    GoesOn(cfg, states, steps, u);
  }

  function EntriesUnder(kv: map<string, Token>, ks: set<string>): set<Entry>
    requires ks <= kv.Keys
  {
    set k | k in ks :: (k, kv[k])
  }

  lemma EntriesUnderNext(kv: map<string, Token>, ks: set<string>, k: string)
    requires ks <= kv.Keys && k in ks
    ensures EntriesUnder(kv, ks) == {(k, kv[k])} + EntriesUnder(kv, ks - {k})
  {
  }

  /** The listing, key by key. */
  lemma {:induction false} ListsAll(cfg: Setting, s: World, ks: set<string>) returns (t: World)
    requires ks <= s.kv.Keys
    ensures Goes(cfg, s, t) && t == s.(found := s.found + EntriesUnder(s.kv, ks))
    decreases |ks|
  {
    assert EntriesUnder(s.kv, {}) == {};
    if ks == {} {
      t := s;
      Stays(cfg, s);
    } else {
      var k :| k in ks;
      EntriesUnderNext(s.kv, ks, k);
      t := ListsAll(cfg, Apply(s, ListEntry(k)), ks - {k});
      GoesFirst(cfg, s, ListEntry(k), t);
    }
  }

  /** What handling one entry comes to in the machine. */
  ghost predicate HandledTo(s: World, t: World, v: V.Records, ki: V.KeyInfo, c: V.Calls) {
    && Shows(t, R.Handled(v, ki, c)) && t.api == s.api && s.revoked <= t.revoked
    && (c.revoke != V.Fails ==> ki.tokenID in t.revoked)
    && (forall j | j in s.jobs && j.key != ki.podNameUID :: j in t.jobs)
  }

  lemma HandlesOne(cfg: Setting, s: World, v: V.Records, ki: V.KeyInfo, c: V.Calls) returns (t: World)
    requires Shows(s, v) && Job(ki.podNameUID, ki.tokenID, ToRevoke) in s.jobs
    ensures Goes(cfg, s, t) && HandledTo(s, t, v, ki, c)
  {
    var j := Job(ki.podNameUID, ki.tokenID, ToRevoke);
    if c.revoke == V.Fails {
      t := s;
      Stays(cfg, s);
    } else if c.revoke == V.LosesReply {
      t := Apply(s, Revoke(j));
      Stays(cfg, t);
      GoesFirst(cfg, s, Revoke(j), t);
    } else {
      var revoked := Apply(s, Revoke(j));
      t := DeletesOne(cfg, revoked, V.Revoked(v, ki.tokenID, c.revoke), j.(phase := ToDeleteData), c);
      GoesFirst(cfg, s, Revoke(j), t);
    }
  }

  lemma DeletesOne(cfg: Setting, s: World, v: V.Records, j: Job, c: V.Calls) returns (t: World)
    requires Shows(s, v) && j in s.jobs && j.phase == ToDeleteData
    ensures Goes(cfg, s, t) && Shows(t, V.Deleted(v, j.key, c))
    ensures t.api == s.api && t.revoked == s.revoked && forall i | i in s.jobs && i.key != j.key :: i in t.jobs
  {
    if c.deleteData == V.Fails {
      t := s;
      Stays(cfg, s);
    } else {
      t := Apply(s, DeleteData(j));
      DataGoes(s, v, j, c.deleteData);
      Stays(cfg, t);
      if c.deleteData == V.Works && c.deleteMetadata != V.Fails {
        var last := DeleteMetadata(j.(phase := ToDeleteMetadata));
        var u := Apply(t, last);
        NothingLeft(u, t, V.DataDeleted(v, j.key, c.deleteData), j.key, c.deleteMetadata);
        Stays(cfg, u);
        GoesFirst(cfg, t, last, u);
        t := u;
      }
      GoesFirst(cfg, s, DeleteData(j), t);
    }
  }

  lemma DataGoes(s: World, v: V.Records, j: Job, c: V.Call)
    requires Shows(s, v) && c != V.Fails
    ensures Shows(Apply(s, DeleteData(j)), V.DataDeleted(v, j.key, c))
  {
  }

  lemma NothingLeft(u: World, t: World, v: V.Records, k: string, c: V.Call)
    requires Shows(t, v) && u.live == t.live && u.kv == t.kv - {k} && k !in v.data && c != V.Fails
    ensures Shows(u, V.MetadataDeleted(v, k, c))
  {
  }

  /** The handling of a set of entries. */
  lemma {:induction false} HandlesAll(cfg: Setting, s: World, v: V.Records, ks: set<string>, f: V.Faults)
      returns (t: World)
    requires V.WellFormed(v) && Shows(s, v) && ks <= v.data.Keys
    requires forall k | k in ks :: Job(k, v.data[k].tokenID, ToRevoke) in s.jobs
    ensures Goes(cfg, s, t) && Shows(t, R.Cleaned(v, ks, f)) && t.api == s.api
    ensures s.revoked + R.RevokedTokens(v, ks, f) <= t.revoked
    ensures forall j | j in s.jobs && j.key !in ks :: j in t.jobs
    decreases |ks|
  {
    if ks == {} {
      t := s;
      Stays(cfg, s);
      R.CleanedNone(v, ks, f);
    } else {
      var k :| k in ks;
      var rest := ks - {k};
      var mid := HandlesAll(cfg, s, v, rest, f);
      t := HandlesOne(cfg, mid, R.Cleaned(v, rest, f), v.data[k], f(k));
      GoesTo(cfg, s, mid, t);
      R.CleanedNext(v, rest, k, f);
      assert rest + {k} == ks;
    }
  }

  /** A pass of the program over the records that the state shows, with the pods in the API as its
      listing, whatever fails, is a run of the machine, which ends in what the pass leaves. */
  lemma PassIsARun(cfg: Setting, s: World, v: V.Records, listed: bool, readable: set<string>, pods: seq<Pod>,
                   f: V.Faults) returns (t: World)
    requires V.WellFormed(v) && Shows(s, v) && s.api != {} && s.api == set p | p in pods
    ensures var ks := V.Reachable(listed, readable) - R.LiveUuids(pods);
      && Goes(cfg, s, t) && Shows(t, R.Cleaned(v, ks, f))
      && t.api == s.api && s.revoked + R.RevokedTokens(v, ks, f) <= t.revoked
  {
    var reached := V.Reachable(listed, readable) * v.data.Keys;
    var listedState := ListsAll(cfg, s, reached);
    var passed := Apply(listedState, ListPods);
    Stays(cfg, passed);
    GoesFirst(cfg, listedState, ListPods, passed);
    GoesTo(cfg, s, listedState, passed);
    SameUuids(s.api, pods);
    var ks := reached - R.LiveUuids(pods);
    forall k | k in ks ensures Job(k, v.data[k].tokenID, ToRevoke) in passed.jobs {
      assert (k, v.data[k].tokenID) in listedState.found;
      assert Job(k, v.data[k].tokenID, ToRevoke) in Orphans(listedState.found, s.api);
    }
    t := HandlesAll(cfg, passed, v, ks, f);
    GoesTo(cfg, s, passed, t);
    R.CleanedOnlyData(v, ks, V.Reachable(listed, readable) - R.LiveUuids(pods), f);
  }

  lemma SameUuids(api: set<Pod>, pods: seq<Pod>)
    requires api == set p | p in pods
    ensures Uuids(api) == R.LiveUuids(pods)
  {
    forall k | k in Uuids(api) ensures k in R.LiveUuids(pods) {
      var p :| p in api && k in Reported(p);
      var i :| 0 <= i < |pods| && pods[i] == p;
      assert k in ReportedUuids(pods[i].annotations, pods[i].uid);
    }
    forall k | k in R.LiveUuids(pods) ensures k in Uuids(api) {
      var i :| 0 <= i < |pods| && k in ReportedUuids(pods[i].annotations, pods[i].uid);
      assert pods[i] in api && k in Reported(pods[i]);
    }
  }

  /** A run from the beginning goes on. */
  lemma Continued(cfg: Setting, states: seq<World>, steps: seq<Step>, t: World)
      returns (whole: seq<World>, all: seq<Step>)
    requires Behaviour(cfg, states, steps) && Goes(cfg, states[|steps|], t)
    ensures Behaviour(cfg, whole, all) && |steps| <= |all|
    ensures whole[|steps|] == states[|steps|] && whole[|all|] == t
  {
    var later, taken :| Path(cfg, later, taken) && later[0] == states[|steps|] && later[|taken|] == t;
    whole, all := states + later[1..], steps + taken;
    forall i | 0 <= i < |all| ensures Next(cfg, whole[i], all[i], whole[i + 1]) {
      if i < |steps| {
        assert Next(cfg, states[i], steps[i], states[i + 1]);
      } else {
        assert Next(cfg, later[i - |steps|], taken[i - |steps|], later[i - |steps| + 1]);
      }
    }
  }

  /** So with NRI, in every reachable state, a pass of the program only revokes tokens of pods that
      are not in the API. */
  lemma PassIsSafe(cfg: Setting, states: seq<World>, steps: seq<Step>, v: V.Records, listed: bool,
                   readable: set<string>, pods: seq<Pod>, f: V.Faults, k: string)
    requires cfg.nri && cfg.uniqueKeys && Behaviour(cfg, states, steps)
    requires var s := states[|steps|];
      V.WellFormed(v) && Shows(s, v) && s.api != {} && s.api == set p | p in pods
    requires k in v.data
    requires v.data[k].tokenID in R.RevokedTokens(v, V.Reachable(listed, readable) - R.LiveUuids(pods), f)
    ensures var s, t := states[|steps|], v.data[k].tokenID; t in s.issued && s.issued[t].pod !in s.api
  {
    var s := states[|steps|];
    var after := PassIsARun(cfg, s, v, listed, readable, pods, f);
    var whole, all := Continued(cfg, states, steps, after);
    NriSafety(cfg, whole, all, |all|, |all|, v.data[k].tokenID);
    RevokedForGood(cfg, whole, all, |steps|, |all|);
    BookkeepingThroughout(cfg, whole, all, |steps|);
    assert IssuedAs(s, k, s.kv[k]);
  }
}
