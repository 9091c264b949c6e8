/** The renewer's bookkeeping of its per-pod metric series from cycle to cycle
    (pkg/renewer/renewer.go, FlushPodSeries in pkg/metrics/prom.go). */
module SeriesTracking {
  import opened Strings
  import opened Annotations
  import opened VaultRecords
  import opened Renewer

  /** Key to namespace, for a listing. */
  function Namespaces(infos: seq<KeyInfo>): map<string, string> {
    if infos == [] then map[]
    else Namespaces(infos[..|infos| - 1])[infos[|infos| - 1].podNameUID := infos[|infos| - 1].namespace]
  }

  lemma {:induction false} NamespacesKeys(infos: seq<KeyInfo>)
    ensures forall k :: k in Namespaces(infos) <==> HasKey(infos, k)
  {
    if infos != [] {
      var before, last := infos[..|infos| - 1], infos[|infos| - 1];
      NamespacesKeys(before);
      forall k ensures k in Namespaces(infos) <==> HasKey(infos, k) {
        assert k == last.podNameUID ==> infos[|infos| - 1].podNameUID == k;
        if i :| 0 <= i < |infos| && infos[i].podNameUID == k {
          assert i < |before| ==> before[i].podNameUID == k;
        }
        if i :| 0 <= i < |before| && before[i].podNameUID == k {
          assert infos[i].podNameUID == k;
        }
      }
    }
  }

  lemma {:induction false} NamespaceAt(infos: seq<KeyInfo>, i: nat)
    requires DistinctKeys(infos) && i < |infos|
    ensures infos[i].podNameUID in Namespaces(infos) && Namespaces(infos)[infos[i].podNameUID] == infos[i].namespace
  {
    if i < |infos| - 1 {
      NamespaceAt(infos[..|infos| - 1], i);
    }
  }

  predicate IsVanished(x: Series, prev: map<string, string>, next: map<string, string>) {
    x.uuid in prev && x.uuid !in next && prev[x.uuid] == x.namespace
  }

  function Unflushed(series: set<Series>, prev: map<string, string>, next: map<string, string>): set<Series> {
    set x | x in series && !IsVanished(x, prev, next)
  }

  method FlushVanished(metrics: Metrics, prev: map<string, string>,
                       current: seq<KeyInfo>) returns (next: map<string, string>)
    modifies metrics
    ensures next == Namespaces(current)
    ensures metrics.series == Unflushed(old(metrics.series), prev, next)
  {
    next := map[];
    for i := 0 to |current|
      invariant next == Namespaces(current[..i]) && metrics.series == old(metrics.series)
    {
      assert current[..i + 1][..i] == current[..i];
      next := next[current[i].podNameUID := current[i].namespace];
    }
    assert current[..|current|] == current;
    FlushEach(metrics, prev, next);
  }

  /** The previously tracked keys are visited in an arbitrary order. */
  method FlushEach(metrics: Metrics, prev: map<string, string>, next: map<string, string>)
    modifies metrics
    ensures metrics.series == Unflushed(old(metrics.series), prev, next)
  {
    var todo := prev.Keys;
    ghost var was := metrics.series;
    assert prev - prev.Keys == map[];
    while todo != {}
      invariant todo <= prev.Keys && metrics.series == Unflushed(was, prev - todo, next)
      decreases |todo|
    {
      var uuid :| uuid in todo;
      UnflushedNext(was, prev, next, todo, uuid);
      if uuid !in next {
        metrics.Flush(uuid, prev[uuid]);
      }
      todo := todo - {uuid};
    }
    assert prev - {} == prev;
  }

  lemma UnflushedNext(series: set<Series>, prev: map<string, string>, next: map<string, string>, todo: set<string>,
                      uuid: string)
    requires uuid in todo && todo <= prev.Keys
    ensures var before := Unflushed(series, prev - todo, next);
      Unflushed(series, prev - (todo - {uuid}), next)
      == if uuid in next then before else FlushedSeries(before, uuid, prev[uuid])
  {
  }

  /** One cycle: the listing, whether it was complete, and what the goroutines then did: the
      interleaved programs of the listed entries, or nothing when the cycle stops early. */
  datatype Cycle = Cycle(
    infos: seq<KeyInfo>, complete: bool, pods: Option<seq<PodInfo>>, replies: Oracle, acts: seq<Action>)

  ghost predicate ValidCycle(c: Cycle) {
    && DistinctKeys(c.infos)
    && (match c.pods
        case None => c.acts == []
        case Some(pods) => Interleaves(c.acts, c.infos, pods, c.replies))
  }

  datatype Tracking = Tracking(sync: SyncState, tracked: map<string, string>)

  function AfterFlush(t: Tracking, c: Cycle): Tracking {
    if !c.complete then t
    else
      var next := Namespaces(c.infos);
      Tracking(t.sync.(series := Unflushed(t.sync.series, t.tracked, next)), next)
  }

  function AfterCycle(t: Tracking, c: Cycle): Tracking {
    var f := AfterFlush(t, c);
    f.(sync := Run(f.sync, c.acts))
  }

  function AfterCycles(t: Tracking, cycles: seq<Cycle>): Tracking {
    if cycles == [] then t else AfterCycle(AfterCycles(t, cycles[..|cycles| - 1]), cycles[|cycles| - 1])
  }

  class RenewerJob {
    var tracked: map<string, string>
    const vault: Vault
    const metrics: Metrics

    constructor (vault: Vault, metrics: Metrics)
      ensures tracked == map[] && this.vault == vault && this.metrics == metrics
    {
      tracked, this.vault, this.metrics := map[], vault, metrics;
      new;
    }

    ghost function Contents(failed: bool): Tracking
      reads this, vault, metrics
    {
      Tracking(StateOf(vault, metrics, failed), tracked)
    }

    /** syncToken. `pods` is None also when the token TTL of the configuration is invalid. */
    method SyncToken(infos: seq<KeyInfo>, complete: bool, pods: Option<seq<PodInfo>>,
                     replies: Oracle) returns (ok: bool)
      requires DistinctKeys(infos)
      modifies this, vault, metrics
      ensures infos == [] ==>
        !ok && Contents(false) == AfterFlush(old(Contents(false)), Cycle(infos, complete, None, replies, []))
      ensures infos != [] ==> forall acts | ValidCycle(Cycle(infos, complete, pods, replies, acts)) ::
        Contents(!ok && pods.Some?) == AfterCycle(old(Contents(false)), Cycle(infos, complete, pods, replies, acts))
    {
      if complete {
        var next := FlushVanished(metrics, tracked, infos);
        tracked := next;
      }
      if infos == [] {
        return false;
      }
      ok := SyncAndCleanupTokens(vault, metrics, infos, pods, replies);
    }
  }

  // ---- What a cycle does to the series of one label pair ----

  /** Where an action puts or drops series. */
  predicate Touches(a: Action, x: Series) {
    && a.key == x.uuid
    && (a.RenewToken? || a.RenewLease? || a.RevokeOrphan? || a.Flush?)
    && a.namespace == x.namespace
  }

  lemma DoUntouched(s: SyncState, a: Action, x: Series)
    requires !Touches(a, x)
    ensures x in Do(s, a).series <==> x in s.series
  {
    match a {
      case RenewToken(k, ns, r) => assert x !in TokenSeries(k, ns, r);
      case RenewLease(k, ns, r) => assert x !in LeaseSeries(k, ns, r);
      case _ =>
    }
  }

  lemma {:induction false} UntouchedSeries(s: SyncState, acts: seq<Action>, x: Series)
    requires forall a | a in acts :: !Touches(a, x)
    ensures x in Run(s, acts).series <==> x in s.series
  {
    if acts != [] {
      assert acts == acts[..|acts| - 1] + [acts[|acts| - 1]];
      UntouchedSeries(s, acts[..|acts| - 1], x);
      DoUntouched(Run(s, acts[..|acts| - 1]), acts[|acts| - 1], x);
    }
  }

  predicate Listed(infos: seq<KeyInfo>, uuid: string, namespace: string) {
    exists i :: 0 <= i < |infos| && infos[i].podNameUID == uuid && infos[i].namespace == namespace
  }

  /** The goroutines only touch series with the labels of a listed entry. */
  lemma OnlyListedAreTouched(c: Cycle, a: Action, x: Series)
    requires ValidCycle(c) && a in c.acts && Touches(a, x)
    ensures Listed(c.infos, x.uuid, x.namespace)
  {
    OwnMembers(c.acts, a);
    var i :| 0 <= i < |c.infos| && c.infos[i].podNameUID == a.key;
    FailsUnlessSucceeds(c.infos[i], PodOf(c.pods.value, a.key), c.replies(a.key));
  }

  lemma UnlistedSeries(t: Tracking, c: Cycle, x: Series)
    requires ValidCycle(c) && !Listed(c.infos, x.uuid, x.namespace)
    ensures x in AfterCycle(t, c).sync.series <==> x in AfterFlush(t, c).sync.series
  {
    forall a | a in c.acts ensures !Touches(a, x) {
      if Touches(a, x) {
        OnlyListedAreTouched(c, a, x);
      }
    }
    UntouchedSeries(AfterFlush(t, c).sync, c.acts, x);
  }

  ghost predicate OnlyListedSeries(t: Tracking, infos: seq<KeyInfo>) {
    forall x | x in t.sync.series :: HasKey(infos, x.uuid)
  }

  /** Exactly when a cycle with a complete listing leaves only series of listed UUIDs: every
      series of a vanished UUID was tracked, and under its own namespace. */
  lemma CycleExact(t: Tracking, c: Cycle)
    requires ValidCycle(c) && c.complete
    ensures OnlyListedSeries(AfterCycle(t, c), c.infos)
       <==> forall x | x in t.sync.series && !HasKey(c.infos, x.uuid) ::
              x.uuid in t.tracked && t.tracked[x.uuid] == x.namespace
  {
    NamespacesKeys(c.infos);
    forall x: Series | !HasKey(c.infos, x.uuid)
      ensures x in AfterCycle(t, c).sync.series
         <==> x in t.sync.series && !(x.uuid in t.tracked && t.tracked[x.uuid] == x.namespace)
    {
      UnlistedSeries(t, c, x);
    }
  }

  // ---- Whole runs ----

  type NamespaceOf = string -> string

  ghost predicate FixedNamespaces(infos: seq<KeyInfo>, ns: NamespaceOf) {
    forall i | 0 <= i < |infos| :: infos[i].namespace == ns(infos[i].podNameUID)
  }

  ghost predicate AllTracked(t: Tracking) {
    forall x | x in t.sync.series :: x.uuid in t.tracked && t.tracked[x.uuid] == x.namespace
  }

  lemma TrackedNamespaces(infos: seq<KeyInfo>, ns: NamespaceOf)
    requires DistinctKeys(infos) && FixedNamespaces(infos, ns)
    ensures forall k | k in Namespaces(infos) :: Namespaces(infos)[k] == ns(k)
  {
    NamespacesKeys(infos);
    forall k | k in Namespaces(infos) ensures Namespaces(infos)[k] == ns(k) {
      assert HasKey(infos, k);
      var i :| 0 <= i < |infos| && infos[i].podNameUID == k;
      NamespaceAt(infos, i);
    }
  }

  lemma CycleKeepsTracked(t: Tracking, c: Cycle, ns: NamespaceOf)
    requires ValidCycle(c) && c.complete && AllTracked(t) && FixedNamespaces(c.infos, ns)
    requires forall k | k in t.tracked :: t.tracked[k] == ns(k)
    ensures AllTracked(AfterCycle(t, c)) && OnlyListedSeries(AfterCycle(t, c), c.infos)
    ensures forall k | k in AfterCycle(t, c).tracked :: AfterCycle(t, c).tracked[k] == ns(k)
  {
    var after := AfterCycle(t, c);
    TrackedNamespaces(c.infos, ns);
    NamespacesKeys(c.infos);
    CycleExact(t, c);
    forall x | x in after.sync.series ensures x.uuid in after.tracked && after.tracked[x.uuid] == x.namespace {
      assert HasKey(c.infos, x.uuid);
      if Listed(c.infos, x.uuid, x.namespace) {
        var i :| 0 <= i < |c.infos| && c.infos[i].podNameUID == x.uuid && c.infos[i].namespace == x.namespace;
      } else {
        UnlistedSeries(t, c, x);
      }
    }
  }

  /** Over any run in which every listing is complete and a UUID's namespace is fixed, after
      each cycle the six families only hold UUIDs of that cycle's listing. */
  lemma {:induction false} SeriesFollowListing(start: SyncState, cycles: seq<Cycle>, ns: NamespaceOf)
    requires start.series == {} && cycles != []
    requires forall c | c in cycles :: ValidCycle(c) && c.complete && FixedNamespaces(c.infos, ns)
    ensures OnlyListedSeries(AfterCycles(Tracking(start, map[]), cycles), cycles[|cycles| - 1].infos)
    ensures AllTracked(AfterCycles(Tracking(start, map[]), cycles))
    ensures var t := AfterCycles(Tracking(start, map[]), cycles); forall k | k in t.tracked :: t.tracked[k] == ns(k)
  {
    var before, last := cycles[..|cycles| - 1], cycles[|cycles| - 1];
    assert last in cycles;
    if before != [] {
      SeriesFollowListing(start, before, ns);
    }
    CycleKeepsTracked(AfterCycles(Tracking(start, map[]), before), last, ns);
  }

  /** Both conditions are needed. A series that is not tracked under its namespace, and whose
      label pair is never listed again, is never dropped. */
  lemma {:induction false} StaleForever(t: Tracking, cycles: seq<Cycle>, x: Series)
    requires x in t.sync.series && !(x.uuid in t.tracked && t.tracked[x.uuid] == x.namespace)
    requires forall c | c in cycles :: ValidCycle(c) && !Listed(c.infos, x.uuid, x.namespace)
    ensures x in AfterCycles(t, cycles).sync.series
    ensures var u := AfterCycles(t, cycles); !(x.uuid in u.tracked && u.tracked[x.uuid] == x.namespace)
  {
    if cycles != [] {
      var before, last := cycles[..|cycles| - 1], cycles[|cycles| - 1];
      assert last in cycles;
      StaleForever(t, before, x);
      UnlistedSeries(AfterCycles(t, before), last, x);
      NamespacesMeanListed(last.infos, x.uuid);
    }
  }

  lemma {:induction false} NamespacesMeanListed(infos: seq<KeyInfo>, k: string)
    ensures k in Namespaces(infos) ==> Listed(infos, k, Namespaces(infos)[k])
  {
    if infos != [] {
      NamespacesMeanListed(infos[..|infos| - 1], k);
      if k != infos[|infos| - 1].podNameUID && k in Namespaces(infos) {
        var i :| 0 <= i < |infos| - 1 && infos[i].podNameUID == k && infos[i].namespace == Namespaces(infos)[k];
        assert Listed(infos, k, Namespaces(infos)[k]);
      } else if k == infos[|infos| - 1].podNameUID {
        assert infos[|infos| - 1].podNameUID == k;
      }
    }
  }

  /** Such a series comes about when a UUID is listed under another namespace than before... */
  lemma NamespaceChangeGoesStale(t: Tracking, c: Cycle, x: Series, i: nat)
    requires ValidCycle(c) && c.complete && x in t.sync.series
    requires i < |c.infos| && c.infos[i].podNameUID == x.uuid && c.infos[i].namespace != x.namespace
    ensures x in AfterCycle(t, c).sync.series
    ensures x.uuid in AfterCycle(t, c).tracked && AfterCycle(t, c).tracked[x.uuid] != x.namespace
  {
    NamespaceAt(c.infos, i);
    assert !Listed(c.infos, x.uuid, x.namespace);
    UnlistedSeries(t, c, x);
  }

  /** ... or when a UUID is first seen in a partial listing, and gone before a complete one. */
  lemma PartialListingGoesStale(t: Tracking, c: Cycle, i: nat)
    requires ValidCycle(c) && !c.complete && c.pods.Some? && i < |c.infos| && c.infos[i].podNameUID !in t.tracked
    requires var k := c.infos[i].podNameUID;
      HasPod(c.pods.value, k) && c.replies(k).limiterOk && c.replies(k).token.TokenError?
    ensures var x := Series(RenewTokenErrors, c.infos[i].podNameUID, c.infos[i].namespace);
      x in AfterCycle(t, c).sync.series && x.uuid !in AfterCycle(t, c).tracked
  {
    var k, ns := c.infos[i].podNameUID, c.infos[i].namespace;
    OnlyOwnMatters(t.sync, c.acts, k);
    PodOfIsLast(c.pods.value, k);
    var a, b := RenewToken(k, ns, TokenError), Fail(k);
    assert Own(c.acts, k) == [a] + [b];
    RunOfOne(t.sync, a, [b]);
    RunOfOne(Do(t.sync, a), b, []);
    assert [b] + [] == [b];
  }
}
