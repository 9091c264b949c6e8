/** The plugin's per-pod cache (pkg/nri/plugin.go, sweeper.go, prewarmer.go).

    `Plugin` has the program's lock-protected blocks as methods on its two maps. Around them
    stands a step machine: any number of callers, the single-flight slot of each pod UID and
    the evictors take their lock-protected blocks in any interleaving. */
module PluginCache {
  import opened Strings
  import opened Substitution

  type Uid = string
  type Caller = nat

  datatype Source = Prewarm | Sync

  /** The two maps behind the plugin's mutex. */
  datatype Store = Store(cache: map<Uid, Mapping>, source: map<Uid, Source>)

  function Put(s: Store, uid: Uid, m: Mapping, src: Source): Store {
    Store(s.cache[uid := m], s.source[uid := src])
  }

  function Without(s: Store, gone: set<Uid>): Store {
    Store(s.cache - gone, s.source - gone)
  }

  lemma WithoutNone(s: Store)
    ensures Without(s, {}) == s
  {
    assert s.cache - {} == s.cache && s.source - {} == s.source;
  }

  lemma WithoutAlso(s: Store, gone: set<Uid>, uid: Uid)
    ensures Without(Without(s, gone), {uid}) == Without(s, gone + {uid})
  {
    var t := Without(Without(s, gone), {uid});
    assert t.cache == s.cache - (gone + {uid});
    assert t.source == s.source - (gone + {uid});
  }

  class Plugin {
    var cache: map<Uid, Mapping>
    var cacheSource: map<Uid, Source>

    ghost function Contents(): Store
      reads this
    {
      Store(cache, cacheSource)
    }

    /** A plugin starts with what it loads from disk; such entries have no source. */
    constructor (loaded: map<Uid, Mapping>)
      ensures Contents() == Store(loaded, map[])
    {
      cache, cacheSource := loaded, map[];
    }

    /** The first block of resolveMappingWithSource. The source of a hit is None ("unknown")
        for an entry loaded from disk. */
    method Lookup(uid: Uid) returns (hit: Option<Mapping>, src: Option<Source>)
      ensures hit.Some? <==> uid in cache
      ensures hit.Some? ==> hit.value == cache[uid]
      ensures src == if uid in cache && uid in cacheSource then Some(cacheSource[uid]) else None
    {
      hit, src := None, None;
      if uid in cache {
        hit := Some(cache[uid]);
        if uid in cacheSource {
          src := Some(cacheSource[uid]);
        }
      }
    }

    /** The block that records a fetched mapping. */
    method Record(uid: Uid, m: Mapping, src: Source)
      modifies this
      ensures Contents() == Put(old(Contents()), uid, m, src)
      ensures cache == old(cache)[uid := m] && cacheSource == old(cacheSource)[uid := src]
    {
      cache := cache[uid := m];
      cacheSource := cacheSource[uid := src];
    }

    /** resolveMappingWithSource when no other caller or evictor is at work on the pod:
        `fetch` is what a fetch would give. */
    method Resolve(uid: Uid, src: Source, fetch: Outcome) returns (o: Outcome)
      modifies this
      ensures uid in old(cache) ==> o == Value(old(cache)[uid]) && Contents() == old(Contents())
      ensures uid !in old(cache) ==> o == fetch
      ensures uid !in old(cache) && fetch.Failed? ==> Contents() == old(Contents())
      ensures uid !in old(cache) && fetch.Value? ==>
        cache == old(cache)[uid := fetch.mapping] && cacheSource == old(cacheSource)[uid := src]
    {
      var hit, from := Lookup(uid);
      if hit.None? {
        hit, from := Lookup(uid);
      }
      if hit.Some? {
        return Value(hit.value);
      }
      if fetch.Value? {
        Record(uid, fetch.mapping, src);
      }
      return fetch;
    }

    method EvictCacheEntry(uid: Uid) returns (existed: bool)
      modifies this
      ensures existed == (uid in old(cache))
      ensures Contents() == Without(old(Contents()), {uid})
      ensures cache == old(cache) - {uid} && cacheSource == old(cacheSource) - {uid}
    {
      existed := uid in cache;
      Delete(uid);
    }

    /** The block shared by Synchronize and sweepOnce: evict every pod that is not live.
        Entries are visited in an arbitrary order. */
    method EvictUnlisted(live: set<Uid>) returns (evicted: nat)
      modifies this
      ensures Contents() == Without(old(Contents()), old(cache.Keys) - live)
      ensures evicted == |old(cache.Keys) - live|
    {
      evicted := 0;
      var todo := cache.Keys;
      ghost var keys, was, gone: set<Uid> := cache.Keys, Contents(), {};
      WithoutNone(was);
      while todo != {}
        invariant Visited(keys, todo, live, gone) && evicted == |gone|
        invariant Contents() == Without(was, gone)
        decreases |todo|
      {
        var uid :| uid in todo;
        VisitedNext(keys, todo, live, gone, uid);
        var n := EvictUnlessLive(uid, live, was, gone);
        todo, gone := todo - {uid}, gone + Dead(uid, live);
        evicted := evicted + n;
      }
    }

    method EvictUnlessLive(uid: Uid, live: set<Uid>, ghost was: Store, ghost gone: set<Uid>) returns (evicted: nat)
      requires Contents() == Without(was, gone)
      modifies this
      ensures evicted == |Dead(uid, live)|
      ensures Contents() == Without(was, gone + Dead(uid, live))
    {
      if uid in live {
        assert gone + {} == gone;
        return 0;
      }
      WithoutAlso(was, gone, uid);
      Delete(uid);
      return 1;
    }

    method Delete(uid: Uid)
      modifies this
      ensures Contents() == Without(old(Contents()), {uid})
    {
      cache := cache - {uid};
      cacheSource := cacheSource - {uid};
    }

    /** Synchronize, and sweepOnce after its listing, up to the save that follows. */
    method Synchronize(pods: seq<Uid>) returns (evicted: nat)
      modifies this
      ensures Contents() == Without(old(Contents()), old(cache.Keys) - Listed(pods))
      ensures evicted == |old(cache.Keys) - Listed(pods)|
      ensures forall uid :: uid in cache <==> uid in old(cache) && uid in pods
      ensures forall uid | uid in cache :: cache[uid] == old(cache)[uid]
      ensures forall uid :: uid in cacheSource <==> uid in old(cacheSource) && (uid in old(cache) ==> uid in pods)
      ensures forall uid | uid in cacheSource :: cacheSource[uid] == old(cacheSource)[uid]
    {
      var live := LiveSet(pods);
      evicted := EvictUnlisted(live);
    }

    /** A deep copy, made under the lock, for writing to disk. */
    method Snapshot() returns (out: map<Uid, Mapping>)
      ensures out == cache
    {
      out := map[];
      var todo := cache.Keys;
      while todo != {}
        invariant todo <= cache.Keys && out.Keys == cache.Keys - todo
        invariant forall uid | uid in out :: out[uid] == cache[uid]
        decreases |todo|
      {
        var uid :| uid in todo;
        var dup := Duplicate(cache[uid]);
        todo := todo - {uid};
        out := out[uid := dup];
      }
    }
  }

  /** `gone` are those of the keys visited so far that are not live. */
  predicate Visited(keys: set<Uid>, todo: set<Uid>, live: set<Uid>, gone: set<Uid>) {
    todo <= keys && gone == (keys - todo) - live
  }

  lemma VisitedNext(keys: set<Uid>, todo: set<Uid>, live: set<Uid>, gone: set<Uid>, uid: Uid)
    requires Visited(keys, todo, live, gone) && uid in todo
    ensures Visited(keys, todo - {uid}, live, gone + Dead(uid, live))
    ensures |gone + Dead(uid, live)| == |gone| + |Dead(uid, live)|
  {
    if uid in live {
      assert gone + Dead(uid, live) == gone;
    } else {
      assert gone !! {uid};
    }
  }

  function Dead(uid: Uid, live: set<Uid>): set<Uid> {
    if uid in live then {} else {uid}
  }

  method Duplicate(m: Mapping) returns (dup: Mapping)
    ensures dup == m
  {
    dup := map[];
    var todo := m.Keys;
    while todo != {}
      invariant todo <= m.Keys && dup.Keys == m.Keys - todo
      invariant forall k | k in dup :: dup[k] == m[k]
      decreases |todo|
    {
      var k :| k in todo;
      todo := todo - {k};
      dup := dup[k := m[k]];
    }
  }

  method LiveSet(pods: seq<Uid>) returns (live: set<Uid>)
    ensures live == Listed(pods)
  {
    live := {};
    for i := 0 to |pods|
      invariant live == Listed(pods[..i])
    {
      ListedOfNext(pods, i);
      live := live + {pods[i]};
    }
    assert pods[..|pods|] == pods;
  }

  function Listed(pods: seq<Uid>): set<Uid> {
    set i | 0 <= i < |pods| :: pods[i]
  }

  lemma ListedOfNext(pods: seq<Uid>, i: nat)
    requires i < |pods|
    ensures Listed(pods[..i + 1]) == Listed(pods[..i]) + {pods[i]}
  {
    forall u | u in Listed(pods[..i]) + {pods[i]} ensures u in Listed(pods[..i + 1]) {
      if u == pods[i] {
        assert pods[..i + 1][i] == u;
      } else {
        var j :| 0 <= j < i && pods[..i][j] == u;
        assert pods[..i + 1][j] == u;
      }
    }
  }

  // ---- The step machine ----

  datatype Outcome = Value(mapping: Mapping) | Failed

  datatype CallerState =
    | Idle
    | Missed(uid: Uid, src: Source)       // looked up, not found, not yet in the slot
    | Waiting(uid: Uid)                   // leader or follower of the slot
    | Returned(uid: Uid, outcome: Outcome)

  /** Where the leader of a slot is. */
  datatype Phase = Recheck | Fetching | Writing(m: Mapping) | Finishing(outcome: Outcome)

  datatype Flight = Flight(src: Source, phase: Phase)

  datatype Event =
    | Fetched(uid: Uid, m: Mapping)
    | Wrote(uid: Uid)
    | Evicted(gone: set<Uid>)             // entries that were there and no longer are

  datatype State = State(
    store: Store,
    flights: map<Uid, Flight>,
    callers: map<Caller, CallerState>,
    log: seq<Event>)

  datatype Step =
    | Call(c: Caller, uid: Uid, src: Source)
    | Join(c: Caller)
    | Check(uid: Uid)
    | FetchOk(uid: Uid, m: Mapping)
    | FetchFail(uid: Uid)
    | Write(uid: Uid)
    | Finish(uid: Uid)
    | Evict(uid: Uid)                     // RemovePodSandbox and the informer's delete
    | Sweep(live: set<Uid>)               // Synchronize and the sweeper
    | Leave(c: Caller)

  function Initial(loaded: map<Uid, Mapping>): State {
    State(Store(loaded, map[]), map[], map[], [])
  }

  function At(s: State, c: Caller): CallerState {
    if c in s.callers then s.callers[c] else Idle
  }

  predicate InPhase(s: State, uid: Uid, p: Phase) {
    uid in s.flights && s.flights[uid].phase == p
  }

  predicate Enabled(s: State, step: Step) {
    match step
    case Call(c, _, _) => At(s, c) == Idle
    case Join(c) => At(s, c).Missed?
    case Check(uid) => InPhase(s, uid, Recheck)
    case FetchOk(uid, _) => InPhase(s, uid, Fetching)
    case FetchFail(uid) => InPhase(s, uid, Fetching)
    case Write(uid) => uid in s.flights && s.flights[uid].phase.Writing?
    case Finish(uid) => uid in s.flights && s.flights[uid].phase.Finishing?
    case Evict(_) => true
    case Sweep(_) => true
    case Leave(c) => At(s, c).Returned?
  }

  function ToPhase(s: State, uid: Uid, p: Phase): State
    requires uid in s.flights
  {
    s.(flights := s.flights[uid := s.flights[uid].(phase := p)])
  }

  function Remove(s: State, gone: set<Uid>): State {
    s.(store := Without(s.store, gone), log := s.log + [Evicted(gone * s.store.cache.Keys)])
  }

  function Apply(s: State, step: Step): State
    requires Enabled(s, step)
  {
    match step
    case Call(c, uid, src) =>
      s.(callers := s.callers[c :=
        if uid in s.store.cache then Returned(uid, Value(s.store.cache[uid])) else Missed(uid, src)])
    case Join(c) =>
      var uid, src := At(s, c).uid, At(s, c).src;
      s.(callers := s.callers[c := Waiting(uid)],
         flights := if uid in s.flights then s.flights else s.flights[uid := Flight(src, Recheck)])
    case Check(uid) =>
      ToPhase(s, uid, if uid in s.store.cache then Finishing(Value(s.store.cache[uid])) else Fetching)
    case FetchOk(uid, m) => ToPhase(s, uid, Writing(m)).(log := s.log + [Fetched(uid, m)])
    case FetchFail(uid) => ToPhase(s, uid, Finishing(Failed))
    case Write(uid) =>
      var f := s.flights[uid];
      ToPhase(s, uid, Finishing(Value(f.phase.m))).(
        store := Put(s.store, uid, f.phase.m, f.src),
        log := s.log + [Wrote(uid)])
    case Finish(uid) =>
      var o := s.flights[uid].phase.outcome;
      s.(flights := s.flights - {uid},
         callers := map c | c in s.callers :: if s.callers[c] == Waiting(uid) then Returned(uid, o) else s.callers[c])
    case Evict(uid) => Remove(s, {uid})
    case Sweep(live) => Remove(s, s.store.cache.Keys - live)
    case Leave(c) => s.(callers := s.callers[c := Idle])
  }

  /** The states a sequence of steps goes through can all be taken. */
  ghost predicate Possible(s: State, steps: seq<Step>)
    decreases |steps|
  {
    steps == [] || (Enabled(s, steps[0]) && Possible(Apply(s, steps[0]), steps[1..]))
  }

  function Run(s: State, steps: seq<Step>): State
    requires Possible(s, steps)
    decreases |steps|
  {
    if steps == [] then s else Run(Apply(s, steps[0]), steps[1..])
  }

  // ---- The cycle of one pod UID ----

  datatype Cycle = Absent | Pending | Cached

  /** The cycle of `uid` as the log tells it; None if the log does not follow the cycle. */
  function Replay(start: Cycle, log: seq<Event>, uid: Uid): Option<Cycle> {
    if log == [] then Some(start)
    else
      match Replay(start, log[..|log| - 1], uid)
      case None => None
      case Some(at) => After(at, log[|log| - 1], uid)
  }

  function After(at: Cycle, e: Event, uid: Uid): Option<Cycle> {
    match e
    case Fetched(u, _) => if u != uid then Some(at) else if at == Absent then Some(Pending) else None
    case Wrote(u) => if u != uid then Some(at) else if at == Pending then Some(Cached) else None
    case Evicted(gone) => if uid !in gone then Some(at) else if at == Cached then Some(Absent) else None
  }

  function CycleOf(s: State, uid: Uid): Cycle {
    if uid in s.store.cache then Cached
    else if uid in s.flights && s.flights[uid].phase.Writing? then Pending
    else Absent
  }

  function StartOf(loaded: map<Uid, Mapping>, uid: Uid): Cycle {
    if uid in loaded then Cached else Absent
  }

  /** `m` was fetched for `uid`, or loaded under it. */
  ghost predicate Known(loaded: map<Uid, Mapping>, log: seq<Event>, uid: Uid, m: Mapping) {
    (uid in loaded && loaded[uid] == m) || Fetched(uid, m) in log
  }

  ghost predicate KnownOutcome(loaded: map<Uid, Mapping>, log: seq<Event>, uid: Uid, o: Outcome) {
    o.Value? ==> Known(loaded, log, uid, o.mapping)
  }

  ghost predicate KnownPhase(loaded: map<Uid, Mapping>, log: seq<Event>, uid: Uid, p: Phase) {
    && (p.Writing? ==> Known(loaded, log, uid, p.m))
    && (p.Finishing? ==> KnownOutcome(loaded, log, uid, p.outcome))
  }

  ghost predicate CacheIsKnown(loaded: map<Uid, Mapping>, s: State) {
    forall uid | uid in s.store.cache :: Known(loaded, s.log, uid, s.store.cache[uid])
  }

  ghost predicate FlightsAreKnown(loaded: map<Uid, Mapping>, s: State) {
    forall uid | uid in s.flights :: KnownPhase(loaded, s.log, uid, s.flights[uid].phase)
  }

  ghost predicate ReturnsAreKnownIn(loaded: map<Uid, Mapping>, s: State) {
    forall c | c in s.callers && s.callers[c].Returned? ::
      KnownOutcome(loaded, s.log, s.callers[c].uid, s.callers[c].outcome)
  }

  /** Every mapping in the state was fetched for, or loaded under, the UID it is used for. */
  ghost predicate OnlyKnown(loaded: map<Uid, Mapping>, s: State) {
    CacheIsKnown(loaded, s) && FlightsAreKnown(loaded, s) && ReturnsAreKnownIn(loaded, s)
  }

  /** A leader past its recheck has no entry beside it. */
  ghost predicate NoEntryWhileFetching(s: State) {
    forall uid | uid in s.flights && (s.flights[uid].phase.Fetching? || s.flights[uid].phase.Writing?) ::
      uid !in s.store.cache
  }

  ghost predicate LogIsTrue(loaded: map<Uid, Mapping>, s: State) {
    forall uid :: Replay(StartOf(loaded, uid), s.log, uid) == Some(CycleOf(s, uid))
  }

  ghost predicate WaitersHaveASlot(s: State) {
    forall c | c in s.callers && s.callers[c].Waiting? :: s.callers[c].uid in s.flights
  }

  ghost predicate Inv(loaded: map<Uid, Mapping>, s: State) {
    && s.store.source.Keys <= s.store.cache.Keys
    && NoEntryWhileFetching(s)
    && WaitersHaveASlot(s)
    && OnlyKnown(loaded, s)
    && LogIsTrue(loaded, s)
  }

  lemma KnownLater(loaded: map<Uid, Mapping>, log: seq<Event>, e: Event)
    ensures forall uid, m | Known(loaded, log, uid, m) :: Known(loaded, log + [e], uid, m)
  {
  }

  /** What is known stays known; a fetch adds its mapping. */
  lemma KnownNext(loaded: map<Uid, Mapping>, s: State, step: Step)
    requires Enabled(s, step)
    ensures forall uid, m | Known(loaded, s.log, uid, m) :: Known(loaded, Apply(s, step).log, uid, m)
    ensures step.FetchOk? ==> Known(loaded, Apply(s, step).log, step.uid, step.m)
  {
    var log := Apply(s, step).log;
    if log != s.log {
      KnownLater(loaded, s.log, log[|log| - 1]);
    }
    if step.FetchOk? {
      assert log[|s.log|] == Fetched(step.uid, step.m);
    }
  }

  lemma CacheStaysKnown(loaded: map<Uid, Mapping>, s: State, step: Step)
    requires OnlyKnown(loaded, s) && Enabled(s, step)
    ensures CacheIsKnown(loaded, Apply(s, step))
  {
    KnownNext(loaded, s, step);
  }

  lemma FlightsStayKnown(loaded: map<Uid, Mapping>, s: State, step: Step)
    requires OnlyKnown(loaded, s) && Enabled(s, step)
    ensures FlightsAreKnown(loaded, Apply(s, step))
  {
    KnownNext(loaded, s, step);
  }

  lemma ReturnsStayKnown(loaded: map<Uid, Mapping>, s: State, step: Step)
    requires OnlyKnown(loaded, s) && Enabled(s, step)
    ensures ReturnsAreKnownIn(loaded, Apply(s, step))
  {
    KnownNext(loaded, s, step);
  }

  lemma OnlyKnownKept(loaded: map<Uid, Mapping>, s: State, step: Step)
    requires OnlyKnown(loaded, s) && Enabled(s, step)
    ensures OnlyKnown(loaded, Apply(s, step))
  {
    CacheStaysKnown(loaded, s, step);
    FlightsStayKnown(loaded, s, step);
    ReturnsStayKnown(loaded, s, step);
  }

  lemma ReplayNext(start: Cycle, log: seq<Event>, e: Event, uid: Uid)
    ensures Replay(start, log + [e], uid)
         == (match Replay(start, log, uid) case None => None case Some(at) => After(at, e, uid))
  {
    assert (log + [e])[..|log|] == log;
  }

  lemma LogIsKeptTrue(loaded: map<Uid, Mapping>, s: State, step: Step)
    requires LogIsTrue(loaded, s) && NoEntryWhileFetching(s) && Enabled(s, step)
    ensures LogIsTrue(loaded, Apply(s, step))
  {
    var t := Apply(s, step);
    forall uid ensures Replay(StartOf(loaded, uid), t.log, uid) == Some(CycleOf(t, uid)) {
      assert Replay(StartOf(loaded, uid), s.log, uid) == Some(CycleOf(s, uid));
      if t.log != s.log {
        assert t.log == s.log + [t.log[|s.log|]];
        ReplayNext(StartOf(loaded, uid), s.log, t.log[|s.log|], uid);
      }
    }
  }

  lemma StepKeepsInv(loaded: map<Uid, Mapping>, s: State, step: Step)
    requires Inv(loaded, s) && Enabled(s, step)
    ensures Inv(loaded, Apply(s, step))
  {
    OnlyKnownKept(loaded, s, step);
    LogIsKeptTrue(loaded, s, step);
  }

  lemma {:induction false} RunKeepsInv(loaded: map<Uid, Mapping>, s: State, steps: seq<Step>)
    requires Inv(loaded, s) && Possible(s, steps)
    ensures Inv(loaded, Run(s, steps))
    decreases |steps|
  {
    if steps != [] {
      StepKeepsInv(loaded, s, steps[0]);
      RunKeepsInv(loaded, Apply(s, steps[0]), steps[1..]);
    }
  }

  /** What holds at every moment of every run of the plugin. */
  lemma EveryRun(loaded: map<Uid, Mapping>, steps: seq<Step>)
    requires Possible(Initial(loaded), steps)
    ensures Inv(loaded, Run(Initial(loaded), steps))
  {
    RunKeepsInv(loaded, Initial(loaded), steps);
  }

  // ---- What a log that follows the cycle says ----

  function Fetches(log: seq<Event>, uid: Uid): nat {
    if log == [] then 0
    else Fetches(log[..|log| - 1], uid) + (if log[|log| - 1].Fetched? && log[|log| - 1].uid == uid then 1 else 0)
  }

  function Evictions(log: seq<Event>, uid: Uid): nat {
    if log == [] then 0
    else Evictions(log[..|log| - 1], uid) + (if log[|log| - 1].Evicted? && uid in log[|log| - 1].gone then 1 else 0)
  }

  function One(b: bool): nat { if b then 1 else 0 }

  lemma {:induction false} CycleConserves(start: Cycle, log: seq<Event>, uid: Uid)
    requires start != Pending && Replay(start, log, uid).Some?
    ensures var end := Replay(start, log, uid).value;
      Fetches(log, uid) + One(start == Cached) == Evictions(log, uid) + One(end == Cached) + One(end == Pending)
  {
    if log != [] {
      CycleConserves(start, log[..|log| - 1], uid);
    }
  }

  /** Conservation, at every moment of every run and for each UID: successful fetches and
      the entry loaded from disk are matched by effective evictions, the entry cached now,
      and the mapping fetched but not yet written. */
  lemma Conservation(loaded: map<Uid, Mapping>, steps: seq<Step>, uid: Uid)
    requires Possible(Initial(loaded), steps)
    ensures var s := Run(Initial(loaded), steps);
      Fetches(s.log, uid) + One(uid in loaded)
      == Evictions(s.log, uid) + One(uid in s.store.cache)
         + One(uid in s.flights && s.flights[uid].phase.Writing?)
  {
    EveryRun(loaded, steps);
    var s := Run(Initial(loaded), steps);
    assert Replay(StartOf(loaded, uid), s.log, uid) == Some(CycleOf(s, uid));
    CycleConserves(StartOf(loaded, uid), s.log, uid);
  }

  lemma {:induction false} ReplayPrefix(start: Cycle, log: seq<Event>, n: nat, uid: Uid)
    requires n <= |log| && Replay(start, log, uid).Some?
    ensures Replay(start, log[..n], uid).Some?
  {
    if n == |log| {
      assert log[..n] == log;
    } else {
      ReplayPrefix(start, log[..|log| - 1], n, uid);
      assert log[..|log| - 1][..n] == log[..n];
    }
  }

  /** With no eviction after a fetch, the cycle stays past Absent. */
  lemma {:induction false} NoEvictionNoAbsence(start: Cycle, log: seq<Event>, i: nat, uid: Uid)
    requires i < |log| && log[i].Fetched? && log[i].uid == uid
    requires Replay(start, log, uid).Some?
    requires forall k | i < k < |log| :: !(log[k].Evicted? && uid in log[k].gone)
    ensures Replay(start, log, uid).value != Absent
  {
    if i < |log| - 1 {
      var before := log[..|log| - 1];
      assert forall k | 0 <= k < |before| :: before[k] == log[k];
      NoEvictionNoAbsence(start, before, i, uid);
    }
  }

  /** Between two successful fetches for a UID its entry was evicted. */
  lemma SecondFetchNeedsEviction(loaded: map<Uid, Mapping>, steps: seq<Step>, i: nat, j: nat, uid: Uid)
    requires Possible(Initial(loaded), steps)
    requires var log := Run(Initial(loaded), steps).log;
      i < j < |log| && log[i].Fetched? && log[i].uid == uid && log[j].Fetched? && log[j].uid == uid
    ensures var log := Run(Initial(loaded), steps).log;
      exists k :: i < k < j && log[k].Evicted? && uid in log[k].gone
  {
    EveryRun(loaded, steps);
    var s := Run(Initial(loaded), steps);
    var start := StartOf(loaded, uid);
    assert Replay(start, s.log, uid) == Some(CycleOf(s, uid));
    ReplayPrefix(start, s.log, j + 1, uid);
    ReplayPrefix(start, s.log, j, uid);
    assert s.log[..j + 1][..j] == s.log[..j];
    if forall k | i < k < j :: !(s.log[k].Evicted? && uid in s.log[k].gone) {
      NoEvictionNoAbsence(start, s.log[..j], i, uid);
    }
  }

  /** Whoever gets a mapping for a UID gets one fetched for it or loaded under it; and no
      caller waits on a slot nobody runs. */
  lemma ReturnsAreKnown(loaded: map<Uid, Mapping>, steps: seq<Step>, c: Caller)
    requires Possible(Initial(loaded), steps)
    ensures var s := Run(Initial(loaded), steps);
      && (At(s, c).Returned? && At(s, c).outcome.Value? ==>
            Known(loaded, s.log, At(s, c).uid, At(s, c).outcome.mapping))
      && (At(s, c).Waiting? ==> At(s, c).uid in s.flights)
  {
    EveryRun(loaded, steps);
  }

  // ---- From any state on ----

  /** `states` are the states that `steps` go through. */
  ghost predicate Trail(states: seq<State>, steps: seq<Step>) {
    && |states| == |steps| + 1
    && forall i | 0 <= i < |steps| :: Enabled(states[i], steps[i]) && states[i + 1] == Apply(states[i], steps[i])
  }

  lemma {:induction false} TrailRuns(states: seq<State>, steps: seq<Step>)
    requires Trail(states, steps)
    ensures Possible(states[0], steps) && Run(states[0], steps) == states[|steps|]
    decreases |steps|
  {
    if steps != [] {
      assert Enabled(states[0], steps[0]) && states[1] == Apply(states[0], steps[0]);
      forall i | 0 <= i < |steps[1..]|
        ensures Enabled(states[1..][i], steps[1..][i]) && states[1..][i + 1] == Apply(states[1..][i], steps[1..][i])
      {
        assert Enabled(states[i + 1], steps[i + 1]);
      }
      TrailRuns(states[1..], steps[1..]);
    }
  }

  /** Callers on the same slot: over any run until one of them makes another call, they wait
      together, and return together with the same outcome. */
  lemma {:induction false} WaitersShareTheOutcome(states: seq<State>, steps: seq<Step>, n: nat, uid: Uid, c: Caller,
                                                  d: Caller)
    requires Trail(states, steps) && n <= |steps|
    requires At(states[0], c) == At(states[0], d) == Waiting(uid)
    requires forall i | 0 <= i < n :: steps[i] != Leave(c) && steps[i] != Leave(d)
    ensures At(states[n], c) == At(states[n], d)
    ensures At(states[n], c) == Waiting(uid) || (At(states[n], c).Returned? && At(states[n], c).uid == uid)
  {
    if n > 0 {
      WaitersShareTheOutcome(states, steps, n - 1, uid, c, d);
      assert Enabled(states[n - 1], steps[n - 1]) && states[n] == Apply(states[n - 1], steps[n - 1]);
    }
  }

  // ---- A call with nobody else at work ----

  /** The evicting steps drop what the methods drop, and nothing else changes. */
  lemma EvictorsDrop(s: State, uid: Uid, live: set<Uid>)
    ensures var t := Apply(s, Sweep(live));
      && (forall u :: u in t.store.cache <==> u in s.store.cache && u in live)
      && (forall u | u in t.store.cache :: t.store.cache[u] == s.store.cache[u])
      && t.log == s.log + [Evicted(s.store.cache.Keys - live)] && t.flights == s.flights && t.callers == s.callers
    ensures var t := Apply(s, Evict(uid));
      && t.store.cache == s.store.cache - {uid}
      && t.log == s.log + [Evicted(s.store.cache.Keys * {uid})] && t.flights == s.flights && t.callers == s.callers
  {
    assert (s.store.cache.Keys - live) * s.store.cache.Keys == s.store.cache.Keys - live;
    assert {uid} * s.store.cache.Keys == s.store.cache.Keys * {uid};
  }

  /** What the steps of one call come to when nothing comes between them. */
  ghost predicate Alone(s: State, c: Caller, uid: Uid) {
    At(s, c) == Idle && uid !in s.flights && (forall d | d in s.callers :: s.callers[d] != Waiting(uid))
  }

  /** A hit is one step, after which the caller can call again. */
  lemma HitAlone(s: State, c: Caller, uid: Uid, src: Source)
    requires At(s, c) == Idle && uid in s.store.cache
    ensures Possible(s, [Call(c, uid, src)])
    ensures var t := s.(callers := s.callers[c := Returned(uid, Value(s.store.cache[uid]))]);
      Run(s, [Call(c, uid, src)]) == t && Enabled(t, Leave(c)) && At(Apply(t, Leave(c)), c) == Idle
  {
    assert [Call(c, uid, src)][1..] == [];
  }

  lemma {:induction false} RunOn(s: State, a: seq<Step>, b: seq<Step>)
    requires Possible(s, a) && Possible(Run(s, a), b)
    ensures Possible(s, a + b) && Run(s, a + b) == Run(Run(s, a), b)
    decreases |a|
  {
    if a == [] {
      assert a + b == b;
    } else {
      assert (a + b)[0] == a[0] && (a + b)[1..] == a[1..] + b;
      RunOn(Apply(s, a[0]), a[1..], b);
    }
  }

  /** The caller's slot is fetching. */
  function Leading(s: State, c: Caller, uid: Uid, src: Source, p: Phase): State {
    s.(flights := s.flights[uid := Flight(src, p)], callers := s.callers[c := Waiting(uid)])
  }

  lemma TakesSlot(s: State, c: Caller, uid: Uid, src: Source)
    requires Alone(s, c, uid) && uid !in s.store.cache
    ensures var steps := [Call(c, uid, src), Join(c), Check(uid)];
      Possible(s, steps) && Run(s, steps) == Leading(s, c, uid, src, Fetching)
  {
    ThreeSteps(s, Call(c, uid, src), Join(c), Check(uid));
  }

  lemma FreesSlot(s: State, c: Caller, uid: Uid, src: Source, o: Outcome)
    requires uid !in s.flights && forall d | d in s.callers :: s.callers[d] != Waiting(uid)
    ensures var t := Leading(s, c, uid, src, Finishing(o));
      Enabled(t, Finish(uid)) && Apply(t, Finish(uid)) == s.(callers := s.callers[c := Returned(uid, o)])
  {
    var t := Leading(s, c, uid, src, Finishing(o));
    assert Apply(t, Finish(uid)).flights == s.flights;
    assert Apply(t, Finish(uid)).callers == s.callers[c := Returned(uid, o)];
  }

  /** A miss takes the slot, checks again, fetches, writes and returns, and leaves what Resolve
      leaves: the two maps with the mapping and its source, and nothing else changed. */
  lemma MissAlone(s: State, c: Caller, uid: Uid, src: Source, m: Mapping)
    requires Alone(s, c, uid) && uid !in s.store.cache
    ensures var steps := [Call(c, uid, src), Join(c), Check(uid)] + [FetchOk(uid, m), Write(uid), Finish(uid)];
      && Possible(s, steps)
      && Run(s, steps)
         == State(Store(s.store.cache[uid := m], s.store.source[uid := src]), s.flights,
                  s.callers[c := Returned(uid, Value(m))], s.log + [Fetched(uid, m), Wrote(uid)])
  {
    TakesSlot(s, c, uid, src);
    FetchesAndWrites(s, c, uid, src, m);
    RunOn(s, [Call(c, uid, src), Join(c), Check(uid)], [FetchOk(uid, m), Write(uid), Finish(uid)]);
  }

  lemma FetchesAndWrites(s: State, c: Caller, uid: Uid, src: Source, m: Mapping)
    requires Alone(s, c, uid)
    ensures var t, steps := Leading(s, c, uid, src, Fetching), [FetchOk(uid, m), Write(uid), Finish(uid)];
      && Possible(t, steps)
      && Run(t, steps)
         == State(Store(s.store.cache[uid := m], s.store.source[uid := src]), s.flights,
                  s.callers[c := Returned(uid, Value(m))], s.log + [Fetched(uid, m), Wrote(uid)])
  {
    var led := Leading(s, c, uid, src, Fetching);
    var stored := s.(store := Put(s.store, uid, m, src), log := s.log + [Fetched(uid, m), Wrote(uid)]);
    WritesIt(s, c, uid, src, m);
    FreesSlot(stored, c, uid, src, Value(m));
    ThreeSteps(led, FetchOk(uid, m), Write(uid), Finish(uid));
  }

  lemma WritesIt(s: State, c: Caller, uid: Uid, src: Source, m: Mapping)
    ensures var led := Leading(s, c, uid, src, Fetching);
      var stored := s.(store := Put(s.store, uid, m, src), log := s.log + [Fetched(uid, m), Wrote(uid)]);
      && Enabled(led, FetchOk(uid, m)) && Enabled(Apply(led, FetchOk(uid, m)), Write(uid))
      && Apply(Apply(led, FetchOk(uid, m)), Write(uid)) == Leading(stored, c, uid, src, Finishing(Value(m)))
  {
    assert s.log + [Fetched(uid, m)] + [Wrote(uid)] == s.log + [Fetched(uid, m), Wrote(uid)];
  }

  lemma ThreeSteps(s: State, a: Step, b: Step, c: Step)
    requires Enabled(s, a) && Enabled(Apply(s, a), b) && Enabled(Apply(Apply(s, a), b), c)
    ensures Possible(s, [a, b, c]) && Run(s, [a, b, c]) == Apply(Apply(Apply(s, a), b), c)
  {
    assert [a, b, c][1..] == [b, c] && [b, c][1..] == [c] && [c][1..] == [];
    LastStep(Apply(Apply(s, a), b), c);
    assert Possible(Apply(s, a), [b, c]) && Run(Apply(s, a), [b, c]) == Run(Apply(Apply(s, a), b), [c]);
  }

  lemma LastStep(s: State, a: Step)
    requires Enabled(s, a)
    ensures Possible(s, [a]) && Run(s, [a]) == Apply(s, a)
  {
    assert [a][1..] == [];
  }

  /** A caller that missed, and whose entry has come in the meantime, gets it without a fetch. */
  lemma RecheckAlone(s: State, c: Caller, uid: Uid, src: Source)
    requires At(s, c) == Missed(uid, src) && uid in s.store.cache && uid !in s.flights
    requires forall d | d in s.callers :: s.callers[d] != Waiting(uid)
    ensures var steps := [Join(c), Check(uid), Finish(uid)];
      && Possible(s, steps)
      && Run(s, steps) == s.(callers := s.callers[c := Returned(uid, Value(s.store.cache[uid]))])
  {
    var o := Value(s.store.cache[uid]);
    assert Apply(Apply(s, Join(c)), Check(uid)) == Leading(s, c, uid, src, Finishing(o));
    FreesSlot(s, c, uid, src, o);
    ThreeSteps(s, Join(c), Check(uid), Finish(uid));
  }

  lemma FailsAndTells(s: State, c: Caller, uid: Uid, src: Source)
    requires Alone(s, c, uid)
    ensures var t, steps := Leading(s, c, uid, src, Fetching), [FetchFail(uid), Finish(uid)];
      Possible(t, steps) && Run(t, steps) == s.(callers := s.callers[c := Returned(uid, Failed)])
  {
    var led := Leading(s, c, uid, src, Fetching);
    assert Apply(led, FetchFail(uid)) == Leading(s, c, uid, src, Finishing(Failed));
    FreesSlot(s, c, uid, src, Failed);
    LastStep(Apply(led, FetchFail(uid)), Finish(uid));
    assert [FetchFail(uid), Finish(uid)][1..] == [Finish(uid)];
  }

  /** When the fetch fails, only the caller learns of it. */
  lemma FailAlone(s: State, c: Caller, uid: Uid, src: Source)
    requires Alone(s, c, uid) && uid !in s.store.cache
    ensures var steps := [Call(c, uid, src), Join(c), Check(uid)] + [FetchFail(uid), Finish(uid)];
      Possible(s, steps) && Run(s, steps) == s.(callers := s.callers[c := Returned(uid, Failed)])
  {
    TakesSlot(s, c, uid, src);
    FailsAndTells(s, c, uid, src);
    RunOn(s, [Call(c, uid, src), Join(c), Check(uid)], [FetchFail(uid), Finish(uid)]);
  }

  // ---- How old a returned mapping can be ----

  /** The slot is about to hand out a mapping that is no longer cached. */
  predicate Stale(s: State, uid: Uid) {
    && uid !in s.store.cache && uid in s.flights
    && s.flights[uid].phase.Finishing? && s.flights[uid].phase.outcome.Value?
  }

  predicate IsCached(s: State, uid: Uid, m: Mapping) {
    uid in s.store.cache && s.store.cache[uid] == m
  }

  ghost predicate WasCached(states: seq<State>, n: nat, uid: Uid, m: Mapping)
    requires n < |states|
  {
    exists i :: 0 <= i <= n && IsCached(states[i], uid, m)
  }

  /** A run that begins with a call of `c` for `uid`, up to its return. */
  ghost predicate OneCall(states: seq<State>, steps: seq<Step>, c: Caller, uid: Uid, src: Source) {
    && Trail(states, steps) && steps != [] && steps[0] == Call(c, uid, src)
    && forall i | 0 < i < |steps| :: steps[i] != Leave(c)
  }

  /** The call returns a mapping that was not cached at any time from the call on. */
  ghost predicate ReturnsEvicted(states: seq<State>, steps: seq<Step>, c: Caller, uid: Uid, src: Source) {
    && OneCall(states, steps, c, uid, src)
    && var end := At(states[|steps|], c);
      end.Returned? && end.outcome.Value? && !WasCached(states, |steps|, uid, end.outcome.mapping)
  }

  ghost predicate CanReturnEvicted(s: State, c: Caller, uid: Uid, src: Source) {
    exists states, steps :: ReturnsEvicted(states, steps, c, uid, src) && states[0] == s
  }

  /** What the call has seen after `n` steps, when it did not begin in a stale state. */
  ghost predicate Fresh(states: seq<State>, n: nat, c: Caller, uid: Uid)
    requires n < |states|
  {
    match At(states[n], c)
    case Idle => false
    case Missed(u, _) => u == uid && SlotIsFresh(states, n, uid)
    case Waiting(u) => u == uid && SlotIsFresh(states, n, uid)
    case Returned(u, o) => u == uid && (o.Value? ==> WasCached(states, n, uid, o.mapping))
  }

  ghost predicate SlotIsFresh(states: seq<State>, n: nat, uid: Uid)
    requires n < |states|
  {
    uid in states[n].flights ==>
      var p := states[n].flights[uid].phase;
      p.Finishing? && p.outcome.Value? ==> WasCached(states, n, uid, p.outcome.mapping)
  }

  lemma {:induction false} CallStaysFresh(states: seq<State>, steps: seq<Step>, n: nat, c: Caller, uid: Uid,
                                          src: Source)
    requires OneCall(states, steps, c, uid, src) && !Stale(states[0], uid) && 0 < n <= |steps|
    ensures Fresh(states, n, c, uid)
  {
    assert Enabled(states[n - 1], steps[n - 1]) && states[n] == Apply(states[n - 1], steps[n - 1]);
    if n == 1 {
      assert uid in states[0].store.cache ==> IsCached(states[0], uid, states[0].store.cache[uid]);
    } else {
      CallStaysFresh(states, steps, n - 1, c, uid, src);
      CachedLater(states, n - 1, uid);
      if !At(states[n - 1], c).Returned? {
        SlotStaysFresh(states, steps, n - 1, uid);
      }
    }
  }

  lemma SlotStaysFresh(states: seq<State>, steps: seq<Step>, n: nat, uid: Uid)
    requires Trail(states, steps) && n < |steps| && SlotIsFresh(states, n, uid)
    ensures SlotIsFresh(states, n + 1, uid)
  {
    CachedLater(states, n, uid);
    assert Enabled(states[n], steps[n]) && states[n + 1] == Apply(states[n], steps[n]);
    if steps[n] == Write(uid) || (steps[n] == Check(uid) && uid in states[n].store.cache) {
      assert IsCached(states[n + 1], uid, states[n + 1].store.cache[uid]);
    }
  }

  lemma CachedLater(states: seq<State>, n: nat, uid: Uid)
    requires n + 1 < |states|
    ensures forall m | WasCached(states, n, uid, m) :: WasCached(states, n + 1, uid, m)
    ensures uid in states[n + 1].store.cache ==> WasCached(states, n + 1, uid, states[n + 1].store.cache[uid])
  {
    assert uid in states[n + 1].store.cache ==> IsCached(states[n + 1], uid, states[n + 1].store.cache[uid]);
  }

  /** From a stale state the call can join the slot and get what it hands out. */
  lemma StaleCall(s: State, c: Caller, uid: Uid, src: Source)
    requires At(s, c) == Idle && Stale(s, uid)
    ensures CanReturnEvicted(s, c, uid, src)
  {
    var steps := [Call(c, uid, src), Join(c), Finish(uid)];
    var s1 := Apply(s, steps[0]);
    var s2 := Apply(s1, steps[1]);
    var states := [s, s1, s2, Apply(s2, steps[2])];
    assert forall i | 0 <= i <= 3 :: uid !in states[i].store.cache;
    assert ReturnsEvicted(states, steps, c, uid, src);
  }

  /** The exact condition: a call can return a mapping evicted before it if and only if it
      begins while the slot of its UID is about to hand out a mapping no longer cached. */
  lemma EvictedExactly(s: State, c: Caller, uid: Uid, src: Source)
    requires At(s, c) == Idle
    ensures CanReturnEvicted(s, c, uid, src) <==> Stale(s, uid)
  {
    if Stale(s, uid) {
      StaleCall(s, c, uid, src);
    } else if states, steps :| ReturnsEvicted(states, steps, c, uid, src) && states[0] == s {
      CallStaysFresh(states, steps, |steps|, c, uid, src);
      assert false;
    }
  }

  /** The plugin does get into such states: a caller that joins a slot between its write and
      its end gets what the slot fetched, though it was evicted before the call began. */
  lemma EvictedIsStillReturned(uid: Uid, m: Mapping) returns (before: seq<Step>, call: seq<Step>)
    ensures Possible(Initial(map[]), before) && Possible(Run(Initial(map[]), before), call)
    ensures var s := Run(Initial(map[]), before);
      && uid !in s.store.cache && At(s, 2) == Idle && Evicted({uid}) in s.log
      && call != [] && call[0] == Call(2, uid, Sync)
      && At(Run(s, call), 2) == Returned(uid, Value(m))
      && uid !in Run(s, call).store.cache
  {
    before := EvictedInFlight(uid, m);
    call := [Call(2, uid, Sync), Join(2), Finish(uid)];
    var s6 := Run(Initial(map[]), before);
    var s7 := Apply(s6, Call(2, uid, Sync));
    var s8 := Apply(s7, Join(2));
    TrailRuns([s6, s7, s8, Apply(s8, Finish(uid))], call);
  }

  lemma EvictedInFlight(uid: Uid, m: Mapping) returns (before: seq<Step>)
    ensures Possible(Initial(map[]), before)
    ensures Run(Initial(map[]), before)
         == State(Store(map[], map[]), map[uid := Flight(Sync, Finishing(Value(m)))], map[1 := Waiting(uid)],
                  [Fetched(uid, m), Wrote(uid), Evicted({uid})])
  {
    var fetch := FetchedInFlight(uid, m);
    var rest := [Write(uid), Evict(uid)];
    var s4 := Run(Initial(map[]), fetch);
    var s5 := AfterWrite(s4, uid, m);
    var s6 := AfterEviction(s5, uid);
    TrailRuns([s4, s5, s6], rest);
    RunAppend(Initial(map[]), fetch, rest);
    before := fetch + rest;
  }

  lemma FetchedInFlight(uid: Uid, m: Mapping) returns (steps: seq<Step>)
    ensures Possible(Initial(map[]), steps)
    ensures Run(Initial(map[]), steps)
         == State(Store(map[], map[]), map[uid := Flight(Sync, Writing(m))], map[1 := Waiting(uid)], [Fetched(uid, m)])
  {
    steps := [Call(1, uid, Sync), Join(1), Check(uid), FetchOk(uid, m)];
    var s0 := Initial(map[]);
    var s1 := Apply(s0, Call(1, uid, Sync));
    var s2 := Apply(s1, Join(1));
    var s3 := Apply(s2, Check(uid));
    var s4 := Apply(s3, FetchOk(uid, m));
    TrailRuns([s0, s1, s2, s3, s4], steps);
  }

  lemma {:induction false} RunAppend(s: State, a: seq<Step>, b: seq<Step>)
    requires Possible(s, a) && Possible(Run(s, a), b)
    ensures Possible(s, a + b) && Run(s, a + b) == Run(Run(s, a), b)
    decreases |a|
  {
    if a == [] {
      assert a + b == b;
    } else {
      assert (a + b)[1..] == a[1..] + b;
      RunAppend(Apply(s, a[0]), a[1..], b);
    }
  }

  lemma AfterWrite(s: State, uid: Uid, m: Mapping) returns (t: State)
    requires s.store == Store(map[], map[]) && s.flights == map[uid := Flight(Sync, Writing(m))]
    ensures Enabled(s, Write(uid)) && t == Apply(s, Write(uid))
    ensures t == s.(store := Store(map[uid := m], map[uid := Sync]),
                    flights := map[uid := Flight(Sync, Finishing(Value(m)))], log := s.log + [Wrote(uid)])
  {
    t := Apply(s, Write(uid));
  }

  lemma AfterEviction(s: State, uid: Uid) returns (t: State)
    requires s.store.cache.Keys == s.store.source.Keys == {uid}
    ensures t == Apply(s, Evict(uid))
    ensures t == s.(store := Store(map[], map[]), log := s.log + [Evicted({uid})])
  {
    t := Apply(s, Evict(uid));
    assert {uid} * s.store.cache.Keys == {uid};
    assert s.store.cache - {uid} == map[] && s.store.source - {uid} == map[];
  }
}
