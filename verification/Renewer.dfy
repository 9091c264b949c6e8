/** One renewal cycle over all KV entries (SyncAndCleanupTokens and the requests it makes,
    pkg/vault/handle_token.go): every entry is handled by a goroutine of its own, and the
    goroutines interleave at their requests. */
module Renewer {
  import opened Strings
  import opened Annotations
  import opened VaultRecords

  /** The six metric families the renewer writes per pod. */
  datatype Family = TokenExpiration | LeaseExpiration | RenewTokens | RenewTokenErrors | RenewLeases | RenewLeaseErrors

  datatype Series = Series(family: Family, uuid: string, namespace: string)

  datatype TokenReply = TokenRenewed(hasTtl: bool) | TokenNotFound | TokenError
  datatype LeaseReply = LeaseRenewed | LeaseNotFound | LeaseUnrecoverable | LeaseError

  /** What one entry's requests are answered. `tokenFound` tells a revocation from a
      "token to revoke not found", which counts as success. */
  datatype Replies = Replies(
    limiterOk: bool,
    token: TokenReply,
    lease: LeaseReply,
    tokenFound: bool,
    purge: Calls,
    store: Call)

  /** One atomic step of the goroutine for the entry `key`. */
  datatype Action =
    | RenewToken(key: string, namespace: string, tokenReply: TokenReply)
    | RenewLease(key: string, namespace: string, leaseReply: LeaseReply)
    | RevokeOrphan(key: string, namespace: string, token: Token, found: bool, call: Call)
    | DeleteDataOf(key: string, call: Call)
    | DeleteMetadataOf(key: string, call: Call)
    | Store(key: string, ki: KeyInfo, call: Call)
    | Flush(key: string, namespace: string)
    | Fail(key: string)

  datatype SyncState = SyncState(records: Records, series: set<Series>, failed: bool)

  function FlushedSeries(series: set<Series>, uuid: string, namespace: string): set<Series> {
    set x | x in series && !(x.uuid == uuid && x.namespace == namespace)
  }

  function TokenSeries(key: string, namespace: string, r: TokenReply): set<Series> {
    match r
    case TokenRenewed(hasTtl) =>
      {Series(RenewTokens, key, namespace)} + (if hasTtl then {Series(TokenExpiration, key, namespace)} else {})
    case TokenNotFound => {}
    case TokenError => {Series(RenewTokenErrors, key, namespace)}
  }

  function LeaseSeries(key: string, namespace: string, r: LeaseReply): set<Series> {
    match r
    case LeaseRenewed => {Series(RenewLeases, key, namespace), Series(LeaseExpiration, key, namespace)}
    case LeaseNotFound => {}
    case LeaseUnrecoverable => {Series(RenewLeaseErrors, key, namespace)}
    case LeaseError => {Series(RenewLeaseErrors, key, namespace)}
  }

  function Do(s: SyncState, a: Action): SyncState {
    match a
    case RenewToken(k, ns, r) => s.(series := s.series + TokenSeries(k, ns, r))
    case RenewLease(k, ns, r) => s.(series := s.series + LeaseSeries(k, ns, r))
    case RevokeOrphan(k, ns, t, found, c) =>
      s.(records := Revoked(s.records, t, c),
         series := if c.Works? && found then s.series - {Series(TokenExpiration, k, ns)} else s.series)
    case DeleteDataOf(k, c) => s.(records := DataDeleted(s.records, k, c))
    case DeleteMetadataOf(k, c) => s.(records := MetadataDeleted(s.records, k, c))
    case Store(k, ki, c) =>
      if c.Fails? then s
      else s.(records := s.records.(data := s.records.data[k := ki], metadata := s.records.metadata + {k}))
    case Flush(k, ns) => s.(series := FlushedSeries(s.series, k, ns))
    case Fail(_) => s.(failed := true)
  }

  function Run(s: SyncState, acts: seq<Action>): SyncState {
    if acts == [] then s else Do(Run(s, acts[..|acts| - 1]), acts[|acts| - 1])
  }

  lemma {:induction false} RunAppend(s: SyncState, a: seq<Action>, b: seq<Action>)
    ensures Run(s, a + b) == Run(Run(s, a), b)
  {
    if b == [] {
      assert a + b == a;
    } else {
      assert (a + b)[..|a + b| - 1] == a + b[..|b| - 1];
      RunAppend(s, a, b[..|b| - 1]);
    }
  }

  /** Which series a reply sets, and that a revocation drops the expiration of a token it found. */
  lemma SeriesOfReplies(s: SyncState, k: string, ns: string, t: TokenReply, l: LeaseReply, token: Token, found: bool,
                        c: Call, x: Series)
    ensures x in Do(s, RenewToken(k, ns, t)).series
       <==> x in s.series || (x.uuid == k && x.namespace == ns
              && ((x.family == RenewTokens && t.TokenRenewed?)
                  || (x.family == TokenExpiration && t == TokenRenewed(true))
                  || (x.family == RenewTokenErrors && t == TokenError)))
    ensures x in Do(s, RenewLease(k, ns, l)).series
       <==> x in s.series || (x.uuid == k && x.namespace == ns
              && (((x.family == RenewLeases || x.family == LeaseExpiration) && l == LeaseRenewed)
                  || (x.family == RenewLeaseErrors && (l == LeaseUnrecoverable || l == LeaseError))))
    ensures x in Do(s, RevokeOrphan(k, ns, token, found, c)).series
       <==> x in s.series && !(c == Works && found && x == Series(TokenExpiration, k, ns))
  {
  }

  // ---- What the goroutine of one entry does ----

  /** The pod an entry belongs to: the last listed one that reports its key. */
  function PodOf(pods: seq<PodInfo>, k: string): Option<PodInfo> {
    if pods == [] then None
    else if k in pods[|pods| - 1].uuids then Some(pods[|pods| - 1])
    else PodOf(pods[..|pods| - 1], k)
  }

  predicate Incomplete(ki: KeyInfo) { ki.serviceAccount == "" || ki.nodeName == "" || ki.podName == "" }

  function Completed(ki: KeyInfo, pod: PodInfo): KeyInfo {
    ki.(serviceAccount := pod.serviceAccount, podName := pod.podName, nodeName := pod.nodeName)
  }

  function PurgeSteps(ki: KeyInfo, r: Replies): seq<Action> {
    var k, ns := ki.podNameUID, ki.namespace;
    [RevokeOrphan(k, ns, ki.tokenID, r.tokenFound, r.purge.revoke), DeleteDataOf(k, r.purge.deleteData)]
    + RestOfPurge(ki, r)
  }

  function RestOfPurge(ki: KeyInfo, r: Replies): seq<Action> {
    var k, ns := ki.podNameUID, ki.namespace;
    if !r.purge.deleteData.Works? then [Fail(k)]
    else [DeleteMetadataOf(k, r.purge.deleteMetadata), if r.purge.deleteMetadata.Works? then Flush(k, ns) else Fail(k)]
  }

  function LeaseSteps(ki: KeyInfo, pod: PodInfo, r: Replies): seq<Action> {
    [RenewLease(ki.podNameUID, ki.namespace, r.lease)] + AfterLease(ki, pod, r)
  }

  function AfterLease(ki: KeyInfo, pod: PodInfo, r: Replies): seq<Action> {
    match r.lease
    case LeaseUnrecoverable => PurgeSteps(ki, r)
    case LeaseError => [Fail(ki.podNameUID)]
    case _ => if Incomplete(ki) then [Store(ki.podNameUID, Completed(ki, pod), r.store)] else []
  }

  function Program(ki: KeyInfo, pod: Option<PodInfo>, r: Replies): seq<Action> {
    var k := ki.podNameUID;
    if !r.limiterOk then [Fail(k)]
    else if pod.None? then [Flush(k, ki.namespace)]
    else [RenewToken(k, ki.namespace, r.token)]
         + if r.token.TokenError? then [Fail(k)] else LeaseSteps(ki, pod.value, r)
  }

  /** An entry's outcome, by its replies and by whether a listed pod has its key. */
  predicate Succeeds(found: bool, r: Replies) {
    && r.limiterOk
    && (found ==>
          && !r.token.TokenError? && !r.lease.LeaseError?
          && (r.lease.LeaseUnrecoverable? ==> r.purge.deleteData.Works? && r.purge.deleteMetadata.Works?))
  }

  lemma FailsUnlessSucceeds(ki: KeyInfo, pod: Option<PodInfo>, r: Replies)
    ensures Fail(ki.podNameUID) in Program(ki, pod, r) <==> !Succeeds(pod.Some?, r)
    ensures forall a | a in Program(ki, pod, r) :: BelongsTo(a, ki)
  {
    PurgeStepsFail(ki, r);
    if pod.Some? {
      LeaseStepsFail(ki, pod.value, r);
    }
  }

  /** The step is on the entry's own key and labels. */
  predicate BelongsTo(a: Action, ki: KeyInfo) {
    && a.key == ki.podNameUID
    && (a.RenewToken? || a.RenewLease? || a.Flush? || a.RevokeOrphan? ==> a.namespace == ki.namespace)
  }

  lemma PurgeStepsFail(ki: KeyInfo, r: Replies)
    ensures Fail(ki.podNameUID) in PurgeSteps(ki, r) <==> !(r.purge.deleteData.Works? && r.purge.deleteMetadata.Works?)
    ensures forall a | a in PurgeSteps(ki, r) :: BelongsTo(a, ki)
  {
  }

  lemma LeaseStepsFail(ki: KeyInfo, pod: PodInfo, r: Replies)
    ensures Fail(ki.podNameUID) in LeaseSteps(ki, pod, r)
       <==> r.lease.LeaseError?
            || (r.lease.LeaseUnrecoverable? && !(r.purge.deleteData.Works? && r.purge.deleteMetadata.Works?))
    ensures forall a | a in LeaseSteps(ki, pod, r) :: BelongsTo(a, ki)
  {
    PurgeStepsFail(ki, r);
    assert r.lease.LeaseUnrecoverable? ==>
        LeaseSteps(ki, pod, r) == [RenewLease(ki.podNameUID, ki.namespace, r.lease)] + PurgeSteps(ki, r);
  }

  /** For an entry whose pod is gone, no renewal, revocation or KV change is requested. */
  lemma GonePodsAreLeftAlone(ki: KeyInfo, r: Replies, a: Action)
    requires a in Program(ki, None, r)
    ensures a.Flush? || a.Fail?
  {
  }

  // ---- Interleavings ----

  /** The steps taken by one goroutine. */
  function Own(acts: seq<Action>, k: string): seq<Action> {
    if acts == [] then []
    else Own(acts[..|acts| - 1], k) + if acts[|acts| - 1].key == k then [acts[|acts| - 1]] else []
  }

  type Oracle = string -> Replies

  function ProgramOf(ki: KeyInfo, pods: seq<PodInfo>, replies: Oracle): seq<Action> {
    Program(ki, PodOf(pods, ki.podNameUID), replies(ki.podNameUID))
  }

  predicate DistinctKeys(infos: seq<KeyInfo>) {
    forall i, j | 0 <= i < j < |infos| :: infos[i].podNameUID != infos[j].podNameUID
  }

  ghost predicate HasKey(infos: seq<KeyInfo>, k: string) {
    exists i :: 0 <= i < |infos| && infos[i].podNameUID == k
  }

  /** `acts` is an interleaving of the programs of all the entries. */
  ghost predicate Interleaves(acts: seq<Action>, infos: seq<KeyInfo>, pods: seq<PodInfo>, replies: Oracle) {
    && (forall i | 0 <= i < |infos| :: Own(acts, infos[i].podNameUID) == ProgramOf(infos[i], pods, replies))
    && (forall k | !HasKey(infos, k) :: Own(acts, k) == [])
  }

  function Find<T>(m: map<string, T>, k: string): Option<T> {
    if k in m then Some(m[k]) else None
  }

  /** The two states look the same to the goroutine of `k`. */
  ghost predicate AgreeAt(s: SyncState, t: SyncState, k: string) {
    && Find(s.records.data, k) == Find(t.records.data, k)
    && (k in s.records.metadata <==> k in t.records.metadata)
    && forall x: Series | x.uuid == k :: x in s.series <==> x in t.series
  }

  lemma DoKeepsAgreement(s: SyncState, t: SyncState, a: Action, k: string)
    requires AgreeAt(s, t, k)
    ensures AgreeAt(Do(s, a), Do(t, a), k)
  {
  }

  lemma DoLeavesOthers(s: SyncState, a: Action, k: string)
    requires a.key != k
    ensures AgreeAt(s, Do(s, a), k)
  {
  }

  /** What happens at a key is decided by its own goroutine. */
  lemma {:induction false} OnlyOwnMatters(s: SyncState, acts: seq<Action>, k: string)
    ensures AgreeAt(Run(s, acts), Run(s, Own(acts, k)), k)
  {
    if acts != [] {
      var before, a := acts[..|acts| - 1], acts[|acts| - 1];
      OnlyOwnMatters(s, before, k);
      if a.key == k {
        assert Own(acts, k)[..|Own(acts, k)| - 1] == Own(before, k);
        DoKeepsAgreement(Run(s, before), Run(s, Own(before, k)), a, k);
      } else {
        assert Own(acts, k) == Own(before, k);
        DoLeavesOthers(Run(s, before), a, k);
      }
    }
  }

  function Killed(acts: seq<Action>): set<Token> {
    set a | a in acts && a.RevokeOrphan? && !a.call.Fails? :: a.token
  }

  lemma {:induction false} LiveAndFailed(s: SyncState, acts: seq<Action>)
    ensures Run(s, acts).records.live == s.records.live - Killed(acts)
    ensures Run(s, acts).failed <==> s.failed || exists a :: a in acts && a.Fail?
  {
    if acts != [] {
      var before, a := acts[..|acts| - 1], acts[|acts| - 1];
      LiveAndFailed(s, before);
      assert acts == before + [a];
    }
  }

  lemma {:induction false} OwnMembers(acts: seq<Action>, a: Action)
    ensures a in acts <==> a in Own(acts, a.key)
  {
    if acts != [] {
      OwnMembers(acts[..|acts| - 1], a);
      assert acts == acts[..|acts| - 1] + [acts[|acts| - 1]];
    }
  }

  lemma SameMembers(l1: seq<Action>, l2: seq<Action>)
    requires forall k :: Own(l1, k) == Own(l2, k)
    ensures forall a :: a in l1 <==> a in l2
  {
    forall a ensures a in l1 <==> a in l2 {
      OwnMembers(l1, a);
      OwnMembers(l2, a);
    }
  }

  lemma SameOwnSameResult(s: SyncState, l1: seq<Action>, l2: seq<Action>)
    requires forall k :: Own(l1, k) == Own(l2, k)
    ensures Run(s, l1) == Run(s, l2)
  {
    var t1, t2 := Run(s, l1), Run(s, l2);
    SameMembers(l1, l2);
    LiveAndFailed(s, l1);
    LiveAndFailed(s, l2);
    assert Killed(l1) == Killed(l2);
    forall k ensures AgreeAt(t1, t2, k) {
      OnlyOwnMatters(s, l1, k);
      OnlyOwnMatters(s, l2, k);
    }
    AgreeingStates(t1, t2);
  }

  lemma AgreeingStates(s: SyncState, t: SyncState)
    requires forall k :: AgreeAt(s, t, k)
    requires s.records.live == t.records.live && s.failed == t.failed
    ensures s == t
  {
    forall k ensures k in s.records.data <==> k in t.records.data {
      assert AgreeAt(s, t, k);
    }
    forall k | k in s.records.data ensures s.records.data[k] == t.records.data[k] {
      assert AgreeAt(s, t, k);
    }
    assert s.records.data == t.records.data;
    forall k ensures k in s.records.metadata <==> k in t.records.metadata {
      assert AgreeAt(s, t, k);
    }
    forall x: Series ensures x in s.series <==> x in t.series {
      assert AgreeAt(s, t, x.uuid);
    }
  }

  /** The order in which the goroutines take their steps does not matter: all interleavings
      end in the same state. */
  lemma OrderDoesNotMatter(s: SyncState, infos: seq<KeyInfo>, pods: seq<PodInfo>, replies: Oracle,
                           l1: seq<Action>, l2: seq<Action>)
    requires Interleaves(l1, infos, pods, replies) && Interleaves(l2, infos, pods, replies)
    ensures Run(s, l1) == Run(s, l2)
  {
    forall k ensures Own(l1, k) == Own(l2, k) {
      if HasKey(infos, k) {
        var i :| 0 <= i < |infos| && infos[i].podNameUID == k;
      }
    }
    SameOwnSameResult(s, l1, l2);
  }

  // ---- What is requested, spelled out ----

  ghost predicate HasPod(pods: seq<PodInfo>, k: string) {
    exists p :: p in pods && k in p.uuids
  }

  /** The last of the listed pods with the key. */
  ghost predicate IsLastWith(pods: seq<PodInfo>, k: string, p: PodInfo) {
    exists j :: 0 <= j < |pods| && pods[j] == p && k in p.uuids && forall l | j < l < |pods| :: k !in pods[l].uuids
  }

  lemma {:induction false} PodOfIsLast(pods: seq<PodInfo>, k: string)
    ensures PodOf(pods, k).Some? <==> HasPod(pods, k)
    ensures PodOf(pods, k).Some? ==> IsLastWith(pods, k, PodOf(pods, k).value)
  {
    if pods != [] {
      var before, last := pods[..|pods| - 1], pods[|pods| - 1];
      assert pods == before + [last];
      PodOfIsLast(before, k);
      if k !in last.uuids && HasPod(before, k) {
        var p := PodOf(before, k).value;
        var j :| 0 <= j < |before| && before[j] == p && k in p.uuids
                 && forall l | j < l < |before| :: k !in before[l].uuids;
        assert pods[j] == p && forall l | j < l < |pods| :: k !in pods[l].uuids;
      }
    }
  }

  /** The entry with its missing fields filled in from the pod; the others are kept. */
  predicate FilledIn(ki: KeyInfo, p: PodInfo, stored: KeyInfo) {
    stored == KeyInfo(ki.podNameUID, ki.leaseID, ki.tokenID, ki.namespace, p.serviceAccount, p.podName, p.nodeName)
  }

  predicate LacksSomething(ki: KeyInfo) { ki.serviceAccount == "" || ki.podName == "" || ki.nodeName == "" }

  /** The entry of key `k` gets as far as renewing its lease. */
  predicate ReachesLease(found: bool, r: Replies) { r.limiterOk && found && !r.token.TokenError? }

  /** The renewals and writes requested for the entry, in terms of the replies and of the pod found
      for it, if any. */
  ghost predicate Renewals(acts: seq<Action>, ki: KeyInfo, pod: Option<PodInfo>, r: Replies) {
    var k, lease := ki.podNameUID, ReachesLease(pod.Some?, r);
    && (forall n, x :: RenewToken(k, n, x) in acts <==> r.limiterOk && pod.Some? && n == ki.namespace && x == r.token)
    && (forall n, x :: RenewLease(k, n, x) in acts <==> lease && n == ki.namespace && x == r.lease)
    && (forall x, c :: Store(k, x, c) in acts
          <==> lease && (r.lease.LeaseRenewed? || r.lease.LeaseNotFound?) && LacksSomething(ki)
               && c == r.store && FilledIn(ki, pod.value, x))
  }

  /** The revocations and deletions, and when the entry's series are dropped. */
  ghost predicate Removals(acts: seq<Action>, ki: KeyInfo, found: bool, r: Replies) {
    var k, purge := ki.podNameUID, ReachesLease(found, r) && r.lease.LeaseUnrecoverable?;
    var purged := purge && r.purge.deleteData.Works? && r.purge.deleteMetadata.Works?;
    && (forall n, t, f, c :: RevokeOrphan(k, n, t, f, c) in acts
          <==> purge && n == ki.namespace && t == ki.tokenID && f == r.tokenFound && c == r.purge.revoke)
    && (forall c :: DeleteDataOf(k, c) in acts <==> purge && c == r.purge.deleteData)
    && (forall c :: DeleteMetadataOf(k, c) in acts
          <==> purge && r.purge.deleteData.Works? && c == r.purge.deleteMetadata)
    && (forall n :: Flush(k, n) in acts <==> n == ki.namespace && r.limiterOk && (!found || purged))
  }

  lemma InPurge(ki: KeyInfo, r: Replies, a: Action)
    ensures a in PurgeSteps(ki, r)
      <==> || a == RevokeOrphan(ki.podNameUID, ki.namespace, ki.tokenID, r.tokenFound, r.purge.revoke)
           || a == DeleteDataOf(ki.podNameUID, r.purge.deleteData)
           || a in RestOfPurge(ki, r)
  {
  }

  lemma InLeaseSteps(ki: KeyInfo, pod: PodInfo, r: Replies, a: Action)
    ensures a in LeaseSteps(ki, pod, r)
      <==> a == RenewLease(ki.podNameUID, ki.namespace, r.lease) || a in AfterLease(ki, pod, r)
  {
  }

  lemma PurgeRemovals(ki: KeyInfo, pod: PodInfo, r: Replies)
    requires r.limiterOk && !r.token.TokenError?
    ensures Removals(LeaseSteps(ki, pod, r), ki, true, r)
  {
    forall a ensures a in LeaseSteps(ki, pod, r)
      <==> a == RenewLease(ki.podNameUID, ki.namespace, r.lease) || a in AfterLease(ki, pod, r)
    {
      InLeaseSteps(ki, pod, r, a);
    }
    if r.lease.LeaseUnrecoverable? {
      PurgesExactly(ki, r);
    }
  }

  lemma PurgesExactly(ki: KeyInfo, r: Replies)
    requires ReachesLease(true, r) && r.lease.LeaseUnrecoverable?
    ensures Removals(PurgeSteps(ki, r), ki, true, r)
  {
    forall a ensures a in PurgeSteps(ki, r)
      <==> || a == RevokeOrphan(ki.podNameUID, ki.namespace, ki.tokenID, r.tokenFound, r.purge.revoke)
           || a == DeleteDataOf(ki.podNameUID, r.purge.deleteData)
           || a in RestOfPurge(ki, r)
    {
      InPurge(ki, r, a);
    }
  }

  lemma LeaseRenewals(ki: KeyInfo, pod: PodInfo, r: Replies)
    ensures var k, acts := ki.podNameUID, LeaseSteps(ki, pod, r);
      && (forall n, x :: RenewToken(k, n, x) !in acts)
      && (forall n, x :: RenewLease(k, n, x) in acts <==> n == ki.namespace && x == r.lease)
      && (forall x, c :: Store(k, x, c) in acts
            <==> (r.lease.LeaseRenewed? || r.lease.LeaseNotFound?) && LacksSomething(ki)
                 && c == r.store && FilledIn(ki, pod, x))
  {
    forall a ensures a in LeaseSteps(ki, pod, r)
      <==> a == RenewLease(ki.podNameUID, ki.namespace, r.lease) || a in AfterLease(ki, pod, r)
    {
      InLeaseSteps(ki, pod, r, a);
    }
    assert forall a | a in PurgeSteps(ki, r) :: !a.RenewToken? && !a.RenewLease? && !a.Store?;
  }

  lemma ProgramSteps(ki: KeyInfo, pod: Option<PodInfo>, r: Replies)
    ensures Renewals(Program(ki, pod, r), ki, pod, r) && Removals(Program(ki, pod, r), ki, pod.Some?, r)
  {
    if ReachesLease(pod.Some?, r) {
      LeaseRenewals(ki, pod.value, r);
      PurgeRemovals(ki, pod.value, r);
      var first, rest := RenewToken(ki.podNameUID, ki.namespace, r.token), LeaseSteps(ki, pod.value, r);
      assert Program(ki, pod, r) == [first] + rest;
      assert forall a :: a in Program(ki, pod, r) <==> a == first || a in rest;
    }
  }

  /** What a cycle requests for an entry, in every interleaving: its token is renewed exactly if
      a listed pod has its key, its lease exactly if that is not answered with an error, and the
      rest as the replies say; fields are filled in from the last listed pod with the key. */
  lemma EntryExactly(infos: seq<KeyInfo>, pods: seq<PodInfo>, replies: Oracle, acts: seq<Action>, i: nat)
      returns (pod: Option<PodInfo>)
    requires Interleaves(acts, infos, pods, replies) && i < |infos|
    ensures var ki := infos[i];
      && (pod.Some? <==> HasPod(pods, ki.podNameUID)) && (pod.Some? ==> IsLastWith(pods, ki.podNameUID, pod.value))
      && Renewals(acts, ki, pod, replies(ki.podNameUID))
      && Removals(acts, ki, pod.Some?, replies(ki.podNameUID))
  {
    var ki := infos[i];
    var k := ki.podNameUID;
    pod := PodOf(pods, k);
    PodOfIsLast(pods, k);
    ProgramSteps(ki, pod, replies(k));
    forall a: Action | a.key == k ensures a in acts <==> a in Program(ki, pod, replies(k)) {
      OwnMembers(acts, a);
    }
  }

  ghost predicate AllSucceed(infos: seq<KeyInfo>, pods: seq<PodInfo>, replies: Oracle) {
    forall i | 0 <= i < |infos| :: Succeeds(HasPod(pods, infos[i].podNameUID), replies(infos[i].podNameUID))
  }

  /** The result of a cycle is the conjunction of its entries' outcomes. */
  lemma ResultIsConjunction(s: SyncState, infos: seq<KeyInfo>, pods: seq<PodInfo>, replies: Oracle, acts: seq<Action>)
    requires Interleaves(acts, infos, pods, replies) && !s.failed
    ensures !Run(s, acts).failed <==> AllSucceed(infos, pods, replies)
  {
    LiveAndFailed(s, acts);
    forall i | 0 <= i < |infos|
      ensures Fail(infos[i].podNameUID) in acts
         <==> !Succeeds(HasPod(pods, infos[i].podNameUID), replies(infos[i].podNameUID))
    {
      PodOfIsLast(pods, infos[i].podNameUID);
      FailsUnlessSucceeds(infos[i], PodOf(pods, infos[i].podNameUID), replies(infos[i].podNameUID));
      OwnMembers(acts, Fail(infos[i].podNameUID));
    }
    forall a | a in acts ensures HasKey(infos, a.key) {
      OwnMembers(acts, a);
    }
  }

  /** Whatever the other goroutines do, an entry whose pod is gone stays as it was, and its
      token is not revoked on its account. */
  lemma GonePodsKeepTheirEntry(s: SyncState, infos: seq<KeyInfo>, pods: seq<PodInfo>, replies: Oracle,
                               acts: seq<Action>, i: nat)
    requires Interleaves(acts, infos, pods, replies) && i < |infos|
    requires !HasPod(pods, infos[i].podNameUID)
    ensures var k := infos[i].podNameUID;
      && Find(Run(s, acts).records.data, k) == Find(s.records.data, k)
      && (k in Run(s, acts).records.metadata <==> k in s.records.metadata)
      && forall a | a in acts && a.key == k :: a.Flush? || a.Fail?
  {
    var k := infos[i].podNameUID;
    PodOfIsLast(pods, k);
    OwnOnly(acts, k);
    forall a | a in acts && a.key == k ensures a.Flush? || a.Fail? {
      GonePodsAreLeftAlone(infos[i], replies(k), a);
    }
    UntouchedEntry(s, acts, k);
  }

  lemma {:induction false} UntouchedEntry(s: SyncState, acts: seq<Action>, k: string)
    requires forall a | a in acts && a.key == k :: a.Flush? || a.Fail?
    ensures Find(Run(s, acts).records.data, k) == Find(s.records.data, k)
    ensures k in Run(s, acts).records.metadata <==> k in s.records.metadata
  {
    if acts != [] {
      var before, a := acts[..|acts| - 1], acts[|acts| - 1];
      assert acts == before + [a];
      UntouchedEntry(s, before, k);
      LeavesEntry(Run(s, before), a, k);
    }
  }

  lemma LeavesEntry(s: SyncState, a: Action, k: string)
    requires a.key == k ==> a.Flush? || a.Fail?
    ensures Find(Do(s, a).records.data, k) == Find(s.records.data, k)
    ensures k in Do(s, a).records.metadata <==> k in s.records.metadata
  {
  }

  lemma OwnOnly(acts: seq<Action>, k: string)
    ensures forall a | a in acts && a.key == k :: a in Own(acts, k)
  {
    forall a | a in acts && a.key == k ensures a in Own(acts, k) {
      OwnMembers(acts, a);
    }
  }

  // ---- The program ----

  /** Dropping the six series one by one drops all that carry the pod's labels. */
  lemma SixFamilies(series: set<Series>, uuid: string, namespace: string)
    ensures FlushedSeries(series, uuid, namespace)
         == series - {Series(TokenExpiration, uuid, namespace)} - {Series(LeaseExpiration, uuid, namespace)}
                   - {Series(RenewTokens, uuid, namespace)} - {Series(RenewTokenErrors, uuid, namespace)}
                   - {Series(RenewLeases, uuid, namespace)} - {Series(RenewLeaseErrors, uuid, namespace)}
  {
    forall x: Series | x.uuid == uuid && x.namespace == namespace
      ensures x in {Series(TokenExpiration, uuid, namespace), Series(LeaseExpiration, uuid, namespace),
                    Series(RenewTokens, uuid, namespace), Series(RenewTokenErrors, uuid, namespace),
                    Series(RenewLeases, uuid, namespace), Series(RenewLeaseErrors, uuid, namespace)}
    {
      match x.family
      case TokenExpiration =>
      case LeaseExpiration =>
      case RenewTokens =>
      case RenewTokenErrors =>
      case RenewLeases =>
      case RenewLeaseErrors =>
    }
  }

  class Metrics {
    var series: set<Series>

    constructor ()
      ensures series == {}
    {
      series := {};
    }

    method Set(x: Series)
      modifies this
      ensures series == old(series) + {x}
    {
      series := series + {x};
    }

    method Flush(uuid: string, namespace: string)
      modifies this
      ensures series == FlushedSeries(old(series), uuid, namespace)
    {
      series := series - {Series(TokenExpiration, uuid, namespace)};
      series := series - {Series(LeaseExpiration, uuid, namespace)};
      series := series - {Series(RenewTokens, uuid, namespace)};
      series := series - {Series(RenewTokenErrors, uuid, namespace)};
      series := series - {Series(RenewLeases, uuid, namespace)};
      series := series - {Series(RenewLeaseErrors, uuid, namespace)};
      SixFamilies(old(series), uuid, namespace);
    }
  }

  ghost function StateOf(vault: Vault, metrics: Metrics, failed: bool): SyncState
    reads vault, metrics
  {
    SyncState(vault.Contents(), metrics.series, failed)
  }

  method RenewTokenCall(metrics: Metrics, k: string, ns: string, r: TokenReply) returns (ok: bool)
    modifies metrics
    ensures metrics.series == old(metrics.series) + TokenSeries(k, ns, r)
    ensures ok <==> !r.TokenError?
  {
    match r {
      case TokenNotFound =>
      case TokenError => metrics.Set(Series(RenewTokenErrors, k, ns));
      case TokenRenewed(hasTtl) =>
        metrics.Set(Series(RenewTokens, k, ns));
        if hasTtl {
          metrics.Set(Series(TokenExpiration, k, ns));
        }
    }
    ok := !r.TokenError?;
  }

  method RenewLeaseCall(metrics: Metrics, k: string, ns: string, r: LeaseReply)
    modifies metrics
    ensures metrics.series == old(metrics.series) + LeaseSeries(k, ns, r)
  {
    match r {
      case LeaseNotFound =>
      case LeaseRenewed =>
        metrics.Set(Series(RenewLeases, k, ns));
        metrics.Set(Series(LeaseExpiration, k, ns));
      case _ => metrics.Set(Series(RenewLeaseErrors, k, ns));
    }
  }

  /** The branch for an unrecoverable lease. */
  method PurgeEntry(vault: Vault, metrics: Metrics, ki: KeyInfo, r: Replies) returns (ok: bool)
    modifies vault, metrics
    ensures StateOf(vault, metrics, !ok) == Run(old(StateOf(vault, metrics, false)), PurgeSteps(ki, r))
  {
    var k, ns := ki.podNameUID, ki.namespace;
    ghost var s := StateOf(vault, metrics, false);
    var revoked := vault.RevokeOrphanToken(ki.tokenID, r.purge.revoke);
    if revoked && r.tokenFound {
      metrics.series := metrics.series - {Series(TokenExpiration, k, ns)};
    }
    ok := vault.DeleteData(k, r.purge);
    if ok {
      metrics.Flush(k, ns);
    }
    RunOfPurge(s, ki, r);
  }

  lemma RunOfTwo(s: SyncState, a: Action, b: Action, rest: seq<Action>)
    ensures Run(s, [a, b] + rest) == Run(Do(Do(s, a), b), rest)
  {
    RunAppend(s, [a, b], rest);
    RunOfOne(s, a, [b]);
    assert [a] + [b] == [a, b];
    RunOfOne(Do(s, a), b, []);
    assert [b] + [] == [b];
  }

  lemma RunOfOne(s: SyncState, a: Action, rest: seq<Action>)
    ensures Run(s, [a] + rest) == Run(Do(s, a), rest)
  {
    RunAppend(s, [a], rest);
    assert [a][..0] == [];
  }

  lemma RunOfLast(s: SyncState, a: Action)
    ensures Run(s, [a]) == Do(s, a)
  {
    assert [a][..0] == [];
  }

  lemma RunOfPurge(s: SyncState, ki: KeyInfo, r: Replies)
    ensures var k, ns := ki.podNameUID, ki.namespace;
      var revoked := Do(s, RevokeOrphan(k, ns, ki.tokenID, r.tokenFound, r.purge.revoke));
      Run(s, PurgeSteps(ki, r)) == DeletedBy(revoked, k, ns, r.purge)
  {
    var k, ns := ki.podNameUID, ki.namespace;
    var a, b := RevokeOrphan(k, ns, ki.tokenID, r.tokenFound, r.purge.revoke), DeleteDataOf(k, r.purge.deleteData);
    RunOfTwo(s, a, b, RestOfPurge(ki, r));
    RunOfRest(Do(s, a), ki, r);
  }

  /** The state after DeleteData and what follows it in a purge. */
  function DeletedBy(s: SyncState, k: string, ns: string, c: Calls): SyncState {
    if c.deleteData.Works? && c.deleteMetadata.Works?
    then SyncState(Deleted(s.records, k, c), FlushedSeries(s.series, k, ns), s.failed)
    else SyncState(Deleted(s.records, k, c), s.series, true)
  }

  lemma RunOfRest(s: SyncState, ki: KeyInfo, r: Replies)
    ensures Run(Do(s, DeleteDataOf(ki.podNameUID, r.purge.deleteData)), RestOfPurge(ki, r))
         == DeletedBy(s, ki.podNameUID, ki.namespace, r.purge)
  {
    var rest, t := RestOfPurge(ki, r), Do(s, DeleteDataOf(ki.podNameUID, r.purge.deleteData));
    if r.purge.deleteData.Works? {
      RunOfTwo(t, rest[0], rest[1], []);
      assert [rest[0], rest[1]] + [] == rest;
    } else {
      RunOfOne(t, rest[0], []);
      assert [rest[0]] + [] == rest;
    }
  }

  /** The goroutine for one entry, undisturbed. */
  method SyncEntry(vault: Vault, metrics: Metrics, ki: KeyInfo, pod: Option<PodInfo>, r: Replies) returns (ok: bool)
    modifies vault, metrics
    ensures StateOf(vault, metrics, !ok) == Run(old(StateOf(vault, metrics, false)), Program(ki, pod, r))
  {
    var k := ki.podNameUID;
    ghost var s := StateOf(vault, metrics, false);
    if !r.limiterOk {
      RunOfLast(s, Fail(k));
      return false;
    }
    if pod.None? {
      metrics.Flush(k, ki.namespace);
      RunOfLast(s, Flush(k, ki.namespace));
      return true;
    }
    ok := SyncToken(vault, metrics, ki, pod.value, r);
  }

  /** The part for an entry whose pod is listed. */
  method SyncToken(vault: Vault, metrics: Metrics, ki: KeyInfo, pod: PodInfo, r: Replies) returns (ok: bool)
    requires r.limiterOk
    modifies vault, metrics
    ensures StateOf(vault, metrics, !ok) == Run(old(StateOf(vault, metrics, false)), Program(ki, Some(pod), r))
  {
    var k := ki.podNameUID;
    ghost var s := StateOf(vault, metrics, false);
    ghost var rest := if r.token.TokenError? then [Fail(k)] else LeaseSteps(ki, pod, r);
    RunOfOne(s, RenewToken(k, ki.namespace, r.token), rest);
    ok := RenewTokenCall(metrics, k, ki.namespace, r.token);
    ghost var renewed := StateOf(vault, metrics, false);
    if ok {
      ok := SyncLease(vault, metrics, ki, pod, r);
    } else {
      RunOfLast(renewed, Fail(k));
    }
  }

  method SyncLease(vault: Vault, metrics: Metrics, ki: KeyInfo, pod: PodInfo, r: Replies) returns (ok: bool)
    modifies vault, metrics
    ensures StateOf(vault, metrics, !ok) == Run(old(StateOf(vault, metrics, false)), LeaseSteps(ki, pod, r))
  {
    var k := ki.podNameUID;
    ghost var s := StateOf(vault, metrics, false);
    RenewLeaseCall(metrics, k, ki.namespace, r.lease);
    ghost var renewed := StateOf(vault, metrics, false);
    ghost var rest := AfterLease(ki, pod, r);
    RunOfOne(s, RenewLease(k, ki.namespace, r.lease), rest);
    match r.lease {
      case LeaseUnrecoverable =>
        ok := PurgeEntry(vault, metrics, ki, r);
      case LeaseError =>
        ok := false;
        RunOfLast(renewed, Fail(k));
      case _ =>
        ok := true;
        if Incomplete(ki) {
          var _ := vault.StoreData(Completed(ki, pod), r.store);
          RunOfLast(renewed, Store(k, Completed(ki, pod), r.store));
        } else {
          assert rest == [];
        }
    }
  }

  method PodMap(pods: seq<PodInfo>) returns (m: map<string, PodInfo>)
    ensures forall k :: Find(m, k) == PodOf(pods, k)
  {
    m := map[];
    for i := 0 to |pods|
      invariant forall k :: Find(m, k) == PodOf(pods[..i], k)
    {
      assert pods[..i + 1][..i] == pods[..i];
      var uuids := pods[i].uuids;
      for j := 0 to |uuids|
        invariant forall k :: Find(m, k) == (if k in uuids[..j] then Some(pods[i]) else PodOf(pods[..i], k))
      {
        assert uuids[..j + 1] == uuids[..j] + [uuids[j]];
        m := m[uuids[j] := pods[i]];
      }
      assert uuids[..|uuids|] == uuids;
    }
    assert pods[..|pods|] == pods;
  }

  /** SyncAndCleanupTokens, with the goroutines run one after the other; `pods` is None when
      listing the pods fails. By `OrderDoesNotMatter` the result is that of any interleaving. */
  method SyncAndCleanupTokens(vault: Vault, metrics: Metrics, infos: seq<KeyInfo>, pods: Option<seq<PodInfo>>,
                              replies: Oracle)
      returns (ok: bool)
    requires DistinctKeys(infos)
    modifies vault, metrics
    ensures pods.None? ==> !ok && StateOf(vault, metrics, false) == old(StateOf(vault, metrics, false))
    ensures pods.Some? ==> forall acts | Interleaves(acts, infos, pods.value, replies) ::
      StateOf(vault, metrics, !ok) == Run(old(StateOf(vault, metrics, false)), acts)
    ensures pods.Some? ==> exists acts :: Interleaves(acts, infos, pods.value, replies)
    ensures pods.Some? ==> (ok <==> AllSucceed(infos, pods.value, replies))
  {
    if pods.None? {
      return false;
    }
    var podMap := PodMap(pods.value);
    ok := true;
    ghost var was, acts := StateOf(vault, metrics, false), [];
    for i := 0 to |infos|
      invariant StateOf(vault, metrics, !ok) == Run(was, acts)
      invariant Interleaves(acts, infos[..i], pods.value, replies)
    {
      var ki := infos[i];
      ghost var before := StateOf(vault, metrics, false);
      var entryOk := SyncEntry(vault, metrics, ki, Find(podMap, ki.podNameUID), replies(ki.podNameUID));
      ghost var program := ProgramOf(ki, pods.value, replies);
      RunAppend(was, acts, program);
      FailureIsKept(before, program, !ok);
      InterleavesNext(acts, infos, pods.value, replies, i);
      acts := acts + program;
      ok := ok && entryOk;
    }
    assert infos[..|infos|] == infos;
    SameForAll(was, acts, infos, pods.value, replies);
    ResultIsConjunction(was, infos, pods.value, replies, acts);
  }

  lemma SameForAll(s: SyncState, acts: seq<Action>, infos: seq<KeyInfo>, pods: seq<PodInfo>, replies: Oracle)
    requires Interleaves(acts, infos, pods, replies)
    ensures forall l | Interleaves(l, infos, pods, replies) :: Run(s, l) == Run(s, acts)
  {
    forall l | Interleaves(l, infos, pods, replies) ensures Run(s, l) == Run(s, acts) {
      OrderDoesNotMatter(s, infos, pods, replies, l, acts);
    }
  }

  /** Running one more program after an interleaving of the others. */
  lemma InterleavesNext(acts: seq<Action>, infos: seq<KeyInfo>, pods: seq<PodInfo>, replies: Oracle, n: nat)
    requires DistinctKeys(infos) && n < |infos| && Interleaves(acts, infos[..n], pods, replies)
    ensures Interleaves(acts + ProgramOf(infos[n], pods, replies), infos[..n + 1], pods, replies)
  {
    var program, key := ProgramOf(infos[n], pods, replies), infos[n].podNameUID;
    assert forall i | 0 <= i < n :: infos[..n][i] == infos[..n + 1][i];
    FailsUnlessSucceeds(infos[n], PodOf(pods, key), replies(key));
    assert !HasKey(infos[..n], key);
    forall i | 0 <= i <= n
      ensures Own(acts + program, infos[i].podNameUID) == ProgramOf(infos[i], pods, replies)
    {
      OwnNext(acts, program, key, infos[i].podNameUID);
      OwnBefore(acts, infos, pods, replies, n, i);
    }
    forall k | !HasKey(infos[..n + 1], k) ensures Own(acts + program, k) == [] {
      OwnNext(acts, program, key, k);
      assert infos[..n + 1][n].podNameUID == key;
      assert !HasKey(infos[..n], k);
    }
  }

  lemma OwnBefore(acts: seq<Action>, infos: seq<KeyInfo>, pods: seq<PodInfo>, replies: Oracle, n: nat, i: nat)
    requires n < |infos| && Interleaves(acts, infos[..n], pods, replies) && i <= n
    requires !HasKey(infos[..n], infos[n].podNameUID)
    ensures Own(acts, infos[i].podNameUID) == if i < n then ProgramOf(infos[i], pods, replies) else []
  {
    if i < n {
      assert infos[..n][i] == infos[i];
    }
  }

  lemma OwnNext(acts: seq<Action>, program: seq<Action>, key: string, k: string)
    requires forall a | a in program :: a.key == key
    ensures Own(acts + program, k) == Own(acts, k) + if k == key then program else []
  {
    OwnAppend(acts, program, k);
    OwnOfOneKey(program, key, k);
  }

  lemma {:induction false} OwnAppend(a: seq<Action>, b: seq<Action>, k: string)
    ensures Own(a + b, k) == Own(a, k) + Own(b, k)
  {
    if b == [] {
      assert a + b == a;
    } else {
      assert (a + b)[..|a + b| - 1] == a + b[..|b| - 1];
      OwnAppend(a, b[..|b| - 1], k);
    }
  }

  lemma {:induction false} OwnOfOneKey(acts: seq<Action>, key: string, k: string)
    requires forall a | a in acts :: a.key == key
    ensures Own(acts, k) == if k == key then acts else []
  {
    if acts != [] {
      assert acts == acts[..|acts| - 1] + [acts[|acts| - 1]];
      OwnOfOneKey(acts[..|acts| - 1], key, k);
    }
  }

  /** A failure noted before does not change what a program does otherwise. */
  lemma {:induction false} FailureIsKept(s: SyncState, acts: seq<Action>, failed: bool)
    ensures Run(s.(failed := failed || s.failed), acts) == Run(s, acts).(failed := failed || Run(s, acts).failed)
  {
    if acts != [] {
      FailureIsKept(s, acts[..|acts| - 1], failed);
    }
  }
}
