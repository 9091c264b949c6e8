/** The revoker's clean-up, one pass or event at a time (pkg/revoker/revoker.go,
    HandlePodDeletionToken in pkg/vault/handle_token.go). */
module Revoker {
  import opened Strings
  import opened Annotations
  import opened VaultRecords

  /** HandlePodDeletionToken on the entry `ki`. */
  function Handled(v: Records, ki: KeyInfo, c: Calls): Records {
    var w := Revoked(v, ki.tokenID, c.revoke);
    if c.revoke.Works? then Deleted(w, ki.podNameUID, c) else w
  }

  method HandlePodDeletionToken(vault: Vault, ki: KeyInfo, c: Calls) returns (ok: bool)
    modifies vault
    ensures vault.Contents() == Handled(old(vault.Contents()), ki, c)
    ensures ok <==> c == Calls(Works, Works, Works)
    ensures ok ==> ki.tokenID !in vault.live && ki.podNameUID !in vault.data && ki.podNameUID !in vault.metadata
    ensures c.revoke != Works ==> vault.data == old(vault.data) && vault.metadata == old(vault.metadata)
    ensures vault.live == (if c.revoke == Fails then old(vault.live) else old(vault.live) - {ki.tokenID})
  {
    var revoked := vault.RevokeOrphanToken(ki.tokenID, c.revoke);
    if !revoked {
      return false;
    }
    ok := vault.DeleteData(ki.podNameUID, c);
  }

  /** What handling all the entries under the keys `ks` leaves, in closed form. */
  function Cleaned(v: Records, ks: set<string>, f: Faults): Records {
    Records(
      v.live - RevokedTokens(v, ks, f),
      v.data - PurgedData(v, ks, f),
      v.metadata - PurgedMetadata(v, ks, f))
  }

  function RevokedTokens(v: Records, ks: set<string>, f: Faults): set<Token> {
    set k | k in ks && k in v.data && !f(k).revoke.Fails? :: v.data[k].tokenID
  }

  function PurgedData(v: Records, ks: set<string>, f: Faults): set<string> {
    set k | k in ks && k in v.data && f(k).revoke.Works? && !f(k).deleteData.Fails?
  }

  function PurgedMetadata(v: Records, ks: set<string>, f: Faults): set<string> {
    set k | k in ks && k in v.data && f(k).revoke.Works? && f(k).deleteData.Works? && !f(k).deleteMetadata.Fails?
  }

  /** Handling one more entry. */
  lemma CleanedNext(v: Records, ks: set<string>, k: string, f: Faults)
    requires WellFormed(v) && k in v.data && k !in ks
    ensures Handled(Cleaned(v, ks, f), v.data[k], f(k)) == Cleaned(v, ks + {k}, f)
  {
    var w, z := Handled(Cleaned(v, ks, f), v.data[k], f(k)), Cleaned(v, ks + {k}, f);
    assert w.live == z.live;
    PurgedNext(v, ks, k, f);
    assert w.data == z.data;
    assert w.metadata == z.metadata;
  }

  lemma PurgedNext(v: Records, ks: set<string>, k: string, f: Faults)
    requires k in v.data && k !in ks
    ensures PurgedData(v, ks + {k}, f)
         == PurgedData(v, ks, f) + if f(k).revoke.Works? && !f(k).deleteData.Fails? then {k} else {}
    ensures PurgedMetadata(v, ks + {k}, f)
         == PurgedMetadata(v, ks, f)
            + if f(k).revoke.Works? && f(k).deleteData.Works? && !f(k).deleteMetadata.Fails? then {k} else {}
  {
  }

  lemma CleanedNone(v: Records, ks: set<string>, f: Faults)
    requires ks !! v.data.Keys
    ensures Cleaned(v, ks, f) == v
  {
    assert PurgedData(v, ks, f) == {} == PurgedMetadata(v, ks, f) && RevokedTokens(v, ks, f) == {};
    assert v.data - {} == v.data;
  }

  function KeysOf(infos: seq<KeyInfo>): set<string> {
    set i | 0 <= i < |infos| :: infos[i].podNameUID
  }

  lemma KeysOfNext(infos: seq<KeyInfo>, i: nat)
    requires i < |infos|
    ensures KeysOf(infos[..i + 1]) == KeysOf(infos[..i]) + {infos[i].podNameUID}
  {
    assert infos[..i + 1] == infos[..i] + [infos[i]];
    assert infos[..i + 1][i] == infos[i];
    forall j | 0 <= j < i ensures infos[..i][j] == infos[..i + 1][j] {
    }
    forall k | k in KeysOf(infos[..i]) ensures k in KeysOf(infos[..i + 1]) {
      var j :| 0 <= j < i && infos[..i][j].podNameUID == k;
      assert infos[..i + 1][j].podNameUID == k;
    }
  }

  lemma KeysOfListing(infos: seq<KeyInfo>, data: map<string, KeyInfo>, readable: set<string>)
    requires Lists(infos, data, readable) && forall k | k in data :: data[k].podNameUID == k
    ensures KeysOf(infos) == data.Keys * readable
  {
    forall k | k in data.Keys * readable ensures k in KeysOf(infos) {
      assert data[k] in infos;
    }
  }

  /** The UUIDs of the listed pods, as a set. */
  function PodUuids(infos: seq<PodInfo>): set<string> {
    set i, k | 0 <= i < |infos| && k in infos[i].uuids :: k
  }

  method UuidSet(infos: seq<PodInfo>) returns (uuids: set<string>)
    ensures uuids == PodUuids(infos)
  {
    uuids := {};
    for i := 0 to |infos|
      invariant uuids == PodUuids(infos[..i])
    {
      var own := infos[i].uuids;
      for j := 0 to |own|
        invariant uuids == PodUuids(infos[..i]) + set k | k in own[..j]
      {
        uuids := uuids + {own[j]};
      }
      PodUuidsNext(infos, i);
      assert own[..|own|] == own;
    }
    assert infos[..|infos|] == infos;
  }

  lemma PodUuidsNext(infos: seq<PodInfo>, i: nat)
    requires i < |infos|
    ensures PodUuids(infos[..i + 1]) == PodUuids(infos[..i]) + set k | k in infos[i].uuids
  {
    forall k | k in PodUuids(infos[..i]) ensures k in PodUuids(infos[..i + 1]) {
      var j :| 0 <= j < i && k in infos[..i][j].uuids;
      assert infos[..i + 1][j] == infos[..i][j];
    }
    forall k | k in infos[i].uuids ensures k in PodUuids(infos[..i + 1]) {
      assert infos[..i + 1][i] == infos[i];
    }
  }

  /** The UUIDs of the pods in the API, whatever annotations they carry. */
  function LiveUuids(pods: seq<Pod>): set<string> {
    set i, k | 0 <= i < |pods| && k in ReportedUuids(pods[i].annotations, pods[i].uid) :: k
  }

  // ---- The pass, spelled out ----

  /** The key is the UID of one of the pods, or stands in its comma-separated uuid annotation. */
  predicate OwnedBySome(pods: seq<Pod>, k: string) {
    exists i :: 0 <= i < |pods| && IsKeyOf(k, pods[i])
  }

  /** The entries under a pod's UID and under the keys the plugin writes for it stay as they were,
      in both layers; a token of theirs dies only with an entry that no pod owns. */
  ghost predicate SparesRunning(before: Records, after: Records, pods: seq<Pod>) {
    forall p | p in pods ::
      && Spares(before, after, pods, p.uid)
      && forall i: nat :: Spares(before, after, pods, KvKey(p.annotations, p.uid, i))
  }

  ghost predicate Spares(before: Records, after: Records, pods: seq<Pod>, k: string) {
    && (k in before.metadata <==> k in after.metadata)
    && (k in before.data <==> k in after.data)
    && (k in before.data ==>
          && after.data[k] == before.data[k]
          && (before.data[k].tokenID in before.live && before.data[k].tokenID !in after.live ==>
                OrphanHas(before, pods, before.data[k].tokenID)))
  }

  /** An entry that no pod owns carries the token. */
  ghost predicate OrphanHas(v: Records, pods: seq<Pod>, t: Token) {
    exists o :: o in v.data && !OwnedBySome(pods, o) && v.data[o].tokenID == t
  }

  /** A readable entry that no pod owns is handled: its token is revoked unless that request fails
      without effect, and its data goes unless the revocation reports an error or the deletion
      fails without effect. */
  ghost predicate HandlesOrphans(before: Records, after: Records, pods: seq<Pod>, readable: set<string>, f: Faults) {
    forall k | k in before.data && k in readable && !OwnedBySome(pods, k) ::
      && (f(k).revoke != Fails ==> before.data[k].tokenID !in after.live)
      && (k in after.data <==> f(k).revoke != Works || f(k).deleteData == Fails)
      && (f(k) == Calls(Works, Works, Works) ==> k !in after.metadata)
  }

  lemma LiveAreOwned(pods: seq<Pod>, k: string)
    ensures k in LiveUuids(pods) <==> OwnedBySome(pods, k)
  {
    forall i | 0 <= i < |pods| ensures k in ReportedUuids(pods[i].annotations, pods[i].uid) <==> IsKeyOf(k, pods[i]) {
      ReportedAreKeys(pods[i]);
    }
  }

  lemma PassSpelledOut(v: Records, listed: bool, readable: set<string>, pods: seq<Pod>, f: Faults)
    requires WellFormed(v)
    ensures var w := Cleaned(v, Reachable(listed, readable) - LiveUuids(pods), f);
      && SparesRunning(v, w, pods)
      && HandlesOrphans(v, w, pods, if listed then readable else {}, f)
  {
    var ks := Reachable(listed, readable) - LiveUuids(pods);
    forall k ensures k in LiveUuids(pods) <==> OwnedBySome(pods, k) {
      LiveAreOwned(pods, k);
    }
    forall p | p in pods
      ensures Spares(v, Cleaned(v, ks, f), pods, p.uid)
      ensures forall i: nat :: Spares(v, Cleaned(v, ks, f), pods, KvKey(p.annotations, p.uid, i))
    {
      PodIsSpared(v, ks, pods, f, p);
    }
    OthersAreHandled(v, listed, readable, pods, f);
  }

  lemma PodIsSpared(v: Records, ks: set<string>, pods: seq<Pod>, f: Faults, p: Pod)
    requires p in pods && forall o | o in ks :: !OwnedBySome(pods, o)
    ensures Spares(v, Cleaned(v, ks, f), pods, p.uid)
    ensures forall i: nat :: Spares(v, Cleaned(v, ks, f), pods, KvKey(p.annotations, p.uid, i))
  {
    var j :| 0 <= j < |pods| && pods[j] == p;
    OwnedIsSpared(v, ks, pods, f, p.uid);
    forall i: nat ensures Spares(v, Cleaned(v, ks, f), pods, KvKey(p.annotations, p.uid, i)) {
      KvKeyIsReported(p.annotations, p.uid, i);
      ReportedAreKeys(p);
      OwnedIsSpared(v, ks, pods, f, KvKey(p.annotations, p.uid, i));
    }
  }

  lemma OwnedIsSpared(v: Records, ks: set<string>, pods: seq<Pod>, f: Faults, k: string)
    requires k !in ks && forall o | o in ks :: !OwnedBySome(pods, o)
    ensures Spares(v, Cleaned(v, ks, f), pods, k)
  {
    if k in v.data && v.data[k].tokenID in RevokedTokens(v, ks, f) {
      var o :| o in ks && o in v.data && v.data[o].tokenID == v.data[k].tokenID;
    }
  }

  lemma OthersAreHandled(v: Records, listed: bool, readable: set<string>, pods: seq<Pod>, f: Faults)
    requires forall k :: k in LiveUuids(pods) <==> OwnedBySome(pods, k)
    ensures HandlesOrphans(v, Cleaned(v, Reachable(listed, readable) - LiveUuids(pods), f), pods,
                           if listed then readable else {}, f)
  {
    var ks := Reachable(listed, readable) - LiveUuids(pods);
    forall k | k in v.data && k in (if listed then readable else {}) && !OwnedBySome(pods, k)
      ensures k in ks && (f(k).revoke != Fails ==> v.data[k].tokenID in RevokedTokens(v, ks, f))
    {
    }
  }

  /** safetyNetSync. `listed` tells whether listing the keys works, `readable` are the keys
      whose read works, `pods` the labelled pods, None when listing them fails. */
  method SafetyNetSync(vault: Vault, listed: bool, readable: set<string>, pods: Option<seq<Pod>>, f: Faults)
    requires WellFormed(vault.Contents())
    modifies vault
    ensures pods.None? || pods.value == [] ==> vault.Contents() == old(vault.Contents())
    ensures pods.Some? && pods.value != [] ==>
      vault.Contents() == Cleaned(old(vault.Contents()), Reachable(listed, readable) - LiveUuids(pods.value), f)
    ensures pods.Some? && pods.value != [] ==>
      && SparesRunning(old(vault.Contents()), vault.Contents(), pods.value)
      && HandlesOrphans(old(vault.Contents()), vault.Contents(), pods.value, if listed then readable else {}, f)
  {
    ghost var was := vault.Contents();
    if pods.Some? {
      PassSpelledOut(was, listed, readable, pods.value, f);
    }
    ghost var reachable := Reachable(listed, readable);
    var infos, _ := vault.ListKeyInfo(listed, readable);
    KeysOfListing(infos, vault.data, reachable);
    if infos == [] {
      if pods.Some? {
        CleanedNone(was, reachable - LiveUuids(pods.value), f);
      }
      return;
    }
    var podInfos := GetAllPodAndNamespace(pods);
    if podInfos.None? {
      return;
    }
    var uuids := UuidSet(podInfos.value);
    assert uuids == LiveUuids(pods.value);
    HandleOrphans(vault, infos, uuids, f);
    CleanedOnlyData(was, KeysOf(infos) - uuids, reachable - uuids, f);
  }

  /** The loop over the listing. */
  method HandleOrphans(vault: Vault, infos: seq<KeyInfo>, uuids: set<string>, f: Faults)
    requires WellFormed(vault.Contents())
    requires forall i | 0 <= i < |infos| ::
      infos[i].podNameUID in vault.data && vault.data[infos[i].podNameUID] == infos[i]
    requires forall i, j | 0 <= i < j < |infos| :: infos[i].podNameUID != infos[j].podNameUID
    modifies vault
    ensures vault.Contents() == Cleaned(old(vault.Contents()), KeysOf(infos) - uuids, f)
  {
    ghost var was := vault.Contents();
    CleanedNone(was, {}, f);
    for i := 0 to |infos|
      invariant vault.Contents() == Cleaned(was, KeysOf(infos[..i]) - uuids, f)
    {
      var ki := infos[i];
      KeysOfNext(infos, i);
      var done := KeysOf(infos[..i]) - uuids;
      if ki.podNameUID in uuids {
        assert KeysOf(infos[..i + 1]) - uuids == done;
      } else {
        assert KeysOf(infos[..i + 1]) - uuids == done + {ki.podNameUID};
        CleanedNext(was, done, ki.podNameUID, f);
        var _ := HandlePodDeletionToken(vault, ki, f(ki.podNameUID));
      }
    }
    assert infos[..|infos|] == infos;
  }

  lemma CleanedOnlyData(v: Records, a: set<string>, b: set<string>, f: Faults)
    requires a * v.data.Keys == b * v.data.Keys
    ensures Cleaned(v, a, f) == Cleaned(v, b, f)
  {
    assert forall k | k in v.data :: k in a * v.data.Keys <==> k in b * v.data.Keys;
  }

  // ---- One pass ----

  const NO_FAULTS: Faults := (k: string) => Calls(Works, Works, Works)

  /** A deleted entry's token is dead, whatever calls failed. */
  lemma DeletedEntryIsDead(v: Records, ks: set<string>, f: Faults, k: string)
    requires k in v.data && k !in Cleaned(v, ks, f).data
    ensures v.data[k].tokenID !in Cleaned(v, ks, f).live
  {
    assert k in PurgedData(v, ks, f);
  }

  /** No live token becomes untracked, whatever calls failed. */
  lemma LiveTokensStayTracked(v: Records, ks: set<string>, f: Faults, t: Token)
    requires t in Cleaned(v, ks, f).live
    ensures (exists k :: k in v.data && v.data[k].tokenID == t)
        ==> exists k :: k in Cleaned(v, ks, f).data && Cleaned(v, ks, f).data[k].tokenID == t
  {
    if k :| k in v.data && v.data[k].tokenID == t {
      if k !in Cleaned(v, ks, f).data {
        DeletedEntryIsDead(v, ks, f, k);
      }
    }
  }

  /** An entry remains for a later pass exactly when it was not handled, its token's
      revocation reported an error, or the deletion of its data did not take effect. */
  lemma WhatRemains(v: Records, ks: set<string>, f: Faults, k: string)
    requires k in v.data
    ensures k in Cleaned(v, ks, f).data <==> k !in ks || !f(k).revoke.Works? || f(k).deleteData.Fails?
    ensures k in Cleaned(v, ks, f).data ==> Cleaned(v, ks, f).data[k] == v.data[k]
  {
  }

  /** A fault-free pass over a complete listing leaves exactly the entries of live UUIDs, and
      the tokens of all others are dead. */
  lemma Converges(v: Records, readable: set<string>, uuids: set<string>)
    requires v.metadata <= readable && WellFormed(v)
    ensures var w := Cleaned(v, readable - uuids, NO_FAULTS);
      && w.data.Keys == v.data.Keys * uuids
      && (forall k | k in w.data :: w.data[k] == v.data[k])
      && (forall k | k in v.data && k !in uuids :: v.data[k].tokenID !in w.live && k !in w.metadata)
  {
    forall k | k in v.data && k !in uuids
      ensures v.data[k].tokenID in RevokedTokens(v, readable - uuids, NO_FAULTS)
    {
      assert k in readable - uuids;
    }
  }

  /** With the same pods, a second pass changes nothing. */
  lemma SecondPassIsIdle(v: Records, readable: set<string>, uuids: set<string>, again: set<string>, f: Faults)
    requires v.metadata <= readable && WellFormed(v)
    ensures var w := Cleaned(v, readable - uuids, NO_FAULTS); Cleaned(w, again - uuids, f) == w
  {
    Converges(v, readable, uuids);
    CleanedNone(Cleaned(v, readable - uuids, NO_FAULTS), again - uuids, f);
  }

  /** A partial listing only removes orphans that were listed. */
  lemma PartialListing(v: Records, readable: set<string>, uuids: set<string>, f: Faults, k: string)
    requires k in v.data && (k !in readable || k in uuids)
    ensures var w := Cleaned(v, readable - uuids, f);
      && k in w.data && w.data[k] == v.data[k]
      && (k in v.metadata <==> k in w.metadata)
      && (v.data[k].tokenID in v.live && v.data[k].tokenID !in w.live ==>
            exists o :: o in v.data && o in readable - uuids && v.data[o].tokenID == v.data[k].tokenID)
  {
  }

  // ---- Any history of passes ----

  /** One pass: the keys it could read, the live UUIDs, and the faults. */
  datatype Pass = Pass(readable: set<string>, uuids: set<string>, faults: Faults)

  function AfterPasses(v: Records, passes: seq<Pass>): Records {
    if passes == [] then v
    else
      var p := passes[|passes| - 1];
      Cleaned(AfterPasses(v, passes[..|passes| - 1]), p.readable - p.uuids, p.faults)
  }

  /** `w` is `v` with some of the entries outside `uuids` purged, and with some tokens of such
      entries revoked, among them those of the purged ones. */
  ghost predicate PartlyCleaned(v: Records, w: Records, uuids: set<string>) {
    && WellFormed(w) && w.data.Keys <= v.data.Keys && w.metadata <= v.metadata
    && (forall k | k in w.data :: w.data[k] == v.data[k])
    && (forall k | k in v.data && k in uuids :: k in w.data)
    && w.live <= v.live
    && (forall t | t in v.live && t !in w.live :: exists k :: k in v.data && k !in uuids && v.data[k].tokenID == t)
    && (forall k | k in v.data && k !in w.data :: v.data[k].tokenID !in w.live)
  }

  lemma PassCleansPartly(v: Records, w: Records, p: Pass, uuids: set<string>)
    requires PartlyCleaned(v, w, uuids) && uuids <= p.uuids
    ensures PartlyCleaned(v, Cleaned(w, p.readable - p.uuids, p.faults), uuids)
  {
    var z := Cleaned(w, p.readable - p.uuids, p.faults);
    forall t | t in w.live && t !in z.live
      ensures exists k :: k in v.data && k !in uuids && v.data[k].tokenID == t
    {
      var k :| k in p.readable - p.uuids && k in w.data && w.data[k].tokenID == t;
      assert k in v.data && v.data[k].tokenID == t;
    }
    forall k | k in w.data && k !in z.data ensures v.data[k].tokenID !in z.live {
      DeletedEntryIsDead(w, p.readable - p.uuids, p.faults, k);
    }
    assert z.data.Keys <= z.metadata by {
      assert PurgedMetadata(w, p.readable - p.uuids, p.faults) <= PurgedData(w, p.readable - p.uuids, p.faults);
    }
  }

  lemma {:induction false} PassesCleanPartly(v: Records, passes: seq<Pass>, uuids: set<string>)
    requires WellFormed(v) && forall p | p in passes :: uuids <= p.uuids
    ensures PartlyCleaned(v, AfterPasses(v, passes), uuids)
  {
    if passes != [] {
      PassesCleanPartly(v, passes[..|passes| - 1], uuids);
      assert passes[|passes| - 1] in passes;
      PassCleansPartly(v, AfterPasses(v, passes[..|passes| - 1]), passes[|passes| - 1], uuids);
    }
  }

  /** Convergence whatever happened before: after any number of passes with any faults and
      any partial listings, while pods only go away, one fault-free complete pass leaves the
      same entries and the same live tokens as if it had been the only one. */
  lemma HistoryDoesNotMatter(v: Records, passes: seq<Pass>, readable: set<string>, uuids: set<string>)
    requires WellFormed(v) && v.metadata <= readable
    requires forall p | p in passes :: uuids <= p.uuids
    ensures var w := Cleaned(AfterPasses(v, passes), readable - uuids, NO_FAULTS);
      var once := Cleaned(v, readable - uuids, NO_FAULTS);
      w.data == once.data && w.live == once.live
  {
    PassesCleanPartly(v, passes, uuids);
    var mid := AfterPasses(v, passes);
    var w, once := Cleaned(mid, readable - uuids, NO_FAULTS), Cleaned(v, readable - uuids, NO_FAULTS);
    Converges(v, readable, uuids);
    Converges(mid, readable, uuids);
    assert w.data == once.data;
    forall t ensures t in w.live <==> t in once.live {
      LiveAfterComplete(v, readable, uuids, t);
      LiveAfterComplete(mid, readable, uuids, t);
    }
  }

  ghost predicate OfOrphan(v: Records, uuids: set<string>, t: Token) {
    exists k :: k in v.data && k !in uuids && v.data[k].tokenID == t
  }

  lemma LiveAfterComplete(v: Records, readable: set<string>, uuids: set<string>, t: Token)
    requires v.metadata <= readable && WellFormed(v)
    ensures t in Cleaned(v, readable - uuids, NO_FAULTS).live <==> t in v.live && !OfOrphan(v, uuids, t)
  {
    if k :| k in v.data && k !in uuids && v.data[k].tokenID == t {
      assert k in readable - uuids;
    }
  }

  /** The metadata layer is another matter. When deleting the data works and deleting the
      metadata does not, the key stays in the metadata layer; the listing skips it from then
      on, so no later pass ever removes it. */
  lemma {:induction false} MetadataIsLeftBehind(v: Records, passes: seq<Pass>, k: string)
    requires k in v.metadata && k !in v.data
    ensures k in AfterPasses(v, passes).metadata && k !in AfterPasses(v, passes).data
  {
    if passes != [] {
      MetadataIsLeftBehind(v, passes[..|passes| - 1], k);
    }
  }

  /** The pass neither skips the entry nor fails on it before its data is gone. */
  predicate Purges(p: Pass, k: string) {
    k in p.readable - p.uuids && p.faults(k).revoke.Works? && !p.faults(k).deleteData.Fails?
  }

  /** Failed entries remain for retry, exactly: after any passes an entry is still there, as it
      was, if and only if none of them got through to deleting it. */
  lemma {:induction false} RetriedUntilPurged(v: Records, passes: seq<Pass>, k: string)
    requires k in v.data
    ensures k in AfterPasses(v, passes).data <==> forall p | p in passes :: !Purges(p, k)
    ensures k in AfterPasses(v, passes).data ==> AfterPasses(v, passes).data[k] == v.data[k]
  {
    if passes != [] {
      var before, last := passes[..|passes| - 1], passes[|passes| - 1];
      RetriedUntilPurged(v, before, k);
      var mid, ks := AfterPasses(v, before), last.readable - last.uuids;
      assert passes == before + [last];
      if k in mid.data {
        WhatRemains(mid, ks, last.faults, k);
        assert k in ks <==> k in last.readable - last.uuids;
        assert (forall p | p in passes :: !Purges(p, k)) <==> !Purges(last, k);
      } else {
        assert k !in Cleaned(mid, ks, last.faults).data;
      }
    }
  }

  /** Exactly when a pass leaves such a key behind. */
  lemma WhenMetadataIsLeft(v: Records, ks: set<string>, f: Faults, k: string)
    requires WellFormed(v) && k in v.data
    ensures k in Cleaned(v, ks, f).metadata && k !in Cleaned(v, ks, f).data
       <==> k in ks && f(k).revoke.Works?
            && (f(k).deleteData.LosesReply? || (f(k).deleteData.Works? && f(k).deleteMetadata.Fails?))
  {
  }

  // ---- Deleted events ----

  /** The loop over the UUIDs of a deleted pod; `readable` are the keys whose read works. */
  method DeletedEvent(vault: Vault, a: Annotations, readable: set<string>, f: Faults) returns (allOk: bool)
    requires WellFormed(vault.Contents())
    modifies vault
    ensures ANNOTATION_VAULT_POD_UUID !in a ==> vault.Contents() == old(vault.Contents()) && allOk
    ensures ANNOTATION_VAULT_POD_UUID in a ==>
      vault.Contents()
      == Cleaned(old(vault.Contents()), readable * Members(Split(a[ANNOTATION_VAULT_POD_UUID], ',')), f)
    ensures ANNOTATION_VAULT_POD_UUID in a && allOk ==>
      forall k | k in Split(a[ANNOTATION_VAULT_POD_UUID], ',') :: k !in vault.data && k in readable
    ensures forall k | k in old(vault.data) && !StampedWith(a, k) ::
      k in vault.data && vault.data[k] == old(vault.data)[k] && (k in old(vault.metadata) <==> k in vault.metadata)
  {
    allOk := true;
    assert ANNOTATION_VAULT_POD_UUID == "db-creds-injector.numberly.io/uuid";
    ghost var was := vault.Contents();
    if ANNOTATION_VAULT_POD_UUID !in a {
      return;
    }
    var uuids := Split(a[ANNOTATION_VAULT_POD_UUID], ',');
    CleanedNone(was, {}, f);
    for i := 0 to |uuids|
      invariant vault.Contents() == Cleaned(was, readable * Members(uuids[..i]), f)
      invariant allOk ==> forall j | 0 <= j < i :: uuids[j] !in vault.data && uuids[j] in readable
    {
      MembersNext(uuids, i, readable);
      var ok := DeletedUuid(vault, uuids[i], readable, f, was, readable * Members(uuids[..i]));
      allOk := allOk && ok;
    }
    assert uuids[..|uuids|] == uuids;
    OthersAreKept(was, readable * Members(uuids), f);
  }

  /** The key stands in the pod's comma-separated uuid annotation. */
  predicate StampedWith(a: Annotations, k: string) {
    "db-creds-injector.numberly.io/uuid" in a && k in Split(a["db-creds-injector.numberly.io/uuid"], ',')
  }

  lemma OthersAreKept(v: Records, ks: set<string>, f: Faults)
    ensures var w := Cleaned(v, ks, f);
      forall k | k in v.data && k !in ks ::
        k in w.data && w.data[k] == v.data[k] && (k in v.metadata <==> k in w.metadata)
  {
  }

  /** One round of the loop; the keys `done` are behind it. */
  method DeletedUuid(vault: Vault, k: string, readable: set<string>, f: Faults, ghost was: Records,
                     ghost done: set<string>) returns (ok: bool)
    requires WellFormed(was) && vault.Contents() == Cleaned(was, done, f)
    modifies vault
    ensures vault.Contents() == Cleaned(was, done + readable * {k}, f)
    ensures ok ==> k !in vault.data && k in readable
    ensures vault.data.Keys <= old(vault.data.Keys)
  {
    var r := vault.GetKeyInfo(k, readable);
    if r.ReadError? {
      assert done + readable * {k} == done;
      return false;
    }
    assert readable * {k} == {k};
    if r.Missing? {
      CleanedAgain(was, done, k, f);
      return true;
    }
    HandledNext(was, done, k, f);
    ok := HandlePodDeletionToken(vault, r.ki, f(k));
  }

  function Members(s: seq<string>): set<string> { set k | k in s }

  lemma MembersNext(s: seq<string>, i: nat, readable: set<string>)
    requires i < |s|
    ensures readable * Members(s[..i + 1]) == readable * Members(s[..i]) + readable * {s[i]}
  {
    assert s[..i + 1] == s[..i] + [s[i]];
  }

  /** A key whose data is gone adds nothing. */
  lemma CleanedAgain(v: Records, ks: set<string>, k: string, f: Faults)
    requires WellFormed(v) && k !in Cleaned(v, ks, f).data
    ensures Cleaned(v, ks + {k}, f) == Cleaned(v, ks, f)
  {
    if k in ks {
      assert ks + {k} == ks;
    } else {
      CleanedOnlyData(v, ks + {k}, ks, f);
    }
  }

  /** A key still there is handled, perhaps for a second time with the same faults. */
  lemma HandledNext(v: Records, ks: set<string>, k: string, f: Faults)
    requires WellFormed(v) && k in Cleaned(v, ks, f).data
    ensures Handled(Cleaned(v, ks, f), v.data[k], f(k)) == Cleaned(v, ks + {k}, f)
  {
    if k in ks {
      var w := Cleaned(v, ks, f);
      assert ks + {k} == ks;
      if !f(k).revoke.Fails? {
        assert v.data[k].tokenID in RevokedTokens(v, ks, f);
      }
      assert Revoked(w, v.data[k].tokenID, f(k).revoke).live == w.live;
      assert Deleted(w, k, f(k)).data == w.data || f(k).revoke != Works;
    } else {
      CleanedNext(v, ks, k, f);
    }
  }
}
