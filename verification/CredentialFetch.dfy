/** The plugin's fetch of a pod's credentials (fetchAndBuildMapping, pkg/nri/vault.go): what
    it returns, what it records, and which tokens it takes back. */
module CredentialFetch {
  import opened Strings
  import opened Sequences
  import opened Substitution
  import opened Annotations
  import opened ClassicDelivery
  import opened Delivery
  import opened Connectors
  import opened Accounts

  /** What Vault answers for one configuration: the tokens, and the credential if it can be
      read. */
  datatype Answer = Answer(replies: Replies, creds: Option<Creds>)

  type Oracle = nat -> Answer

  ghost predicate RealAnswers(answers: Oracle) { forall i :: RealTokens(answers(i).replies) }

  datatype Item = Item(conf: DbConfiguration, replies: Replies, creds: Option<Creds>)

  function Items(confs: seq<DbConfiguration>, answers: Oracle): seq<Item> {
    seq(|confs|, i requires 0 <= i < |confs| => Item(confs[i], answers(i).replies, answers(i).creds))
  }

  predicate LoggedIn(it: Item) { it.conf.role != "" && it.replies.login.Some? }

  predicate Completes(projected: bool, it: Item) {
    && LoggedIn(it)
    && (if projected then it.replies.book.Some? else it.replies.allowed && it.replies.orphan.Some?)
    && it.creds.Some?
  }

  function AllReplies(items: seq<Item>): seq<Replies> {
    seq(|items|, i requires 0 <= i < |items| => items[i].replies)
  }

  function Done(projected: bool, items: seq<Item>): seq<bool> {
    seq(|items|, i requires 0 <= i < |items| => Completes(projected, items[i]))
  }

  function Roles(items: seq<Item>): seq<bool> {
    seq(|items|, i requires 0 <= i < |items| => items[i].conf.role != "")
  }

  /** The tokens of all successful logins among the first `n`. */
  function SuccessfulLogins(items: seq<Item>, n: nat): seq<Token>
    requires n <= |items|
  {
    LoginsUpTo(AllReplies(items), Roles(items), n)
  }

  function LoginIn(it: Item): seq<Token> { LoginOf(it.replies, it.conf.role != "") }

  /** The record made of a configuration's credential: under the pod's key for it, with the
      token the credential was issued under. */
  function RecordOf(projected: bool, it: Item, key: string): seq<(string, Token)> {
    if Completes(projected, it)
    then [(key, if projected then it.replies.login.value else it.replies.orphan.value)] else []
  }

  function Records(projected: bool, items: seq<Item>, uuids: seq<string>, uid: string): seq<seq<(string, Token)>> {
    seq(|items|, i requires 0 <= i < |items| => RecordOf(projected, items[i], KeyAt(uuids, uid, i)))
  }

  function OrphanOf(projected: bool, it: Item): seq<Token> {
    if !projected && LoggedIn(it) && it.replies.allowed && it.replies.orphan.Some?
    then [it.replies.orphan.value] else []
  }

  function Orphans(projected: bool, items: seq<Item>): seq<seq<Token>> {
    seq(|items|, i requires 0 <= i < |items| => OrphanOf(projected, items[i]))
  }

  function Confs(items: seq<Item>): seq<DbConfiguration> {
    seq(|items|, i requires 0 <= i < |items| => items[i].conf)
  }

  function CredsOf(items: seq<Item>): seq<Creds> {
    seq(|items|, i requires 0 <= i < |items| => if items[i].creds.Some? then items[i].creds.value else Creds("", ""))
  }

  /** The placeholders of all the configurations with their values. */
  function MappingUpTo(items: seq<Item>, lines: seq<string>, n: nat): Mapping
    requires n <= |items|
  {
    MergedUpTo(Confs(items), CredsOf(items), lines, n)
  }

  // ---- The program ----

  datatype Requests = Requests(orphans: seq<Token>, stored: seq<(string, Token)>)

  ghost function Asked(ledger: Ledger): Requests
    reads ledger
  {
    Requests(ledger.orphans, ledger.stored)
  }

  function After(projected: bool, it: Item, key: string, was: Requests): Requests {
    Requests(was.orphans + OrphanOf(projected, it), was.stored + RecordOf(projected, it, key))
  }

  function AfterUpTo(projected: bool, items: seq<Item>, uuids: seq<string>, uid: string, n: nat,
                     was: Requests): Requests
    requires n <= |items|
  {
    Requests(
      Joined(was.orphans, Orphans(projected, items), n),
      Joined(was.stored, Records(projected, items, uuids, uid), n))
  }

  /** One round of the loop. The connector, once logged in, joins the live ones. With projected
      tokens it holds its login token. */
  method Fetch(ledger: Ledger, projected: bool, it: Item, key: string) returns (ok: bool, conn: seq<Connector>)
    requires RealTokens(it.replies)
    modifies ledger`orphans, ledger`stored
    ensures ok <==> Completes(projected, it)
    ensures projected ==> Hold(true, conn, LoginIn(it))
    ensures Asked(ledger) == After(projected, it, key, old(Asked(ledger)))
  {
    if it.conf.role == "" {
      return false, [];
    }
    var c := new Connector();
    ok := Login(c, it.replies.login);
    if !ok {
      return false, [];
    }
    conn := [c];
    if !projected {
      c.k8sSaVaultToken := c.vaultToken;
      if !it.replies.allowed {
        return false, conn;
      }
    } else {
      if it.replies.book.None? {
        return false, conn;
      }
      c.k8sSaVaultToken := it.replies.book.value;
    }
    ok := GetDbCredentials(c, ledger, key, projected, it.replies.orphan, it.creds.Some?);
  }

  /** The requests and, with projected tokens, the connectors after `n` rounds. */
  ghost predicate Accounted(ledger: Ledger, projected: bool, items: seq<Item>, uuids: seq<string>, uid: string,
                            n: nat, conns: seq<Connector>, was: Requests)
    requires n <= |items|
    reads ledger, conns
  {
    && (projected ==> Hold(true, conns, SuccessfulLogins(items, n)))
    && Asked(ledger) == AfterUpTo(projected, items, uuids, uid, n, was)
  }

  /** The first `n` rounds are done and accounted for. */
  ghost predicate Going(ledger: Ledger, projected: bool, items: seq<Item>, uuids: seq<string>, uid: string, n: nat,
                        conns: seq<Connector>, was: Requests)
    requires n <= |items|
    reads ledger, conns
  {
    FirstDone(Done(projected, items), n) && Accounted(ledger, projected, items, uuids, uid, n, conns, was)
  }

  /** What the loop ends with: success if every round was done, and the accounts of the rounds
      that were begun. */
  ghost predicate Ended(ledger: Ledger, projected: bool, items: seq<Item>, uuids: seq<string>, uid: string, ok: bool,
                        conns: seq<Connector>, was: Requests)
    reads ledger, conns
  {
    && (ok <==> AllDone(Done(projected, items)))
    && Accounted(ledger, projected, items, uuids, uid, Reached(Done(projected, items)), conns, was)
  }

  /** The loop over the configurations. */
  method FetchAll(ledger: Ledger, projected: bool, items: seq<Item>, uuids: seq<string>, uid: string,
                  initContainers: seq<Env>, containers: seq<Env>)
    returns (ok: bool, merged: Mapping, conns: seq<Connector>)
    requires AllReal(AllReplies(items))
    modifies ledger`orphans, ledger`stored
    ensures Ended(ledger, projected, items, uuids, uid, ok, conns, old(Asked(ledger)))
    ensures ok ==> IsMapping(merged, items, |items|, initContainers, containers)
  {
    merged, conns := map[], [];
    ghost var was := Asked(ledger);
    for i := 0 to |items|
      invariant IsMapping(merged, items, i, initContainers, containers)
      invariant Going(ledger, projected, items, uuids, uid, i, conns, was)
    {
      ok, conns := FetchNext(ledger, projected, items, uuids, uid, i, conns, was);
      if !ok {
        return;
      }
      merged := AddMapping(items, i, initContainers, containers, merged);
    }
    AllRoundsDone(ledger, projected, items, uuids, uid, conns, was);
    ok := true;
  }

  lemma AllRoundsDone(ledger: Ledger, projected: bool, items: seq<Item>, uuids: seq<string>, uid: string,
                      conns: seq<Connector>, was: Requests)
    requires Going(ledger, projected, items, uuids, uid, |items|, conns, was)
    ensures Ended(ledger, projected, items, uuids, uid, true, conns, was)
  {
    ReachedIs(Done(projected, items), |items|);
  }

  method FetchNext(ledger: Ledger, projected: bool, items: seq<Item>, uuids: seq<string>, uid: string, i: nat,
                   before: seq<Connector>, ghost was: Requests)
    returns (ok: bool, conns: seq<Connector>)
    requires i < |items| && AllReal(AllReplies(items))
    requires Going(ledger, projected, items, uuids, uid, i, before, was)
    modifies ledger`orphans, ledger`stored
    ensures ok ==> Going(ledger, projected, items, uuids, uid, i + 1, conns, was) && items[i].creds.Some?
    ensures !ok ==> Ended(ledger, projected, items, uuids, uid, false, conns, was)
  {
    ok, conns := FetchRound(ledger, projected, items, uuids, uid, i, before, was);
    RoundEnds(ledger, projected, items, uuids, uid, i, conns, was);
  }

  method FetchRound(ledger: Ledger, projected: bool, items: seq<Item>, uuids: seq<string>, uid: string, i: nat,
                    before: seq<Connector>, ghost was: Requests)
    returns (ok: bool, conns: seq<Connector>)
    requires i < |items| && AllReal(AllReplies(items))
    requires Accounted(ledger, projected, items, uuids, uid, i, before, was)
    modifies ledger`orphans, ledger`stored
    ensures ok <==> Completes(projected, items[i])
    ensures Accounted(ledger, projected, items, uuids, uid, i + 1, conns, was)
  {
    assert RealTokens(AllReplies(items)[i]);
    var conn;
    ok, conn := Fetch(ledger, projected, items[i], KeyAt(uuids, uid, i));
    if projected {
      HoldAppend(true, before, conn, SuccessfulLogins(items, i), LoginIn(items[i]));
    }
    conns := before + conn;
    LoginsNext(items, i);
    AfterNext(projected, items, uuids, uid, i, was);
  }

  lemma RoundEnds(ledger: Ledger, projected: bool, items: seq<Item>, uuids: seq<string>, uid: string, i: nat,
                  conns: seq<Connector>, was: Requests)
    requires i < |items| && FirstDone(Done(projected, items), i)
    requires Accounted(ledger, projected, items, uuids, uid, i + 1, conns, was)
    ensures if Completes(projected, items[i]) then Going(ledger, projected, items, uuids, uid, i + 1, conns, was)
            else Ended(ledger, projected, items, uuids, uid, false, conns, was)
  {
    OneMoreDone(Done(projected, items), i);
  }

  lemma LoginsNext(items: seq<Item>, i: nat)
    requires i < |items|
    ensures SuccessfulLogins(items, i + 1) == SuccessfulLogins(items, i) + LoginIn(items[i])
  {
  }

  lemma AfterNext(projected: bool, items: seq<Item>, uuids: seq<string>, uid: string, i: nat, was: Requests)
    requires i < |items|
    ensures After(projected, items[i], KeyAt(uuids, uid, i), AfterUpTo(projected, items, uuids, uid, i, was))
         == AfterUpTo(projected, items, uuids, uid, i + 1, was)
  {
  }

  /** `merged` is the mapping of the first `n` configurations. */
  ghost predicate IsMapping(merged: Mapping, items: seq<Item>, n: nat, initContainers: seq<Env>, containers: seq<Env>)
    requires n <= |items|
  {
    merged == MappingUpTo(items, AllLines(initContainers + containers), n)
  }

  method AddMapping(items: seq<Item>, i: nat, initContainers: seq<Env>, containers: seq<Env>, merged: Mapping)
    returns (out: Mapping)
    requires i < |items| && items[i].creds.Some? && IsMapping(merged, items, i, initContainers, containers)
    ensures IsMapping(out, items, i + 1, initContainers, containers)
  {
    var partial := BuildMapping(initContainers, containers, items[i].conf, items[i].creds.value);
    out := MergePartial(merged, partial);
  }

  method MergePartial(merged: Mapping, partial: Mapping) returns (out: Mapping)
    ensures out == merged + partial
  {
    out := merged;
    var todo := partial.Keys;
    NothingMerged(merged, partial);
    while todo != {}
      invariant PartlyMerged(out, merged, partial, todo)
      decreases |todo|
    {
      var ph :| ph in todo;
      MergedNext(out, merged, partial, todo, ph);
      todo := todo - {ph};
      out := out[ph := partial[ph]];
    }
    AllMerged(out, merged, partial);
  }

  predicate PartlyMerged(out: Mapping, merged: Mapping, partial: Mapping, todo: set<string>) {
    todo <= partial.Keys && out == merged + (partial - todo)
  }

  lemma NothingMerged(merged: Mapping, partial: Mapping)
    ensures PartlyMerged(merged, merged, partial, partial.Keys)
  {
  }

  lemma MergedNext(out: Mapping, merged: Mapping, partial: Mapping, todo: set<string>, ph: string)
    requires PartlyMerged(out, merged, partial, todo) && ph in todo
    ensures PartlyMerged(out[ph := partial[ph]], merged, partial, todo - {ph})
  {
  }

  lemma AllMerged(out: Mapping, merged: Mapping, partial: Mapping)
    requires PartlyMerged(out, merged, partial, {})
    ensures out == merged + partial
  {
    assert partial - {} == partial;
  }

  /** Whether the call gets as far as its configurations: only for a pod that is in the API
      under the sandbox's own UID. */
  predicate Begins(projected: bool, uid: string, got: Option<Pod>, ready: bool) {
    && got.Some? && got.value.uid == uid && (got.value.serviceAccount != "" || !projected)
    && (forall k | k in got.value.annotations :: !IsV1(k)) && ready
  }

  /** What the call comes to: its result, and what it asked for beyond `was` and `attempts`. */
  ghost predicate Outcome(projected: bool, uid: string, pod: Pod, items: seq<Item>, lines: seq<string>,
                          r: Option<Mapping>, attempts: seq<Token>, was: Requests, ledger: Ledger)
    reads ledger
  {
    var n := Reached(Done(projected, items));
    && (r.Some? <==> AllDone(Done(projected, items)) && MappingUpTo(items, lines, |items|) != map[])
    && (r.Some? ==> r.value == MappingUpTo(items, lines, |items|))
    && ledger.attempts == attempts + (if r.None? && projected then SuccessfulLogins(items, n) else [])
    && Asked(ledger) == AfterUpTo(projected, items, StampedUuids(pod.annotations, uid), uid, n, was)
  }

  /** fetchAndBuildMapping: None is an error. `got` is the pod read from the API under the
      sandbox's namespace and name, `ready` whether the tokens to log in with were obtained,
      `answers` what Vault answers for the i-th configuration. */
  method FetchAndBuildMapping(ledger: Ledger, projected: bool, uid: string, defaultEngine: string, got: Option<Pod>,
                              ready: bool, answers: Oracle, initContainers: seq<Env>, containers: seq<Env>)
    returns (r: Option<Mapping>)
    requires RealAnswers(answers)
    modifies ledger
    ensures (|| got.None? || got.value.uid != uid || (projected && got.value.serviceAccount == "") || !ready
             || exists k :: k in got.value.annotations && "db-creds-injector.numberly.io/revoke-ttl" <= k) ==>
      && r.None? && ledger.attempts == old(ledger.attempts)
      && ledger.orphans == old(ledger.orphans) && ledger.stored == old(ledger.stored)
    ensures !Begins(projected, uid, got, ready) ==>
      r.None? && ledger.attempts == old(ledger.attempts) && Asked(ledger) == old(Asked(ledger))
    ensures Begins(projected, uid, got, ready) ==> exists confs ::
      && IsParse(got.value.annotations, confs)
      && Outcome(projected, uid, got.value, Items(confs, answers), AllLines(initContainers + containers),
                 r, old(ledger.attempts), old(Asked(ledger)), ledger)
  {
    if got.None? || got.value.uid != uid || (got.value.serviceAccount == "" && projected) {
      return None;
    }
    assert ANNOTATION_V1 == "db-creds-injector.numberly.io/revoke-ttl";
    var parsed := GetPodDbConfig(got.value.annotations, defaultEngine);
    if parsed.V1AnnotationDetected? || !ready {
      return None;
    }
    var items := Items(parsed.confs, answers);
    assert forall i | 0 <= i < |items| :: AllReplies(items)[i] == answers(i).replies;
    r := FetchItems(ledger, projected, uid, got.value, items, initContainers, containers);
  }

  /** The part after parsing; without configurations it is an error at once. */
  method FetchItems(ledger: Ledger, projected: bool, uid: string, pod: Pod, items: seq<Item>,
                    initContainers: seq<Env>, containers: seq<Env>)
    returns (r: Option<Mapping>)
    requires AllReal(AllReplies(items))
    modifies ledger
    ensures Outcome(projected, uid, pod, items, AllLines(initContainers + containers),
                    r, old(ledger.attempts), old(Asked(ledger)), ledger)
  {
    if items == [] {
      return None;
    }
    var uuids := StampedUuids(pod.annotations, uid);
    var ok, merged, conns := FetchAll(ledger, projected, items, uuids, uid, initContainers, containers);
    if !ok || merged == map[] {
      if projected {
        RealLogins(items, Reached(Done(projected, items)));
        CleanUp(ledger, true, conns, SuccessfulLogins(items, Reached(Done(projected, items))));
      }
      return None;
    }
    return Some(merged);
  }

  lemma RealLogins(items: seq<Item>, n: nat)
    requires n <= |items| && AllReal(AllReplies(items))
    ensures NonEmpty(SuccessfulLogins(items, n)) == SuccessfulLogins(items, n)
  {
    LoginsAreReal(AllReplies(items), Roles(items), n);
    NonEmptyOfAll(SuccessfulLogins(items, n));
  }

  // ---- The outcome, spelled out ----

  /** The configuration gets as far as its credential. */
  predicate GoesThrough(projected: bool, it: Item) {
    && it.conf.role != "" && it.replies.login.Some? && it.creds.Some?
    && (projected ==> it.replies.book.Some?)
    && (!projected ==> it.replies.allowed && it.replies.orphan.Some?)
  }

  /** All configurations before the `i`-th go through. */
  predicate Begun(projected: bool, items: seq<Item>, i: nat) {
    i < |items| && forall e | 0 <= e < i :: GoesThrough(projected, items[e])
  }

  /** On an error with projected tokens exactly the tokens of the successful logins of the
      configurations that were begun are taken back; otherwise none is. */
  ghost predicate TakesBack(projected: bool, items: seq<Item>, failed: bool, taken: seq<Token>) {
    forall t :: t in taken <==>
      && failed && projected
      && exists i: nat :: Begun(projected, items, i) && items[i].conf.role != "" && items[i].replies.login == Some(t)
  }

  /** What is recorded: for each configuration that goes through, after all before it did, the
      token its credential was issued under, under the pod's key for it. */
  ghost predicate RecordsMade(projected: bool, items: seq<Item>, a: Annotations, uid: string,
                              added: seq<(string, Token)>) {
    forall k, t :: (k, t) in added <==> exists i: nat ::
      Begun(projected, items, i) && k == KvKey(a, uid, i) && IssuedUnder(projected, items[i], t)
  }

  predicate IssuedUnder(projected: bool, it: Item, t: Token) {
    GoesThrough(projected, it) && Some(t) == if projected then it.replies.login else it.replies.orphan
  }

  lemma BegunIsReached(projected: bool, items: seq<Item>, i: nat)
    requires i < |items|
    ensures Begun(projected, items, i) <==> i < Reached(Done(projected, items))
  {
    BegunExactly(Done(projected, items), i);
    assert forall e | 0 <= e < i :: Done(projected, items)[e] == GoesThrough(projected, items[e]);
  }

  /** It succeeds exactly if every configuration goes through and some placeholder matches. */
  lemma OutcomeSpelledOut(projected: bool, uid: string, pod: Pod, items: seq<Item>, lines: seq<string>,
                          r: Option<Mapping>, attempts: seq<Token>, was: Requests, ledger: Ledger)
    requires Outcome(projected, uid, pod, items, lines, r, attempts, was, ledger)
    ensures r.Some? <==>
      (forall i | 0 <= i < |items| :: GoesThrough(projected, items[i])) && MappingUpTo(items, lines, |items|) != map[]
    ensures attempts <= ledger.attempts && was.stored <= ledger.stored
    ensures TakesBack(projected, items, r.None?, ledger.attempts[|attempts|..])
    ensures RecordsMade(projected, items, pod.annotations, uid, ledger.stored[|was.stored|..])
  {
    var n, uuids := Reached(Done(projected, items)), StampedUuids(pod.annotations, uid);
    assert forall i | 0 <= i < |items| :: Done(projected, items)[i] == GoesThrough(projected, items[i]);
    JoinedAfter(was.stored, Records(projected, items, uuids, uid), n);
    if projected {
      LoginsSpelledOut(items);
    }
    RecordsSpelledOut(projected, items, pod.annotations, uid);
  }

  lemma LoginsSpelledOut(items: seq<Item>)
    ensures TakesBack(true, items, true, SuccessfulLogins(items, Reached(Done(true, items))))
  {
    var n := Reached(Done(true, items));
    forall t ensures t in SuccessfulLogins(items, n) <==> exists i: nat ::
      Begun(true, items, i) && items[i].conf.role != "" && items[i].replies.login == Some(t)
    {
      WhoseLogins(AllReplies(items), Roles(items), n, t);
      forall i: nat | i < |items| ensures Begun(true, items, i) <==> i < n {
        BegunIsReached(true, items, i);
      }
      if i: nat :| Begun(true, items, i) && items[i].conf.role != "" && items[i].replies.login == Some(t) {
        assert Roles(items)[i] && AllReplies(items)[i].login == Some(t);
      }
      if i :| 0 <= i < n && Roles(items)[i] && AllReplies(items)[i].login == Some(t) {
        assert Begun(true, items, i);
      }
    }
  }

  lemma RecordsSpelledOut(projected: bool, items: seq<Item>, a: Annotations, uid: string)
    ensures RecordsMade(projected, items, a, uid,
              Joined([], Records(projected, items, StampedUuids(a, uid), uid), Reached(Done(projected, items))))
  {
    var n, records := Reached(Done(projected, items)), Records(projected, items, StampedUuids(a, uid), uid);
    forall k, t ensures (k, t) in Joined([], records, n) <==> exists i: nat ::
      Begun(projected, items, i) && k == KvKey(a, uid, i) && IssuedUnder(projected, items[i], t)
    {
      InJoined([], records, n, (k, t));
      forall i: nat | i < |items|
        ensures Begun(projected, items, i) <==> i < n
        ensures (k, t) in records[i] <==> k == KvKey(a, uid, i) && IssuedUnder(projected, items[i], t)
      {
        BegunIsReached(projected, items, i);
        InRecord(projected, items[i], KvKey(a, uid, i), k, t);
      }
    }
  }

  lemma InRecord(projected: bool, it: Item, key: string, k: string, t: Token)
    ensures (k, t) in RecordOf(projected, it, key) <==> k == key && IssuedUnder(projected, it, t)
  {
  }

  // ---- What the accounting says ----

  /** On an error, with projected tokens, every successful login's token is taken back. */
  lemma EveryLoginIsTakenBack(projected: bool, items: seq<Item>, i: nat)
    requires i < Reached(Done(projected, items)) && LoggedIn(items[i])
    ensures items[i].replies.login.value in SuccessfulLogins(items, Reached(Done(projected, items)))
  {
    WhoseLogins(AllReplies(items), Roles(items), Reached(Done(projected, items)), items[i].replies.login.value);
    assert AllReplies(items)[i].login == Some(items[i].replies.login.value) && Roles(items)[i];
  }

  /** Every record is made under a key that is reported for the pod while it is in the API,
      whatever its annotations say. */
  lemma RecordsAreReported(projected: bool, items: seq<Item>, pod: Pod, n: nat, e: (string, Token))
    requires n <= |items|
    requires e in Joined([], Records(projected, items, StampedUuids(pod.annotations, pod.uid), pod.uid), n)
    ensures e.0 in ReportedUuids(pod.annotations, pod.uid)
  {
    var records := Records(projected, items, StampedUuids(pod.annotations, pod.uid), pod.uid);
    InJoined([], records, n, e);
    var j :| 0 <= j < n && e in records[j];
    KvKeyIsReported(pod.annotations, pod.uid, j);
  }

  /** On success every credential delivered is recorded: the `i`-th under the pod's `i`-th
      key, and with projected tokens its token is the `i`-th login's. */
  lemma {:induction false} SuccessIsRecorded(projected: bool, items: seq<Item>, uuids: seq<string>, uid: string, n: nat)
    requires n <= |items| && AllDone(Done(projected, items))
    ensures var records, logins := Joined([], Records(projected, items, uuids, uid), n), SuccessfulLogins(items, n);
      && |records| == |logins| == n
      && forall i | 0 <= i < n ::
        && records[i].0 == KeyAt(uuids, uid, i)
        && if projected then records[i].1 == logins[i] else items[i].replies.orphan == Some(records[i].1)
  {
    if n > 0 {
      SuccessIsRecorded(projected, items, uuids, uid, n - 1);
      assert Done(projected, items)[n - 1];
    }
  }

  /** Whose records are left behind by a failed call: with projected tokens none of a token
      that was not taken back; without, records of orphan tokens that stay alive until the
      pod is gone. */
  lemma FailureLeaves(projected: bool, items: seq<Item>, uuids: seq<string>, uid: string, n: nat, e: (string, Token))
    requires n <= |items| && e in Joined([], Records(projected, items, uuids, uid), n)
    ensures projected ==> e.1 in SuccessfulLogins(items, n)
    ensures !projected ==> e.1 in Joined([], Orphans(projected, items), n)
  {
    InJoined([], Records(projected, items, uuids, uid), n, e);
    var j :| 0 <= j < n && e in Records(projected, items, uuids, uid)[j];
    assert Roles(items)[j] && AllReplies(items)[j].login.Some?;
    WhoseLogins(AllReplies(items), Roles(items), n, e.1);
    InJoined([], Orphans(projected, items), n, e.1);
    assert !projected ==> e.1 in Orphans(projected, items)[j];
  }

  // ---- Without projected tokens ----

  /** The orphan token whose credential could not be read, when that ended the loop. */
  function Unread(items: seq<Item>, n: nat): seq<Token>
    requires n <= |items|
  {
    if n > 0 && items[n - 1].creds.None? then OrphanOf(false, items[n - 1]) else []
  }

  lemma {:induction false} OrphansAreRecorded(items: seq<Item>, uuids: seq<string>, uid: string, n: nat)
    requires n <= |items| && forall j | 0 <= j < n - 1 :: Completes(false, items[j])
    ensures Joined([], Orphans(false, items), n)
         == TokensOf(Joined([], Records(false, items, uuids, uid), n)) + Unread(items, n)
  {
    if n > 0 {
      OrphansAreRecorded(items, uuids, uid, n - 1);
      var before := Joined([], Records(false, items, uuids, uid), n - 1);
      TokensOfAppend(before, RecordOf(false, items[n - 1], KeyAt(uuids, uid, n - 1)));
    }
  }

  /** A call with the plugin's own login takes nothing back, whether it succeeds or fails. The
      orphan tokens it makes are those it records, in order, and after them the one whose
      credential could not be read, which nothing records. */
  lemma OwnLoginAccounts(uid: string, pod: Pod, items: seq<Item>, lines: seq<string>, r: Option<Mapping>,
                         attempts: seq<Token>, was: Requests, ledger: Ledger)
    requires Outcome(false, uid, pod, items, lines, r, attempts, was, ledger)
    ensures ledger.attempts == attempts
    ensures was.orphans <= ledger.orphans && was.stored <= ledger.stored
    ensures ledger.orphans[|was.orphans|..]
         == TokensOf(ledger.stored[|was.stored|..]) + Unread(items, Reached(Done(false, items)))
    ensures r.Some? ==> Unread(items, Reached(Done(false, items))) == []
  {
    var n, uuids := Reached(Done(false, items)), StampedUuids(pod.annotations, uid);
    forall j: nat | j + 1 < n ensures Completes(false, items[j]) {
      assert Done(false, items)[j];
    }
    OrphansAreRecorded(items, uuids, uid, n);
    JoinedAfter(was.orphans, Orphans(false, items), n);
    JoinedAfter(was.stored, Records(false, items, uuids, uid), n);
    if r.Some? && n > 0 {
      assert Done(false, items)[n - 1];
    }
  }

  /** Its login tokens, not taken back, are not recorded either. */
  lemma OwnLoginsAreForgotten(items: seq<Item>, uuids: seq<string>, uid: string, n: nat, i: nat)
    requires n <= |items| && i < |items| && LoggedIn(items[i])
    requires forall j | 0 <= j < |items| :: items[j].replies.orphan != items[i].replies.login
    ensures items[i].replies.login.value !in TokensOf(Joined([], Records(false, items, uuids, uid), n))
  {
    var records := Joined([], Records(false, items, uuids, uid), n);
    forall e | e in records ensures e.1 != items[i].replies.login.value {
      FailureLeaves(false, items, uuids, uid, n, e);
      InJoined([], Orphans(false, items), n, e.1);
    }
  }
}
