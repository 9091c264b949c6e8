/** Token accounting at admission (injectCredentialsIntoPod and authorizeDbAccess,
    pkg/k8smutator/k8smutator.go), in all four modes: credentials delivered by the plugin
    (NRI) or not, Vault logins with the pod's projected token or the injector's own. */
module Admission {
  import opened Strings
  import opened Sequences
  import opened Annotations
  import opened Connectors
  import opened Accounts

  datatype Mode = Mode(nri: bool, projected: bool)

  /** One configuration and what becomes of it. */
  datatype Item = Item(
    conf: DbConfiguration,
    replies: Replies,
    credsRead: bool,
    applies: bool)              // the mode is supported, and a URI template parses

  predicate Checked(conf: DbConfiguration) { conf.dbName != "" && conf.role != "" }

  predicate LoggedIn(it: Item) { Checked(it.conf) && it.replies.login.Some? }

  predicate Authorized(mode: Mode, it: Item) {
    LoggedIn(it) && if mode.projected then it.replies.book.Some? else it.replies.allowed
  }

  predicate HasCreds(mode: Mode, it: Item) { (mode.projected || it.replies.orphan.Some?) && it.credsRead }

  predicate Completes(mode: Mode, it: Item) {
    Authorized(mode, it) && (mode.nri || HasCreds(mode, it)) && it.applies
  }

  function AllReplies(items: seq<Item>): seq<Replies> {
    seq(|items|, i requires 0 <= i < |items| => items[i].replies)
  }

  function Done(mode: Mode, items: seq<Item>): seq<bool> {
    seq(|items|, i requires 0 <= i < |items| => Completes(mode, items[i]))
  }

  function Passed(mode: Mode, items: seq<Item>): seq<bool> {
    seq(|items|, i requires 0 <= i < |items| => Authorized(mode, items[i]))
  }

  /** The login tokens among the first `n` connectors that passed authorization, in order. */
  function AuthorizedLogins(mode: Mode, items: seq<Item>, n: nat): seq<Token>
    requires n <= |items|
  {
    LoginsUpTo(AllReplies(items), Passed(mode, items), n)
  }

  function AuthorizedLogin(mode: Mode, it: Item): seq<Token> { LoginOf(it.replies, Authorized(mode, it)) }

  function OrphanOf(mode: Mode, it: Item): seq<Token> {
    if !mode.nri && !mode.projected && Authorized(mode, it) && it.replies.orphan.Some?
    then [it.replies.orphan.value] else []
  }

  /** The orphan tokens created, configuration by configuration. */
  function Orphans(mode: Mode, items: seq<Item>): seq<seq<Token>> {
    seq(|items|, i requires 0 <= i < |items| => OrphanOf(mode, items[i]))
  }

  /** The token a credential of the configuration is issued under. */
  function CredToken(mode: Mode, it: Item): Token
    requires Authorized(mode, it) && HasCreds(mode, it)
  {
    if mode.projected then it.replies.login.value else it.replies.orphan.value
  }

  function RecordOf(mode: Mode, it: Item, uuid: string): seq<(string, Token)> {
    if !mode.nri && Authorized(mode, it) && HasCreds(mode, it) then [(uuid, CredToken(mode, it))] else []
  }

  /** The records made, each under the UUID generated for its configuration. */
  function Records(mode: Mode, items: seq<Item>, uuids: seq<string>): seq<seq<(string, Token)>>
    requires |items| == |uuids|
  {
    seq(|items|, i requires 0 <= i < |items| => RecordOf(mode, items[i], uuids[i]))
  }

  // ---- The same, spelled out ----

  /** The configuration is complete, its login is authorized, its credential is at hand where
      admission fetches it, and it can be applied. */
  predicate GoesThrough(mode: Mode, it: Item) {
    IsAuthorized(mode, it) && (!mode.nri ==> HasItsCredential(mode, it)) && it.applies
  }

  predicate IsAuthorized(mode: Mode, it: Item) {
    && it.conf.dbName != "" && it.conf.role != "" && it.replies.login.Some?
    && (mode.projected ==> it.replies.book.Some?)
    && (!mode.projected ==> it.replies.allowed)
  }

  predicate HasItsCredential(mode: Mode, it: Item) {
    it.credsRead && (!mode.projected ==> it.replies.orphan.Some?)
  }

  /** All configurations before the `i`-th go through. */
  predicate Begun(mode: Mode, items: seq<Item>, i: nat) {
    i < |items| && forall e | 0 <= e < i :: GoesThrough(mode, items[e])
  }

  /** On an error, and always with NRI, exactly the login tokens of the authorized configurations
      that were begun are taken back; otherwise none is. */
  ghost predicate TakesBack(mode: Mode, items: seq<Item>, failed: bool, taken: seq<Token>) {
    forall t :: t in taken <==>
      && (failed || mode.nri)
      && exists i: nat :: Begun(mode, items, i) && IsAuthorized(mode, items[i]) && items[i].replies.login == Some(t)
  }

  /** The token a credential of the configuration is issued under. */
  predicate IssuedUnder(mode: Mode, it: Item, t: Token) {
    && !mode.nri && IsAuthorized(mode, it) && HasItsCredential(mode, it)
    && Some(t) == if mode.projected then it.replies.login else it.replies.orphan
  }

  /** What is recorded: without NRI, for each configuration that was begun and got its credential,
      the token it was issued under, under the UUID generated for the configuration. */
  ghost predicate RecordsMade(mode: Mode, items: seq<Item>, uuids: seq<string>, added: seq<(string, Token)>)
    requires |uuids| == |items|
  {
    forall k, t :: (k, t) in added <==>
      exists i: nat :: Begun(mode, items, i) && k == uuids[i] && IssuedUnder(mode, items[i], t)
  }

  /** One entry under each UUID, in order. */
  ghost predicate RecordsUnder(uuids: seq<string>, mode: Mode, items: seq<Item>, added: seq<(string, Token)>)
    requires |uuids| == |items|
  {
    && |added| == |uuids|
    && forall i | 0 <= i < |uuids| :: added[i].0 == uuids[i] && IssuedUnder(mode, items[i], added[i].1)
  }

  lemma BegunIsReached(mode: Mode, items: seq<Item>, i: nat)
    requires i < |items|
    ensures Begun(mode, items, i) <==> i < Reached(Done(mode, items))
  {
    BegunExactly(Done(mode, items), i);
    assert forall e | 0 <= e < i :: Done(mode, items)[e] == GoesThrough(mode, items[e]);
  }

  lemma AllGoThrough(mode: Mode, items: seq<Item>)
    ensures AllDone(Done(mode, items)) <==> forall i | 0 <= i < |items| :: GoesThrough(mode, items[i])
  {
    assert forall i | 0 <= i < |items| :: Done(mode, items)[i] == GoesThrough(mode, items[i]);
  }

  lemma RecordsAdded(mode: Mode, items: seq<Item>, uuids: seq<string>, was: seq<(string, Token)>)
      returns (added: seq<(string, Token)>)
    requires |uuids| == |items|
    ensures Joined(was, Records(mode, items, uuids), Reached(Done(mode, items))) == was + added
    ensures RecordsMade(mode, items, uuids, added)
    ensures !mode.nri && AllDone(Done(mode, items)) ==> RecordsUnder(uuids, mode, items, added)
  {
    var n := Reached(Done(mode, items));
    added := Joined([], Records(mode, items, uuids), n);
    JoinedAfter(was, Records(mode, items, uuids), n);
    RecordsSpelledOut(mode, items, uuids);
    if !mode.nri && AllDone(Done(mode, items)) {
      ReachedIs(Done(mode, items), |items|);
      EachIsRecorded(mode, items, uuids, n);
      assert items[..n] == items && uuids[..n] == uuids;
    }
  }

  /** The result and the requests of the whole call, `was` and `now` being those made before and
      after it. */
  ghost predicate SpelledOut(mode: Mode, items: seq<Item>, uuids: seq<string>, r: Option<seq<string>>,
                             was: Requests, now: Requests)
    requires |uuids| == |items|
  {
    && (r.Some? <==> items != [] && forall i | 0 <= i < |items| :: GoesThrough(mode, items[i]))
    && (r.Some? ==> r.value == uuids)
    && (mode.nri ==> now.stored == was.stored && now.orphans == was.orphans)
    && AttemptsMade(mode, items, r.None?, was.attempts, now.attempts)
    && StoresMade(mode, items, uuids, r, was.stored, now.stored)
  }

  ghost predicate AttemptsMade(mode: Mode, items: seq<Item>, failed: bool, was: seq<Token>, now: seq<Token>) {
    exists taken :: now == was + taken && TakesBack(mode, items, failed, taken)
  }

  ghost predicate StoresMade(mode: Mode, items: seq<Item>, uuids: seq<string>, r: Option<seq<string>>,
                             was: seq<(string, Token)>, now: seq<(string, Token)>)
    requires |uuids| == |items|
  {
    exists added ::
      && now == was + added && RecordsMade(mode, items, uuids, added)
      && (!mode.nri && r == Some(uuids) ==> RecordsUnder(uuids, mode, items, added))
  }

  lemma AttemptsSpelledOut(mode: Mode, items: seq<Item>, failed: bool, was: seq<Token>, now: seq<Token>)
    requires now == was
      + if failed || mode.nri then AuthorizedLogins(mode, items, Reached(Done(mode, items))) else []
    ensures AttemptsMade(mode, items, failed, was, now)
  {
    LoginsSpelledOut(mode, items);
    var taken := if failed || mode.nri then AuthorizedLogins(mode, items, Reached(Done(mode, items))) else [];
    assert now == was + taken && TakesBack(mode, items, failed, taken);
  }

  lemma ResultSpelledOut(mode: Mode, items: seq<Item>, uuids: seq<string>, r: Option<seq<string>>, was: Requests,
                         now: Requests)
    requires |uuids| == |items| && r == if items != [] && AllDone(Done(mode, items)) then Some(uuids) else None
    requires now.attempts
      == was.attempts + if r.None? || mode.nri then AuthorizedLogins(mode, items, Reached(Done(mode, items))) else []
    requires now.orphans == Joined(was.orphans, Orphans(mode, items), Reached(Done(mode, items)))
    requires now.stored == Joined(was.stored, Records(mode, items, uuids), Reached(Done(mode, items)))
    ensures SpelledOut(mode, items, uuids, r, was, now)
  {
    AllGoThrough(mode, items);
    AttemptsSpelledOut(mode, items, r.None?, was.attempts, now.attempts);
    var added := RecordsAdded(mode, items, uuids, was.stored);
    assert StoresMade(mode, items, uuids, r, was.stored, now.stored);
    if mode.nri {
      NriRecordsNothing(mode, items, uuids, was.orphans, was.stored);
    }
  }

  lemma NriRecordsNothing(mode: Mode, items: seq<Item>, uuids: seq<string>, orphans: seq<Token>,
                          stored: seq<(string, Token)>)
    requires |uuids| == |items| && mode.nri
    ensures Joined(stored, Records(mode, items, uuids), Reached(Done(mode, items))) == stored
    ensures Joined(orphans, Orphans(mode, items), Reached(Done(mode, items))) == orphans
  {
    NothingJoined(stored, Records(mode, items, uuids), Reached(Done(mode, items)));
    NothingJoined(orphans, Orphans(mode, items), Reached(Done(mode, items)));
  }

  lemma LoginsSpelledOut(mode: Mode, items: seq<Item>)
    ensures TakesBack(mode, items, true, AuthorizedLogins(mode, items, Reached(Done(mode, items))))
  {
    var n := Reached(Done(mode, items));
    forall t ensures t in AuthorizedLogins(mode, items, n) <==> exists i: nat ::
      Begun(mode, items, i) && IsAuthorized(mode, items[i]) && items[i].replies.login == Some(t)
    {
      WhoseLogins(AllReplies(items), Passed(mode, items), n, t);
      forall i: nat | i < |items|
        ensures Begun(mode, items, i) <==> i < n
        ensures IsAuthorized(mode, items[i]) && items[i].replies.login == Some(t)
           <==> Passed(mode, items)[i] && AllReplies(items)[i].login == Some(t)
      {
        BegunIsReached(mode, items, i);
      }
    }
  }

  lemma RecordsSpelledOut(mode: Mode, items: seq<Item>, uuids: seq<string>)
    requires |uuids| == |items|
    ensures RecordsMade(mode, items, uuids, Joined([], Records(mode, items, uuids), Reached(Done(mode, items))))
  {
    var n, records := Reached(Done(mode, items)), Records(mode, items, uuids);
    forall k, t ensures (k, t) in Joined([], records, n) <==> exists i: nat ::
      Begun(mode, items, i) && k == uuids[i] && IssuedUnder(mode, items[i], t)
    {
      InJoined([], records, n, (k, t));
      forall i: nat | i < |items|
        ensures Begun(mode, items, i) <==> i < n
        ensures (k, t) in records[i] <==> k == uuids[i] && IssuedUnder(mode, items[i], t)
      {
        BegunIsReached(mode, items, i);
        InRecord(mode, items[i], uuids[i], k, t);
      }
    }
  }

  lemma InRecord(mode: Mode, it: Item, uuid: string, k: string, t: Token)
    ensures (k, t) in RecordOf(mode, it, uuid) <==> k == uuid && IssuedUnder(mode, it, t)
  {
  }

  lemma {:induction false} EachIsRecorded(mode: Mode, items: seq<Item>, uuids: seq<string>, n: nat)
    requires |uuids| == |items| && n <= |items| && !mode.nri && AllDone(Done(mode, items))
    ensures RecordsUnder(uuids[..n], mode, items[..n], Joined([], Records(mode, items, uuids), n))
  {
    if n > 0 {
      EachIsRecorded(mode, items, uuids, n - 1);
      assert Done(mode, items)[n - 1];
    } else {
      assert items[..n] == [];
    }
  }

  // ---- The program ----

  /** authorizeDbAccess. */
  method AuthorizeDbAccess(mode: Mode, it: Item) returns (conn: Connector, ok: bool)
    requires Checked(it.conf)
    ensures fresh(conn) && (ok <==> Authorized(mode, it))
    ensures ok ==> conn.vaultToken == it.replies.login.value
    ensures ok ==> conn.k8sSaVaultToken == if mode.projected then it.replies.book.value else it.replies.login.value
  {
    conn := new Connector();
    ok := Login(conn, it.replies.login);
    if !ok {
      return;
    }
    if !mode.projected {
      conn.k8sSaVaultToken := conn.vaultToken;
    }
    if mode.projected {
      if it.replies.book.None? {
        return conn, false;
      }
      conn.k8sSaVaultToken := it.replies.book.value;
      return;
    }
    ok := it.replies.allowed;
  }

  /** What is left to revoke of a connector: with NRI nothing once its round is done. */
  function LeftOf(mode: Mode, it: Item): seq<Token> {
    if Completes(mode, it) && mode.nri then [""] else AuthorizedLogin(mode, it)
  }

  function Left(mode: Mode, items: seq<Item>): seq<seq<Token>> {
    seq(|items|, i requires 0 <= i < |items| => LeftOf(mode, items[i]))
  }

  /** What a round asks to be revoked by itself. */
  function RevokedOf(mode: Mode, it: Item): seq<Token> {
    if mode.nri && Completes(mode, it) then AuthorizedLogin(mode, it) else []
  }

  function RevokedInRounds(mode: Mode, items: seq<Item>): seq<seq<Token>> {
    seq(|items|, i requires 0 <= i < |items| => RevokedOf(mode, items[i]))
  }

  datatype Requests = Requests(attempts: seq<Token>, orphans: seq<Token>, stored: seq<(string, Token)>)

  ghost function Asked(ledger: Ledger): Requests
    reads ledger
  {
    Requests(ledger.attempts, ledger.orphans, ledger.stored)
  }

  /** The requests made in one round. */
  function After(mode: Mode, it: Item, uuid: string, was: Requests): Requests {
    Requests(
      was.attempts + RevokedOf(mode, it),
      was.orphans + OrphanOf(mode, it),
      was.stored + RecordOf(mode, it, uuid))
  }

  /** The requests made in the first `n` rounds. */
  function AfterUpTo(mode: Mode, items: seq<Item>, uuids: seq<string>, n: nat, was: Requests): Requests
    requires n <= |items| == |uuids|
  {
    Requests(
      Joined(was.attempts, RevokedInRounds(mode, items), n),
      Joined(was.orphans, Orphans(mode, items), n),
      Joined(was.stored, Records(mode, items, uuids), n))
  }

  /** injectCredentialsIntoPod: None is an error. `uuids` are the UUIDs generated for the
      configurations. */
  method InjectCredentials(ledger: Ledger, mode: Mode, items: seq<Item>, uuids: seq<string>)
    returns (r: Option<seq<string>>)
    requires |uuids| == |items| && AllReal(AllReplies(items))
    modifies ledger
    ensures r == if items != [] && AllDone(Done(mode, items)) then Some(uuids) else None
    ensures ledger.attempts == old(ledger.attempts)
      + if r.None? || mode.nri then AuthorizedLogins(mode, items, Reached(Done(mode, items))) else []
    ensures ledger.orphans == Joined(old(ledger.orphans), Orphans(mode, items), Reached(Done(mode, items)))
    ensures ledger.stored == Joined(old(ledger.stored), Records(mode, items, uuids), Reached(Done(mode, items)))
    ensures SpelledOut(mode, items, uuids, r, old(Asked(ledger)), Asked(ledger))
  {
    ghost var before := Asked(ledger);
    if items == [] {
      ResultSpelledOut(mode, items, uuids, None, before, before);
      return None;
    }
    ghost var was := ledger.attempts;
    var ok, conns, podUuids := Rounds(ledger, mode, items, uuids);
    if !ok {
      CleanUp(ledger, mode.projected, conns, Joined([], Left(mode, items), Reached(Done(mode, items))));
    }
    Settled(mode, items, was);
    r := if ok then Some(podUuids) else None;
    ResultSpelledOut(mode, items, uuids, r, before, Asked(ledger));
  }

  /** The requests and the connectors after `n` rounds. */
  ghost predicate Accounted(ledger: Ledger, mode: Mode, items: seq<Item>, uuids: seq<string>, n: nat,
                            conns: seq<Connector>, was: Requests)
    requires n <= |items| == |uuids|
    reads ledger, conns
  {
    && Hold(mode.projected, conns, Joined([], Left(mode, items), n))
    && Asked(ledger) == AfterUpTo(mode, items, uuids, n, was)
  }

  /** The loop over the configurations. */
  method Rounds(ledger: Ledger, mode: Mode, items: seq<Item>, uuids: seq<string>)
    returns (ok: bool, conns: seq<Connector>, podUuids: seq<string>)
    requires |uuids| == |items| && AllReal(AllReplies(items))
    modifies ledger
    ensures ok <==> AllDone(Done(mode, items))
    ensures ok ==> podUuids == uuids
    ensures Hold(mode.projected, conns, Joined([], Left(mode, items), Reached(Done(mode, items))))
    ensures Asked(ledger) == AfterUpTo(mode, items, uuids, Reached(Done(mode, items)), old(Asked(ledger)))
  {
    ghost var was := Asked(ledger);
    conns, podUuids := [], [];
    for i := 0 to |items|
      invariant FirstDone(Done(mode, items), i)
      invariant podUuids == uuids[..i]
      invariant Accounted(ledger, mode, items, uuids, i, conns, was)
    {
      ok, conns := Round(ledger, mode, items, uuids, i, conns, was);
      if !ok {
        return;
      }
      assert uuids[..i + 1] == uuids[..i] + [uuids[i]];
      podUuids := podUuids + [uuids[i]];
    }
    assert uuids[..|uuids|] == uuids;
    ReachedIs(Done(mode, items), |items|);
    ok := true;
  }

  method Round(ledger: Ledger, mode: Mode, items: seq<Item>, uuids: seq<string>, i: nat, before: seq<Connector>,
               ghost was: Requests) returns (ok: bool, conns: seq<Connector>)
    requires i < |items| == |uuids| && AllReal(AllReplies(items)) && FirstDone(Done(mode, items), i)
    requires Accounted(ledger, mode, items, uuids, i, before, was)
    modifies ledger
    ensures ok ==> FirstDone(Done(mode, items), i + 1)
    ensures !ok ==> !Done(mode, items)[i] && !AllDone(Done(mode, items)) && Reached(Done(mode, items)) == i + 1
    ensures Accounted(ledger, mode, items, uuids, i + 1, conns, was)
  {
    assert RealTokens(AllReplies(items)[i]);
    var conn;
    ok, conn := Handle(ledger, mode, items[i], uuids[i]);
    HoldAppend(mode.projected, before, conn, Joined([], Left(mode, items), i), Left(mode, items)[i]);
    conns := before + conn;
    OneMoreDone(Done(mode, items), i);
  }

  /** At the first failure, at round `i`, the clean-up completes the accounts. */
  lemma Stopped(mode: Mode, items: seq<Item>, i: nat, was: seq<Token>)
    requires i < |items| && AllReal(AllReplies(items)) && FirstDone(Done(mode, items), i) && !Done(mode, items)[i]
    ensures Joined(was, RevokedInRounds(mode, items), i + 1) + NonEmpty(Joined([], Left(mode, items), i + 1))
         == was + AuthorizedLogins(mode, items, i + 1)
  {
    RoundsRevoke(mode, items, i, was);
    RoundsLeave(mode, items, i);
    LoginsAreReal(AllReplies(items), Passed(mode, items), i + 1);
    var done, last := AuthorizedLogins(mode, items, i), AuthorizedLogin(mode, items[i]);
    assert AuthorizedLogins(mode, items, i + 1) == done + last;
    assert Joined([], Left(mode, items), i + 1) == Joined([], Left(mode, items), i) + last;
    assert Joined(was, RevokedInRounds(mode, items), i + 1) == Joined(was, RevokedInRounds(mode, items), i);
    TakenBack(was, done, last, Joined([], Left(mode, items), i), mode.nri);
  }

  lemma TakenBack(was: seq<Token>, done: seq<Token>, last: seq<Token>, left: seq<Token>, nri: bool)
    requires |last| <= 1 && forall i | 0 <= i < |done + last| :: (done + last)[i] != ""
    requires if nri then AllEmpty(left) else left == done
    ensures was + (if nri then done else []) + NonEmpty(left + last) == was + (done + last)
  {
    assert was + done + last == was + (done + last) && was + [] == was;
    if nri {
      NonEmptyOfNone(left);
      LastOfReal(done, last);
      NonEmptyLast(left, last);
      assert NonEmpty(left + last) == last;
    } else {
      NonEmptyOfAll(done + last);
    }
  }

  /** In the end all is accounted for. */
  lemma Settled(mode: Mode, items: seq<Item>, was: seq<Token>)
    requires AllReal(AllReplies(items))
    ensures var done, n := AllDone(Done(mode, items)), Reached(Done(mode, items));
      Joined(was, RevokedInRounds(mode, items), n) + (if done then [] else NonEmpty(Joined([], Left(mode, items), n)))
      == was + if !done || mode.nri then AuthorizedLogins(mode, items, n) else []
  {
    if AllDone(Done(mode, items)) {
      ReachedIs(Done(mode, items), |items|);
      RoundsRevoke(mode, items, |items|, was);
    } else {
      FailsSomewhere(Done(mode, items));
      Stopped(mode, items, Reached(Done(mode, items)) - 1, was);
    }
  }

  lemma {:induction false} RoundsRevoke(mode: Mode, items: seq<Item>, n: nat, was: seq<Token>)
    requires n <= |items| && FirstDone(Done(mode, items), n)
    ensures Joined(was, RevokedInRounds(mode, items), n)
         == was + if mode.nri then AuthorizedLogins(mode, items, n) else []
  {
    if n > 0 {
      RoundsRevoke(mode, items, n - 1, was);
      assert Done(mode, items)[n - 1];
    }
  }

  predicate AllEmpty(ts: seq<Token>) { forall i | 0 <= i < |ts| :: ts[i] == "" }

  lemma {:induction false} RoundsLeave(mode: Mode, items: seq<Item>, n: nat)
    requires n <= |items| && FirstDone(Done(mode, items), n)
    ensures !mode.nri ==> Joined([], Left(mode, items), n) == AuthorizedLogins(mode, items, n)
    ensures mode.nri ==> AllEmpty(Joined([], Left(mode, items), n))
  {
    if n > 0 {
      RoundsLeave(mode, items, n - 1);
      assert Done(mode, items)[n - 1];
      var before, last := Joined([], Left(mode, items), n - 1), LeftOf(mode, items[n - 1]);
      assert Joined([], Left(mode, items), n) == before + last;
      assert mode.nri ==> last == [""];
    }
  }

  lemma LastOfReal(done: seq<Token>, last: seq<Token>)
    requires forall i | 0 <= i < |done + last| :: (done + last)[i] != ""
    ensures forall i | 0 <= i < |last| :: last[i] != ""
  {
    forall i | 0 <= i < |last| ensures last[i] != "" {
      assert (done + last)[|done| + i] == last[i];
    }
  }

  lemma NonEmptyLast(left: seq<Token>, last: seq<Token>)
    requires |last| <= 1 && forall i | 0 <= i < |last| :: last[i] != ""
    ensures NonEmpty(left + last) == NonEmpty(left) + last
  {
    if last == [] {
      assert left + last == left;
    } else {
      assert (left + last)[..|left|] == left;
    }
  }

  /** One round of the loop; `conn` is the connector, if it passed authorization. */
  method Handle(ledger: Ledger, mode: Mode, it: Item, uuid: string) returns (ok: bool, conn: seq<Connector>)
    requires RealTokens(it.replies)
    modifies ledger
    ensures ok <==> Completes(mode, it)
    ensures Hold(mode.projected, conn, LeftOf(mode, it))
    ensures Asked(ledger) == After(mode, it, uuid, old(Asked(ledger)))
  {
    conn := [];
    if !Checked(it.conf) {
      return false, [];
    }
    var c;
    c, ok := AuthorizeDbAccess(mode, it);
    if !ok {
      return false, [];
    }
    ok := Proceed(ledger, mode, it, uuid, c);
    conn := [c];
  }

  /** The part of the loop after authorization. */
  method Proceed(ledger: Ledger, mode: Mode, it: Item, uuid: string, conn: Connector) returns (ok: bool)
    requires Authorized(mode, it) && it.replies.login.value != ""
    requires conn.vaultToken == it.replies.login.value
    requires conn.k8sSaVaultToken != "" && (!mode.projected ==> conn.k8sSaVaultToken == it.replies.login.value)
    modifies ledger, conn
    ensures ok <==> Completes(mode, it)
    ensures Revocable(mode.projected, conn) == if ok && mode.nri then "" else it.replies.login.value
    ensures Asked(ledger) == After(mode, it, uuid, old(Asked(ledger)))
  {
    if !mode.nri {
      ok := GetDbCredentials(conn, ledger, uuid, mode.projected, it.replies.orphan, it.credsRead);
      if !ok {
        return;
      }
    }
    if !it.applies {
      return false;
    }
    assert [it.replies.login.value][..0] == [];
    if mode.nri && !mode.projected {
      RevokeSelfToken(ledger, conn.k8sSaVaultToken);
      conn.k8sSaVaultToken := "";
    }
    if mode.nri && mode.projected {
      RevokeSelfToken(ledger, conn.vaultToken);
      conn.vaultToken := "";
    }
    return true;
  }

  // ---- What the accounting says ----

  /** The revocation of a login token is attempted exactly when its connector was reached and
      passed authorization. */
  lemma AttemptedExactly(mode: Mode, items: seq<Item>, i: nat)
    requires DistinctLogins(AllReplies(items)) && i < |items| && items[i].replies.login.Some?
    ensures items[i].replies.login.value in AuthorizedLogins(mode, items, Reached(Done(mode, items)))
       <==> i < Reached(Done(mode, items)) && Authorized(mode, items[i])
  {
    ListedExactly(AllReplies(items), Passed(mode, items), Reached(Done(mode, items)), i);
  }

  /** What the accounting misses: a connector that logged in and failed authorization ends
      the call, and the revocation of its token is not attempted in any mode. */
  lemma RefusedLoginIsNotRevoked(mode: Mode, items: seq<Item>, i: nat)
    requires DistinctLogins(AllReplies(items)) && i < |items| && LoggedIn(items[i]) && !Authorized(mode, items[i])
    requires FirstDone(Done(mode, items), i)
    ensures Reached(Done(mode, items)) == i + 1
    ensures items[i].replies.login.value !in AuthorizedLogins(mode, items, Reached(Done(mode, items)))
  {
    ReachedIs(Done(mode, items), i + 1);
    AttemptedExactly(mode, items, i);
  }

  /** Legacy delivery with the injector's own login: every orphan token created is recorded,
      save one whose credential could not be read. That one ends the call, and is neither
      recorded nor revoked. */
  lemma {:induction false} OrphansAreRecorded(mode: Mode, items: seq<Item>, uuids: seq<string>, n: nat)
    requires |items| == |uuids| && !mode.nri && !mode.projected && n <= |items|
    requires forall j | 0 <= j < n - 1 :: Completes(mode, items[j])
    ensures Joined([], Orphans(mode, items), n)
         == TokensOf(Joined([], Records(mode, items, uuids), n))
            + if n > 0 && Authorized(mode, items[n - 1]) && items[n - 1].replies.orphan.Some? && !items[n - 1].credsRead
              then [items[n - 1].replies.orphan.value] else []
  {
    if n > 0 {
      OrphansAreRecorded(mode, items, uuids, n - 1);
      TokensOfAppend(Joined([], Records(mode, items, uuids), n - 1), RecordOf(mode, items[n - 1], uuids[n - 1]));
    }
  }

  /** Legacy delivery with projected tokens: the recorded tokens are login tokens, so they are
      revoked again if and only if the call fails in the end; on success they are all the
      login tokens. */
  lemma {:induction false} ProjectedRecordsAreLogins(mode: Mode, items: seq<Item>, uuids: seq<string>, n: nat)
    requires |items| == |uuids| && !mode.nri && mode.projected && n <= |items|
    requires forall j | 0 <= j < n - 1 :: Completes(mode, items[j])
    ensures TokensOf(Joined([], Records(mode, items, uuids), n)) <= AuthorizedLogins(mode, items, n)
    ensures (n > 0 ==> Completes(mode, items[n - 1])) ==>
      TokensOf(Joined([], Records(mode, items, uuids), n)) == AuthorizedLogins(mode, items, n)
  {
    if n > 0 {
      ProjectedRecordsAreLogins(mode, items, uuids, n - 1);
      TokensOfAppend(Joined([], Records(mode, items, uuids), n - 1), RecordOf(mode, items[n - 1], uuids[n - 1]));
    }
  }
}
