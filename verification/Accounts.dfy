/** What the webhook's and the plugin's loops over configurations have in common: rounds that
    end at the first failure, connectors that join the live ones, and the clean-up that takes
    their tokens back. (pkg/k8smutator/k8smutator.go, pkg/nri/vault.go) */
module Accounts {
  import opened Strings
  import opened Sequences
  import opened Connectors

  /** What Vault answers on account of one configuration. */
  datatype Replies = Replies(
    login: Option<Token>,
    allowed: bool,              // CanIGetRoles, without projected tokens
    book: Option<Token>,        // the shared bookkeeping token, with projected tokens
    orphan: Option<Token>)

  /** The tokens Vault issues are not empty. */
  predicate RealTokens(r: Replies) {
    && (r.login.Some? ==> r.login.value != "")
    && (r.book.Some? ==> r.book.value != "")
    && (r.orphan.Some? ==> r.orphan.value != "")
  }

  predicate AllReal(rs: seq<Replies>) {
    forall i | 0 <= i < |rs| :: RealTokens(rs[i])
  }

  // ---- Rounds ----

  predicate FirstDone(done: seq<bool>, n: nat)
    requires n <= |done|
  {
    forall i | 0 <= i < n :: done[i]
  }

  predicate AllDone(done: seq<bool>) { FirstDone(done, |done|) }

  /** How many rounds are begun: up to and with the first that fails. */
  function Reached(done: seq<bool>): (n: nat)
    ensures n <= |done|
    ensures forall i | 0 <= i < n - 1 :: done[i]
    ensures n < |done| ==> n > 0 && !done[n - 1]
  {
    ReachedFrom(done, 0)
  }

  function ReachedFrom(done: seq<bool>, i: nat): (n: nat)
    requires i <= |done|
    ensures i <= n <= |done|
    ensures forall j | i <= j < n - 1 :: done[j]
    ensures n < |done| ==> n > i && !done[n - 1]
    decreases |done| - i
  {
    if i == |done| then i else if !done[i] then i + 1 else ReachedFrom(done, i + 1)
  }

  lemma ReachedIs(done: seq<bool>, n: nat)
    requires n <= |done| && (forall i | 0 <= i < n - 1 :: done[i]) && (n == |done| || (n > 0 && !done[n - 1]))
    ensures Reached(done) == n
  {
    var r := Reached(done);
    assert r >= n;
  }

  /** A round is begun exactly if all before it were done. */
  lemma BegunExactly(done: seq<bool>, i: nat)
    requires i < |done|
    ensures i < Reached(done) <==> forall e | 0 <= e < i :: done[e]
  {
  }

  lemma FailsSomewhere(done: seq<bool>)
    requires !AllDone(done)
    ensures Reached(done) > 0 && FirstDone(done, Reached(done) - 1) && !done[Reached(done) - 1]
  {
    var i :| 0 <= i < |done| && !done[i];
  }

  lemma OneMoreDone(done: seq<bool>, n: nat)
    requires n < |done| && FirstDone(done, n)
    ensures done[n] ==> FirstDone(done, n + 1)
    ensures !done[n] ==> !AllDone(done) && Reached(done) == n + 1
  {
    if !done[n] {
      ReachedIs(done, n + 1);
    }
  }

  // ---- Login tokens ----

  /** The login token of a round, if the round counts. */
  function LoginOf(r: Replies, counts: bool): seq<Token> {
    if counts && r.login.Some? then [r.login.value] else []
  }

  function Logins(rs: seq<Replies>, counts: seq<bool>): seq<seq<Token>>
    requires |rs| == |counts|
  {
    seq(|rs|, i requires 0 <= i < |rs| => LoginOf(rs[i], counts[i]))
  }

  /** The login tokens of the first `n` rounds that count, in order. */
  function LoginsUpTo(rs: seq<Replies>, counts: seq<bool>, n: nat): seq<Token>
    requires n <= |rs| == |counts|
  {
    Joined([], Logins(rs, counts), n)
  }

  ghost predicate DistinctLogins(rs: seq<Replies>) {
    forall i, j | 0 <= i < j < |rs| && rs[i].login.Some? && rs[j].login.Some? :: rs[i].login != rs[j].login
  }

  lemma WhoseLogins(rs: seq<Replies>, counts: seq<bool>, n: nat, t: Token)
    requires n <= |rs| == |counts|
    ensures t in LoginsUpTo(rs, counts, n) <==> exists i :: 0 <= i < n && counts[i] && rs[i].login == Some(t)
  {
    InJoined([], Logins(rs, counts), n, t);
    if i :| 0 <= i < n && counts[i] && rs[i].login == Some(t) {
      assert t in Logins(rs, counts)[i];
    }
    if InSome(Logins(rs, counts), n, t) {
      var i :| 0 <= i < n && t in Logins(rs, counts)[i];
      assert counts[i] && rs[i].login == Some(t);
    }
  }

  /** A login token is listed exactly when its round was reached and counts. */
  lemma ListedExactly(rs: seq<Replies>, counts: seq<bool>, n: nat, i: nat)
    requires n <= |rs| == |counts| && DistinctLogins(rs) && i < |rs| && rs[i].login.Some?
    ensures rs[i].login.value in LoginsUpTo(rs, counts, n) <==> i < n && counts[i]
  {
    WhoseLogins(rs, counts, n, rs[i].login.value);
  }

  /** It is listed at most once. */
  lemma {:induction false} AtMostOnce(rs: seq<Replies>, counts: seq<bool>, n: nat, a: nat, b: nat)
    requires n <= |rs| == |counts| && DistinctLogins(rs) && a < b < |LoginsUpTo(rs, counts, n)|
    ensures LoginsUpTo(rs, counts, n)[a] != LoginsUpTo(rs, counts, n)[b]
  {
    if b < |LoginsUpTo(rs, counts, n - 1)| {
      AtMostOnce(rs, counts, n - 1, a, b);
    } else {
      WhoseLogins(rs, counts, n - 1, LoginsUpTo(rs, counts, n)[a]);
    }
  }

  /** A token nobody logged in for, such as the shared bookkeeping token, is never listed. */
  lemma SharedTokenIsSafe(rs: seq<Replies>, counts: seq<bool>, n: nat, book: Token)
    requires n <= |rs| == |counts| && forall i | 0 <= i < |rs| :: rs[i].login != Some(book)
    ensures book !in LoginsUpTo(rs, counts, n)
  {
    WhoseLogins(rs, counts, n, book);
  }

  lemma {:induction false} LoginsAreReal(rs: seq<Replies>, counts: seq<bool>, n: nat)
    requires n <= |rs| == |counts| && AllReal(rs)
    ensures forall i | 0 <= i < |LoginsUpTo(rs, counts, n)| :: LoginsUpTo(rs, counts, n)[i] != ""
  {
    if n > 0 {
      LoginsAreReal(rs, counts, n - 1);
      assert RealTokens(rs[n - 1]);
      assert LoginsUpTo(rs, counts, n) == LoginsUpTo(rs, counts, n - 1) + LoginOf(rs[n - 1], counts[n - 1]);
    }
  }

  // ---- Records ----

  function TokensOf(stored: seq<(string, Token)>): seq<Token> {
    seq(|stored|, i requires 0 <= i < |stored| => stored[i].1)
  }

  lemma TokensOfAppend(a: seq<(string, Token)>, b: seq<(string, Token)>)
    ensures TokensOf(a + b) == TokensOf(a) + TokensOf(b)
  {
  }

  // ---- Connectors ----

  /** The token of a connector that the program may revoke: the one it holds, or the one it
      keeps for bookkeeping. */
  function Revocable(own: bool, conn: Connector): Token
    reads conn
  {
    if own then conn.vaultToken else conn.k8sSaVaultToken
  }

  /** `toks` are the revocable tokens of the connectors. */
  ghost predicate Hold(own: bool, conns: seq<Connector>, toks: seq<Token>)
    reads conns
  {
    |toks| == |conns| && forall j | 0 <= j < |conns| :: Revocable(own, conns[j]) == toks[j]
  }

  lemma HoldAppend(own: bool, a: seq<Connector>, b: seq<Connector>, x: seq<Token>, y: seq<Token>)
    requires Hold(own, a, x) && Hold(own, b, y)
    ensures Hold(own, a + b, x + y)
  {
  }

  /** The deferred clean-up. */
  method CleanUp(ledger: Ledger, own: bool, conns: seq<Connector>, ghost toks: seq<Token>)
    requires Hold(own, conns, toks)
    modifies ledger`attempts
    ensures ledger.attempts == old(ledger.attempts) + NonEmpty(toks)
  {
    for i := 0 to |conns|
      invariant ledger.attempts == old(ledger.attempts) + NonEmpty(toks[..i])
    {
      assert toks[..i + 1][..i] == toks[..i] && [toks[i]][..0] == [];
      RevokeSelfToken(ledger, Revocable(own, conns[i]));
    }
    assert toks[..|toks|] == toks;
  }
}
