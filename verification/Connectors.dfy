/** A connection to Vault, the tokens it holds, and what it asks Vault to do with tokens
    (pkg/vault/vault.go, pkg/vault/auth.go, StoreDataAsync in pkg/vault/handle_token.go). */
module Connectors {
  import opened Strings

  /** The empty string is no token. */
  type Token = string

  class Connector {
    var vaultToken: Token
    var k8sSaVaultToken: Token

    constructor ()
      ensures vaultToken == "" && k8sSaVaultToken == ""
    {
      vaultToken, k8sSaVaultToken := "", "";
    }
  }

  /** Everything that was asked for, in order: revocations of a token by itself, orphan
      tokens created, and KV records whose asynchronous write was started. */
  class Ledger {
    var attempts: seq<Token>
    var orphans: seq<Token>
    var stored: seq<(string, Token)>

    constructor ()
      ensures attempts == [] && orphans == [] && stored == []
    {
      attempts, orphans, stored := [], [], [];
    }
  }

  method Login(conn: Connector, reply: Option<Token>) returns (ok: bool)
    modifies conn`vaultToken
    ensures ok <==> reply.Some?
    ensures conn.vaultToken == if ok then reply.value else old(conn.vaultToken)
  {
    if reply.Some? {
      conn.vaultToken := reply.value;
    }
    ok := reply.Some?;
  }

  /** The attempt counts, whether or not it succeeds; there is none without a token. */
  method RevokeSelfToken(ledger: Ledger, t: Token)
    modifies ledger`attempts
    ensures ledger.attempts == old(ledger.attempts) + NonEmpty([t])
    ensures ledger.attempts == old(ledger.attempts) + if t == "" then [] else [t]
  {
    if t != "" {
      ledger.attempts := ledger.attempts + [t];
    }
  }

  function NonEmpty(ts: seq<Token>): seq<Token> {
    if ts == [] then [] else NonEmpty(ts[..|ts| - 1]) + (if ts[|ts| - 1] == "" then [] else [ts[|ts| - 1]])
  }

  lemma {:induction false} NonEmptyOfAll(ts: seq<Token>)
    requires forall i | 0 <= i < |ts| :: ts[i] != ""
    ensures NonEmpty(ts) == ts
  {
    if ts != [] {
      assert ts == ts[..|ts| - 1] + [ts[|ts| - 1]];
      NonEmptyOfAll(ts[..|ts| - 1]);
    }
  }

  lemma {:induction false} NonEmptyOfNone(ts: seq<Token>)
    requires forall i | 0 <= i < |ts| :: ts[i] == ""
    ensures NonEmpty(ts) == []
  {
    if ts != [] {
      assert ts == ts[..|ts| - 1] + [ts[|ts| - 1]];
      NonEmptyOfNone(ts[..|ts| - 1]);
    }
  }

  /** The record made of a credential, if the connector has a token for bookkeeping. */
  function Recorded(bookkeeping: Token, key: string, t: Token): seq<(string, Token)> {
    if bookkeeping == "" then [] else [(key, t)]
  }

  /** GetDbCredentials: with `skipOrphan` the connector's own token stands behind the
      credential, otherwise a new orphan token, which the connector then holds. */
  method GetDbCredentials(conn: Connector, ledger: Ledger, key: string, skipOrphan: bool, orphan: Option<Token>,
                          readOk: bool)
      returns (ok: bool)
    modifies conn`vaultToken, ledger`orphans, ledger`stored
    ensures ok <==> (skipOrphan || orphan.Some?) && readOk
    ensures skipOrphan || orphan.None? ==>
      conn.vaultToken == old(conn.vaultToken) && ledger.orphans == old(ledger.orphans)
    ensures !skipOrphan && orphan.Some? ==>
      conn.vaultToken == orphan.value && ledger.orphans == old(ledger.orphans) + [orphan.value]
    ensures ledger.stored
         == old(ledger.stored) + if ok then Recorded(conn.k8sSaVaultToken, key, conn.vaultToken) else []
    ensures ok && conn.k8sSaVaultToken != "" ==> ledger.stored == old(ledger.stored) + [(key, conn.vaultToken)]
    ensures !ok || conn.k8sSaVaultToken == "" ==> ledger.stored == old(ledger.stored)
  {
    var tokenId := conn.vaultToken;
    if !skipOrphan {
      if orphan.None? {
        return false;
      }
      ledger.orphans := ledger.orphans + [orphan.value];
      conn.vaultToken := orphan.value;
      tokenId := orphan.value;
    }
    if !readOk {
      return false;
    }
    if conn.k8sSaVaultToken != "" {
      ledger.stored := ledger.stored + [(key, tokenId)];
    }
    return true;
  }
}
