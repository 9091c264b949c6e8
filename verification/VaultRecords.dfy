/** Vault as the renewer and the revoker see it: live tokens and the two layers of the
    versioned key-value store, with requests that may fail before or after taking effect.
    (pkg/vault/handle_token.go) */
module VaultRecords {
  import opened Strings

  type Token = string

  datatype KeyInfo = KeyInfo(
    podNameUID: string,
    leaseID: string,
    tokenID: Token,
    namespace: string,
    serviceAccount: string,
    podName: string,
    nodeName: string)

  /** What becomes of one request. `LosesReply` takes effect and still reports an error. */
  datatype Call = Works | Fails | LosesReply

  /** The three requests of one HandlePodDeletionToken. */
  datatype Calls = Calls(revoke: Call, deleteData: Call, deleteMetadata: Call)

  type Faults = string -> Calls

  datatype Records = Records(live: set<Token>, data: map<string, KeyInfo>, metadata: set<string>)

  /** Entries know their key, and every entry with data is in the metadata layer. */
  ghost predicate WellFormed(v: Records) {
    && v.data.Keys <= v.metadata
    && forall k | k in v.data :: v.data[k].podNameUID == k
  }

  function Revoked(v: Records, t: Token, c: Call): Records {
    if c.Fails? then v else v.(live := v.live - {t})
  }

  function DataDeleted(v: Records, k: string, c: Call): Records {
    if c.Fails? then v else v.(data := v.data - {k})
  }

  /** Deleting the metadata destroys the data with it. */
  function MetadataDeleted(v: Records, k: string, c: Call): Records {
    if c.Fails? then v else v.(data := v.data - {k}, metadata := v.metadata - {k})
  }

  /** DeleteData: both layers in turn, stopping at the first error. */
  function Deleted(v: Records, k: string, c: Calls): Records {
    if c.deleteData.Works? then MetadataDeleted(DataDeleted(v, k, c.deleteData), k, c.deleteMetadata)
    else DataDeleted(v, k, c.deleteData)
  }

  class Vault {
    var live: set<Token>
    var data: map<string, KeyInfo>
    var metadata: set<string>

    ghost function Contents(): Records
      reads this
    {
      Records(live, data, metadata)
    }

    constructor (v: Records)
      ensures Contents() == v
    {
      live, data, metadata := v.live, v.data, v.metadata;
    }

    /** Revoking a token that is not there counts as success. */
    method RevokeOrphanToken(t: Token, c: Call) returns (ok: bool)
      modifies this
      ensures Contents() == Revoked(old(Contents()), t, c)
      ensures ok <==> c.Works?
      ensures ok ==> t !in live
      ensures live == (if c == Fails then old(live) else old(live) - {t})
      ensures data == old(data) && metadata == old(metadata)
    {
      if !c.Fails? {
        live := live - {t};
      }
      ok := c.Works?;
    }

    /** Deleting a layer that is already gone counts as success. */
    method DeleteData(k: string, c: Calls) returns (ok: bool)
      modifies this
      ensures Contents() == Deleted(old(Contents()), k, c)
      ensures ok <==> c.deleteData.Works? && c.deleteMetadata.Works?
      ensures ok ==> k !in data && k !in metadata
      ensures live == old(live)
      ensures data == if c.deleteData == Fails then old(data) else old(data) - {k}
      ensures metadata
        == if c.deleteData == Works && c.deleteMetadata != Fails then old(metadata) - {k} else old(metadata)
    {
      if !c.deleteData.Fails? {
        data := data - {k};
      }
      if !c.deleteData.Works? {
        return false;
      }
      if !c.deleteMetadata.Fails? {
        data := data - {k};
        metadata := metadata - {k};
      }
      ok := c.deleteMetadata.Works?;
    }

    method StoreData(ki: KeyInfo, c: Call) returns (ok: bool)
      modifies this
      ensures ok <==> c.Works?
      ensures Contents() == if c.Fails? then old(Contents())
        else old(Contents()).(data := old(data)[ki.podNameUID := ki], metadata := old(metadata) + {ki.podNameUID})
    {
      if !c.Fails? {
        data := data[ki.podNameUID := ki];
        metadata := metadata + {ki.podNameUID};
      }
      ok := c.Works?;
    }

    /** Missing for a key without data, as for one that was never stored. */
    method GetKeyInfo(k: string, readable: set<string>) returns (r: Reading)
      ensures r.ReadError? <==> k !in readable
      ensures r.Missing? <==> k in readable && k !in data
      ensures r.Entry? ==> k in data && r.ki == data[k]
    {
      if k !in readable {
        return ReadError;
      }
      r := if k in data then Entry(data[k]) else Missing;
    }

    /** Keys come from the metadata layer, in an arbitrary order, if the request for them works;
        keys without data are skipped, and so are those whose read fails, which makes the
        listing partial. */
    method ListKeyInfo(listed: bool, readable: set<string>) returns (infos: seq<KeyInfo>, complete: bool)
      requires WellFormed(Contents())
      ensures Lists(infos, data, Reachable(listed, readable))
      ensures forall ki :: ki in infos <==> listed && exists k :: k in data && k in readable && ki == data[k]
      ensures forall i, j | 0 <= i < j < |infos| :: infos[i] != infos[j]
      ensures complete <==> listed && metadata <= readable
    {
      infos, complete := [], listed;
      if !listed {
        return;
      }
      var todo := metadata;
      while todo != {}
        invariant todo <= metadata
        invariant Lists(infos, data, readable - todo)
        invariant complete <==> metadata - todo <= readable
        decreases |todo|
      {
        var k :| k in todo;
        todo := todo - {k};
        var r := GetKeyInfo(k, readable);
        if r.ReadError? {
          complete := false;
          assert readable - (todo + {k}) == readable - todo;
        } else {
          ListsNext(infos, data, readable - (todo + {k}), k);
          assert readable - (todo + {k}) + {k} == readable - todo;
          if r.Entry? {
            infos := infos + [r.ki];
          }
        }
      }
      assert readable - {} == readable;
    }
  }

  datatype Reading = Entry(ki: KeyInfo) | Missing | ReadError

  /** The keys a listing gets to. */
  function Reachable(listed: bool, readable: set<string>): set<string> {
    if listed then readable else {}
  }

  /** `infos` are the entries of `data` under the `readable` keys, each once. */
  ghost predicate Lists(infos: seq<KeyInfo>, data: map<string, KeyInfo>, readable: set<string>) {
    && (forall i | 0 <= i < |infos| :: infos[i].podNameUID in data && infos[i].podNameUID in readable
                                       && data[infos[i].podNameUID] == infos[i])
    && (forall i, j | 0 <= i < j < |infos| :: infos[i].podNameUID != infos[j].podNameUID)
    && (forall k | k in data && k in readable :: data[k] in infos)
  }

  lemma ListsNext(infos: seq<KeyInfo>, data: map<string, KeyInfo>, readable: set<string>, k: string)
    requires Lists(infos, data, readable) && k !in readable && (k in data ==> data[k].podNameUID == k)
    ensures Lists(if k in data then infos + [data[k]] else infos, data, readable + {k})
  {
    if k in data {
      assert (infos + [data[k]])[|infos|] == data[k];
    }
  }
}
