/** The plugin's cache on disk (pkg/nri/persist.go): written to a temporary file, synced and
    renamed into place. JSON is an abstract codec: encoding always succeeds here unless a
    fault says otherwise, and decoding undoes it. */
module CacheFile {
  import opened Strings
  import opened Substitution

  type Bytes = seq<nat>
  type Pods = map<string, Mapping>

  datatype Codec = Codec(encode: Pods -> Bytes, decode: Bytes -> Option<Pods>)

  ghost predicate Inverse(c: Codec) {
    forall pods :: c.decode(c.encode(pods)) == Some(pods)
  }

  /** A file's contents, and whether they are known to be on the disk. */
  datatype File = File(bytes: Bytes, synced: bool)

  datatype Disk = Disk(final: Option<File>, tmp: Option<File>)

  datatype Loaded = Loaded(pods: Pods) | ParseError

  /** loadCache: a missing file is an empty cache. */
  function Load(c: Codec, d: Disk): Loaded {
    match d.final
    case None => Loaded(map[])
    case Some(f) => (match c.decode(f.bytes) case Some(pods) => Loaded(pods) case None => ParseError)
  }

  /** What a crash may leave: of a file that was not synced, and of the temporary file in any
      case, anything. A rename that was done stays done. */
  predicate Crashed(before: Disk, after: Disk) {
    match before.final
    case None => after.final == None
    case Some(f) => after.final.Some? && (f.synced ==> after.final == Some(f))
  }

  // ---- The calls of saveCache ----

  function Open(d: Disk): Disk { d.(tmp := Some(File([], false))) }

  function Append(d: Disk, bytes: Bytes): Disk {
    match d.tmp
    case None => d
    case Some(f) => d.(tmp := Some(File(f.bytes + bytes, false)))
  }

  function Sync(d: Disk): Disk {
    match d.tmp
    case None => d
    case Some(f) => d.(tmp := Some(f.(synced := true)))
  }

  function Remove(d: Disk): Disk { d.(tmp := None) }

  function Rename(d: Disk): Disk { if d.tmp.None? then d else Disk(d.tmp, None) }

  /** Which calls succeed; a failing write has got `written` bytes to the file. */
  datatype Faults = Faults(
    mkdir: bool, marshal: bool, open: bool,
    write: bool, written: nat,
    sync: bool, close: bool, remove: bool, rename: bool)

  class FileSystem {
    var disk: Disk
    ghost var history: seq<Disk>       // every state the disk has been in

    constructor (d: Disk)
      ensures disk == d && history == [d]
    {
      disk, history := d, [d];
    }

    method Do(d: Disk)
      modifies this
      ensures disk == d && history == old(history) + [d]
    {
      disk, history := d, history + [d];
    }

    /** Writes one unit after the other, so that a crash can come in between. */
    method WriteBytes(bytes: Bytes, n: nat)
      requires n <= |bytes| && disk.tmp == Some(File([], false))
      requires |history| > 0 && history[|history| - 1] == disk
      modifies this
      ensures disk == Disk(old(disk.final), Some(File(bytes[..n], false)))
      ensures |history| == |old(history)| + n
      ensures history[..|old(history)|] == old(history)
      ensures history[|history| - 1] == disk
      ensures forall i | |old(history)| <= i < |history| :: history[i].final == old(disk.final)
    {
      for i := 0 to n
        invariant disk == Disk(old(disk.final), Some(File(bytes[..i], false)))
        invariant |history| == |old(history)| + i && history[|history| - 1] == disk
        invariant history[..|old(history)|] == old(history)
        invariant forall j | |old(history)| <= j < |history| :: history[j].final == old(disk.final)
      {
        assert bytes[..i + 1] == bytes[..i] + [bytes[i]];
        Do(Append(disk, [bytes[i]]));
      }
    }

    method CleanUp(f: Faults)
      modifies this
      ensures disk == if f.remove then Remove(old(disk)) else old(disk)
      ensures history == old(history) + if f.remove then [disk] else []
    {
      if f.remove {
        Do(Remove(disk));
      }
    }

    /** saveCache. Whatever fails, and wherever it is cut off, the file in place is the old
        one or, once renamed, the complete and synced new one. */
    method SaveCache(c: Codec, pods: Pods, f: Faults) returns (ok: bool)
      requires |history| > 0 && history[|history| - 1] == disk
      modifies this
      ensures ok <==> f.mkdir && f.marshal && f.open && f.write && f.sync && f.close && f.rename
      ensures f.mkdir && f.marshal && f.open && !(f.write && f.sync && f.close) && f.remove ==> disk.tmp == None
      ensures ok ==> disk.tmp == None
      ensures disk.final == if ok then Some(File(c.encode(pods), true)) else old(disk.final)
      ensures |history| >= |old(history)| && history[..|old(history)|] == old(history) && history[|history| - 1] == disk
      ensures forall i | |old(history)| <= i < |history| ::
        history[i].final == old(disk.final) || history[i].final == Some(File(c.encode(pods), true))
    {
      if !f.mkdir || !f.marshal {
        return false;
      }
      var b := c.encode(pods);
      if !f.open {
        return false;
      }
      Do(Open(disk));
      WriteBytes(b, if f.write then |b| else if f.written < |b| then f.written else |b|);
      if !f.write {
        CleanUp(f);
        return false;
      }
      assert b[..|b|] == b;
      if !f.sync {
        CleanUp(f);
        return false;
      }
      Do(Sync(disk));
      if !f.close {
        CleanUp(f);
        return false;
      }
      if !f.rename {
        return false;
      }
      Do(Rename(disk));
      return true;
    }
  }

  predicate Succeeds(f: Faults) {
    f.mkdir && f.marshal && f.open && f.write && f.sync && f.close && f.rename
  }

  // ---- Crash atomicity ----

  /** The disk holds exactly `pods`, for good. */
  predicate Holds(c: Codec, d: Disk, pods: Pods) {
    match d.final
    case None => pods == map[]
    case Some(f) => f == File(c.encode(pods), true)
  }

  lemma HeldSurvives(c: Codec, d: Disk, after: Disk, pods: Pods)
    requires Inverse(c) && Holds(c, d, pods) && (after == d || Crashed(d, after))
    ensures Load(c, after) == Loaded(pods)
  {
    assert c.decode(c.encode(pods)) == Some(pods);
  }

  datatype Save = Save(pods: Pods, faults: Faults)

  /** The map on disk once the saves are through: the last that succeeded. */
  function Kept(first: Pods, saves: seq<Save>): Pods {
    if saves == [] then first
    else
      var last := saves[|saves| - 1];
      if Succeeds(last.faults) then last.pods else Kept(first, saves[..|saves| - 1])
  }

  /** Any sequence of saves, one after the other, whatever calls fail. `marks` tells where in
      the history of the disk each save begins and ends; wherever a crash cuts a save off, the
      next load returns the map there was before that save, or the map of that save. */
  method SaveAll(fs: FileSystem, c: Codec, first: Pods, saves: seq<Save>) returns (ghost marks: seq<nat>)
    requires Inverse(c) && fs.history == [fs.disk] && Holds(c, fs.disk, first)
    modifies fs
    ensures Holds(c, fs.disk, Kept(first, saves))
    ensures Marks(marks, |saves|, |fs.history|)
    ensures forall k: nat, i: nat, crashed
      | During(marks, k, i) && i < |fs.history| && Crashed(fs.history[i], crashed) ::
        LoadsAt(c, first, saves, crashed, k)
  {
    marks := [0];
    assert saves[..0] == [];
    for k := 0 to |saves|
      invariant Marks(marks, k, |fs.history|) && fs.history[|fs.history| - 1] == fs.disk
      invariant Holds(c, fs.disk, Kept(first, saves[..k]))
      invariant forall n: nat, i: nat | During(marks, n, i) && i < |fs.history| ::
        Explained(c, first, saves, fs.history[i], n)
    {
      ghost var before, was := fs.disk, fs.history;
      var ok := fs.SaveCache(c, saves[k].pods, saves[k].faults);
      assert saves[..k + 1][..k] == saves[..k];
      forall i | 0 <= i < |was| ensures fs.history[i] == was[i] {
        assert fs.history[..|was|][i] == was[i];
      }
      SameFinal(c, before, fs.disk, Kept(first, saves[..k]));
      forall i | |was| - 1 <= i < |fs.history| ensures Explained(c, first, saves, fs.history[i], k) {
        SameFinal(c, before, fs.history[i], Kept(first, saves[..k]));
      }
      forall n: nat, i: nat | During(marks + [|fs.history| - 1], n, i) && i < |fs.history|
        ensures Explained(c, first, saves, fs.history[i], n)
      {
        if n < k {
          assert During(marks, n, i);
        }
      }
      marks := marks + [|fs.history| - 1];
    }
    assert saves[..|saves|] == saves;
    forall k: nat, i: nat, crashed | During(marks, k, i) && i < |fs.history| && Crashed(fs.history[i], crashed)
      ensures LoadsAt(c, first, saves, crashed, k)
    {
      ExplainedLoads(c, first, saves, fs.history[i], k, crashed);
    }
  }

  ghost predicate Marks(marks: seq<nat>, n: nat, length: nat) {
    |marks| == n + 1 && marks[0] == 0 && marks[n] == length - 1 && forall m | 0 <= m <= n :: marks[m] < length
  }

  /** Every state of the disk was seen during some save. */
  lemma AllDuring(marks: seq<nat>, n: nat, length: nat, i: nat)
    requires Marks(marks, n, length) && n > 0 && i < length
    ensures exists k: nat :: During(marks, k, i)
  {
    var k: nat := 0;
    while marks[k + 1] < i
      invariant k < n && marks[k] <= i
      decreases n - k
    {
      k := k + 1;
    }
    assert During(marks, k, i);
  }

  /** The `i`-th state of the disk was seen during save `k`, or right before it. */
  predicate During(marks: seq<nat>, k: nat, i: nat) {
    k + 1 < |marks| && marks[k] <= i <= marks[k + 1]
  }

  lemma SameFinal(c: Codec, d: Disk, e: Disk, pods: Pods)
    requires Holds(c, d, pods)
    ensures e.final == d.final ==> Holds(c, e, pods)
    ensures forall p | e.final == Some(File(c.encode(p), true)) :: Holds(c, e, p)
  {
  }

  /** What loads is the map before save `k`, or that of save `k`. */
  predicate LoadsAt(c: Codec, first: Pods, saves: seq<Save>, d: Disk, k: nat) {
    && k <= |saves|
    && (Load(c, d) == Loaded(Kept(first, saves[..k])) || (k < |saves| && Load(c, d) == Loaded(saves[k].pods)))
  }

  /** A state seen during save `k`. */
  predicate Explained(c: Codec, first: Pods, saves: seq<Save>, d: Disk, k: nat) {
    k <= |saves| && (Holds(c, d, Kept(first, saves[..k])) || (k < |saves| && Holds(c, d, saves[k].pods)))
  }

  lemma ExplainedLoads(c: Codec, first: Pods, saves: seq<Save>, d: Disk, k: nat, crashed: Disk)
    requires Inverse(c) && Explained(c, first, saves, d, k) && Crashed(d, crashed)
    ensures LoadsAt(c, first, saves, crashed, k)
  {
    if Holds(c, d, Kept(first, saves[..k])) {
      HeldSurvives(c, d, crashed, Kept(first, saves[..k]));
    } else {
      HeldSurvives(c, d, crashed, saves[k].pods);
    }
  }

  // ---- Why the steps are as they are ----

  /** Without the sync a crash after the rename can leave a file that does not parse. */
  lemma SyncIsNeeded(c: Codec, d: Disk, pods: Pods, junk: Bytes) returns (crashed: Disk)
    requires c.decode(junk) == None
    ensures Crashed(Rename(Append(Open(d), c.encode(pods))), crashed)
    ensures Load(c, crashed) == ParseError
  {
    crashed := Disk(Some(File(junk, false)), None);
  }

  /** Saves must not overlap: they share the temporary file. If a second save opens it just
      before the first renames it, the file in place is empty, which does not parse. */
  lemma OverlapTruncates(c: Codec, d: Disk, pods: Pods)
    requires c.decode([]) == None
    ensures var first := Sync(Append(Open(d), c.encode(pods)));
      && Load(c, Rename(Open(first))) == ParseError
      && (Inverse(c) ==> Load(c, Rename(first)) == Loaded(pods))
  {
    assert [] + c.encode(pods) == c.encode(pods);
    if Inverse(c) {
      assert c.decode(c.encode(pods)) == Some(pods);
    }
  }
}
