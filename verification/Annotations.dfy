/** The pod annotations both processes read: the database configurations the webhook and
    the plugin parse (pkg/k8s/parse_annotations.go), the UUIDs the webhook stamps, and the
    UUIDs the renewer and the revoker match against (pkg/k8s/pod_utils.go). */
module Annotations {
  import opened Strings

  type Annotations = map<string, string>

  const DOMAIN: string := "db-creds-injector.numberly.io"
  const ANNOTATION_PREFIX: string := DOMAIN + "/"
  const ANNOTATION_VAULT_DB_PATH: string := ANNOTATION_PREFIX + "cluster"
  const ANNOTATION_ROLE: string := ANNOTATION_PREFIX + "role"
  const ANNOTATION_VAULT_POD_UUID: string := ANNOTATION_PREFIX + "uuid"
  const ANNOTATION_V1: string := ANNOTATION_PREFIX + "revoke-ttl"

  datatype DbConfiguration = DbConfiguration(
    dbName: string, role: string, mode: string, template: string,
    dbURIEnvKey: string, dbUserEnvKey: string, dbPasswordEnvKey: string)

  datatype ParseResult = Parsed(confs: seq<DbConfiguration>, vaultDbPath: string) | V1AnnotationDetected

  // ---- Specification: what the annotations say, without any order ----

  /** The key of the annotation that sets `configType` of the database `name`. */
  function KeyOf(name: string, configType: string): string {
    ANNOTATION_PREFIX + name + "." + configType
  }

  /** Database name and configuration type of an annotation key. */
  function KeyParts(key: string): (r: Option<(string, string)>)
    ensures r.Some? ==> '.' !in r.value.0 && key == KeyOf(r.value.0, r.value.1)
  {
    if ANNOTATION_PREFIX <= key then Cut(key[|ANNOTATION_PREFIX|..], '.') else None
  }

  function Lookup(a: Annotations, read: set<string>, key: string, default: string): string {
    if key in a && key in read then a[key] else default
  }

  function DefaultRole(a: Annotations): string {
    if ANNOTATION_ROLE in a then a[ANNOTATION_ROLE] else ""
  }

  /** What the annotations in `read` say about the database `name`. */
  function ConfFrom(a: Annotations, read: set<string>, name: string): DbConfiguration {
    DbConfiguration(
      name,
      Lookup(a, read, KeyOf(name, "role"), DefaultRole(a)),
      Lower(Lookup(a, read, KeyOf(name, "mode"), "")),
      Lookup(a, read, KeyOf(name, "template"), ""),
      Lookup(a, read, KeyOf(name, "env-key-uri"), ""),
      Lookup(a, read, KeyOf(name, "env-key-dbuser"), ""),
      Lookup(a, read, KeyOf(name, "env-key-dbpassword"), ""))
  }

  function Names(read: set<string>): set<string> {
    set k | k in read && KeyParts(k).Some? :: KeyParts(k).value.0
  }

  /** Go's `<` on strings. */
  predicate Less(a: string, b: string) {
    b != "" && (a == "" || a[0] < b[0] || (a[0] == b[0] && Less(a[1..], b[1..])))
  }

  predicate SortedByName(confs: seq<DbConfiguration>) {
    forall i, j | 0 <= i < j < |confs| :: Less(confs[i].dbName, confs[j].dbName)
  }

  /** The list both processes must see: one configuration per database named, strictly
      sorted by name. `ParseIsUnique` shows that it is determined by the annotations. */
  ghost predicate IsParse(a: Annotations, confs: seq<DbConfiguration>) {
    && SortedByName(confs)
    && forall c :: c in confs <==> c.dbName in Names(a.Keys) && c == ConfFrom(a, a.Keys, c.dbName)
  }

  predicate IsV1(key: string) { ANNOTATION_V1 <= key }

  /** The path of the database engine in Vault. */
  function DbPath(a: Annotations, defaultEngine: string): string {
    if ANNOTATION_VAULT_DB_PATH in a && a[ANNOTATION_VAULT_DB_PATH] != ""
    then a[ANNOTATION_VAULT_DB_PATH] else defaultEngine
  }

  ghost predicate IsParseResult(a: Annotations, defaultEngine: string, r: ParseResult) {
    match r
    case V1AnnotationDetected => exists k :: k in a && IsV1(k)
    case Parsed(confs, path) => (forall k | k in a :: !IsV1(k)) && IsParse(a, confs) && path == DbPath(a, defaultEngine)
  }

  // ---- The same, annotation by annotation ----

  function ValueOr(a: Annotations, key: string, default: string): string {
    if key in a then a[key] else default
  }

  /** One configuration, from the pod's annotations with the database's name in their keys. */
  predicate ReadsOff(a: Annotations, c: DbConfiguration) {
    var own := "db-creds-injector.numberly.io/" + c.dbName;
    && c.role == ValueOr(a, own + ".role", ValueOr(a, "db-creds-injector.numberly.io/role", ""))
    && c.mode == Lower(ValueOr(a, own + ".mode", ""))
    && c.template == ValueOr(a, own + ".template", "")
    && c.dbURIEnvKey == ValueOr(a, own + ".env-key-uri", "")
    && c.dbUserEnvKey == ValueOr(a, own + ".env-key-dbuser", "")
    && c.dbPasswordEnvKey == ValueOr(a, own + ".env-key-dbpassword", "")
  }

  /** Some annotation has the database's name before the first dot of its key. */
  ghost predicate IsNamed(a: Annotations, name: string) {
    '.' !in name && exists t :: "db-creds-injector.numberly.io/" + name + "." + t in a
  }

  /** One configuration for each database named, in the order of the names. */
  ghost predicate SaysWhatIsThere(a: Annotations, confs: seq<DbConfiguration>) {
    && (forall name :: IsNamed(a, name) <==> exists c :: c in confs && c.dbName == name)
    && (forall c | c in confs :: ReadsOff(a, c))
    && (forall i, j | 0 <= i < j < |confs| :: ComesBefore(confs[i].dbName, confs[j].dbName))
  }

  /** The order of a dictionary. */
  ghost predicate ComesBefore(a: string, b: string) {
    exists n :: 0 <= n <= |a| && n < |b| && a[..n] == b[..n] && (n == |a| || a[n] < b[n])
  }

  lemma {:induction false} LessIsLexical(a: string, b: string)
    ensures Less(a, b) <==> ComesBefore(a, b)
  {
    if a == "" && b != "" {
      assert a[..0] == b[..0];
    } else if a != "" && b != "" {
      LessIsLexical(a[1..], b[1..]);
      if ComesBefore(a, b) { BeforeOnTail(a, b); }
      if a[0] < b[0] { assert a[..0] == b[..0]; }
      if a[0] == b[0] && ComesBefore(a[1..], b[1..]) { BeforeFromTail(a, b); }
    }
  }

  lemma BeforeOnTail(a: string, b: string)
    requires a != "" && b != "" && ComesBefore(a, b)
    ensures a[0] < b[0] || (a[0] == b[0] && ComesBefore(a[1..], b[1..]))
  {
    var n :| 0 <= n <= |a| && n < |b| && a[..n] == b[..n] && (n == |a| || a[n] < b[n]);
    if n > 0 {
      assert a[..n][0] == b[..n][0] && a[1..][..n - 1] == a[..n][1..] && b[1..][..n - 1] == b[..n][1..];
    }
  }

  lemma BeforeFromTail(a: string, b: string)
    requires a != "" && b != "" && a[0] == b[0] && ComesBefore(a[1..], b[1..])
    ensures ComesBefore(a, b)
  {
    var c, d := a[1..], b[1..];
    var m :| 0 <= m <= |c| && m < |d| && c[..m] == d[..m] && (m == |c| || c[m] < d[m]);
    assert a[..m + 1] == [a[0]] + c[..m] && b[..m + 1] == [b[0]] + d[..m];
  }

  lemma NamedIsName(a: Annotations, name: string)
    ensures IsNamed(a, name) <==> name in Names(a.Keys)
  {
    assert DOMAIN + "/" == "db-creds-injector.numberly.io/";
    if IsNamed(a, name) {
      var t :| "db-creds-injector.numberly.io/" + name + "." + t in a;
      assert KeyOf(name, t) == "db-creds-injector.numberly.io/" + name + "." + t;
      KeyOfParts(name, t);
    }
    if name in Names(a.Keys) {
      var k :| k in a && KeyParts(k).Some? && KeyParts(k).value.0 == name;
      assert k == KeyOf(name, KeyParts(k).value.1);
      assert k == "db-creds-injector.numberly.io/" + name + "." + KeyParts(k).value.1;
    }
  }

  lemma LookupText(a: Annotations, name: string, t: string, suffix: string, default: string)
    requires suffix == "." + t
    ensures Lookup(a, a.Keys, KeyOf(name, t), default)
         == ValueOr(a, "db-creds-injector.numberly.io/" + name + suffix, default)
  {
    assert DOMAIN + "/" == "db-creds-injector.numberly.io/";
    assert KeyOf(name, t) == "db-creds-injector.numberly.io/" + name + suffix;
  }

  lemma ConfReadsOff(a: Annotations, name: string)
    ensures ReadsOff(a, ConfFrom(a, a.Keys, name))
  {
    assert ANNOTATION_ROLE == "db-creds-injector.numberly.io/role";
    LookupText(a, name, "role", ".role", DefaultRole(a));
    LookupText(a, name, "mode", ".mode", "");
    LookupText(a, name, "template", ".template", "");
    LookupText(a, name, "env-key-uri", ".env-key-uri", "");
    LookupText(a, name, "env-key-dbuser", ".env-key-dbuser", "");
    LookupText(a, name, "env-key-dbpassword", ".env-key-dbpassword", "");
  }

  /** The order-free meaning, spelled out. */
  lemma ParseReads(a: Annotations, confs: seq<DbConfiguration>)
    requires IsParse(a, confs)
    ensures SaysWhatIsThere(a, confs)
  {
    forall name ensures IsNamed(a, name) <==> exists c :: c in confs && c.dbName == name {
      NamedIsName(a, name);
      if name in Names(a.Keys) {
        assert ConfFrom(a, a.Keys, name) in confs;
      }
    }
    forall c | c in confs ensures ReadsOff(a, c) {
      ConfReadsOff(a, c.dbName);
    }
    forall i, j | 0 <= i < j < |confs| ensures ComesBefore(confs[i].dbName, confs[j].dbName) {
      LessIsLexical(confs[i].dbName, confs[j].dbName);
    }
  }

  /** The whole result: an error exactly when there is an annotation of the first version;
      otherwise the configurations, and the path of the database engine or the default one. */
  ghost predicate SpelledOut(a: Annotations, defaultEngine: string, r: ParseResult) {
    && (r.V1AnnotationDetected? <==> exists k :: k in a && "db-creds-injector.numberly.io/revoke-ttl" <= k)
    && (r.Parsed? ==>
          var path := ValueOr(a, "db-creds-injector.numberly.io/cluster", "");
          && SaysWhatIsThere(a, r.confs)
          && r.vaultDbPath == if path == "" then defaultEngine else path)
  }

  lemma ResultSpelledOut(a: Annotations, defaultEngine: string, r: ParseResult)
    requires IsParseResult(a, defaultEngine, r)
    ensures SpelledOut(a, defaultEngine, r)
  {
    assert ANNOTATION_V1 == "db-creds-injector.numberly.io/revoke-ttl";
    assert ANNOTATION_VAULT_DB_PATH == "db-creds-injector.numberly.io/cluster";
    if r.Parsed? {
      ParseReads(a, r.confs);
    }
  }

  // ---- The parser ----

  /** The program's two cuts give the parts of the key. */
  lemma CutKey(key: string)
    requires ANNOTATION_PREFIX <= key
    ensures Cut(key, '/') == Some((DOMAIN, key[|ANNOTATION_PREFIX|..]))
  {
    assert key == DOMAIN + ['/'] + key[|ANNOTATION_PREFIX|..];
    CutAt(DOMAIN, '/', key[|ANNOTATION_PREFIX|..]);
  }

  lemma KeyOfParts(name: string, configType: string)
    requires '.' !in name
    ensures KeyParts(KeyOf(name, configType)) == Some((name, configType))
  {
    assert KeyOf(name, configType)[|ANNOTATION_PREFIX|..] == name + ['.'] + configType;
    CutAt(name, '.', configType);
  }

  /** The switch of the loop body. */
  function Assign(c: DbConfiguration, configType: string, value: string): DbConfiguration {
    if configType == "env-key-uri" then c.(dbURIEnvKey := value)
    else if configType == "template" then c.(template := value)
    else if configType == "mode" then c.(mode := Lower(value))
    else if configType == "env-key-dbuser" then c.(dbUserEnvKey := value)
    else if configType == "env-key-dbpassword" then c.(dbPasswordEnvKey := value)
    else if configType == "role" then c.(role := value)
    else c
  }

  lemma LookupAfter(a: Annotations, read: set<string>, key: string, name: string, t: string, default: string)
    requires key in a && key !in read && '.' !in name
    ensures Lookup(a, read + {key}, KeyOf(name, t), default)
         == if KeyParts(key) == Some((name, t)) then a[key] else Lookup(a, read, KeyOf(name, t), default)
  {
    KeyOfParts(name, t);
  }

  lemma AssignReads(a: Annotations, read: set<string>, key: string, name: string)
    requires key in a && key !in read && '.' !in name
    ensures ConfFrom(a, read + {key}, name)
         == if KeyParts(key).Some? && KeyParts(key).value.0 == name
            then Assign(ConfFrom(a, read, name), KeyParts(key).value.1, a[key])
            else ConfFrom(a, read, name)
  {
    LookupAfter(a, read, key, name, "role", DefaultRole(a));
    LookupAfter(a, read, key, name, "mode", "");
    LookupAfter(a, read, key, name, "template", "");
    LookupAfter(a, read, key, name, "env-key-uri", "");
    LookupAfter(a, read, key, name, "env-key-dbuser", "");
    LookupAfter(a, read, key, name, "env-key-dbpassword", "");
    var c, d := ConfFrom(a, read, name), ConfFrom(a, read + {key}, name);
    if KeyParts(key).Some? && KeyParts(key).value.0 == name {
      AssignedField(c, d, KeyParts(key).value.1, a[key]);
    }
  }

  /** `d` is `c` with the field of one configuration type set, if there is such a field. */
  lemma AssignedField(c: DbConfiguration, d: DbConfiguration, t: string, value: string)
    requires d.dbName == c.dbName
    requires d.role == if t == "role" then value else c.role
    requires d.mode == if t == "mode" then Lower(value) else c.mode
    requires d.template == if t == "template" then value else c.template
    requires d.dbURIEnvKey == if t == "env-key-uri" then value else c.dbURIEnvKey
    requires d.dbUserEnvKey == if t == "env-key-dbuser" then value else c.dbUserEnvKey
    requires d.dbPasswordEnvKey == if t == "env-key-dbpassword" then value else c.dbPasswordEnvKey
    ensures d == Assign(c, t, value)
  {
  }

  /** `confs` has the configuration of each of the `names` once, and no others. */
  ghost predicate CollectedAs(names: set<string>, conf: string -> DbConfiguration, confs: seq<DbConfiguration>) {
    && (forall i, j | 0 <= i < j < |confs| :: confs[i].dbName != confs[j].dbName)
    && (forall i | 0 <= i < |confs| :: confs[i].dbName in names && confs[i] == conf(confs[i].dbName))
    && (forall n | n in names :: HasName(confs, n))
  }

  ghost predicate HasName(confs: seq<DbConfiguration>, n: string) {
    exists i :: 0 <= i < |confs| && confs[i].dbName == n
  }

  /** The configurations collected once the keys in `read` have been visited. */
  ghost predicate Collected(a: Annotations, read: set<string>, confs: seq<DbConfiguration>) {
    CollectedAs(Names(read), ConfIn(a, read), confs)
  }

  function ConfIn(a: Annotations, read: set<string>): string -> DbConfiguration {
    n => ConfFrom(a, read, n)
  }

  lemma UpdatedAs(names: set<string>, f: string -> DbConfiguration, g: string -> DbConfiguration,
                  before: seq<DbConfiguration>, i: nat)
    requires CollectedAs(names, f, before) && i < |before|
    requires forall n | n in names && n != before[i].dbName :: g(n) == f(n)
    requires g(before[i].dbName).dbName == before[i].dbName
    ensures CollectedAs(names, g, before[i := g(before[i].dbName)])
  {
    var after := before[i := g(before[i].dbName)];
    assert forall j | 0 <= j < |before| :: after[j].dbName == before[j].dbName;
    forall n | n in names ensures HasName(after, n) {
      assert HasName(before, n);
      var j :| 0 <= j < |before| && before[j].dbName == n;
      assert after[j].dbName == n;
    }
  }

  lemma AppendedAs(names: set<string>, f: string -> DbConfiguration, g: string -> DbConfiguration,
                   before: seq<DbConfiguration>, name: string)
    requires CollectedAs(names, f, before) && name !in names
    requires forall n | n in names :: g(n) == f(n)
    requires g(name).dbName == name
    ensures CollectedAs(names + {name}, g, before + [g(name)])
  {
    var after := before + [g(name)];
    assert after[|before|].dbName == name;
    forall n | n in names ensures HasName(after, n) {
      assert HasName(before, n);
      var j :| 0 <= j < |before| && before[j].dbName == n;
      assert after[j].dbName == n;
    }
  }

  /** GetPodDbConfig: one pass over the annotations in arbitrary order, then the sort. */
  method GetPodDbConfig(a: Annotations, defaultEngine: string) returns (r: ParseResult)
    ensures IsParseResult(a, defaultEngine, r)
    ensures SpelledOut(a, defaultEngine, r)
  {
    var vaultDbPath := defaultEngine;
    if ANNOTATION_VAULT_DB_PATH in a && a[ANNOTATION_VAULT_DB_PATH] != "" {
      vaultDbPath := a[ANNOTATION_VAULT_DB_PATH];
    }
    var confs := CollectAll(a);
    if confs.None? {
      ResultSpelledOut(a, defaultEngine, V1AnnotationDetected);
      return V1AnnotationDetected;
    }
    var sorted := SortSlice(confs.value);
    CollectedIsParse(a, confs.value, sorted);
    r := Parsed(sorted, vaultDbPath);
    ResultSpelledOut(a, defaultEngine, r);
  }

  /** The pass; None when it comes upon an annotation of the first version. */
  method CollectAll(a: Annotations) returns (r: Option<seq<DbConfiguration>>)
    ensures r.None? <==> exists k :: k in a && IsV1(k)
    ensures r.Some? ==> Collected(a, a.Keys, r.value)
  {
    var confs: seq<DbConfiguration> := [];
    var todo := a.Keys;
    ghost var read: set<string> := {};
    NothingCollected(a);
    while todo != {}
      invariant Progress(a, todo, read, confs)
      decreases |todo|
    {
      var key :| key in todo;
      if IsV1(key) {
        assert key in a;
        return None;
      }
      confs := Visit(a, todo, read, key, confs);
      todo, read := todo - {key}, read + {key};
    }
    assert read == a.Keys;
    r := Some(confs);
  }

  /** The keys in `read` have been visited, and none is of the first version. */
  ghost predicate Progress(a: Annotations, todo: set<string>, read: set<string>, confs: seq<DbConfiguration>) {
    Halves(a.Keys, todo, read) && (forall k | k in read :: !IsV1(k)) && Collected(a, read, confs)
  }

  predicate Halves(all: set<string>, todo: set<string>, read: set<string>) {
    todo !! read && todo + read == all
  }

  lemma Moved(all: set<string>, todo: set<string>, read: set<string>, key: string)
    requires Halves(all, todo, read) && key in todo
    ensures Halves(all, todo - {key}, read + {key})
  {
  }

  lemma NothingCollected(a: Annotations)
    ensures Collected(a, {}, [])
  {
  }

  /** The body of the loop for one annotation that is not of the first version. */
  method Visit(a: Annotations, ghost todo: set<string>, ghost read: set<string>, key: string,
               before: seq<DbConfiguration>) returns (after: seq<DbConfiguration>)
    requires Progress(a, todo, read, before) && key in todo && !IsV1(key)
    ensures Progress(a, todo - {key}, read + {key}, after)
  {
    after := before;
    if ANNOTATION_PREFIX <= key {
      CutKey(key);
      var parts := Cut(key, '/').value;
      var keyParts := Cut(parts.1, '.');
      if keyParts.Some? {
        var (dbName, configType) := keyParts.value;
        after := Record(before, dbName, configType, a[key], DefaultRole(a));
      }
    }
    CollectedAfter(a, read, key, before, after);
    Moved(a.Keys, todo, read, key);
  }

  /** `after` is `before` with the value recorded for `dbName`, in place if it is there. */
  ghost predicate Recorded(before: seq<DbConfiguration>, dbName: string, configType: string, value: string,
                           role: string, after: seq<DbConfiguration>) {
    if i :| 0 <= i < |before| && before[i].dbName == dbName then
      after == before[i := Assign(before[i], configType, value)]
    else
      after == before + [Assign(Fresh(dbName, role), configType, value)]
  }

  function Fresh(dbName: string, role: string): DbConfiguration {
    DbConfiguration(dbName, role, "", "", "", "", "")
  }

  /** Find or create the configuration of `dbName`, then assign the value to it. */
  method Record(confs: seq<DbConfiguration>, dbName: string, configType: string, value: string, role: string)
    returns (r: seq<DbConfiguration>)
    requires forall i, j | 0 <= i < j < |confs| :: confs[i].dbName != confs[j].dbName
    ensures Recorded(confs, dbName, configType, value, role, r)
  {
    for i := 0 to |confs|
      invariant forall j | 0 <= j < i :: confs[j].dbName != dbName
    {
      if confs[i].dbName == dbName {
        return confs[i := Assign(confs[i], configType, value)];
      }
    }
    return confs + [Assign(Fresh(dbName, role), configType, value)];
  }

  lemma NamesAfter(read: set<string>, key: string)
    ensures Names(read + {key}) == Names(read) + if KeyParts(key).Some? then {KeyParts(key).value.0} else {}
  {
  }

  lemma FreshIsUnread(a: Annotations, read: set<string>, name: string)
    requires '.' !in name && name !in Names(read)
    ensures ConfFrom(a, read, name) == Fresh(name, DefaultRole(a))
  {
    KeyOfParts(name, "role");
    KeyOfParts(name, "mode");
    KeyOfParts(name, "template");
    KeyOfParts(name, "env-key-uri");
    KeyOfParts(name, "env-key-dbuser");
    KeyOfParts(name, "env-key-dbpassword");
  }

  lemma NameHasNoDot(read: set<string>, name: string)
    requires name in Names(read)
    ensures '.' !in name
  {
  }

  /** Visiting a key of another database, or of none, changes nothing for a name. */
  lemma OthersAreKept(a: Annotations, read: set<string>, key: string)
    requires key in a && key !in read
    ensures forall n | n in Names(read) && !(KeyParts(key).Some? && KeyParts(key).value.0 == n) ::
      ConfIn(a, read + {key})(n) == ConfIn(a, read)(n)
  {
    forall n | n in Names(read) && !(KeyParts(key).Some? && KeyParts(key).value.0 == n)
      ensures ConfIn(a, read + {key})(n) == ConfIn(a, read)(n)
    {
      NameHasNoDot(read, n);
      AssignReads(a, read, key, n);
    }
  }

  lemma CollectedAfter(a: Annotations, read: set<string>, key: string, before: seq<DbConfiguration>,
                       after: seq<DbConfiguration>)
    requires key in a && key !in read && Collected(a, read, before)
    requires match KeyParts(key)
      case None => after == before
      case Some(p) => Recorded(before, p.0, p.1, a[key], DefaultRole(a), after)
    ensures Collected(a, read + {key}, after)
  {
    NamesAfter(read, key);
    OthersAreKept(a, read, key);
    if KeyParts(key).Some? {
      var (name, t) := KeyParts(key).value;
      AssignReads(a, read, key, name);
      if name !in Names(read) {
        FreshIsUnread(a, read, name);
      }
      RecordedIsCollected(Names(read), ConfIn(a, read), ConfIn(a, read + {key}), before,
                          name, t, a[key], DefaultRole(a), after);
    }
  }

  /** Recording a value for `name` turns the collection by `f` into the collection by `g`. */
  lemma RecordedIsCollected(names: set<string>, f: string -> DbConfiguration, g: string -> DbConfiguration,
                            before: seq<DbConfiguration>,
                            name: string, t: string, value: string, role: string, after: seq<DbConfiguration>)
    requires CollectedAs(names, f, before) && Recorded(before, name, t, value, role, after)
    requires forall n | n in names && n != name :: g(n) == f(n)
    requires g(name) == Assign(if name in names then f(name) else Fresh(name, role), t, value) && f(name).dbName == name
    ensures CollectedAs(names + {name}, g, after)
  {
    if name in names {
      assert HasName(before, name) && names + {name} == names;
      var i :| 0 <= i < |before| && before[i].dbName == name && after == before[i := Assign(before[i], t, value)];
      UpdatedAs(names, f, g, before, i);
    } else {
      NotNamed(names, f, before, name);
      AppendedAs(names, f, g, before, name);
    }
  }

  lemma NotNamed(names: set<string>, f: string -> DbConfiguration, confs: seq<DbConfiguration>, name: string)
    requires CollectedAs(names, f, confs) && name !in names
    ensures forall i | 0 <= i < |confs| :: confs[i].dbName != name
  {
  }

  // ---- Sorting ----

  lemma {:induction false} LessTotal(a: string, b: string)
    ensures a == b || Less(a, b) || Less(b, a)
    ensures !(Less(a, b) && Less(b, a)) && !Less(a, a)
  {
    if a != "" && b != "" && a[0] == b[0] {
      LessTotal(a[1..], b[1..]);
      assert a == [a[0]] + a[1..] && b == [b[0]] + b[1..];
    }
    if a != "" {
      LessIrreflexive(a);
    }
  }

  lemma {:induction false} LessIrreflexive(a: string)
    ensures !Less(a, a)
  {
    if a != "" { LessIrreflexive(a[1..]); }
  }

  lemma {:induction false} LessTransitive(a: string, b: string, c: string)
    requires Less(a, b) && Less(b, c)
    ensures Less(a, c)
  {
    if a != "" && a[0] == b[0] && b[0] == c[0] {
      LessTransitive(a[1..], b[1..], c[1..]);
    }
  }

  lemma FitsAt(r: seq<DbConfiguration>, k: nat, c: DbConfiguration)
    requires SortedByName(r) && k <= |r| && (forall j | k <= j < |r| :: Less(c.dbName, r[j].dbName))
    requires k > 0 ==> r[k - 1].dbName != c.dbName && !Less(c.dbName, r[k - 1].dbName)
    ensures SortedByName(r[..k] + [c] + r[k..])
  {
    if k > 0 {
      LessTotal(c.dbName, r[k - 1].dbName);
      forall j | 0 <= j < k ensures Less(r[j].dbName, c.dbName) {
        if j < k - 1 { LessTransitive(r[j].dbName, r[k - 1].dbName, c.dbName); }
      }
    }
  }

  /** sort.Slice by name, for distinct names. */
  method SortSlice(confs: seq<DbConfiguration>) returns (r: seq<DbConfiguration>)
    requires forall i, j | 0 <= i < j < |confs| :: confs[i].dbName != confs[j].dbName
    ensures SortedByName(r)
    ensures forall c :: c in r <==> c in confs
  {
    r := [];
    for i := 0 to |confs|
      invariant SortedByName(r)
      invariant forall c :: c in r <==> c in confs[..i]
    {
      var k := |r|;
      while k > 0 && Less(confs[i].dbName, r[k - 1].dbName)
        invariant 0 <= k <= |r|
        invariant forall j | k <= j < |r| :: Less(confs[i].dbName, r[j].dbName)
      {
        k := k - 1;
      }
      assert k > 0 ==> r[k - 1] in confs[..i];
      FitsAt(r, k, confs[i]);
      assert confs[..i + 1] == confs[..i] + [confs[i]];
      assert r == r[..k] + r[k..];
      r := r[..k] + [confs[i]] + r[k..];
    }
    assert confs[..|confs|] == confs;
  }

  lemma CollectedIsParse(a: Annotations, confs: seq<DbConfiguration>, sorted: seq<DbConfiguration>)
    requires Collected(a, a.Keys, confs)
    requires SortedByName(sorted) && forall c :: c in sorted <==> c in confs
    ensures IsParse(a, sorted)
  {
    forall c ensures c in confs <==> c.dbName in Names(a.Keys) && c == ConfFrom(a, a.Keys, c.dbName) {
      assert c.dbName in Names(a.Keys) ==> HasName(confs, c.dbName);
    }
  }

  // ---- What the two processes share ----

  /** The annotations determine the list: the iteration order does not show. */
  lemma ParseIsUnique(a: Annotations, c1: seq<DbConfiguration>, c2: seq<DbConfiguration>)
    requires IsParse(a, c1) && IsParse(a, c2)
    ensures c1 == c2
  {
    SortedIsUnique(c1, c2);
  }

  lemma {:induction false} SortedIsUnique(c1: seq<DbConfiguration>, c2: seq<DbConfiguration>)
    requires SortedByName(c1) && SortedByName(c2) && forall c :: c in c1 <==> c in c2
    ensures c1 == c2
  {
    assert c2 != [] ==> c2[0] in c1;
    if c1 != [] {
      assert c1[0] in c2;
      assert c2[0] in c1;
      LessTotal(c1[0].dbName, c2[0].dbName);
      assert c1[0] == c2[0];
      forall c ensures c in c1[1..] <==> c in c2[1..] {
        LessIrreflexive(c.dbName);
        assert c in c1 <==> c == c1[0] || c in c1[1..];
        assert c in c2 <==> c == c2[0] || c in c2[1..];
      }
      SortedIsUnique(c1[1..], c2[1..]);
    }
  }

  lemma StampIsNoKey(name: string, t: string)
    requires '.' !in name
    ensures KeyOf(name, t) != ANNOTATION_VAULT_POD_UUID
    ensures KeyParts(ANNOTATION_VAULT_POD_UUID).None?
    ensures ANNOTATION_ROLE != ANNOTATION_VAULT_POD_UUID && ANNOTATION_VAULT_DB_PATH != ANNOTATION_VAULT_POD_UUID
    ensures !IsV1(ANNOTATION_VAULT_POD_UUID)
  {
    KeyOfParts(name, t);
    assert ANNOTATION_VAULT_POD_UUID[|ANNOTATION_PREFIX|..] == "uuid";
    assert ANNOTATION_VAULT_POD_UUID[|ANNOTATION_PREFIX|] == 'u';
    assert ANNOTATION_VAULT_DB_PATH[|ANNOTATION_PREFIX|] == 'c';
    assert ANNOTATION_V1[|ANNOTATION_PREFIX|] == 'r' && ANNOTATION_ROLE[|ANNOTATION_PREFIX|] == 'r';
  }

  lemma StampedConf(a: Annotations, stamp: string, name: string)
    requires '.' !in name
    ensures var b := a[ANNOTATION_VAULT_POD_UUID := stamp];
      ConfFrom(b, b.Keys, name) == ConfFrom(a, a.Keys, name)
  {
    StampIsNoKey(name, "role");
    StampIsNoKey(name, "mode");
    StampIsNoKey(name, "template");
    StampIsNoKey(name, "env-key-uri");
    StampIsNoKey(name, "env-key-dbuser");
    StampIsNoKey(name, "env-key-dbpassword");
  }

  /** Stamping the UUIDs does not change what is parsed. */
  lemma StampIsInvisible(a: Annotations, defaultEngine: string, stamp: string, r: ParseResult)
    requires IsParseResult(a[ANNOTATION_VAULT_POD_UUID := stamp], defaultEngine, r)
    ensures IsParseResult(a, defaultEngine, r)
  {
    var b := a[ANNOTATION_VAULT_POD_UUID := stamp];
    StampIsNoKey("", "");
    NamesAfter(a.Keys, ANNOTATION_VAULT_POD_UUID);
    assert b.Keys == a.Keys + {ANNOTATION_VAULT_POD_UUID};
    forall name | name in Names(a.Keys) ensures ConfFrom(b, b.Keys, name) == ConfFrom(a, a.Keys, name) {
      NameHasNoDot(a.Keys, name);
      StampedConf(a, stamp, name);
    }
  }

  /** The list of UUIDs the plugin reads off the pod; the pod's UID if there is none. */
  function StampedUuids(a: Annotations, uid: string): seq<string> {
    if ANNOTATION_VAULT_POD_UUID in a && a[ANNOTATION_VAULT_POD_UUID] != ""
    then Split(a[ANNOTATION_VAULT_POD_UUID], ',')
    else [uid]
  }

  function KeyAt(uuids: seq<string>, uid: string, i: nat): string {
    if i < |uuids| then uuids[i] else uid
  }

  /** The key under which the plugin stores its `i`-th credential. */
  function KvKey(a: Annotations, uid: string, i: nat): string {
    KeyAt(StampedUuids(a, uid), uid, i)
  }

  /** The keys the renewer and the revoker count as belonging to the pod. */
  function ReportedUuids(a: Annotations, uid: string): seq<string> {
    [uid] + if ANNOTATION_VAULT_POD_UUID in a && a[ANNOTATION_VAULT_POD_UUID] != ""
            then Split(a[ANNOTATION_VAULT_POD_UUID], ',') else []
  }

  /** The plugin's `i`-th key is the `i`-th part of a non-empty uuid annotation, and the pod's UID
      where there is none. */
  lemma KvKeyIs(a: Annotations, uid: string, i: nat)
    ensures var stamp := ValueOr(a, "db-creds-injector.numberly.io/uuid", "");
      KvKey(a, uid, i) == if stamp != "" && i < |Split(stamp, ',')| then Split(stamp, ',')[i] else uid
  {
    assert ANNOTATION_VAULT_POD_UUID == "db-creds-injector.numberly.io/uuid";
  }

  /** Whatever the annotations say, every key the plugin writes is reported. */
  lemma KvKeyIsReported(a: Annotations, uid: string, i: nat)
    ensures KvKey(a, uid, i) in ReportedUuids(a, uid)
  {
    var uuids := StampedUuids(a, uid);
    if i < |uuids| && uuids != [uid] {
      assert ReportedUuids(a, uid)[i + 1] == uuids[i];
    } else {
      assert ReportedUuids(a, uid)[0] == uid;
    }
  }

  /** Index agreement: the plugin, parsing the stamped pod in an order of its own, gets the
      webhook's list, and its `i`-th key is the `i`-th UUID the webhook stamped. */
  lemma IndexAgreement(a: Annotations, uid: string, defaultEngine: string, webhook: ParseResult, uuids: seq<string>,
                       pluginEngine: string, plugin: ParseResult)
    requires IsParseResult(a, defaultEngine, webhook) && webhook.Parsed?
    requires |uuids| == |webhook.confs| > 0 && forall u | u in uuids :: u != "" && ',' !in u
    requires IsParseResult(a[ANNOTATION_VAULT_POD_UUID := Join(uuids, ',')], pluginEngine, plugin)
    ensures plugin.Parsed? && plugin.confs == webhook.confs
    ensures defaultEngine == pluginEngine ==> plugin == webhook
    ensures forall i | 0 <= i < |uuids| ::
      KvKey(a[ANNOTATION_VAULT_POD_UUID := Join(uuids, ',')], uid, i) == uuids[i]
  {
    StampIsInvisible(a, pluginEngine, Join(uuids, ','), plugin);
    if plugin.Parsed? {
      ParseIsUnique(a, webhook.confs, plugin.confs);
    }
    SplitJoin(uuids, ',');
    assert uuids[0] <= Join(uuids, ',');
  }

  // ---- GetAllPodAndNamespace ----

  datatype Pod = Pod(
    uid: string, namespace: string, name: string, node: string,
    serviceAccount: string, annotations: Annotations)
  datatype PodInfo = PodInfo(
    uuids: seq<string>, namespace: string, serviceAccount: string, podName: string, nodeName: string)

  /** What is reported of a pod. */
  function InfoOf(pod: Pod): PodInfo {
    PodInfo(ReportedUuids(pod.annotations, pod.uid), pod.namespace, pod.serviceAccount, pod.name, pod.node)
  }

  /** A key is the pod's if it is its UID or stands in its comma-separated uuid annotation. */
  predicate IsKeyOf(k: string, pod: Pod) {
    var stamp := ValueOr(pod.annotations, "db-creds-injector.numberly.io/uuid", "");
    k == pod.uid || (stamp != "" && k in Split(stamp, ','))
  }

  ghost predicate Identifies(uuids: seq<string>, pod: Pod) {
    forall k :: k in uuids <==> IsKeyOf(k, pod)
  }

  lemma ReportedAreKeys(pod: Pod)
    ensures Identifies(ReportedUuids(pod.annotations, pod.uid), pod)
  {
    assert ANNOTATION_VAULT_POD_UUID == "db-creds-injector.numberly.io/uuid";
  }

  /** The listing of the labelled pods as the renewer and the revoker use it; `listing` is None
      when the request fails. An empty listing is an error too. */
  method GetAllPodAndNamespace(listing: Option<seq<Pod>>) returns (r: Option<seq<PodInfo>>)
    ensures r.None? <==> listing.None? || listing.value == []
    ensures r.Some? ==> |r.value| == |listing.value|
    ensures r.Some? ==> forall i | 0 <= i < |r.value| ::
      && Identifies(r.value[i].uuids, listing.value[i])
      && r.value[i].namespace == listing.value[i].namespace && r.value[i].podName == listing.value[i].name
      && r.value[i].nodeName == listing.value[i].node && r.value[i].serviceAccount == listing.value[i].serviceAccount
    ensures r.Some? ==> forall i | 0 <= i < |r.value| :: r.value[i] == InfoOf(listing.value[i])
  {
    if listing.None? || listing.value == [] {
      return None;
    }
    var pods := listing.value;
    var infos: seq<PodInfo> := [];
    for i := 0 to |pods|
      invariant |infos| == i
      invariant forall j | 0 <= j < i :: infos[j] == InfoOf(pods[j]) && Identifies(infos[j].uuids, pods[j])
    {
      var pod := pods[i];
      ReportedAreKeys(pod);
      var uuids := [pod.uid];
      if ANNOTATION_VAULT_POD_UUID in pod.annotations && pod.annotations[ANNOTATION_VAULT_POD_UUID] != "" {
        uuids := uuids + Split(pod.annotations[ANNOTATION_VAULT_POD_UUID], ',');
      }
      infos := infos + [PodInfo(uuids, pod.namespace, pod.serviceAccount, pod.name, pod.node)];
    }
    r := Some(infos);
  }
}
