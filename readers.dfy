/**
 * Reading the configuration sections of an app back from its directory:
 * the functions (their configurations and every source file below the
 * functions directory) and the data sources (each configuration with its
 * per-collection rules, the schema and relationships merged back in).
 */
module Readers {
  import opened Wrappers
  import opened Paths
  import opened Json
  import opened Files
  import opened App
  import opened Ordering

  /** Why a read failed: a file that must exist does not, is not JSON, or holds the wrong kind of value. */
  datatype ReadError = MissingFile(path: Path) | Malformed(path: Path) | WrongShape(path: Path)

  /* ---------------- single files ---------------- */

  /** The JSON value in the file at `p`. */
  function ReadJson(files: map<Path, string>, p: Path): (r: Result<Json, ReadError>)
    ensures r.Ok? <==> p in files && ParseFile(files[p]).Some?
    ensures r.Ok? ==> Some(r.value) == ParseFile(files[p])
    ensures p !in files ==> r == Err(MissingFile(p))
  {
    if p !in files then Err(MissingFile(p))
    else match ParseFile(files[p])
      case None => Err(Malformed(p))
      case Some(v) => Ok(v)
  }

  /** The JSON object in the file at `p`. */
  function ReadObject(files: map<Path, string>, p: Path): (r: Result<Object, ReadError>)
    ensures r.Ok? <==> ReadJson(files, p).Ok? && ReadJson(files, p).value.Obj?
    ensures r.Ok? ==> ReadJson(files, p).value == Obj(r.value)
  {
    match ReadJson(files, p)
    case Err(e) => Err(e)
    case Ok(v) => if v.Obj? then Ok(v.fields) else Err(WrongShape(p))
  }

  /** The values as objects, when every one of them is an object. */
  function AsObjects(vs: seq<Json>): (r: Option<seq<Object>>)
    ensures r.Some? <==> forall i :: 0 <= i < |vs| ==> vs[i].Obj?
    ensures r.Some? ==> Objects(r.value) == vs
  {
    if forall i :: 0 <= i < |vs| ==> vs[i].Obj? then
      var ms := seq(|vs|, i requires 0 <= i < |vs| => vs[i].fields);
      assert forall i :: 0 <= i < |vs| ==> Objects(ms)[i] == vs[i];
      Some(ms)
    else None
  }

  /** Objects turned into values are read back as the same objects. */
  lemma AsObjectsOfObjects(ms: seq<Object>)
    ensures AsObjects(Objects(ms)) == Some(ms)
  {
    var vs := Objects(ms);
    assert forall i :: 0 <= i < |vs| ==> vs[i].Obj?;
    var r := AsObjects(vs);
    assert Objects(r.value) == vs;
    forall i | 0 <= i < |ms| ensures r.value[i] == ms[i] {
      assert Objects(r.value)[i] == vs[i];
    }
    assert r.value == ms;
  }

  /* ---------------- functions ---------------- */

  /** Every sequence of objects turned into values is read back as itself. */
  lemma AsObjectsInverse()
    ensures forall ms: seq<Object> :: AsObjects(Objects(ms)) == Some(ms)
  {
    forall ms: seq<Object> ensures AsObjects(Objects(ms)) == Some(ms) {
      AsObjectsOfObjects(ms);
    }
  }

  /**
   * The functions' configurations: read exactly when the config file holds
   * an array of objects, and then those objects in order.
   */
  function ReadConfigs(files: map<Path, string>, p: Path): (r: Result<seq<Object>, ReadError>)
    ensures r.Ok? ==> p in files && ParseFile(files[p]) == Some(Arr(Objects(r.value)))
    ensures forall ms: seq<Object> :: p in files && ParseFile(files[p]) == Some(Arr(Objects(ms))) ==> r == Ok(ms)
    ensures p !in files ==> r == Err(MissingFile(p))
  {
    AsObjectsInverse();
    match ReadJson(files, p)
    case Err(e) => Err(e)
    case Ok(v) =>
      if !v.Arr? then Err(WrongShape(p))
      else match AsObjects(v.items)
        case None => Err(WrongShape(p))
        case Some(configs) => Ok(configs)
  }

  /** The slash-separated relative paths of the files below `dir`. */
  function SourceKeys(files: map<Path, string>, dir: Path): set<string>
  {
    set p | p in files && Within(p, dir) :: Join(p[|dir|..])
  }

  /** Every file below `dir` other than the config file, keyed by its relative path. */
  function ReadSources(files: map<Path, string>, dir: Path): map<string, string>
  {
    map k | k in SourceKeys(files, dir) && Split(k) != [FileConfig] && dir + Split(k) in files :: files[dir + Split(k)]
  }

  /** A key is read exactly when the file it names exists and is not the config file; its content is that file's. */
  lemma ReadSourcesSpec(files: map<Path, string>, dir: Path, k: string)
    ensures k in ReadSources(files, dir) <==> dir + Split(k) in files && Split(k) != [FileConfig]
    ensures k in ReadSources(files, dir) ==> ReadSources(files, dir)[k] == files[dir + Split(k)]
  {
    var p := dir + Split(k);
    if p in files {
      assert Within(p, dir) && p[|dir|..] == Split(k);
      JoinSplit(k);
      assert k in SourceKeys(files, dir);
    }
  }

  /** `ReadSourcesSpec` for every key at once. */
  lemma ReadSourcesAll(files: map<Path, string>, dir: Path)
    ensures forall k :: k in ReadSources(files, dir) <==> dir + Split(k) in files && Split(k) != [FileConfig]
    ensures forall k :: k in ReadSources(files, dir) ==> ReadSources(files, dir)[k] == files[dir + Split(k)]
  {
    forall k ensures k in ReadSources(files, dir) <==> dir + Split(k) in files && Split(k) != [FileConfig] {
      ReadSourcesSpec(files, dir, k);
    }
  }

  /**
   * What `parseFunctionsV2` reads from the app directory `root`: the
   * configurations from the functions directory's config file, which must
   * hold an array of objects, and as sources every other file below the
   * functions directory, keyed by its slash-separated relative path.
   */
  function ParseFunctions(files: map<Path, string>, root: Path): (r: Result<FunctionsStructure, ReadError>)
    ensures var cfg := root + [NameFunctions] + [FileConfig];
      r.Ok? ==> cfg in files && ParseFile(files[cfg]) == Some(Arr(Objects(r.value.configs)))
    ensures var cfg := root + [NameFunctions] + [FileConfig];
      forall ms: seq<Object> :: cfg in files && ParseFile(files[cfg]) == Some(Arr(Objects(ms))) ==> r.Ok? && r.value.configs == ms
    ensures var cfg := root + [NameFunctions] + [FileConfig];
      cfg !in files ==> r == Err(MissingFile(cfg))
    ensures r.Ok? ==> forall k :: k in r.value.sources <==> root + [NameFunctions] + Split(k) in files && Split(k) != [FileConfig]
    ensures r.Ok? ==> forall k :: k in r.value.sources ==> r.value.sources[k] == files[root + [NameFunctions] + Split(k)]
  {
    ReadSourcesAll(files, root + [NameFunctions]);
    var dir := root + [NameFunctions];
    match ReadConfigs(files, dir + [FileConfig])
    case Err(e) => Err(e)
    case Ok(configs) => Ok(FunctionsStructure(configs, ReadSources(files, dir)))
  }

  /* ---------------- reading in order ---------------- */

  /** `read` applied to each item in order, stopping at the first failure. */
  function ReadAll<T, U>(xs: seq<T>, read: T -> Result<U, ReadError>): Result<seq<U>, ReadError>
  {
    if xs == [] then Ok([])
    else match read(xs[0])
      case Err(e) => Err(e)
      case Ok(u) =>
        match ReadAll(xs[1..], read)
        case Err(e) => Err(e)
        case Ok(us) => Ok([u] + us)
  }

  /** When every item reads, the results are the items' values in order. */
  lemma {:induction false} ReadAllOk<T, U>(xs: seq<T>, read: T -> Result<U, ReadError>, ys: seq<U>)
    requires |ys| == |xs|
    requires forall i :: 0 <= i < |xs| ==> read(xs[i]) == Ok(ys[i])
    ensures ReadAll(xs, read) == Ok(ys)
  {
    if xs != [] {
      ReadAllOk(xs[1..], read, ys[1..]);
      assert ys == [ys[0]] + ys[1..];
    }
  }

  /** Reading succeeds exactly when every item reads, and then gives each item's value at its position. */
  lemma {:induction false} ReadAllResult<T, U>(xs: seq<T>, read: T -> Result<U, ReadError>)
    ensures ReadAll(xs, read).Ok? <==> forall i :: 0 <= i < |xs| ==> read(xs[i]).Ok?
    ensures ReadAll(xs, read).Ok? ==>
      |ReadAll(xs, read).value| == |xs| && forall i :: 0 <= i < |xs| ==> read(xs[i]) == Ok(ReadAll(xs, read).value[i])
  {
    if xs != [] {
      ReadAllResult(xs[1..], read);
      assert forall i :: 1 <= i < |xs| ==> xs[1..][i - 1] == xs[i];
    }
  }

  /** Reading a listing of the set `s` succeeds exactly when every member of `s` reads. */
  lemma ReadAllOver<T, U>(s: set<T>, xs: seq<T>, read: T -> Result<U, ReadError>)
    requires forall x :: x in xs <==> x in s
    ensures ReadAll(xs, read).Ok? <==> forall x :: x in s ==> read(x).Ok?
  {
    ReadAllResult(xs, read);
    if forall i :: 0 <= i < |xs| ==> read(xs[i]).Ok? {
      forall x | x in s ensures read(x).Ok? {
        var i :| 0 <= i < |xs| && xs[i] == x;
      }
    }
  }

  /** The first failure, if any item fails. */
  lemma {:induction false} ReadAllFails<T, U>(xs: seq<T>, read: T -> Result<U, ReadError>, i: nat)
    requires i < |xs| && read(xs[i]).Err?
    requires forall j :: 0 <= j < i ==> read(xs[j]).Ok?
    ensures ReadAll(xs, read) == Err(read(xs[i]).error)
  {
    if i > 0 {
      ReadAllFails(xs[1..], read, i - 1);
    }
  }

  /* ---------------- data sources ---------------- */

  /** Database and collection pairs, ordered by database and then by collection. */
  predicate PairLt(a: (string, string), b: (string, string))
  {
    StringLt(a.0, b.0) || (a.0 == b.0 && StringLt(a.1, b.1))
  }

  lemma PairLtIsStrictTotalOrder()
    ensures StrictTotalOrder(PairLt)
  {
    StringLtIsStrictTotalOrder();
  }

  /** The rule directories of the data source directory `dir`: the database and collection names of the files two levels down. */
  function RuleDirs(files: map<Path, string>, dir: Path): set<(string, string)>
  {
    set r | r in Below(files, dir) && |r| >= 3 :: (r[0], r[1])
  }

  /** The rule directories of `dir` in database and collection order. */
  function RuleOrder(files: map<Path, string>, dir: Path): (pairs: seq<(string, string)>)
    ensures |pairs| == |RuleDirs(files, dir)|
    ensures forall x :: x in pairs <==> x in RuleDirs(files, dir)
    ensures StrictlyAscending(pairs, PairLt)
  {
    PairLtIsStrictTotalOrder();
    Sorted(RuleDirs(files, dir), PairLt)
  }

  /**
   * The rule of a collection: read exactly when its rules file holds an
   * object and its schema and relationships files hold JSON; it is that
   * object with the schema and relationships set to those files' values.
   */
  function ReadRule(files: map<Path, string>, dir: Path, pair: (string, string)): (r: Result<Object, ReadError>)
    ensures var ruleDir := RuleDir(dir, pair.0, pair.1);
      r.Ok? <==> (ReadObject(files, ruleDir + [FileRules]).Ok?
        && ReadJson(files, ruleDir + [FileSchema]).Ok? && ReadJson(files, ruleDir + [FileRelationships]).Ok?)
    ensures var ruleDir := RuleDir(dir, pair.0, pair.1);
      r.Ok? ==> (KeySchema in r.value && ReadJson(files, ruleDir + [FileSchema]) == Ok(r.value[KeySchema])
        && KeyRelationships in r.value && ReadJson(files, ruleDir + [FileRelationships]) == Ok(r.value[KeyRelationships]))
    ensures var ruleDir := RuleDir(dir, pair.0, pair.1);
      r.Ok? ==> (Without(r.value, {KeySchema, KeyRelationships})
             == Without(ReadObject(files, ruleDir + [FileRules]).value, {KeySchema, KeyRelationships}))
    ensures var rulesFile := RuleDir(dir, pair.0, pair.1) + [FileRules];
      rulesFile !in files ==> r == Err(MissingFile(rulesFile))
  {
    var ruleDir := RuleDir(dir, pair.0, pair.1);
    match ReadObject(files, ruleDir + [FileRules])
    case Err(e) => Err(e)
    case Ok(rule) =>
      match ReadJson(files, ruleDir + [FileSchema])
      case Err(e) => Err(e)
      case Ok(schema) =>
        match ReadJson(files, ruleDir + [FileRelationships])
        case Err(e) => Err(e)
        case Ok(relationships) => Ok(rule[KeySchema := schema][KeyRelationships := relationships])
  }

  /**
   * The data source in the directory `name` below `dsDir`: read exactly
   * when its config file holds an object and every rule directory reads;
   * it is that object and one rule per rule directory, in database and
   * collection order.
   */
  function ReadDataSource(files: map<Path, string>, dsDir: Path, name: string): (r: Result<DataSourceStructure, ReadError>)
    ensures var dir := dsDir + [name];
      r.Ok? <==> ReadObject(files, dir + [FileConfig]).Ok? && forall x :: x in RuleDirs(files, dir) ==> ReadRule(files, dir, x).Ok?
    ensures var dir := dsDir + [name];
      r.Ok? ==> (ReadObject(files, dir + [FileConfig]) == Ok(r.value.config)
        && |r.value.rules| == |RuleDirs(files, dir)|
        && forall i :: 0 <= i < |r.value.rules| ==> ReadRule(files, dir, RuleOrder(files, dir)[i]) == Ok(r.value.rules[i]))
  {
    var dir := dsDir + [name];
    var pairs := RuleOrder(files, dir);
    var read := pair => ReadRule(files, dir, pair);
    ReadAllResult(pairs, read);
    ReadAllOver(RuleDirs(files, dir), pairs, read);
    match ReadObject(files, dir + [FileConfig])
    case Err(e) => Err(e)
    case Ok(config) =>
      match ReadAll(pairs, read)
      case Err(e) => Err(e)
      case Ok(rules) => Ok(DataSourceStructure(config, rules))
  }

  /** The data source directory names: every directory directly inside `dsDir`, each once, in ascending order. */
  function DataSourceNames(files: map<Path, string>, dsDir: Path): (names: seq<string>)
    ensures |names| == |SubDirs(files, dsDir)|
    ensures forall x :: x in names <==> x in SubDirs(files, dsDir)
    ensures StrictlyAscending(names, StringLt)
  {
    StringLtIsStrictTotalOrder();
    Sorted(SubDirs(files, dsDir), StringLt)
  }

  /**
   * What `parseDataSources` reads from the app directory `root`: read
   * exactly when every directory inside the data sources directory reads,
   * and then one data source per directory, in ascending name order; no
   * directory gives no data sources.
   */
  function ParseDataSources(files: map<Path, string>, root: Path): (r: Result<seq<DataSourceStructure>, ReadError>)
    ensures var dsDir := root + [NameDataSources];
      r.Ok? <==> forall x :: x in SubDirs(files, dsDir) ==> ReadDataSource(files, dsDir, x).Ok?
    ensures var dsDir := root + [NameDataSources];
      r.Ok? ==> (|r.value| == |SubDirs(files, dsDir)|
        && forall i :: 0 <= i < |r.value| ==> ReadDataSource(files, dsDir, DataSourceNames(files, dsDir)[i]) == Ok(r.value[i]))
    ensures SubDirs(files, root + [NameDataSources]) == {} ==> r == Ok([])
  {
    var dsDir := root + [NameDataSources];
    var names := DataSourceNames(files, dsDir);
    var read := name => ReadDataSource(files, dsDir, name);
    ReadAllResult(names, read);
    ReadAllOver(SubDirs(files, dsDir), names, read);
    ReadAll(names, read)
  }
}
