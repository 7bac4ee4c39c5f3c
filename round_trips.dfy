/**
 * Reading back what was written: the functions and the data sources a
 * writer leaves in a fresh directory are parsed back as the structures
 * that were written (rules with their schema and relationships merged in).
 */
module RoundTrips {
  import opened Wrappers
  import opened Paths
  import opened Json
  import opened JsonLaws
  import opened Ordering
  import opened Files
  import opened App
  import opened Writers
  import opened Readers

  /** No file of `files` lies below `dir`. */
  ghost predicate Fresh(files: map<Path, string>, dir: Path)
  {
    forall p :: p in files ==> !Within(p, dir)
  }

  /** Two maps with the same keys and the same value under each are equal. */
  lemma SameEntries<K, V>(a: map<K, V>, b: map<K, V>)
    requires forall k :: k in a <==> k in b
    requires forall k :: k in a ==> a[k] == b[k]
    ensures a == b
  {
  }

  /* ---------------- functions ---------------- */

  /** The config file is not overwritten by a source unless a source is keyed by the config file's name. */
  lemma ConfigNotASource(dir: Path, sources: map<string, string>)
    requires FileConfig !in sources
    ensures dir + [FileConfig] !in SourceFiles(dir, sources)
  {
    SourceFilesSpec(dir, sources);
    SplitName(FileConfig);
    forall k | k in sources ensures dir + Split(k) != dir + [FileConfig] {
      SourcePathsDistinct(dir, k, FileConfig);
    }
  }

  /** The configurations are read back from the config file. */
  lemma FunctionsConfigsRead(before: map<Path, string>, root: Path, data: FunctionsStructure)
    requires FileConfig !in data.sources
    requires forall i :: 0 <= i < |data.configs| ==> Plain(Obj(data.configs[i]))
    ensures ReadConfigs(before + FunctionsFiles(root, data), root + [NameFunctions] + [FileConfig]) == Ok(data.configs)
  {
    var dir := root + [NameFunctions];
    ConfigNotASource(dir, data.sources);
    var v := Arr(Objects(data.configs));
    assert Plain(v);
    FileRoundTrip(v);
    AsObjectsOfObjects(data.configs);
  }

  /** A written source is read back under its own key. */
  lemma SourceRead(before: map<Path, string>, root: Path, data: FunctionsStructure, k: string)
    requires FileConfig !in data.sources
    requires k in data.sources
    ensures k in ReadSources(before + FunctionsFiles(root, data), root + [NameFunctions])
    ensures ReadSources(before + FunctionsFiles(root, data), root + [NameFunctions])[k] == data.sources[k]
  {
    var dir := root + [NameFunctions];
    var files := before + FunctionsFiles(root, data);
    SourceFilesSpec(dir, data.sources);
    assert files[dir + Split(k)] == data.sources[k];
    SplitName(FileConfig);
    SourcePathsDistinct(dir, k, FileConfig);
    ReadSourcesSpec(files, dir, k);
  }

  /** Only written sources are read back. */
  lemma SourceReadOnly(before: map<Path, string>, root: Path, data: FunctionsStructure, k: string)
    requires Fresh(before, root + [NameFunctions])
    requires k in ReadSources(before + FunctionsFiles(root, data), root + [NameFunctions])
    ensures k in data.sources
  {
    var dir := root + [NameFunctions];
    var written := FunctionsFiles(root, data);
    ReadSourcesSpec(before + written, dir, k);
    var p := dir + Split(k);
    assert Within(p, dir);
    assert p in written;
    if p != dir + [FileConfig] {
      SourceFilesSpec(dir, data.sources);
      var j :| j in data.sources && p == dir + Split(j);
      assert Split(k) == p[|dir|..] == Split(j);
      SplitInjective(k, j);
    }
  }

  /** Each source is read back under its key, and nothing else is read as a source. */
  lemma FunctionsSourcesRead(before: map<Path, string>, root: Path, data: FunctionsStructure)
    requires Fresh(before, root + [NameFunctions])
    requires FileConfig !in data.sources
    ensures ReadSources(before + FunctionsFiles(root, data), root + [NameFunctions]) == data.sources
  {
    var got := ReadSources(before + FunctionsFiles(root, data), root + [NameFunctions]);
    forall k | k in data.sources ensures k in got && got[k] == data.sources[k] {
      SourceRead(before, root, data, k);
    }
    forall k | k in got ensures k in data.sources {
      SourceReadOnly(before, root, data, k);
    }
    SameEntries(got, data.sources);
  }

  /** Functions written to a fresh directory are parsed back as written. */
  lemma FunctionsRoundTrip(before: map<Path, string>, root: Path, data: FunctionsStructure)
    requires Fresh(before, root + [NameFunctions])
    requires FileConfig !in data.sources
    requires forall i :: 0 <= i < |data.configs| ==> Plain(Obj(data.configs[i]))
    ensures ParseFunctions(before + FunctionsFiles(root, data), root) == Ok(data)
  {
    FunctionsConfigsRead(before, root, data);
    FunctionsSourcesRead(before, root, data);
  }

  /* ---------------- data sources ---------------- */

  /** The name a data source is written under. */
  function SourceName(ds: DataSourceStructure): string
  {
    match StringField(ds.config, KeyName)
    case Some(name) => name
    case None => ""
  }

  function Names(dss: seq<DataSourceStructure>): (names: seq<string>)
    ensures |names| == |dss|
    ensures forall i :: 0 <= i < |dss| ==> names[i] == SourceName(dss[i])
  {
    seq(|dss|, i requires 0 <= i < |dss| => SourceName(dss[i]))
  }

  /** The database and collection a rule is written under. */
  function RulePair(rule: Object): (string, string)
  {
    match (StringField(rule, KeyDatabase), StringField(rule, KeyCollection))
    case (Some(database), Some(collection)) => (database, collection)
    case _ => ("", "")
  }

  function Pairs(rules: seq<Object>): (pairs: seq<(string, string)>)
    ensures |pairs| == |rules|
    ensures forall i :: 0 <= i < |rules| ==> pairs[i] == RulePair(rules[i])
  {
    seq(|rules|, i requires 0 <= i < |rules| => RulePair(rules[i]))
  }

  /** A rule as it is read back: its schema and relationships present, `{}` where the rule had none. */
  function WithDefaults(rule: Object): (r: Object)
    ensures KeySchema in r && KeyRelationships in r
    ensures forall k :: k in rule ==> k in r && r[k] == rule[k]
    ensures forall k :: k in r && k != KeySchema && k != KeyRelationships ==> k in rule
  {
    rule[KeySchema := FieldOr(rule, KeySchema, Obj(map[]))][KeyRelationships := FieldOr(rule, KeyRelationships, Obj(map[]))]
  }

  /** A data source as it is read back. */
  function AsRead(ds: DataSourceStructure): DataSourceStructure
  {
    DataSourceStructure(ds.config, seq(|ds.rules|, i requires 0 <= i < |ds.rules| => WithDefaults(ds.rules[i])))
  }

  /**
   * Data sources that read back in the order they were written: names
   * ascending, each data source's rules ascending by database and
   * collection, and every string plain.
   */
  ghost predicate ReadableInOrder(dss: seq<DataSourceStructure>)
  {
    && StrictlyAscending(Names(dss), StringLt)
    && (forall i :: 0 <= i < |dss| ==> StrictlyAscending(Pairs(dss[i].rules), PairLt))
    && (forall i :: 0 <= i < |dss| ==> Plain(Obj(dss[i].config)))
    && (forall i, j :: 0 <= i < |dss| && 0 <= j < |dss[i].rules| ==> Plain(Obj(dss[i].rules[j])))
  }

  /** The three files of a rule lie in the rule's own directory. */
  lemma RuleFilesShape(dir: Path, rule: Object)
    ensures forall p :: p in RuleFiles(dir, rule).files ==>
      |p| == |dir| + 3 && p[..|dir|] == dir && (p[|dir|], p[|dir| + 1]) == RulePair(rule)
  {
    var written := RuleFiles(dir, rule);
    if written.err.None? {
      var pair := RulePair(rule);
      var ruleDir := RuleDir(dir, pair.0, pair.1);
      assert written.files.Keys == {ruleDir + [FileRules], ruleDir + [FileSchema], ruleDir + [FileRelationships]};
      forall name | name in [FileRules, FileSchema, FileRelationships]
        ensures var p := ruleDir + [name]; p[..|dir|] == dir && (p[|dir|], p[|dir| + 1]) == pair
      {
      }
    }
  }

  /** A rule's files are read back as the rule with its schema and relationships merged in. */
  lemma RuleRead(files: map<Path, string>, dir: Path, rule: Object)
    requires RuleFiles(dir, rule).err.None?
    requires Plain(Obj(rule))
    requires Contains(files, RuleFiles(dir, rule).files)
    ensures ReadRule(files, dir, RulePair(rule)) == Ok(WithDefaults(rule))
  {
    var schema := FieldOr(rule, KeySchema, Obj(map[]));
    var relationships := FieldOr(rule, KeyRelationships, Obj(map[]));
    var pair := RulePair(rule);
    var ruleDir := RuleDir(dir, pair.0, pair.1);
    RuleFilesSplit(dir, rule);
    assert ruleDir == RuleDir(dir, rule[KeyDatabase].s, rule[KeyCollection].s);
    assert Plain(Obj(RuleOnly(rule)));
    assert Plain(schema) && Plain(relationships);
    ObjectTextIsFileText(RuleOnly(rule));
    FileRoundTrip(Obj(RuleOnly(rule)));
    FileRoundTrip(schema);
    FileRoundTrip(relationships);
    assert ReadObject(files, ruleDir + [FileRules]) == Ok(RuleOnly(rule));
    assert ReadJson(files, ruleDir + [FileSchema]) == Ok(schema);
    assert ReadJson(files, ruleDir + [FileRelationships]) == Ok(relationships);
    WithoutRestoreTwo(rule, KeySchema, KeyRelationships, schema, relationships);
  }

  lemma ContainsUnion(before: map<Path, string>, written: map<Path, string>, part: map<Path, string>)
    requires Contains(written, part)
    ensures Contains(before + written, part)
  {
  }

  /** Every file the rules leave is one rule's file, in that rule's directory. */
  lemma RulesLayoutShape(dir: Path, rules: seq<Object>)
    requires RulesFiles(dir, rules).err.None?
    ensures forall p :: p in RulesFiles(dir, rules).files ==>
      |p| == |dir| + 3 && p[..|dir|] == dir && exists j :: 0 <= j < |rules| && (p[|dir|], p[|dir| + 1]) == RulePair(rules[j])
  {
    var step := rule => RuleFiles(dir, rule);
    forall p | p in RulesFiles(dir, rules).files
      ensures |p| == |dir| + 3 && p[..|dir|] == dir && exists j :: 0 <= j < |rules| && (p[|dir|], p[|dir| + 1]) == RulePair(rules[j])
    {
      WriteAllKeys(rules, step, p);
      var j :| 0 <= j < |rules| && p in step(rules[j]).files;
      RuleFilesShape(dir, rules[j]);
    }
  }

  /** The rules of one data source, written in ascending order, leave every rule's three files in place. */
  lemma RulesLayout(dir: Path, rules: seq<Object>)
    requires RulesFiles(dir, rules).err.None?
    requires StrictlyAscending(Pairs(rules), PairLt)
    ensures forall j :: 0 <= j < |rules| ==> RuleFiles(dir, rules[j]).err.None?
    ensures forall j :: 0 <= j < |rules| ==> Contains(RulesFiles(dir, rules).files, RuleFiles(dir, rules[j]).files)
  {
    var step := rule => RuleFiles(dir, rule);
    var all := RulesFiles(dir, rules).files;
    WriteAllNoError(rules, step);
    PairLtIsStrictTotalOrder();
    forall j | 0 <= j < |rules| ensures Contains(all, step(rules[j]).files) {
      RuleFilesShape(dir, rules[j]);
      forall p | p in step(rules[j]).files ensures p in all && all[p] == step(rules[j]).files[p] {
        forall k | j < k < |rules| ensures p !in step(rules[k]).files {
          RuleFilesShape(dir, rules[k]);
          AscendingDistinct(Pairs(rules), PairLt, j, k);
        }
        WriteAllHas(rules, step, j, p);
      }
    }
  }

  /** One data source's files: its config file, then its rules' files. */
  lemma DataSourceSplit(dsDir: Path, ds: DataSourceStructure, dir: Path)
    requires DataSourceFiles(dsDir, ds).err.None?
    requires dir == dsDir + [SourceName(ds)]
    ensures RulesFiles(dir, ds.rules).err.None?
    ensures DataSourceFiles(dsDir, ds).files == map[dir + [FileConfig] := ObjectText(ds.config)] + RulesFiles(dir, ds.rules).files
  {
    assert StringField(ds.config, KeyName).Some?;
  }

  /** A data source's configuration is in the config file of its own directory. */
  lemma DataSourceConfigAt(dsDir: Path, ds: DataSourceStructure, dir: Path)
    requires DataSourceFiles(dsDir, ds).err.None?
    requires dir == dsDir + [SourceName(ds)]
    ensures dir + [FileConfig] in DataSourceFiles(dsDir, ds).files
    ensures DataSourceFiles(dsDir, ds).files[dir + [FileConfig]] == ObjectText(ds.config)
  {
    DataSourceSplit(dsDir, ds, dir);
    var rules := RulesFiles(dir, ds.rules).files;
    if dir + [FileConfig] in rules {
      RulesLayoutShape(dir, ds.rules);
    }
  }

  /** Every rule of a data source, written in ascending order, leaves its three files. */
  lemma DataSourceRulesAt(dsDir: Path, ds: DataSourceStructure, dir: Path)
    requires DataSourceFiles(dsDir, ds).err.None?
    requires StrictlyAscending(Pairs(ds.rules), PairLt)
    requires dir == dsDir + [SourceName(ds)]
    ensures forall j :: 0 <= j < |ds.rules| ==> RuleFiles(dir, ds.rules[j]).err.None?
    ensures forall j :: 0 <= j < |ds.rules| ==> Contains(DataSourceFiles(dsDir, ds).files, RuleFiles(dir, ds.rules[j]).files)
  {
    DataSourceSplit(dsDir, ds, dir);
    RulesLayout(dir, ds.rules);
  }

  /** Every file of a data source lies in its own directory; those deeper than the config file are rule files. */
  lemma DataSourceShape(dsDir: Path, ds: DataSourceStructure, dir: Path)
    requires DataSourceFiles(dsDir, ds).err.None?
    requires dir == dsDir + [SourceName(ds)]
    ensures forall p :: p in DataSourceFiles(dsDir, ds).files ==> |p| > |dir| && p[..|dir|] == dir
    ensures forall p :: p in DataSourceFiles(dsDir, ds).files && |p| != |dir| + 1 ==>
      |p| == |dir| + 3 && exists j :: 0 <= j < |ds.rules| && (p[|dir|], p[|dir| + 1]) == RulePair(ds.rules[j])
  {
    DataSourceSplit(dsDir, ds, dir);
    RulesLayoutShape(dir, ds.rules);
  }

  /** Every file of a data source lies in the directory named after it. */
  lemma DataSourcePathsNamed(dsDir: Path, ds: DataSourceStructure)
    requires DataSourceFiles(dsDir, ds).err.None?
    ensures forall p :: p in DataSourceFiles(dsDir, ds).files ==> |p| > |dsDir| && p[|dsDir|] == SourceName(ds)
  {
    var dir := dsDir + [SourceName(ds)];
    DataSourceShape(dsDir, ds, dir);
    forall p | p in DataSourceFiles(dsDir, ds).files ensures |p| > |dsDir| && p[|dsDir|] == SourceName(ds) {
      assert p[..|dir|][|dsDir|] == dir[|dsDir|];
    }
  }

  /** Data sources with different names write to different files. */
  lemma DataSourcesApart(dsDir: Path, a: DataSourceStructure, b: DataSourceStructure, p: Path)
    requires DataSourceFiles(dsDir, a).err.None? && DataSourceFiles(dsDir, b).err.None?
    requires SourceName(a) != SourceName(b)
    requires p in DataSourceFiles(dsDir, a).files
    ensures p !in DataSourceFiles(dsDir, b).files
  {
    DataSourcePathsNamed(dsDir, a);
    DataSourcePathsNamed(dsDir, b);
  }

  /** Each data source's files, written in ascending name order, stay in place. */
  lemma DataSourcesKept(root: Path, dss: seq<DataSourceStructure>)
    requires DataSourcesFiles(root, dss).err.None?
    requires StrictlyAscending(Names(dss), StringLt)
    ensures forall i :: 0 <= i < |dss| ==> DataSourceFiles(root + [NameDataSources], dss[i]).err.None?
    ensures forall i :: 0 <= i < |dss| ==>
      Contains(DataSourcesFiles(root, dss).files, DataSourceFiles(root + [NameDataSources], dss[i]).files)
  {
    var dsDir := root + [NameDataSources];
    var step := ds => DataSourceFiles(dsDir, ds);
    var all := DataSourcesFiles(root, dss).files;
    WriteAllNoError(dss, step);
    StringLtIsStrictTotalOrder();
    forall i | 0 <= i < |dss| ensures Contains(all, step(dss[i]).files) {
      forall p | p in step(dss[i]).files ensures p in all && all[p] == step(dss[i]).files[p] {
        forall k | i < k < |dss| ensures p !in step(dss[k]).files {
          AscendingDistinct(Names(dss), StringLt, i, k);
          DataSourcesApart(dsDir, dss[i], dss[k], p);
        }
        WriteAllHas(dss, step, i, p);
      }
    }
  }

  /** Every file written belongs to one of the data sources. */
  lemma DataSourcesOnly(root: Path, dss: seq<DataSourceStructure>, p: Path)
    requires DataSourcesFiles(root, dss).err.None?
    requires p in DataSourcesFiles(root, dss).files
    ensures exists i :: 0 <= i < |dss| && DataSourceFiles(root + [NameDataSources], dss[i]).err.None?
                     && p in DataSourceFiles(root + [NameDataSources], dss[i]).files
  {
    WriteAllNoError(dss, ds => DataSourceFiles(root + [NameDataSources], ds));
    WriteAllKeys(dss, ds => DataSourceFiles(root + [NameDataSources], ds), p);
  }

  /** A written file in the directory named after the data source `i` was written by that data source. */
  lemma WrittenBy(root: Path, dss: seq<DataSourceStructure>, i: nat, q: Path)
    requires DataSourcesFiles(root, dss).err.None?
    requires StrictlyAscending(Names(dss), StringLt)
    requires i < |dss|
    requires q in DataSourcesFiles(root, dss).files
    requires |q| > |root + [NameDataSources]| && q[|root + [NameDataSources]|] == SourceName(dss[i])
    ensures q in DataSourceFiles(root + [NameDataSources], dss[i]).files
  {
    DataSourcesOnly(root, dss, q);
    var k :| 0 <= k < |dss| && DataSourceFiles(root + [NameDataSources], dss[k]).err.None?
                       && q in DataSourceFiles(root + [NameDataSources], dss[k]).files;
    DataSourcePathsNamed(root + [NameDataSources], dss[k]);
    StringLtIsStrictTotalOrder();
    AscendingIndex(Names(dss), StringLt, k, i);
  }

  /** A file in the tree within the directory of the data source `i` is one of that data source's own files. */
  lemma WrittenOwner(before: map<Path, string>, root: Path, dss: seq<DataSourceStructure>, i: nat, q: Path)
    requires Fresh(before, root + [NameDataSources])
    requires DataSourcesFiles(root, dss).err.None?
    requires StrictlyAscending(Names(dss), StringLt)
    requires i < |dss|
    requires q in before + DataSourcesFiles(root, dss).files
    requires Within(q, root + [NameDataSources])
    requires q[|root + [NameDataSources]|] == SourceName(dss[i])
    ensures q in DataSourceFiles(root + [NameDataSources], dss[i]).files
  {
    assert q !in before;
    WrittenBy(root, dss, i, q);
  }

  /** Every written data source's files are in the tree. */
  lemma TreeHasDataSource(before: map<Path, string>, root: Path, dss: seq<DataSourceStructure>, i: nat)
    requires DataSourcesFiles(root, dss).err.None?
    requires StrictlyAscending(Names(dss), StringLt)
    requires i < |dss|
    ensures DataSourceFiles(root + [NameDataSources], dss[i]).err.None?
    ensures Contains(before + DataSourcesFiles(root, dss).files, DataSourceFiles(root + [NameDataSources], dss[i]).files)
  {
    DataSourcesKept(root, dss);
    ContainsUnion(before, DataSourcesFiles(root, dss).files, DataSourceFiles(root + [NameDataSources], dss[i]).files);
  }

  /** Every written rule's three files are in the tree. */
  lemma TreeHasRule(before: map<Path, string>, root: Path, dss: seq<DataSourceStructure>, i: nat, j: nat)
    requires DataSourcesFiles(root, dss).err.None?
    requires ReadableInOrder(dss)
    requires i < |dss| && j < |dss[i].rules|
    ensures RuleFiles(root + [NameDataSources] + [SourceName(dss[i])], dss[i].rules[j]).err.None?
    ensures Contains(before + DataSourcesFiles(root, dss).files,
                     RuleFiles(root + [NameDataSources] + [SourceName(dss[i])], dss[i].rules[j]).files)
  {
    var dsDir := root + [NameDataSources];
    TreeHasDataSource(before, root, dss, i);
    DataSourceRulesAt(dsDir, dss[i], dsDir + [SourceName(dss[i])]);
    ContainsTransitive(before + DataSourcesFiles(root, dss).files, DataSourceFiles(dsDir, dss[i]).files,
                       RuleFiles(dsDir + [SourceName(dss[i])], dss[i].rules[j]).files);
  }

  /** A rule whose files are present has its directory listed. */
  lemma RuleListed(files: map<Path, string>, dir: Path, rule: Object)
    requires RuleFiles(dir, rule).err.None?
    requires Contains(files, RuleFiles(dir, rule).files)
    ensures RulePair(rule) in RuleDirs(files, dir)
  {
    RuleFilesSplit(dir, rule);
    var pair := RulePair(rule);
    var r := [pair.0, pair.1, FileRules];
    assert dir + r == RuleDir(dir, rule[KeyDatabase].s, rule[KeyCollection].s) + [FileRules];
    BelowSpec(files, dir, r);
    assert r in Below(files, dir) && |r| >= 3;
  }

  /** A listed rule directory comes from a file two levels below it. */
  lemma ListedFile(files: map<Path, string>, dir: Path, x: (string, string))
    requires x in RuleDirs(files, dir)
    ensures exists q :: q in files && Within(q, dir) && |q| >= |dir| + 3 && x == (q[|dir|], q[|dir| + 1])
  {
    var r :| r in Below(files, dir) && |r| >= 3 && x == (r[0], r[1]);
    BelowSpec(files, dir, r);
    var q := dir + r;
    assert Within(q, dir) && q[|dir|] == r[0] && q[|dir| + 1] == r[1];
  }

  /** A data source's file two levels below its directory lies in one of its rules' directories. */
  lemma DeepFileIsRule(dsDir: Path, ds: DataSourceStructure, dir: Path, q: Path)
    requires DataSourceFiles(dsDir, ds).err.None?
    requires dir == dsDir + [SourceName(ds)]
    requires q in DataSourceFiles(dsDir, ds).files && |q| >= |dir| + 3
    ensures (q[|dir|], q[|dir| + 1]) in Pairs(ds.rules)
  {
    DataSourceShape(dsDir, ds, dir);
    var j :| 0 <= j < |ds.rules| && (q[|dir|], q[|dir| + 1]) == RulePair(ds.rules[j]);
    assert Pairs(ds.rules)[j] == (q[|dir|], q[|dir| + 1]);
  }

  /** Each written rule's directory is listed. */
  lemma PairListed(before: map<Path, string>, root: Path, dss: seq<DataSourceStructure>, i: nat, j: nat)
    requires DataSourcesFiles(root, dss).err.None?
    requires ReadableInOrder(dss)
    requires i < |dss| && j < |dss[i].rules|
    ensures RulePair(dss[i].rules[j]) in
      RuleDirs(before + DataSourcesFiles(root, dss).files, root + [NameDataSources] + [SourceName(dss[i])])
  {
    TreeHasRule(before, root, dss, i, j);
    RuleListed(before + DataSourcesFiles(root, dss).files, root + [NameDataSources] + [SourceName(dss[i])], dss[i].rules[j]);
  }

  /** Only written rules' directories are listed. */
  lemma ListedPair(before: map<Path, string>, root: Path, dss: seq<DataSourceStructure>, i: nat, x: (string, string))
    requires Fresh(before, root + [NameDataSources])
    requires DataSourcesFiles(root, dss).err.None?
    requires ReadableInOrder(dss)
    requires i < |dss|
    requires x in RuleDirs(before + DataSourcesFiles(root, dss).files, root + [NameDataSources] + [SourceName(dss[i])])
    ensures x in Pairs(dss[i].rules)
  {
    var dsDir := root + [NameDataSources];
    var dir := dsDir + [SourceName(dss[i])];
    ListedFile(before + DataSourcesFiles(root, dss).files, dir, x);
    var q :| q in before + DataSourcesFiles(root, dss).files && Within(q, dir) && |q| >= |dir| + 3
             && x == (q[|dir|], q[|dir| + 1]);
    WithinChild(q, dsDir, SourceName(dss[i]));
    WrittenOwner(before, root, dss, i, q);
    TreeHasDataSource(before, root, dss, i);
    DeepFileIsRule(dsDir, dss[i], dir, q);
  }

  /** The rule directories listed for a data source are exactly its rules' databases and collections. */
  lemma RuleDirsRead(before: map<Path, string>, root: Path, dss: seq<DataSourceStructure>, i: nat)
    requires Fresh(before, root + [NameDataSources])
    requires DataSourcesFiles(root, dss).err.None?
    requires ReadableInOrder(dss)
    requires i < |dss|
    ensures RuleDirs(before + DataSourcesFiles(root, dss).files, root + [NameDataSources] + [SourceName(dss[i])])
         == set x | x in Pairs(dss[i].rules)
  {
    var listed := RuleDirs(before + DataSourcesFiles(root, dss).files, root + [NameDataSources] + [SourceName(dss[i])]);
    forall x | x in listed ensures x in Pairs(dss[i].rules) {
      ListedPair(before, root, dss, i, x);
    }
    forall j | 0 <= j < |dss[i].rules| ensures Pairs(dss[i].rules)[j] in listed {
      PairListed(before, root, dss, i, j);
    }
  }

  /** A data source written in a fresh directory is read back with its rules completed. */
  lemma DataSourceRead(before: map<Path, string>, root: Path, dss: seq<DataSourceStructure>, i: nat)
    requires Fresh(before, root + [NameDataSources])
    requires DataSourcesFiles(root, dss).err.None?
    requires ReadableInOrder(dss)
    requires i < |dss|
    ensures ReadDataSource(before + DataSourcesFiles(root, dss).files, root + [NameDataSources], SourceName(dss[i]))
         == Ok(AsRead(dss[i]))
  {
    var files := before + DataSourcesFiles(root, dss).files;
    var dsDir := root + [NameDataSources];
    var ds := dss[i];
    var dir := dsDir + [SourceName(ds)];
    TreeHasDataSource(before, root, dss, i);
    DataSourceConfigAt(dsDir, ds, dir);
    ObjectTextIsFileText(ds.config);
    FileRoundTrip(Obj(ds.config));
    assert ReadObject(files, dir + [FileConfig]) == Ok(ds.config);
    RuleDirsRead(before, root, dss, i);
    PairLtIsStrictTotalOrder();
    SortedOfAscending(Pairs(ds.rules), PairLt);
    var read := pair => ReadRule(files, dir, pair);
    forall j | 0 <= j < |ds.rules| ensures read(Pairs(ds.rules)[j]) == Ok(AsRead(ds).rules[j]) {
      TreeHasRule(before, root, dss, i, j);
      RuleRead(files, dir, ds.rules[j]);
    }
    ReadAllOk(Pairs(ds.rules), read, AsRead(ds).rules);
  }

  /** Every written data source's directory is listed. */
  lemma NameListed(before: map<Path, string>, root: Path, dss: seq<DataSourceStructure>, i: nat)
    requires DataSourcesFiles(root, dss).err.None?
    requires StrictlyAscending(Names(dss), StringLt)
    requires i < |dss|
    ensures Names(dss)[i] in SubDirs(before + DataSourcesFiles(root, dss).files, root + [NameDataSources])
  {
    var dsDir := root + [NameDataSources];
    TreeHasDataSource(before, root, dss, i);
    DataSourceConfigAt(dsDir, dss[i], dsDir + [SourceName(dss[i])]);
    SubDirsSpec(before + DataSourcesFiles(root, dss).files, dsDir, SourceName(dss[i]));
    assert [FileConfig] != [] && dsDir + [SourceName(dss[i])] + [FileConfig] in before + DataSourcesFiles(root, dss).files;
  }

  /** Only written data sources' directories are listed. */
  lemma ListedName(before: map<Path, string>, root: Path, dss: seq<DataSourceStructure>, name: string)
    requires Fresh(before, root + [NameDataSources])
    requires DataSourcesFiles(root, dss).err.None?
    requires name in SubDirs(before + DataSourcesFiles(root, dss).files, root + [NameDataSources])
    ensures name in Names(dss)
  {
    var dsDir := root + [NameDataSources];
    SubDirsSpec(before + DataSourcesFiles(root, dss).files, dsDir, name);
    var r :| r != [] && dsDir + [name] + r in before + DataSourcesFiles(root, dss).files;
    var q := dsDir + [name] + r;
    assert Within(q, dsDir) && q[|dsDir|] == name;
    DataSourcesOnly(root, dss, q);
    var k :| 0 <= k < |dss| && DataSourceFiles(dsDir, dss[k]).err.None? && q in DataSourceFiles(dsDir, dss[k]).files;
    DataSourcePathsNamed(dsDir, dss[k]);
    assert Names(dss)[k] == name;
  }

  /** The data source directories listed are exactly the written data sources' names. */
  lemma NamesRead(before: map<Path, string>, root: Path, dss: seq<DataSourceStructure>)
    requires Fresh(before, root + [NameDataSources])
    requires DataSourcesFiles(root, dss).err.None?
    requires StrictlyAscending(Names(dss), StringLt)
    ensures SubDirs(before + DataSourcesFiles(root, dss).files, root + [NameDataSources]) == set x | x in Names(dss)
  {
    var listed := SubDirs(before + DataSourcesFiles(root, dss).files, root + [NameDataSources]);
    forall x | x in listed ensures x in Names(dss) {
      ListedName(before, root, dss, x);
    }
    forall i | 0 <= i < |dss| ensures Names(dss)[i] in listed {
      NameListed(before, root, dss, i);
    }
  }

  /** The data source names are listed in the order they were written. */
  lemma NamesInOrder(before: map<Path, string>, root: Path, dss: seq<DataSourceStructure>)
    requires Fresh(before, root + [NameDataSources])
    requires DataSourcesFiles(root, dss).err.None?
    requires StrictlyAscending(Names(dss), StringLt)
    ensures DataSourceNames(before + DataSourcesFiles(root, dss).files, root + [NameDataSources]) == Names(dss)
  {
    NamesRead(before, root, dss);
    StringLtIsStrictTotalOrder();
    SortedOfAscending(Names(dss), StringLt);
  }

  /**
   * Data sources written in ascending name order, each with its rules in
   * ascending database and collection order, into a directory with no
   * data sources yet, are read back in that order, every rule carrying a
   * schema and relationships.
   */
  lemma DataSourcesRoundTrip(before: map<Path, string>, root: Path, dss: seq<DataSourceStructure>)
    requires Fresh(before, root + [NameDataSources])
    requires DataSourcesFiles(root, dss).err.None?
    requires ReadableInOrder(dss)
    ensures ParseDataSources(before + DataSourcesFiles(root, dss).files, root)
         == Ok(seq(|dss|, i requires 0 <= i < |dss| => AsRead(dss[i])))
  {
    var files := before + DataSourcesFiles(root, dss).files;
    var dsDir := root + [NameDataSources];
    NamesInOrder(before, root, dss);
    var read := name => ReadDataSource(files, dsDir, name);
    var expected := seq(|dss|, i requires 0 <= i < |dss| => AsRead(dss[i]));
    forall i | 0 <= i < |dss| ensures read(Names(dss)[i]) == Ok(expected[i]) {
      DataSourceRead(before, root, dss, i);
    }
    ReadAllOk(Names(dss), read, expected);
  }
}
