/**
 * Writing the configuration sections of an app into its directory. Each
 * writer is a method that changes the file store one file at a time; the
 * function beside it names the files the whole write leaves behind, and
 * the method's contract ties the two together.
 */
module Writers {
  import opened Wrappers
  import opened Paths
  import opened Json
  import opened Files
  import opened App
  import opened Ordering

  /* ---------------- functions ---------------- */

  /** The content of the functions directory's config file: the configurations as a JSON array. */
  function ConfigsText(configs: seq<Object>): string
  {
    FileText(Arr(Objects(configs)))
  }

  /** Different keys are written to different files. */
  lemma SourcePathsDistinct(dir: Path, a: string, b: string)
    requires a != b
    ensures dir + Split(a) != dir + Split(b)
  {
    if Split(a) == Split(b) {
      SplitInjective(a, b);
    }
    assert Split(a) == (dir + Split(a))[|dir|..];
    assert Split(b) == (dir + Split(b))[|dir|..];
  }

  /** The sources under the keys `ks`, written one after another below `dir`. */
  function SourcesOver(dir: Path, ks: seq<string>, sources: map<string, string>): map<Path, string>
    requires forall i :: 0 <= i < |ks| ==> ks[i] in sources
  {
    if ks == [] then map[]
    else SourcesOver(dir, ks[..|ks| - 1], sources)[dir + Split(ks[|ks| - 1]) := sources[ks[|ks| - 1]]]
  }

  /** One more key writes one more file. */
  lemma SourcesOverSnoc(dir: Path, ks: seq<string>, i: nat, sources: map<string, string>)
    requires i < |ks|
    requires forall i :: 0 <= i < |ks| ==> ks[i] in sources
    ensures SourcesOver(dir, ks[..i + 1], sources) == SourcesOver(dir, ks[..i], sources)[dir + Split(ks[i]) := sources[ks[i]]]
  {
    assert ks[..i + 1][..i] == ks[..i];
  }

  /**
   * The files written for the keys `ks`: exactly one per key, at the key's
   * path, holding that key's source.
   */
  lemma {:induction false} SourcesOverSpec(dir: Path, ks: seq<string>, sources: map<string, string>)
    requires forall i :: 0 <= i < |ks| ==> ks[i] in sources
    ensures forall k :: k in ks ==> dir + Split(k) in SourcesOver(dir, ks, sources)
    ensures forall k :: k in ks ==> SourcesOver(dir, ks, sources)[dir + Split(k)] == sources[k]
    ensures forall p :: p in SourcesOver(dir, ks, sources) ==> exists k :: k in ks && p == dir + Split(k)
  {
    if ks != [] {
      var init, last := ks[..|ks| - 1], ks[|ks| - 1];
      SourcesOverSpec(dir, init, sources);
      assert ks == init + [last];
      forall k | k in ks && k != last
        ensures SourcesOver(dir, ks, sources)[dir + Split(k)] == sources[k]
      {
        SourcePathsDistinct(dir, k, last);
      }
    }
  }

  /** The order the keys are written in does not change the files left behind. */
  lemma SourcesOverOrderFree(dir: Path, ks: seq<string>, js: seq<string>, sources: map<string, string>)
    requires forall i :: 0 <= i < |ks| ==> ks[i] in sources
    requires forall i :: 0 <= i < |js| ==> js[i] in sources
    requires forall k :: k in ks <==> k in js
    ensures SourcesOver(dir, ks, sources) == SourcesOver(dir, js, sources)
  {
    SourcesOverSpec(dir, ks, sources);
    SourcesOverSpec(dir, js, sources);
    var l, r := SourcesOver(dir, ks, sources), SourcesOver(dir, js, sources);
    forall p | p in l ensures p in r && l[p] == r[p] {
      var k :| k in ks && p == dir + Split(k);
    }
    forall p | p in r ensures p in l {
      var k :| k in js && p == dir + Split(k);
    }
    assert l.Keys == r.Keys;
  }

  /** The source keys in the order they are written. */
  function SourceOrder(sources: map<string, string>): (ks: seq<string>)
    ensures forall i :: 0 <= i < |ks| ==> ks[i] in sources
    ensures forall k :: k in ks <==> k in sources
  {
    StringLtIsStrictTotalOrder();
    Sorted(sources.Keys, StringLt)
  }

  /** Every source, each at its own path below `dir`. */
  function SourceFiles(dir: Path, sources: map<string, string>): map<Path, string>
  {
    SourcesOver(dir, SourceOrder(sources), sources)
  }

  /** The source files are exactly the sources, each verbatim at the path its key spells. */
  lemma SourceFilesSpec(dir: Path, sources: map<string, string>)
    ensures forall k :: k in sources ==> dir + Split(k) in SourceFiles(dir, sources)
    ensures forall k :: k in sources ==> SourceFiles(dir, sources)[dir + Split(k)] == sources[k]
    ensures forall p :: p in SourceFiles(dir, sources) ==> exists k :: k in sources && p == dir + Split(k)
  {
    SourcesOverSpec(dir, SourceOrder(sources), sources);
  }

  /** Every file `writeFunctionsV2` leaves in the app directory `root`. */
  function FunctionsFiles(root: Path, data: FunctionsStructure): map<Path, string>
  {
    var dir := root + [NameFunctions];
    map[dir + [FileConfig] := ConfigsText(data.configs)] + SourceFiles(dir, data.sources)
  }

  /** Writes every source below `dir`, one at a time. */
  method WriteSources(fs: FileStore, dir: Path, sources: map<string, string>)
    modifies fs
    ensures fs.files == old(fs.files) + SourceFiles(dir, sources)
  {
    var ks := SourceOrder(sources);
    var i := 0;
    UnionEmpty(old(fs.files));
    while i < |ks|
      invariant 0 <= i <= |ks|
      invariant fs.files == old(fs.files) + SourcesOver(dir, ks[..i], sources)
    {
      SourcesOverSnoc(dir, ks, i, sources);
      fs.WriteFile(dir + Split(ks[i]), sources[ks[i]]);
      UnionUpdate(old(fs.files), SourcesOver(dir, ks[..i], sources), dir + Split(ks[i]), sources[ks[i]]);
      i := i + 1;
    }
    assert ks[..i] == ks;
  }

  /** Writes the functions' configurations to the config file, then every source below the functions directory. */
  method WriteFunctions(fs: FileStore, root: Path, data: FunctionsStructure)
    modifies fs
    ensures fs.files == old(fs.files) + FunctionsFiles(root, data)
  {
    var dir := root + [NameFunctions];
    var config := map[dir + [FileConfig] := ConfigsText(data.configs)];
    fs.WriteFile(dir + [FileConfig], ConfigsText(data.configs));
    UnionEmpty(old(fs.files));
    UnionUpdate(old(fs.files), map[], dir + [FileConfig], ConfigsText(data.configs));
    WriteSources(fs, dir, data.sources);
    UnionAssoc(old(fs.files), config, SourceFiles(dir, data.sources));
  }

  /* ---------------- auth and sync ---------------- */

  /** The files `writeAuth` leaves: the providers and the custom user data, each in its own file. */
  function AuthFiles(root: Path, data: AuthStructure): map<Path, string>
  {
    map[root + [NameAuth] + [FileProviders] := ObjectText(data.providers),
        root + [NameAuth] + [FileCustomUserData] := ObjectText(data.customUserData)]
  }

  method WriteAuth(fs: FileStore, root: Path, data: AuthStructure)
    modifies fs
    ensures fs.files == old(fs.files) + AuthFiles(root, data)
  {
    fs.WriteFile(root + [NameAuth] + [FileProviders], ObjectText(data.providers));
    fs.WriteFile(root + [NameAuth] + [FileCustomUserData], ObjectText(data.customUserData));
    UnionEmpty(old(fs.files));
    UnionUpdate(old(fs.files), map[], root + [NameAuth] + [FileProviders], ObjectText(data.providers));
    UnionUpdate(old(fs.files), map[root + [NameAuth] + [FileProviders] := ObjectText(data.providers)],
      root + [NameAuth] + [FileCustomUserData], ObjectText(data.customUserData));
  }

  /** The file `writeSync` leaves: the sync configuration. */
  function SyncFiles(root: Path, data: SyncStructure): map<Path, string>
  {
    map[root + [NameSync] + [FileConfig] := ObjectText(data.config)]
  }

  method WriteSync(fs: FileStore, root: Path, data: SyncStructure)
    modifies fs
    ensures fs.files == old(fs.files) + SyncFiles(root, data)
  {
    fs.WriteFile(root + [NameSync] + [FileConfig], ObjectText(data.config));
    UnionEmpty(old(fs.files));
    UnionUpdate(old(fs.files), map[], root + [NameSync] + [FileConfig], ObjectText(data.config));
  }

  /* ---------------- data sources ---------------- */

  /** A rule without its schema and relationships, which are written to files of their own. */
  function RuleOnly(rule: Object): Object
  {
    Without(rule, {KeySchema, KeyRelationships})
  }

  /**
   * The three files of one rule: the rule itself, its schema and its
   * relationships (an absent schema or relationships is written as `{}`).
   * The rule's database and collection name its directory and must be strings.
   */
  function RuleFiles(dsDir: Path, rule: Object): Written
  {
    match (StringField(rule, KeyDatabase), StringField(rule, KeyCollection))
    case (Some(database), Some(collection)) =>
      var dir := RuleDir(dsDir, database, collection);
      Written(map[dir + [FileRules] := ObjectText(RuleOnly(rule)),
                  dir + [FileSchema] := FileText(FieldOr(rule, KeySchema, Obj(map[]))),
                  dir + [FileRelationships] := FileText(FieldOr(rule, KeyRelationships, Obj(map[])))],
              None)
    case (None, _) => Written(map[], Some(NotAString(dsDir, KeyDatabase)))
    case (_, None) => Written(map[], Some(NotAString(dsDir, KeyCollection)))
  }

  /**
   * A rule is split in three: the rule without its schema and relationships
   * in the rules file, and each of those two values in a file of its own
   * beside it. A rule without a string database or collection writes nothing.
   */
  lemma RuleFilesSplit(dsDir: Path, rule: Object)
    ensures RuleFiles(dsDir, rule).err.None? <==> StringField(rule, KeyDatabase).Some? && StringField(rule, KeyCollection).Some?
    ensures RuleFiles(dsDir, rule).err.None? ==>
      var dir := RuleDir(dsDir, rule[KeyDatabase].s, rule[KeyCollection].s);
      var files := RuleFiles(dsDir, rule).files;
      && files.Keys == {dir + [FileRules], dir + [FileSchema], dir + [FileRelationships]}
      && files[dir + [FileRules]] == ObjectText(RuleOnly(rule))
      && files[dir + [FileSchema]] == FileText(FieldOr(rule, KeySchema, Obj(map[])))
      && files[dir + [FileRelationships]] == FileText(FieldOr(rule, KeyRelationships, Obj(map[])))
    ensures RuleFiles(dsDir, rule).err.Some? ==> RuleFiles(dsDir, rule).files == map[]
  {
    if RuleFiles(dsDir, rule).err.None? {
      var dir := RuleDir(dsDir, rule[KeyDatabase].s, rule[KeyCollection].s);
      SiblingsDistinct(dir, FileRules, FileSchema);
      SiblingsDistinct(dir, FileRules, FileRelationships);
      SiblingsDistinct(dir, FileSchema, FileRelationships);
    }
  }

  function RulesFiles(dsDir: Path, rules: seq<Object>): Written
  {
    WriteAll(rules, rule => RuleFiles(dsDir, rule))
  }

  /** The files of one data source: its configuration, named by its "name", then its rules. */
  function DataSourceFiles(dir: Path, ds: DataSourceStructure): Written
  {
    match StringField(ds.config, KeyName)
    case None => Written(map[], Some(NotAString(dir, KeyName)))
    case Some(name) =>
      Then(Written(map[dir + [name] + [FileConfig] := ObjectText(ds.config)], None), RulesFiles(dir + [name], ds.rules))
  }

  /** What `writeDataSources` leaves: the data sources in order, up to the first one that cannot be written. */
  function DataSourcesFiles(root: Path, dataSources: seq<DataSourceStructure>): Written
  {
    WriteAll(dataSources, ds => DataSourceFiles(root + [NameDataSources], ds))
  }

  method WriteRule(fs: FileStore, dsDir: Path, rule: Object) returns (err: Option<WriteError>)
    modifies fs
    ensures fs.files == old(fs.files) + RuleFiles(dsDir, rule).files
    ensures err == RuleFiles(dsDir, rule).err
  {
    var database := StringField(rule, KeyDatabase);
    if database.None? {
      return Some(NotAString(dsDir, KeyDatabase));
    }
    var collection := StringField(rule, KeyCollection);
    if collection.None? {
      return Some(NotAString(dsDir, KeyCollection));
    }
    var dir := RuleDir(dsDir, database.value, collection.value);
    var rules, schema, relationships := ObjectText(RuleOnly(rule)),
      FileText(FieldOr(rule, KeySchema, Obj(map[]))), FileText(FieldOr(rule, KeyRelationships, Obj(map[])));
    fs.WriteFile(dir + [FileRules], rules);
    fs.WriteFile(dir + [FileSchema], schema);
    fs.WriteFile(dir + [FileRelationships], relationships);
    UnionEmpty(old(fs.files));
    UnionUpdate(old(fs.files), map[], dir + [FileRules], rules);
    UnionUpdate(old(fs.files), map[dir + [FileRules] := rules], dir + [FileSchema], schema);
    UnionUpdate(old(fs.files), map[dir + [FileRules] := rules, dir + [FileSchema] := schema],
      dir + [FileRelationships], relationships);
    err := None;
  }

  method WriteRules(fs: FileStore, dsDir: Path, rules: seq<Object>) returns (err: Option<WriteError>)
    modifies fs
    ensures fs.files == old(fs.files) + RulesFiles(dsDir, rules).files
    ensures err == RulesFiles(dsDir, rules).err
  {
    var step := rule => RuleFiles(dsDir, rule);
    var i := 0;
    UnionEmpty(old(fs.files));
    while i < |rules|
      invariant 0 <= i <= |rules|
      invariant WriteAll(rules[..i], step).err.None?
      invariant fs.files == old(fs.files) + WriteAll(rules[..i], step).files
    {
      WriteAllSnoc(rules, i, step);
      err := WriteRule(fs, dsDir, rules[i]);
      UnionAssoc(old(fs.files), WriteAll(rules[..i], step).files, step(rules[i]).files);
      if err.Some? {
        WriteAllStops(rules, i + 1, step);
        return;
      }
      i := i + 1;
    }
    assert rules[..i] == rules;
    err := None;
  }

  method WriteDataSource(fs: FileStore, dir: Path, ds: DataSourceStructure) returns (err: Option<WriteError>)
    modifies fs
    ensures fs.files == old(fs.files) + DataSourceFiles(dir, ds).files
    ensures err == DataSourceFiles(dir, ds).err
  {
    var name := StringField(ds.config, KeyName);
    if name.None? {
      return Some(NotAString(dir, KeyName));
    }
    fs.WriteFile(dir + [name.value] + [FileConfig], ObjectText(ds.config));
    err := WriteRules(fs, dir + [name.value], ds.rules);
    UnionEmpty(old(fs.files));
    UnionUpdate(old(fs.files), map[], dir + [name.value] + [FileConfig], ObjectText(ds.config));
    UnionAssoc(old(fs.files), map[dir + [name.value] + [FileConfig] := ObjectText(ds.config)],
      RulesFiles(dir + [name.value], ds.rules).files);
  }

  method WriteDataSources(fs: FileStore, root: Path, dataSources: seq<DataSourceStructure>) returns (err: Option<WriteError>)
    modifies fs
    ensures fs.files == old(fs.files) + DataSourcesFiles(root, dataSources).files
    ensures err == DataSourcesFiles(root, dataSources).err
  {
    var dir := root + [NameDataSources];
    var step := ds => DataSourceFiles(dir, ds);
    var i := 0;
    UnionEmpty(old(fs.files));
    while i < |dataSources|
      invariant 0 <= i <= |dataSources|
      invariant WriteAll(dataSources[..i], step).err.None?
      invariant fs.files == old(fs.files) + WriteAll(dataSources[..i], step).files
    {
      WriteAllSnoc(dataSources, i, step);
      err := WriteDataSource(fs, dir, dataSources[i]);
      UnionAssoc(old(fs.files), WriteAll(dataSources[..i], step).files, step(dataSources[i]).files);
      if err.Some? {
        WriteAllStops(dataSources, i + 1, step);
        return;
      }
      i := i + 1;
    }
    assert dataSources[..i] == dataSources;
    err := None;
  }

  /* ---------------- HTTP endpoints ---------------- */

  /** A webhook's files: its configuration without the script, and the script verbatim beside it. */
  function WebhookFiles(hooksDir: Path, webhook: Object): Written
  {
    match (StringField(webhook, KeyName), StringField(webhook, KeySource))
    case (Some(name), Some(source)) =>
      Written(map[hooksDir + [name] + [FileConfig] := ObjectText(Without(webhook, {KeySource})),
                  hooksDir + [name] + [FileSource] := source],
              None)
    case (None, _) => Written(map[], Some(NotAString(hooksDir, KeyName)))
    case (_, None) => Written(map[], Some(NotAString(hooksDir, KeySource)))
  }

  /** A rule of an HTTP service, in a file named after the rule. */
  function EndpointRuleFiles(rulesDir: Path, rule: Object): Written
  {
    match StringField(rule, KeyName)
    case Some(name) => Written(map[rulesDir + [name + ExtJSON] := ObjectText(rule)], None)
    case None => Written(map[], Some(NotAString(rulesDir, KeyName)))
  }

  /** One HTTP service: its configuration, then its webhooks, then its rules. */
  function EndpointFiles(dir: Path, endpoint: HTTPEndpointStructure): Written
  {
    match StringField(endpoint.config, KeyName)
    case None => Written(map[], Some(NotAString(dir, KeyName)))
    case Some(name) =>
      Then(Then(Written(map[dir + [name] + [FileConfig] := ObjectText(endpoint.config)], None),
                WriteAll(endpoint.incomingWebhooks, hook => WebhookFiles(dir + [name] + [NameIncomingWebhooks], hook))),
           WriteAll(endpoint.rules, rule => EndpointRuleFiles(dir + [name] + [NameRules], rule)))
  }

  /** What `writeHTTPEndpoints` leaves: the services in order, up to the first one that cannot be written. */
  function HTTPEndpointsFiles(root: Path, endpoints: seq<HTTPEndpointStructure>): Written
  {
    WriteAll(endpoints, e => EndpointFiles(root + [NameHTTPEndpoints], e))
  }

  method WriteWebhook(fs: FileStore, hooksDir: Path, webhook: Object) returns (err: Option<WriteError>)
    modifies fs
    ensures fs.files == old(fs.files) + WebhookFiles(hooksDir, webhook).files
    ensures err == WebhookFiles(hooksDir, webhook).err
  {
    var name := StringField(webhook, KeyName);
    if name.None? {
      return Some(NotAString(hooksDir, KeyName));
    }
    var source := StringField(webhook, KeySource);
    if source.None? {
      return Some(NotAString(hooksDir, KeySource));
    }
    var config := ObjectText(Without(webhook, {KeySource}));
    fs.WriteFile(hooksDir + [name.value] + [FileConfig], config);
    fs.WriteFile(hooksDir + [name.value] + [FileSource], source.value);
    UnionEmpty(old(fs.files));
    UnionUpdate(old(fs.files), map[], hooksDir + [name.value] + [FileConfig], config);
    UnionUpdate(old(fs.files), map[hooksDir + [name.value] + [FileConfig] := config], hooksDir + [name.value] + [FileSource], source.value);
    err := None;
  }

  method WriteWebhooks(fs: FileStore, hooksDir: Path, webhooks: seq<Object>) returns (err: Option<WriteError>)
    modifies fs
    ensures fs.files == old(fs.files) + WriteAll(webhooks, hook => WebhookFiles(hooksDir, hook)).files
    ensures err == WriteAll(webhooks, hook => WebhookFiles(hooksDir, hook)).err
  {
    var step := hook => WebhookFiles(hooksDir, hook);
    var i := 0;
    UnionEmpty(old(fs.files));
    while i < |webhooks|
      invariant 0 <= i <= |webhooks|
      invariant WriteAll(webhooks[..i], step).err.None?
      invariant fs.files == old(fs.files) + WriteAll(webhooks[..i], step).files
    {
      WriteAllSnoc(webhooks, i, step);
      err := WriteWebhook(fs, hooksDir, webhooks[i]);
      UnionAssoc(old(fs.files), WriteAll(webhooks[..i], step).files, step(webhooks[i]).files);
      if err.Some? {
        WriteAllStops(webhooks, i + 1, step);
        return;
      }
      i := i + 1;
    }
    assert webhooks[..i] == webhooks;
    err := None;
  }

  method WriteEndpointRules(fs: FileStore, rulesDir: Path, rules: seq<Object>) returns (err: Option<WriteError>)
    modifies fs
    ensures fs.files == old(fs.files) + WriteAll(rules, rule => EndpointRuleFiles(rulesDir, rule)).files
    ensures err == WriteAll(rules, rule => EndpointRuleFiles(rulesDir, rule)).err
  {
    var step := rule => EndpointRuleFiles(rulesDir, rule);
    var i := 0;
    UnionEmpty(old(fs.files));
    while i < |rules|
      invariant 0 <= i <= |rules|
      invariant WriteAll(rules[..i], step).err.None?
      invariant fs.files == old(fs.files) + WriteAll(rules[..i], step).files
    {
      WriteAllSnoc(rules, i, step);
      var name := StringField(rules[i], KeyName);
      if name.None? {
        err := Some(NotAString(rulesDir, KeyName));
        WriteAllStops(rules, i + 1, step);
        return;
      }
      fs.WriteFile(rulesDir + [name.value + ExtJSON], ObjectText(rules[i]));
      UpdateIsUnion(old(fs.files) + WriteAll(rules[..i], step).files, rulesDir + [name.value + ExtJSON], ObjectText(rules[i]));
      UnionAssoc(old(fs.files), WriteAll(rules[..i], step).files, step(rules[i]).files);
      i := i + 1;
    }
    assert rules[..i] == rules;
    err := None;
  }

  method WriteEndpoint(fs: FileStore, dir: Path, endpoint: HTTPEndpointStructure) returns (err: Option<WriteError>)
    modifies fs
    ensures fs.files == old(fs.files) + EndpointFiles(dir, endpoint).files
    ensures err == EndpointFiles(dir, endpoint).err
  {
    var name := StringField(endpoint.config, KeyName);
    if name.None? {
      return Some(NotAString(dir, KeyName));
    }
    var config := map[dir + [name.value] + [FileConfig] := ObjectText(endpoint.config)];
    fs.WriteFile(dir + [name.value] + [FileConfig], ObjectText(endpoint.config));
    UnionEmpty(old(fs.files));
    UnionUpdate(old(fs.files), map[], dir + [name.value] + [FileConfig], ObjectText(endpoint.config));
    var hooks := WriteAll(endpoint.incomingWebhooks, hook => WebhookFiles(dir + [name.value] + [NameIncomingWebhooks], hook));
    err := WriteWebhooks(fs, dir + [name.value] + [NameIncomingWebhooks], endpoint.incomingWebhooks);
    UnionAssoc(old(fs.files), config, hooks.files);
    if err.Some? {
      return;
    }
    var rules := WriteAll(endpoint.rules, rule => EndpointRuleFiles(dir + [name.value] + [NameRules], rule));
    err := WriteEndpointRules(fs, dir + [name.value] + [NameRules], endpoint.rules);
    UnionAssoc(old(fs.files), config + hooks.files, rules.files);
  }

  method WriteHTTPEndpoints(fs: FileStore, root: Path, endpoints: seq<HTTPEndpointStructure>) returns (err: Option<WriteError>)
    modifies fs
    ensures fs.files == old(fs.files) + HTTPEndpointsFiles(root, endpoints).files
    ensures err == HTTPEndpointsFiles(root, endpoints).err
  {
    var dir := root + [NameHTTPEndpoints];
    var step := e => EndpointFiles(dir, e);
    var i := 0;
    UnionEmpty(old(fs.files));
    while i < |endpoints|
      invariant 0 <= i <= |endpoints|
      invariant WriteAll(endpoints[..i], step).err.None?
      invariant fs.files == old(fs.files) + WriteAll(endpoints[..i], step).files
    {
      WriteAllSnoc(endpoints, i, step);
      err := WriteEndpoint(fs, dir, endpoints[i]);
      UnionAssoc(old(fs.files), WriteAll(endpoints[..i], step).files, step(endpoints[i]).files);
      if err.Some? {
        WriteAllStops(endpoints, i + 1, step);
        return;
      }
      i := i + 1;
    }
    assert endpoints[..i] == endpoints;
    err := None;
  }
}
