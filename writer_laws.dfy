/**
 * What each writer's files say: which files it leaves, that every JSON
 * file it writes parses back to the object it came from, that a webhook's
 * script is written verbatim and merges back into its configuration, and
 * that a service's configuration survives the writes that follow it.
 */
module WriterLaws {
  import opened Wrappers
  import opened Paths
  import opened Json
  import opened JsonLaws
  import opened Files
  import opened App
  import opened Writers

  /* ---------------- JSON files ---------------- */

  /** An object's file parses back to the object. */
  lemma ObjectFileRoundTrip(m: Object)
    requires Plain(Obj(m))
    ensures ParseFile(ObjectText(m)) == Some(Obj(m))
  {
    ObjectTextIsFileText(m);
    FileRoundTrip(Obj(m));
  }

  /** Removing members keeps an object plain. */
  lemma PlainWithout(m: Object, keys: set<string>)
    requires Plain(Obj(m))
    ensures Plain(Obj(Without(m, keys)))
  {
  }

  /** The functions' config file parses back to the configurations, one object per element. */
  lemma ConfigsFileRoundTrip(configs: seq<Object>)
    requires forall i :: 0 <= i < |configs| ==> Plain(Obj(configs[i]))
    ensures ParseFile(ConfigsText(configs)) == Some(Arr(Objects(configs)))
  {
    assert Plain(Arr(Objects(configs)));
    FileRoundTrip(Arr(Objects(configs)));
  }

  /* ---------------- auth and sync ---------------- */

  /** `writeAuth` leaves two files in the auth directory, the providers and the custom user data, each reading back as its object. */
  lemma AuthRoundTrip(root: Path, data: AuthStructure)
    requires Plain(Obj(data.providers)) && Plain(Obj(data.customUserData))
    ensures root + [NameAuth] + [FileProviders] != root + [NameAuth] + [FileCustomUserData]
    ensures AuthFiles(root, data).Keys == {root + [NameAuth] + [FileProviders], root + [NameAuth] + [FileCustomUserData]}
    ensures ParseFile(AuthFiles(root, data)[root + [NameAuth] + [FileProviders]]) == Some(Obj(data.providers))
    ensures ParseFile(AuthFiles(root, data)[root + [NameAuth] + [FileCustomUserData]]) == Some(Obj(data.customUserData))
  {
    SiblingsDistinct(root + [NameAuth], FileProviders, FileCustomUserData);
    ObjectFileRoundTrip(data.providers);
    ObjectFileRoundTrip(data.customUserData);
  }

  /** `writeSync` leaves one file, the sync configuration, reading back as its object. */
  lemma SyncRoundTrip(root: Path, data: SyncStructure)
    requires Plain(Obj(data.config))
    ensures SyncFiles(root, data).Keys == {root + [NameSync] + [FileConfig]}
    ensures ParseFile(SyncFiles(root, data)[root + [NameSync] + [FileConfig]]) == Some(Obj(data.config))
  {
    ObjectFileRoundTrip(data.config);
  }

  /* ---------------- data sources ---------------- */

  /** A rule's three files read back as the rule without its schema and relationships, and those two values (or `{}`). */
  lemma RuleFilesRoundTrip(dsDir: Path, rule: Object)
    requires RuleFiles(dsDir, rule).err.None?
    requires Plain(Obj(rule))
    ensures var dir := RuleDir(dsDir, rule[KeyDatabase].s, rule[KeyCollection].s);
            var files := RuleFiles(dsDir, rule).files;
            && ParseFile(files[dir + [FileRules]]) == Some(Obj(Without(rule, {KeySchema, KeyRelationships})))
            && ParseFile(files[dir + [FileSchema]]) == Some(FieldOr(rule, KeySchema, Obj(map[])))
            && ParseFile(files[dir + [FileRelationships]]) == Some(FieldOr(rule, KeyRelationships, Obj(map[])))
  {
    RuleFilesSplit(dsDir, rule);
    PlainWithout(rule, {KeySchema, KeyRelationships});
    ObjectFileRoundTrip(RuleOnly(rule));
    FileRoundTrip(FieldOr(rule, KeySchema, Obj(map[])));
    FileRoundTrip(FieldOr(rule, KeyRelationships, Obj(map[])));
  }

  /* ---------------- HTTP endpoints ---------------- */

  /**
   * A webhook is split in two: its configuration without the script in the
   * config file of the directory named after it, and the script verbatim
   * in the source file beside it. A webhook without a string name or a
   * string script writes nothing.
   */
  lemma WebhookSplit(hooksDir: Path, webhook: Object)
    ensures WebhookFiles(hooksDir, webhook).err.None? <==>
      StringField(webhook, KeyName).Some? && StringField(webhook, KeySource).Some?
    ensures WebhookFiles(hooksDir, webhook).err.None? ==>
      var dir := hooksDir + [webhook[KeyName].s];
      var files := WebhookFiles(hooksDir, webhook).files;
      && files.Keys == {dir + [FileConfig], dir + [FileSource]}
      && files[dir + [FileConfig]] == ObjectText(Without(webhook, {KeySource}))
      && files[dir + [FileSource]] == webhook[KeySource].s
    ensures WebhookFiles(hooksDir, webhook).err.Some? ==> WebhookFiles(hooksDir, webhook).files == map[]
  {
    if WebhookFiles(hooksDir, webhook).err.None? {
      SiblingsDistinct(hooksDir + [webhook[KeyName].s], FileConfig, FileSource);
    }
  }

  /**
   * A webhook's configuration read back, with the script put back under
   * "source", is the webhook. The script is copied verbatim, so it may hold
   * any characters; only the configuration must be plain.
   */
  lemma WebhookRoundTrip(hooksDir: Path, webhook: Object)
    requires WebhookFiles(hooksDir, webhook).err.None?
    requires Plain(Obj(Without(webhook, {KeySource})))
    ensures var dir := hooksDir + [webhook[KeyName].s];
            var files := WebhookFiles(hooksDir, webhook).files;
            && ParseFile(files[dir + [FileConfig]]) == Some(Obj(Without(webhook, {KeySource})))
            && KeySource !in Without(webhook, {KeySource})
            && Without(webhook, {KeySource})[KeySource := Str(files[dir + [FileSource]])] == webhook
  {
    WebhookSplit(hooksDir, webhook);
    ObjectFileRoundTrip(Without(webhook, {KeySource}));
    WithoutRestore(webhook, KeySource);
  }

  /** An HTTP rule is one file named after the rule with the JSON extension, reading back as the rule. */
  lemma EndpointRuleRoundTrip(rulesDir: Path, rule: Object)
    requires Plain(Obj(rule))
    ensures EndpointRuleFiles(rulesDir, rule).err.None? <==> StringField(rule, KeyName).Some?
    ensures EndpointRuleFiles(rulesDir, rule).err.None? ==>
      var p := rulesDir + [rule[KeyName].s + ExtJSON];
      && EndpointRuleFiles(rulesDir, rule).files.Keys == {p}
      && ParseFile(EndpointRuleFiles(rulesDir, rule).files[p]) == Some(Obj(rule))
    ensures EndpointRuleFiles(rulesDir, rule).err.Some? ==> EndpointRuleFiles(rulesDir, rule).files == map[]
  {
    ObjectFileRoundTrip(rule);
  }

  /** Every file of written webhooks lies two levels below the webhooks directory. */
  lemma WebhooksDepth(hooksDir: Path, hooks: seq<Object>, p: Path)
    requires WriteAll(hooks, hook => WebhookFiles(hooksDir, hook)).err.None?
    requires p in WriteAll(hooks, hook => WebhookFiles(hooksDir, hook)).files
    ensures |p| == |hooksDir| + 2
  {
    WriteAllNoError(hooks, hook => WebhookFiles(hooksDir, hook));
    WriteAllKeys(hooks, hook => WebhookFiles(hooksDir, hook), p);
    var i :| 0 <= i < |hooks| && p in WebhookFiles(hooksDir, hooks[i]).files;
    WebhookSplit(hooksDir, hooks[i]);
  }

  /** Every file of written HTTP rules lies directly in the rules directory. */
  lemma EndpointRulesDepth(rulesDir: Path, rules: seq<Object>, p: Path)
    requires WriteAll(rules, rule => EndpointRuleFiles(rulesDir, rule)).err.None?
    requires p in WriteAll(rules, rule => EndpointRuleFiles(rulesDir, rule)).files
    ensures |p| == |rulesDir| + 1
  {
    WriteAllNoError(rules, rule => EndpointRuleFiles(rulesDir, rule));
    WriteAllKeys(rules, rule => EndpointRuleFiles(rulesDir, rule), p);
  }

  /** A service's configuration stays in the config file of its directory; its webhooks and rules never overwrite it. */
  lemma EndpointConfigAt(dir: Path, endpoint: HTTPEndpointStructure)
    requires EndpointFiles(dir, endpoint).err.None?
    ensures StringField(endpoint.config, KeyName).Some?
    ensures dir + [endpoint.config[KeyName].s] + [FileConfig] in EndpointFiles(dir, endpoint).files
    ensures EndpointFiles(dir, endpoint).files[dir + [endpoint.config[KeyName].s] + [FileConfig]] == ObjectText(endpoint.config)
  {
    var name := endpoint.config[KeyName].s;
    var p := dir + [name] + [FileConfig];
    var hooks := WriteAll(endpoint.incomingWebhooks, hook => WebhookFiles(dir + [name] + [NameIncomingWebhooks], hook));
    var rules := WriteAll(endpoint.rules, rule => EndpointRuleFiles(dir + [name] + [NameRules], rule));
    if p in hooks.files {
      WebhooksDepth(dir + [name] + [NameIncomingWebhooks], endpoint.incomingWebhooks, p);
    }
    if p in rules.files {
      EndpointRulesDepth(dir + [name] + [NameRules], endpoint.rules, p);
    }
  }

  /* ---------------- all HTTP services ---------------- */

  /** Objects whose names are pairwise different. */
  ghost predicate DistinctNames(objs: seq<Object>)
  {
    forall j, k :: 0 <= j < k < |objs| ==> NameOf(objs[j]) != NameOf(objs[k])
  }

  /** Services whose names are pairwise different. */
  ghost predicate DistinctServices(endpoints: seq<HTTPEndpointStructure>)
  {
    forall j, k :: 0 <= j < k < |endpoints| ==> NameOf(endpoints[j].config) != NameOf(endpoints[k].config)
  }

  /** Different names give different file names once the same extension is added. */
  lemma ExtensionKeepsApart(a: string, b: string, ext: string)
    requires a != b
    ensures a + ext != b + ext
  {
    if |a| == |b| {
      assert (a + ext)[..|a|] == a && (b + ext)[..|b|] == b;
    } else {
      assert |a + ext| != |b + ext|;
    }
  }

  /** HTTP rules with different names, written one after another, each keep their file. */
  lemma EndpointRulesKept(rulesDir: Path, rules: seq<Object>)
    requires WriteAll(rules, rule => EndpointRuleFiles(rulesDir, rule)).err.None?
    requires DistinctNames(rules)
    ensures forall k :: 0 <= k < |rules| ==> EndpointRuleFiles(rulesDir, rules[k]).err.None?
    ensures forall k :: 0 <= k < |rules| ==>
      Contains(WriteAll(rules, rule => EndpointRuleFiles(rulesDir, rule)).files, EndpointRuleFiles(rulesDir, rules[k]).files)
  {
    var step := rule => EndpointRuleFiles(rulesDir, rule);
    var all := WriteAll(rules, step).files;
    WriteAllNoError(rules, step);
    forall k | 0 <= k < |rules| ensures Contains(all, step(rules[k]).files) {
      forall p | p in step(rules[k]).files ensures p in all && all[p] == step(rules[k]).files[p] {
        forall j | k < j < |rules| ensures p !in step(rules[j]).files {
          ExtensionKeepsApart(NameOf(rules[k]), NameOf(rules[j]), ExtJSON);
          SiblingsDistinct(rulesDir, NameOf(rules[k]) + ExtJSON, NameOf(rules[j]) + ExtJSON);
        }
        WriteAllHas(rules, step, k, p);
      }
    }
  }

  /** Every file of a webhook lies in the directory named after it. */
  lemma WebhookPathsNamed(hooksDir: Path, webhook: Object, p: Path)
    requires WebhookFiles(hooksDir, webhook).err.None?
    requires p in WebhookFiles(hooksDir, webhook).files
    ensures Within(p, hooksDir + [NameOf(webhook)]) && p[|hooksDir|] == NameOf(webhook)
  {
    WebhookSplit(hooksDir, webhook);
    assert Within(p, hooksDir + [NameOf(webhook)]);
    WithinChild(p, hooksDir, NameOf(webhook));
  }

  /** Webhooks with different names, written one after another, each keep their two files. */
  lemma WebhooksKept(hooksDir: Path, hooks: seq<Object>)
    requires WriteAll(hooks, hook => WebhookFiles(hooksDir, hook)).err.None?
    requires DistinctNames(hooks)
    ensures forall k :: 0 <= k < |hooks| ==> WebhookFiles(hooksDir, hooks[k]).err.None?
    ensures forall k :: 0 <= k < |hooks| ==>
      Contains(WriteAll(hooks, hook => WebhookFiles(hooksDir, hook)).files, WebhookFiles(hooksDir, hooks[k]).files)
  {
    var step := hook => WebhookFiles(hooksDir, hook);
    var all := WriteAll(hooks, step).files;
    WriteAllNoError(hooks, step);
    forall k | 0 <= k < |hooks| ensures Contains(all, step(hooks[k]).files) {
      forall p | p in step(hooks[k]).files ensures p in all && all[p] == step(hooks[k]).files[p] {
        WebhookPathsNamed(hooksDir, hooks[k], p);
        forall j | k < j < |hooks| ensures p !in step(hooks[j]).files {
          if p in step(hooks[j]).files {
            WebhookPathsNamed(hooksDir, hooks[j], p);
          }
        }
        WriteAllHas(hooks, step, k, p);
      }
    }
  }

  /** One service's files: its configuration, its webhooks' files and its rules' files. */
  lemma EndpointSplit(dir: Path, endpoint: HTTPEndpointStructure)
    requires EndpointFiles(dir, endpoint).err.None?
    ensures StringField(endpoint.config, KeyName).Some?
    ensures var service := dir + [NameOf(endpoint.config)];
      && WriteAll(endpoint.incomingWebhooks, hook => WebhookFiles(service + [NameIncomingWebhooks], hook)).err.None?
      && WriteAll(endpoint.rules, rule => EndpointRuleFiles(service + [NameRules], rule)).err.None?
      && EndpointFiles(dir, endpoint).files
         == map[service + [FileConfig] := ObjectText(endpoint.config)]
          + WriteAll(endpoint.incomingWebhooks, hook => WebhookFiles(service + [NameIncomingWebhooks], hook)).files
          + WriteAll(endpoint.rules, rule => EndpointRuleFiles(service + [NameRules], rule)).files
  {
  }

  /** Within one service, every webhook keeps its two files and every rule its file. */
  lemma EndpointKept(dir: Path, endpoint: HTTPEndpointStructure)
    requires EndpointFiles(dir, endpoint).err.None?
    requires DistinctNames(endpoint.incomingWebhooks) && DistinctNames(endpoint.rules)
    ensures forall k :: 0 <= k < |endpoint.incomingWebhooks| ==>
      var hooksDir := dir + [NameOf(endpoint.config)] + [NameIncomingWebhooks];
      && WebhookFiles(hooksDir, endpoint.incomingWebhooks[k]).err.None?
      && Contains(EndpointFiles(dir, endpoint).files, WebhookFiles(hooksDir, endpoint.incomingWebhooks[k]).files)
    ensures forall k :: 0 <= k < |endpoint.rules| ==>
      var rulesDir := dir + [NameOf(endpoint.config)] + [NameRules];
      && EndpointRuleFiles(rulesDir, endpoint.rules[k]).err.None?
      && Contains(EndpointFiles(dir, endpoint).files, EndpointRuleFiles(rulesDir, endpoint.rules[k]).files)
  {
    var service := dir + [NameOf(endpoint.config)];
    var hooksDir := service + [NameIncomingWebhooks];
    var rulesDir := service + [NameRules];
    var hooks := WriteAll(endpoint.incomingWebhooks, hook => WebhookFiles(hooksDir, hook));
    var rules := WriteAll(endpoint.rules, rule => EndpointRuleFiles(rulesDir, rule));
    var config := map[service + [FileConfig] := ObjectText(endpoint.config)];
    EndpointSplit(dir, endpoint);
    WebhooksKept(hooksDir, endpoint.incomingWebhooks);
    EndpointRulesKept(rulesDir, endpoint.rules);
    forall k | 0 <= k < |endpoint.incomingWebhooks|
      ensures Contains(config + hooks.files + rules.files, WebhookFiles(hooksDir, endpoint.incomingWebhooks[k]).files)
    {
      WebhookSplit(hooksDir, endpoint.incomingWebhooks[k]);
      forall p | p in WebhookFiles(hooksDir, endpoint.incomingWebhooks[k]).files ensures p !in rules.files {
        if p in rules.files {
          EndpointRulesDepth(rulesDir, endpoint.rules, p);
        }
      }
    }
  }

  /** Every file of a service lies in the directory named after it. */
  lemma EndpointPathsNamed(dir: Path, endpoint: HTTPEndpointStructure, p: Path)
    requires EndpointFiles(dir, endpoint).err.None?
    requires p in EndpointFiles(dir, endpoint).files
    ensures |p| > |dir| && p[|dir|] == NameOf(endpoint.config)
  {
    var service := dir + [NameOf(endpoint.config)];
    var hooksDir := service + [NameIncomingWebhooks];
    var rulesDir := service + [NameRules];
    var hooks := WriteAll(endpoint.incomingWebhooks, hook => WebhookFiles(hooksDir, hook));
    var rules := WriteAll(endpoint.rules, rule => EndpointRuleFiles(rulesDir, rule));
    EndpointSplit(dir, endpoint);
    if p in rules.files {
      WriteAllNoError(endpoint.rules, rule => EndpointRuleFiles(rulesDir, rule));
      WriteAllKeys(endpoint.rules, rule => EndpointRuleFiles(rulesDir, rule), p);
      assert Within(p, rulesDir);
      WithinChild(p, service, NameRules);
    } else if p in hooks.files {
      WriteAllNoError(endpoint.incomingWebhooks, hook => WebhookFiles(hooksDir, hook));
      WriteAllKeys(endpoint.incomingWebhooks, hook => WebhookFiles(hooksDir, hook), p);
      var k :| 0 <= k < |endpoint.incomingWebhooks| && p in WebhookFiles(hooksDir, endpoint.incomingWebhooks[k]).files;
      WebhookPathsNamed(hooksDir, endpoint.incomingWebhooks[k], p);
      WithinChild(p, hooksDir, NameOf(endpoint.incomingWebhooks[k]));
      WithinChild(p, service, NameIncomingWebhooks);
    } else {
      assert p == service + [FileConfig];
    }
    WithinChild(p, dir, NameOf(endpoint.config));
  }

  /** Services with different names, written one after another, each keep all their files. */
  lemma EndpointsKept(root: Path, endpoints: seq<HTTPEndpointStructure>)
    requires HTTPEndpointsFiles(root, endpoints).err.None?
    requires DistinctServices(endpoints)
    ensures forall i :: 0 <= i < |endpoints| ==> EndpointFiles(root + [NameHTTPEndpoints], endpoints[i]).err.None?
    ensures forall i :: 0 <= i < |endpoints| ==>
      Contains(HTTPEndpointsFiles(root, endpoints).files, EndpointFiles(root + [NameHTTPEndpoints], endpoints[i]).files)
  {
    var dir := root + [NameHTTPEndpoints];
    var step := e => EndpointFiles(dir, e);
    var all := HTTPEndpointsFiles(root, endpoints).files;
    WriteAllNoError(endpoints, step);
    forall i | 0 <= i < |endpoints| ensures Contains(all, step(endpoints[i]).files) {
      forall p | p in step(endpoints[i]).files ensures p in all && all[p] == step(endpoints[i]).files[p] {
        EndpointPathsNamed(dir, endpoints[i], p);
        forall j | i < j < |endpoints| ensures p !in step(endpoints[j]).files {
          if p in step(endpoints[j]).files {
            EndpointPathsNamed(dir, endpoints[j], p);
          }
        }
        WriteAllHas(endpoints, step, i, p);
      }
    }
  }

  /** The files one service leaves are all in the files of the whole write. */
  lemma ServiceKept(root: Path, endpoints: seq<HTTPEndpointStructure>, i: nat)
    requires HTTPEndpointsFiles(root, endpoints).err.None?
    requires DistinctServices(endpoints)
    requires i < |endpoints|
    ensures EndpointFiles(root + [NameHTTPEndpoints], endpoints[i]).err.None?
    ensures Contains(HTTPEndpointsFiles(root, endpoints).files, EndpointFiles(root + [NameHTTPEndpoints], endpoints[i]).files)
  {
    EndpointsKept(root, endpoints);
  }

  /** A service's configuration file is left by the whole write. */
  lemma ServiceConfigWritten(root: Path, endpoints: seq<HTTPEndpointStructure>, i: nat)
    requires HTTPEndpointsFiles(root, endpoints).err.None?
    requires DistinctServices(endpoints)
    requires i < |endpoints|
    ensures var p := root + [NameHTTPEndpoints] + [NameOf(endpoints[i].config)] + [FileConfig];
      && p in HTTPEndpointsFiles(root, endpoints).files
      && HTTPEndpointsFiles(root, endpoints).files[p] == ObjectText(endpoints[i].config)
  {
    ServiceKept(root, endpoints, i);
    EndpointConfigAt(root + [NameHTTPEndpoints], endpoints[i]);
  }

  /** A webhook's configuration and script are left by the whole write. */
  lemma WebhookWritten(root: Path, endpoints: seq<HTTPEndpointStructure>, i: nat, k: nat)
    requires HTTPEndpointsFiles(root, endpoints).err.None?
    requires DistinctServices(endpoints)
    requires i < |endpoints| && k < |endpoints[i].incomingWebhooks|
    requires DistinctNames(endpoints[i].incomingWebhooks) && DistinctNames(endpoints[i].rules)
    ensures var hook := endpoints[i].incomingWebhooks[k];
      var hookDir := root + [NameHTTPEndpoints] + [NameOf(endpoints[i].config)] + [NameIncomingWebhooks] + [NameOf(hook)];
      var files := HTTPEndpointsFiles(root, endpoints).files;
      && hookDir + [FileConfig] in files
      && files[hookDir + [FileConfig]] == ObjectText(Without(hook, {KeySource}))
      && hookDir + [FileSource] in files
      && FieldOr(hook, KeySource, Null) == Str(files[hookDir + [FileSource]])
  {
    var dir := root + [NameHTTPEndpoints];
    var hooksDir := dir + [NameOf(endpoints[i].config)] + [NameIncomingWebhooks];
    var hook := endpoints[i].incomingWebhooks[k];
    ServiceKept(root, endpoints, i);
    EndpointKept(dir, endpoints[i]);
    ContainsTransitive(HTTPEndpointsFiles(root, endpoints).files, EndpointFiles(dir, endpoints[i]).files, WebhookFiles(hooksDir, hook).files);
    WebhookSplit(hooksDir, hook);
  }

  /** An HTTP rule's file is left by the whole write. */
  lemma EndpointRuleWritten(root: Path, endpoints: seq<HTTPEndpointStructure>, i: nat, k: nat)
    requires HTTPEndpointsFiles(root, endpoints).err.None?
    requires DistinctServices(endpoints)
    requires i < |endpoints| && k < |endpoints[i].rules|
    requires DistinctNames(endpoints[i].incomingWebhooks) && DistinctNames(endpoints[i].rules)
    ensures var rule := endpoints[i].rules[k];
      var p := root + [NameHTTPEndpoints] + [NameOf(endpoints[i].config)] + [NameRules] + [NameOf(rule) + ExtJSON];
      && p in HTTPEndpointsFiles(root, endpoints).files
      && HTTPEndpointsFiles(root, endpoints).files[p] == ObjectText(rule)
  {
    var dir := root + [NameHTTPEndpoints];
    var rulesDir := dir + [NameOf(endpoints[i].config)] + [NameRules];
    var rule := endpoints[i].rules[k];
    ServiceKept(root, endpoints, i);
    EndpointKept(dir, endpoints[i]);
    ContainsTransitive(HTTPEndpointsFiles(root, endpoints).files, EndpointFiles(dir, endpoints[i]).files, EndpointRuleFiles(rulesDir, rule).files);
  }

  /**
   * What `writeHTTPEndpoints` leaves for service `i` when services, and the
   * webhooks and rules of that service, have different names: its
   * configuration file, each webhook's configuration without the script and
   * its script verbatim, and each rule's `<name>.json` file.
   */
  lemma HTTPEndpointsWritten(root: Path, endpoints: seq<HTTPEndpointStructure>, i: nat)
    requires HTTPEndpointsFiles(root, endpoints).err.None?
    requires DistinctServices(endpoints)
    requires i < |endpoints|
    requires DistinctNames(endpoints[i].incomingWebhooks) && DistinctNames(endpoints[i].rules)
    ensures var service := root + [NameHTTPEndpoints] + [NameOf(endpoints[i].config)];
      var files := HTTPEndpointsFiles(root, endpoints).files;
      && service + [FileConfig] in files
      && files[service + [FileConfig]] == ObjectText(endpoints[i].config)
    ensures forall k :: 0 <= k < |endpoints[i].incomingWebhooks| ==>
      var hook := endpoints[i].incomingWebhooks[k];
      var hookDir := root + [NameHTTPEndpoints] + [NameOf(endpoints[i].config)] + [NameIncomingWebhooks] + [NameOf(hook)];
      var files := HTTPEndpointsFiles(root, endpoints).files;
      && hookDir + [FileConfig] in files
      && files[hookDir + [FileConfig]] == ObjectText(Without(hook, {KeySource}))
      && hookDir + [FileSource] in files
      && FieldOr(hook, KeySource, Null) == Str(files[hookDir + [FileSource]])
    ensures forall k :: 0 <= k < |endpoints[i].rules| ==>
      var rule := endpoints[i].rules[k];
      var p := root + [NameHTTPEndpoints] + [NameOf(endpoints[i].config)] + [NameRules] + [NameOf(rule) + ExtJSON];
      var files := HTTPEndpointsFiles(root, endpoints).files;
      && p in files
      && files[p] == ObjectText(rule)
  {
    ServiceConfigWritten(root, endpoints, i);
    forall k | 0 <= k < |endpoints[i].incomingWebhooks| {
      WebhookWritten(root, endpoints, i, k);
    }
    forall k | 0 <= k < |endpoints[i].rules| {
      EndpointRuleWritten(root, endpoints, i, k);
    }
  }
}
