/**
 * The in-memory structures of an app's configuration sections, the names
 * of the files and directories they are written to, and the bookkeeping of
 * a write that may stop part way with an error.
 */
module App {
  import opened Wrappers
  import opened Paths
  import opened Json

  /* ---------------- names on disk ---------------- */

  const NameFunctions: string := "functions"
  const NameAuth: string := "auth"
  const NameSync: string := "sync"
  const NameDataSources: string := "data_sources"
  const NameHTTPEndpoints: string := "http_endpoints"
  const NameIncomingWebhooks: string := "incoming_webhooks"
  const NameRules: string := "rules"

  const FileConfig: string := "config.json"
  const FileRules: string := "rules.json"
  const FileSchema: string := "schema.json"
  const FileRelationships: string := "relationships.json"
  const FileProviders: string := "providers.json"
  const FileCustomUserData: string := "custom_user_data.json"
  const FileSource: string := "source.js"

  const ExtJSON: string := ".json"

  /** The directory of a collection's rule below the data source directory `dsDir`. */
  function RuleDir(dsDir: Path, database: string, collection: string): Path
  {
    dsDir + [database, collection]
  }

  /* ---------------- keys inside the JSON objects ---------------- */

  const KeyName: string := "name"
  const KeyDatabase: string := "database"
  const KeyCollection: string := "collection"
  const KeySchema: string := "schema"
  const KeyRelationships: string := "relationships"
  const KeySource: string := "source"

  /* ---------------- sections ---------------- */

  /** A JSON object, as a configuration map. */
  type Object = map<string, Json>

  /** Function configurations, and the source files keyed by their slash-separated path under the functions directory. */
  datatype FunctionsStructure = FunctionsStructure(configs: seq<Object>, sources: map<string, string>)

  datatype AuthStructure = AuthStructure(customUserData: Object, providers: Object)

  datatype SyncStructure = SyncStructure(config: Object)

  /** A data source's configuration and its per-collection rules (each may carry a schema and relationships). */
  datatype DataSourceStructure = DataSourceStructure(config: Object, rules: seq<Object>)

  /** An HTTP service's configuration, its incoming webhooks (each with its script under "source") and its rules. */
  datatype HTTPEndpointStructure = HTTPEndpointStructure(config: Object, incomingWebhooks: seq<Object>, rules: seq<Object>)

  /** Why a write stopped: the value under `key` of an object written in `dir` is missing or not a string. */
  datatype WriteError = NotAString(dir: Path, key: string)

  /* ---------------- objects ---------------- */

  /** The string stored under `key`, if there is one. */
  function StringField(m: Object, key: string): (r: Option<string>)
    ensures r.Some? <==> key in m && m[key].Str?
    ensures r.Some? ==> m[key] == Str(r.value)
  {
    if key in m && m[key].Str? then Some(m[key].s) else None
  }

  /** The string under "name", which names the directory or file an object is written to; `""` when there is none. */
  function NameOf(m: Object): (name: string)
    ensures StringField(m, KeyName).Some? ==> name == m[KeyName].s
  {
    match StringField(m, KeyName)
    case Some(name) => name
    case None => ""
  }

  /** The value under `key`, or `default` when the key is absent. */
  function FieldOr(m: Object, key: string, default: Json): (v: Json)
    ensures key in m ==> v == m[key]
    ensures key !in m ==> v == default
  {
    if key in m then m[key] else default
  }

  /** `m` with the members under `keys` removed. */
  function Without(m: Object, keys: set<string>): (r: Object)
    ensures forall k :: k in r <==> k in m && k !in keys
    ensures forall k :: k in r ==> r[k] == m[k]
  {
    map k | k in m && k !in keys :: m[k]
  }

  /** Removing members and putting their values back restores the object. */
  lemma WithoutRestore(m: Object, key: string)
    requires key in m
    ensures Without(m, {key})[key := m[key]] == m
  {
    assert Without(m, {key})[key := m[key]].Keys == m.Keys;
  }

  lemma WithoutRestoreTwo(m: Object, a: string, b: string, va: Json, vb: Json)
    requires a != b
    requires a in m ==> va == m[a]
    requires b in m ==> vb == m[b]
    ensures Without(m, {a, b})[a := va][b := vb] == m[a := va][b := vb]
  {
    var l := Without(m, {a, b})[a := va][b := vb];
    var r := m[a := va][b := vb];
    assert l.Keys == r.Keys;
  }

  /** The text of a JSON file holding the object `m`. */
  function ObjectText(m: Object): string
  {
    Render(Obj(m), 0, "\n")
  }

  /** An object's file is the JSON file of the object as a value. */
  lemma ObjectTextIsFileText(m: Object)
    ensures ObjectText(m) == FileText(Obj(m))
  {
  }

  /** The objects as JSON values, in order. */
  function Objects(ms: seq<Object>): (vs: seq<Json>)
    ensures |vs| == |ms|
    ensures forall i :: 0 <= i < |ms| ==> vs[i] == Obj(ms[i])
  {
    seq(|ms|, i requires 0 <= i < |ms| => Obj(ms[i]))
  }

  /* ---------------- writes that may stop part way ---------------- */

  /**
   * What a write leaves behind: the files it wrote (a later write to the
   * same path replacing an earlier one) and the error it stopped at, if any.
   */
  datatype Written = Written(files: map<Path, string>, err: Option<WriteError>)

  const Nothing: Written := Written(map[], None)

  /** `first` and then, unless it stopped, `second`. */
  function Then(first: Written, second: Written): (w: Written)
    ensures first.err.Some? ==> w == first
    ensures first.err.None? ==> w.files == first.files + second.files && w.err == second.err
  {
    if first.err.Some? then first else Written(first.files + second.files, second.err)
  }

  /** Writing `items` one after another with `step`, stopping at the first error. */
  function WriteAll<T>(items: seq<T>, step: T -> Written): Written
    decreases |items|
  {
    if items == [] then Nothing
    else Then(WriteAll(items[..|items| - 1], step), step(items[|items| - 1]))
  }

  /** One more item extends the writes of the ones before it. */
  lemma WriteAllSnoc<T>(items: seq<T>, i: nat, step: T -> Written)
    requires i < |items|
    ensures WriteAll(items[..i + 1], step) == Then(WriteAll(items[..i], step), step(items[i]))
  {
    assert items[..i + 1][..i] == items[..i];
  }

  /** Once a prefix of the items has stopped with an error, the later items are never written. */
  lemma {:induction false} WriteAllStops<T>(items: seq<T>, i: nat, step: T -> Written)
    requires i <= |items|
    requires WriteAll(items[..i], step).err.Some?
    ensures WriteAll(items, step) == WriteAll(items[..i], step)
    decreases |items| - i
  {
    if i == |items| {
      assert items[..i] == items;
    } else {
      WriteAllSnoc(items, i, step);
      WriteAllStops(items, i + 1, step);
    }
  }

  /** The writes succeed exactly when no item stops. */
  lemma {:induction false} WriteAllNoError<T>(items: seq<T>, step: T -> Written)
    ensures WriteAll(items, step).err.None? <==> forall i :: 0 <= i < |items| ==> step(items[i]).err.None?
    decreases |items|
  {
    if items != [] {
      var init := items[..|items| - 1];
      WriteAllNoError(init, step);
      assert forall i :: 0 <= i < |init| ==> init[i] == items[i];
    }
  }

  /** After writes that did not stop, a file exists exactly when some item wrote it. */
  lemma {:induction false} WriteAllKeys<T>(items: seq<T>, step: T -> Written, p: Path)
    requires WriteAll(items, step).err.None?
    ensures p in WriteAll(items, step).files <==> exists i :: 0 <= i < |items| && p in step(items[i]).files
    decreases |items|
  {
    if items != [] {
      var init := items[..|items| - 1];
      WriteAllKeys(init, step, p);
      if p in WriteAll(items, step).files && p !in step(items[|items| - 1]).files {
        var i :| 0 <= i < |init| && p in step(init[i]).files;
        assert init[i] == items[i];
      }
      if exists i :: 0 <= i < |items| && p in step(items[i]).files {
        var i :| 0 <= i < |items| && p in step(items[i]).files;
        if i < |init| {
          assert init[i] == items[i];
        }
      }
    }
  }

  /** A file an item wrote survives, with that item's content, unless a later item writes it again. */
  lemma {:induction false} WriteAllHas<T>(items: seq<T>, step: T -> Written, i: nat, p: Path)
    requires WriteAll(items, step).err.None?
    requires i < |items| && p in step(items[i]).files
    requires forall j :: i < j < |items| ==> p !in step(items[j]).files
    ensures p in WriteAll(items, step).files
    ensures WriteAll(items, step).files[p] == step(items[i]).files[p]
    decreases |items|
  {
    var init := items[..|items| - 1];
    if i < |init| {
      assert init[i] == items[i];
      forall j | i < j < |init| ensures p !in step(init[j]).files {
        assert init[j] == items[j];
      }
      WriteAllHas(init, step, i, p);
    }
  }
}
