# realm-cli app directory writer and reader, and the output-format flag

This project models two parts of realm-cli.

**The local app directory.** An app's configuration sections are held in memory as structures:
- functions, with their configurations and script sources;
- auth, with providers and custom user data;
- sync;
- data sources, with per-collection rules;
- HTTP endpoints, with incoming webhooks and rules.

The writers `writeFunctionsV2`, `writeAuth`, `writeSync`, `writeDataSources` and `writeHTTPEndpoints` turn these structures into a tree of files. The readers `parseFunctionsV2` and `parseDataSources` turn the tree back into structures.

Every JSON file is written in one canonical text (JSON text as in RFC 8259):
- object keys in ascending byte order at every level;
- a four-space indent step;
- one array element or object member per line;
- `{}` and `[]` for empty containers;
- a single trailing newline.

Script sources are written byte for byte.

The file system is a `FileStore` object holding a map from path (a sequence of names) to file content. Each writer is a method that updates that map. The method is proved equal to a pure function of the structure, which says which files are written and with what text. The readers are pure functions over the same map.

**The terminal's output-format flag** (`OutputFormat`). It is a string flag whose zero value `""` selects text output and whose only other accepted value is `"json"`. `Set` validates first. It stores the value only when it is accepted, and otherwise returns a fixed error and leaves the flag unchanged.

Modules:
- `Wrappers` holds `Option`/`Result`.
- `Ordering` holds strict total orders, sorting a set into its ascending sequence, and byte order on strings.
- `Json` holds the value datatype, the canonical renderer and a parser for the subset written.
- `JsonLaws` holds the render/parse round trip.
- `JsonLines` presents the canonical text line by line.
- `Paths` covers slash-separated source keys against path segments.
- `Files` holds the file store.
- `App` holds the structures, file and key names, and writes that stop at the first error.
- `Writers` holds the writers.
- `WriterLaws` holds what each writer's files mean.
- `Readers` holds the readers.
- `RoundTrips` states that what is written is read back.
- `ExpectedFiles` holds the exact file texts of the writer tests.
- `Terminal` holds the flag.

The implementation of the writers and readers is not part of this model. Their behaviour is taken from `internal/local/structure_v2_test.go`, which states the paths and the exact texts the writers produce and the structures the readers return. Where that file is silent (error cases, read order, absent files and directories, which files count as sources or rules), the choices made are listed under "## Left out".

## Model

| member | source | states |
|---|---|---|
| Terminal.IsValidOutputFormat | internal/terminal/flags.go:59-67 | true exactly when the format is `OutputFormatJSON` or `OutputFormatText`, false for every other string |
| Terminal.UnsupportedMessageText | internal/terminal/flags.go:45-46 | the refusal message, built by joining the listed formats (only json) with ", ", is `unsupported value, use one of [json] instead` |
| Terminal.SetOutcomeSpec | internal/terminal/flags.go:41-51 | setting succeeds exactly for "json" and ""; a success stores the value; a refusal keeps the old value and carries the fixed message |
| Terminal.SetIdempotent | internal/terminal/flags.go:41-51 | setting the same value again gives the same flag and the same error |
| Terminal.SetKeepsValid | internal/terminal/flags.go:44-49 | a flag holding a supported format still holds one after any `Set`, accepted or refused |
| Terminal.OutputFormat.constructor | internal/terminal/flags.go:55 | a new flag holds the zero value, the text format `""`, which is supported |
| Terminal.OutputFormat.String | internal/terminal/flags.go:35 | the display text is the flag's value, so after an accepted `Set(v)` it is `v` |
| Terminal.OutputFormat.Set | internal/terminal/flags.go:41-51 | the new value and the returned error are those of `SetOutcome`: stored and no error when valid, unchanged with the message otherwise; validity is preserved |
| Json.SortedKeysCover | internal/local/structure_v2_test.go:140-147 | the written key order lists every key of an object, each once |
| Json.SortedKeysAscending | internal/local/structure_v2_test.go:210-218 | keys are written in strictly ascending byte order, whatever order the map was built in |
| Json.FileText | internal/local/structure_v2_test.go:140-151 | a JSON file ends in exactly one newline: its last character is `\n` and the one before is never `\n`; an empty object is written `{}\n` and an empty array `[]\n` (the key order and the indentation before the newline are stated by `Json.SortedKeysAscending` and `JsonLines.FlatFile`) |
| JsonLaws.FileRoundTrip | internal/local/structure_v2_test.go:104-110 | parsing a written JSON file gives back the value that was written |
| JsonLaws.FileTextInjective | internal/local/structure_v2_test.go:104-110 | two different values are never written as the same file text |
| JsonLines.MembersAsLines | internal/local/structure_v2_test.go:222-225 | members that fit on one line are written one per line, indented, with a comma after all but the last |
| JsonLines.FlatObject | internal/local/structure_v2_test.go:141-145 | an object of one-line members is `{`, its member lines in ascending key order one step deeper, and `}` at the object's own indentation |
| JsonLines.FlatFile | internal/local/structure_v2_test.go:151 | a file holding such an object is `{\n`, its member lines at indent one, and `}\n` |
| JsonLines.KeysInOrder | internal/local/structure_v2_test.go:222-225 | an object whose keys are an ascending list is written in exactly that list's order |
| Paths.JoinSplit | internal/local/structure_v2_test.go:112-114 | joining the segments of a slash-separated source key gives the key back, so two keys never share a path |
| Paths.SplitJoin | internal/local/structure_v2_test.go:27-36 | the segments of a file below the functions directory, joined with slashes, split back into those segments |
| Files.FileStore.WriteFile | internal/local/structure_v2_test.go:112-114 | writing a file sets the content at its path and changes no other file |
| Files.SubDirsSpec | internal/local/structure_v2_test.go:47-50 | a directory is listed below `dir` exactly when some file lies below it |
| App.Without | internal/local/structure_v2_test.go:220-226 | the object minus the named keys: exactly the other keys, with their values unchanged |
| App.WithoutRestore | internal/local/structure_v2_test.go:319-360 | an object with one member removed and then put back is the original object |
| App.WithoutRestoreTwo | internal/local/structure_v2_test.go:56-75 | removing schema and relationships and then setting them again equals setting them on the original rule |
| App.WriteAllStops | internal/local/structure_v2_test.go:205-206 | once an item fails to be written, no later item is written |
| App.WriteAllNoError | internal/local/structure_v2_test.go:205-206 | a sequence of writes succeeds exactly when every item's write succeeds |
| App.WriteAllKeys | internal/local/structure_v2_test.go:306-307 | after writes that succeed, a file exists exactly when some item wrote it |
| App.WriteAllHas | internal/local/structure_v2_test.go:306-307 | a file an item wrote keeps that item's content unless a later item writes the same path |
| Writers.SourceFilesSpec | internal/local/structure_v2_test.go:112-114 | each source is at the functions directory plus its key's segments, verbatim with no newline added; no other file is written |
| Writers.SourcesOverOrderFree | internal/local/structure_v2_test.go:94-95 | the written sources do not depend on the order the map's keys are visited in |
| Writers.WriteSources | internal/local/structure_v2_test.go:112-114 | the loop over the sources adds exactly the source files to the store |
| Writers.WriteFunctions | internal/local/structure_v2_test.go:99-114 | adds the config file (the configurations as a JSON array) and every source file below the functions directory |
| Writers.WriteAuth | internal/local/structure_v2_test.go:135-151 | adds the providers file and the custom user data file in the auth directory |
| Writers.WriteSync | internal/local/structure_v2_test.go:163-167 | adds the sync directory's config file |
| Writers.RuleFilesSplit | internal/local/structure_v2_test.go:220-242 | a rule with string database and collection names becomes three files under `<database>/<collection>`: the rule without schema and relationships, the schema, and the relationships (`{}` when absent); otherwise nothing is written and an error is returned |
| Writers.WriteRule | internal/local/structure_v2_test.go:220-242 | adds exactly the rule's three files, or returns the rule's error |
| Writers.WriteRules | internal/local/structure_v2_test.go:186-242 | the loop writes the rules in order and stops at the first one that cannot be written |
| Writers.WriteDataSource | internal/local/structure_v2_test.go:208-242 | adds `<name>/config.json` holding the configuration, then the rules below `<name>` |
| Writers.WriteDataSources | internal/local/structure_v2_test.go:205-242 | the loop writes every data source below the data sources directory, stopping at the first error |
| Writers.WriteWebhook | internal/local/structure_v2_test.go:319-360 | adds the webhook's config without `source` and its script verbatim beside it, in the directory named after the webhook |
| Writers.WriteWebhooks | internal/local/structure_v2_test.go:319-360 | the loop writes the webhooks in order, stopping at the first error |
| Writers.WriteEndpointRules | internal/local/structure_v2_test.go:362-377 | the loop writes each rule to `<rule name>.json` in the rules directory, stopping at the first error |
| Writers.WriteEndpoint | internal/local/structure_v2_test.go:309-377 | adds the service config, then its webhooks, then its rules |
| Writers.WriteHTTPEndpoints | internal/local/structure_v2_test.go:306-377 | the loop writes every service below the HTTP endpoints directory, stopping at the first error |
| WriterLaws.ObjectFileRoundTrip | internal/local/structure_v2_test.go:140-151 | an object's file parses back to the object |
| WriterLaws.ConfigsFileRoundTrip | internal/local/structure_v2_test.go:102-110 | the functions config file parses back to an array holding one object per configuration, in order |
| WriterLaws.AuthRoundTrip | internal/local/structure_v2_test.go:138-151 | `writeAuth` leaves exactly two distinct files, reading back as the providers and as the custom user data |
| WriterLaws.SyncRoundTrip | internal/local/structure_v2_test.go:165-167 | `writeSync` leaves exactly one file, reading back as the sync configuration |
| WriterLaws.RuleFilesRoundTrip | internal/local/structure_v2_test.go:220-242 | the rules, schema and relationships files read back as the rule without those keys, the schema and the relationships |
| WriterLaws.WebhookSplit | internal/local/structure_v2_test.go:319-360 | a webhook is written exactly when its name and source are strings, as two files: the config without `source`, and the source verbatim |
| WriterLaws.WebhookRoundTrip | internal/local/structure_v2_test.go:319-360 | the webhook's config read back, with the source file's text put back under `source`, is the webhook; the script may hold any characters (newlines, quotes), only the configuration must be plain JSON text |
| WriterLaws.EndpointRuleRoundTrip | internal/local/structure_v2_test.go:362-377 | an HTTP rule is one file `<name>.json` reading back as the rule; a rule without a string name writes nothing |
| WriterLaws.EndpointConfigAt | internal/local/structure_v2_test.go:309-317 | a service's config file holds its configuration, and its webhooks and rules never overwrite it |
| WriterLaws.EndpointsKept | internal/local/structure_v2_test.go:306-307 | when services have different names, every file each service writes is left by the whole write with that service's content |
| WriterLaws.ServiceConfigWritten | internal/local/structure_v2_test.go:309-317 | after the whole write, each service's `config.json` in the directory named after it holds its configuration |
| WriterLaws.WebhookWritten | internal/local/structure_v2_test.go:319-360 | after the whole write, each webhook's directory holds its configuration without `source` and, beside it, a source file whose text is the webhook's `source` string |
| WriterLaws.EndpointRuleWritten | internal/local/structure_v2_test.go:362-377 | after the whole write, each HTTP rule's `<name>.json` in the service's rules directory holds the rule |
| WriterLaws.HTTPEndpointsWritten | internal/local/structure_v2_test.go:306-377 | the whole write leaves, for every service, its config file, both files of every webhook and the file of every rule, with those contents, when names within each level differ |
| Readers.ReadJson | internal/local/structure_v2_test.go:19-21 | reading succeeds exactly when the file exists and parses; a missing file is a `MissingFile` error |
| Readers.ReadObject | internal/local/structure_v2_test.go:50-55 | reading succeeds exactly when the file parses to an object, and returns that object |
| Readers.ReadSourcesSpec | internal/local/structure_v2_test.go:27-36 | a source is read under a relative key exactly when the file at that path exists and is not the config file, with that file's content |
| Readers.ReadConfigs | internal/local/structure_v2_test.go:19-26 | the configurations are read exactly when the config file holds an array of objects, and are those objects in order; a missing config file is a `MissingFile` error |
| Readers.ParseFunctions | internal/local/structure_v2_test.go:19-37 | `parseFunctionsV2`: the configs are the functions directory's `config.json` read as an array of objects (a missing file is a `MissingFile` error); the sources are every other file below the functions directory, keyed by its slash-separated relative path, with that file's content |
| Readers.ReadRule | internal/local/structure_v2_test.go:56-75 | a rule reads exactly when its rules file holds an object and its schema and relationships files hold JSON; it is that object with `schema` and `relationships` set to those files' values and every other member unchanged; a missing rules file is a `MissingFile` error |
| Readers.RuleOrder | internal/local/structure_v2_test.go:56-75 | the rule directories of a data source, each once, in strictly ascending database and then collection order |
| Readers.ReadDataSource | internal/local/structure_v2_test.go:50-76 | a data source reads exactly when its `config.json` holds an object and every rule directory reads; it is that config and one rule per rule directory, in database and collection order |
| Readers.DataSourceNames | internal/local/structure_v2_test.go:47-50 | the data source directories, each once, in strictly ascending name order |
| Readers.ParseDataSources | internal/local/structure_v2_test.go:47-77 | `parseDataSources`: succeeds exactly when every directory inside the data sources directory reads; then one data source per directory, in ascending name order; no directory gives an empty list |
| Readers.ReadAllResult | internal/local/structure_v2_test.go:47-77 | reading a list succeeds exactly when every item reads, and then gives each item's value at the item's position |
| Readers.ReadAllOver | internal/local/structure_v2_test.go:47-77 | reading a listing of a set succeeds exactly when every member of the set reads |
| Readers.ReadAllOk | internal/local/structure_v2_test.go:56-76 | when every item reads, the results are in the items' order |
| Readers.ReadAllFails | internal/local/structure_v2_test.go:47-49 | reading stops with the first failure |
| RoundTrips.FunctionsRoundTrip | internal/local/structure_v2_test.go:19-37 | functions written into a directory with nothing below the functions directory are parsed back as the same configurations and sources |
| RoundTrips.FunctionsSourcesRead | internal/local/structure_v2_test.go:27-36 | the sources are read back keyed by their path relative to the functions directory, and nothing else is read as a source |
| RoundTrips.RuleRead | internal/local/structure_v2_test.go:57-74 | a rule's three files are read back as the rule with schema and relationships merged in (`{}` where absent) |
| RoundTrips.NamesInOrder | internal/local/structure_v2_test.go:47-50 | the data source directories are listed as exactly the written names, in order |
| RoundTrips.DataSourceRead | internal/local/structure_v2_test.go:50-76 | one written data source is read back as its configuration and its completed rules |
| RoundTrips.DataSourcesRoundTrip | internal/local/structure_v2_test.go:47-77 | data sources written into a directory with no data sources are parsed back in order, each rule carrying its schema and relationships |
| ExpectedFiles.CustomUserDataText | internal/local/structure_v2_test.go:149-151 | the custom user data file is `{\n    "enabled": false\n}\n` |
| ExpectedFiles.RuleOnlyExample | internal/local/structure_v2_test.go:186-201 | the test's rule without its schema and relationships is `{"collection": "bar", "database": "foo"}` |
| ExpectedFiles.RuleText | internal/local/structure_v2_test.go:220-226 | that rule's file is the two members on their own lines, collection before database |
| ExpectedFiles.SchemaText | internal/local/structure_v2_test.go:228-230 | the schema file is `{\n    "title": "foo.bar schema"\n}\n` |
| ExpectedFiles.EndpointConfigText | internal/local/structure_v2_test.go:309-317 | the HTTP service config file lists config, name, type and version in that order, `{}` inline |

## Left out

- File system I/O: errors from the file system, directory creation, permissions and temporary directories are not modelled. The file store is a map, and a write always succeeds.
- Go's `encoding/json` is modelled only in part: string escaping (including HTML escaping), floats and exponents are left out. Strings are restricted to characters written as themselves, and numbers to integers. Go's `nil` and empty collections are not told apart.
- Name sanitisation, pruning, best-effort mode, cancellation and version detection are not modelled. Nothing in the modelled files shows them.
- The Go functions `writeFunctionsV2`, `parseFunctionsV2` and the other writers and readers are not part of this model. Their behaviour comes from the test file, and these choices fill what it leaves open:
  - a data source or service without a string `name`, a rule without a string `database` or `collection`, a webhook without a string `name` or `source`, and an HTTP rule without a string `name` each stop the writer with an error;
  - what was written before the error stays on disk;
  - an absent schema or relationships is written as `{}`;
  - the reader requires all three rule files;
  - the reader accepts any JSON value as schema and relationships;
  - the reader returns data sources in ascending name order and rules in ascending database and collection order (a sorted directory listing).
  - the functions reader reads every file below the functions directory other than its `config.json` as a source, whatever its extension (the test shows only `.js` files);
  - the functions reader fails with a missing-file error when the functions directory or its `config.json` is absent, and a data source directory without `config.json` fails the same way;
  - the data sources reader returns an empty list when the data sources directory does not exist;
  - any file two or more directories below a data source directory marks `<database>/<collection>` as a rule directory, whose three rule files must then exist;
  - the whole HTTP endpoints write is described for services, webhooks and rules with different names; with equal names a later one overwrites the earlier one's files, which the model does not describe further.
- File and directory names are the values the app directory layout uses (`functions`, `config.json`, `rules.json`, `schema.json`, `relationships.json`, `providers.json`, `custom_user_data.json`, `source.js`, `incoming_webhooks`, `rules`, and so on). Their Go definitions are not part of this model.
- Path cleaning such as `filepath.Join` is not modelled. Paths are sequences of names, and a source key is split on `/`.
- Writers.WriteSources: writes the sources in ascending key order rather than Go's random map order. `Writers.SourcesOverOrderFree` proves the resulting files are the same for every order.
- Reading auth, sync and HTTP endpoints back is not modelled, because no reader for them is among the functions tested. Their writers are related to their files by the `WriterLaws` lemmas instead.
- RoundTrips.FunctionsRoundTrip: assumes no source is keyed by the config file's own name, since such a source would share its path. It also assumes the functions directory held no file before the write.
- RoundTrips.DataSourcesRoundTrip: assumes the data sources are in ascending name order and each one's rules in ascending database and collection order, because the reader lists directories in that order. It also assumes no data source was on disk before.
- The exact texts of the providers file, the sync file, the relationships file, the data source config, the webhook config, the HTTP rule and the functions config (internal/local/structure_v2_test.go:140-147, 167, 210-218, 234-242, 321-335, 364-377, 104-110) are not stated as literal lemmas. Each is an instance of `JsonLines.FlatObject` or of the canonical renderer with keys from `Json.SortedKeysAscending`. Long literals make those instances too costly to prove.
- `OutputFormat.Type` (internal/terminal/flags.go:38) is not modelled: it returns a constant from the flag library, which is not part of this model.
- Concurrency is not modelled: everything is sequential.
