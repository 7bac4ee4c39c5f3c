/**
 * The exact files the writers leave for the app structures of the writer
 * tests in internal/local/structure_v2_test.go: keys in ascending order,
 * four spaces per level, one member per line, a comma after every member
 * but the last, and a final newline.
 */
module ExpectedFiles {
  import opened Wrappers
  import opened Paths
  import opened Json
  import opened JsonLines
  import opened Ordering
  import opened Files
  import opened App
  import opened Writers

  /* ---------------- auth ---------------- */

  lemma EnabledLine()
    ensures MemberLine("enabled", Bool(false), 1, false) == "    \"enabled\": false\n"
  {
  }

  /** The custom user data file of the auth writer test. */
  lemma CustomUserDataText()
    ensures ObjectText(map["enabled" := Bool(false)])
         == "{\n"
          + "    \"enabled\": false\n"
          + "}\n"
  {
    OneMemberFile("enabled", Bool(false));
    EnabledLine();
  }

  /* ---------------- data sources ---------------- */

  lemma CollectionLine()
    ensures MemberLine("collection", Str("bar"), 1, true) == "    \"collection\": \"bar\",\n"
  {
  }

  lemma DatabaseLine()
    ensures MemberLine("database", Str("foo"), 1, false) == "    \"database\": \"foo\"\n"
  {
  }

  /** A rule of the data source writer test without its schema and relationships. */
  lemma RuleOnlyExample(schema: Json, relationships: Json)
    ensures RuleOnly(map["database" := Str("foo"), "collection" := Str("bar"),
                         "schema" := schema, "relationships" := relationships])
         == map["collection" := Str("bar"), "database" := Str("foo")]
  {
    var rule := map["database" := Str("foo"), "collection" := Str("bar"),
                    "schema" := schema, "relationships" := relationships];
    assert RuleOnly(rule).Keys == {"collection", "database"};
  }

  /** The rules file of the data source writer test: the rule without its schema and relationships, keys in ascending order. */
  lemma RuleText()
    ensures ObjectText(map["collection" := Str("bar"), "database" := Str("foo")])
         == "{\n"
          + "    \"collection\": \"bar\",\n"
          + "    \"database\": \"foo\"\n"
          + "}\n"
  {
    TwoMemberFile("collection", Str("bar"), "database", Str("foo"));
    CollectionLine();
    DatabaseLine();
  }

  lemma TitleLine()
    ensures MemberLine("title", Str("foo.bar schema"), 1, false) == "    \"title\": \"foo.bar schema\"\n"
  {
  }

  /** The schema file of the data source writer test. */
  lemma SchemaText()
    ensures ObjectText(map["title" := Str("foo.bar schema")])
         == "{\n"
          + "    \"title\": \"foo.bar schema\"\n"
          + "}\n"
  {
    OneMemberFile("title", Str("foo.bar schema"));
    TitleLine();
  }

  /* ---------------- HTTP endpoints ---------------- */

  lemma ConfigLine()
    ensures MemberLine("config", Obj(map[]), 1, true) == "    \"config\": {},\n"
  {
  }

  lemma NameHttpLine()
    ensures MemberLine("name", Str("http"), 1, true) == "    \"name\": \"http\",\n"
  {
  }

  lemma TypeHttpLine()
    ensures MemberLine("type", Str("http"), 1, true) == "    \"type\": \"http\",\n"
  {
  }

  lemma VersionLine()
    ensures MemberLine("version", Int(1), 1, false) == "    \"version\": 1\n"
  {
  }

  /** The service configuration file of the HTTP endpoints writer test. */
  lemma EndpointConfigText()
    ensures ObjectText(map["name" := Str("http"), "type" := Str("http"), "config" := Obj(map[]), "version" := Int(1)])
         == "{\n"
          + "    \"config\": {},\n"
          + "    \"name\": \"http\",\n"
          + "    \"type\": \"http\",\n"
          + "    \"version\": 1\n"
          + "}\n"
  {
    assert map["name" := Str("http"), "type" := Str("http"), "config" := Obj(map[]), "version" := Int(1)]
        == map["config" := Obj(map[]), "name" := Str("http"), "type" := Str("http"), "version" := Int(1)];
    FourMemberFile("config", Obj(map[]), "name", Str("http"), "type", Str("http"), "version", Int(1));
    ConfigLine();
    NameHttpLine();
    TypeHttpLine();
    VersionLine();
  }
}
