/**
  Worked examples: a model struct as it would be declared in Go, the fields
  the generator keeps from it, and the statements and names it derives.
*/
module Scenarios {
  import opened Wrappers
  import opened GoLib
  import DbTag
  import opened Generate

  /** The tags of the example struct. */
  const IdTag: string := "`db:\"id\"`"
  const NameTag: string := "`db:\"name,omitempty\"`"
  const EmailTag: string := "`json:\"email\" db:\"email\"`"
  const EmptyTag: string := "`db:\"\"`"

  /** A tag whose first key is db yields its value. */
  lemma IdTagMatches()
    ensures DbTag.Match(IdTag) == Some("id")
  {
    DbTag.LeadingDbKeyCaptured("id", "");
    assert IdTag == DbTag.Opening + "id" + "" + "\"`";
  }

  /** The options after the comma are not part of the column name. */
  lemma NameTagMatches()
    ensures DbTag.Match(NameTag) == Some("name")
  {
    DbTag.LeadingDbKeyCaptured("name", ",omitempty");
    assert NameTag == DbTag.Opening + "name" + ",omitempty" + "\"`";
  }

  /** A db key that is not the first key of the tag is not found. */
  lemma EmailTagSkipped()
    ensures DbTag.Match(EmailTag) == None
  {
    var body := "json:\"email\" db:\"email\"";
    assert EmailTag == "`" + body + "`";
    assert body[0] == 'j';
    DbTag.OtherFirstKeySkipped(body);
  }

  /** An empty db value is not a column name. */
  lemma EmptyTagSkipped()
    ensures DbTag.Match(EmptyTag) == None
  {
    DbTag.EmptyDbValueSkipped("");
    assert EmptyTag == "`db:\"\"" + "" + "`";
  }

  /**
    The example struct:
      ID       with tag IdTag     kept, column id
      Name     with tag NameTag   kept, column name
      password with tag IdTag     unexported, skipped
      an embedded field           no name, skipped
      Age      without a tag      skipped
      Email    with tag EmailTag  db is not its first key, skipped
  */
  const UserDecls: seq<FieldDecl> := [
    FieldDecl(["ID"], Some(IdTag)),
    FieldDecl(["Name"], Some(NameTag)),
    FieldDecl(["password"], Some(IdTag)),
    FieldDecl([], Some(IdTag)),
    FieldDecl(["Age"], None),
    FieldDecl(["Email"], Some(EmailTag))
  ]

  /** The fields the generator keeps from the example struct. */
  const UserFields: seq<ModelField> := [ModelField("ID", "id"), ModelField("Name", "name")]

  /** What each entry of the example struct contributes. */
  lemma UserDecl0()
    ensures FieldOf(UserDecls[0]) == Some(UserFields[0])
  {
    IdTagMatches();
  }

  lemma UserDecl1()
    ensures FieldOf(UserDecls[1]) == Some(UserFields[1])
  {
    NameTagMatches();
  }

  lemma UserDeclsSkipped()
    ensures FieldOf(UserDecls[2]).None? && FieldOf(UserDecls[3]).None? && FieldOf(UserDecls[4]).None?
  {
    assert !IsExported("password");
  }

  lemma UserDecl5()
    ensures FieldOf(UserDecls[5]).None?
  {
    EmailTagSkipped();
  }

  /** One more entry of a field list adds what that entry contributes. */
  lemma ExtractFieldsStep(decls: seq<FieldDecl>, k: nat)
    requires k < |decls|
    ensures ExtractFields(decls[..k + 1]) ==
              ExtractFields(decls[..k]) + (if FieldOf(decls[k]).Some? then [FieldOf(decls[k]).value] else [])
  {
    assert decls[..k + 1][..k] == decls[..k];
  }

  lemma UserFieldsExtracted()
    ensures ExtractFields(UserDecls) == UserFields
  {
    UserDecl0();
    UserDecl1();
    UserDeclsSkipped();
    UserDecl5();
    KeepsFirstTwo(UserDecls);
  }

  /** A six-entry field list of which only the first two are eligible yields their two fields. */
  lemma KeepsFirstTwo(d: seq<FieldDecl>)
    requires |d| == 6
    requires FieldOf(d[0]).Some? && FieldOf(d[1]).Some?
    requires FieldOf(d[2]).None? && FieldOf(d[3]).None? && FieldOf(d[4]).None? && FieldOf(d[5]).None?
    ensures ExtractFields(d) == [FieldOf(d[0]).value, FieldOf(d[1]).value]
  {
    assert d[..0] == [];
    ExtractFieldsStep(d, 0);
    ExtractFieldsStep(d, 1);
    ExtractFieldsStep(d, 2);
    ExtractFieldsStep(d, 3);
    ExtractFieldsStep(d, 4);
    ExtractFieldsStep(d, 5);
    assert d[..6] == d;
  }

  /** Two entries joined: the first, the separator, the second. */
  lemma JoinPair(a: string, b: string, sep: string)
    ensures Join([a, b], sep) == a + sep + b
  {
    assert [a, b][1..] == [b];
  }

  /** The example's lists, entry by entry. */
  lemma UserLists()
    ensures Columns(UserFields) == ["id", "name"]
    ensures Placeholders(Columns(UserFields)) == [":id", ":name"]
    ensures Assignments(Columns(UserFields)) == ["id=:id", "name=:name"]
    ensures Quoted(Columns(UserFields)) == ["\"id\"", "\"name\""]
  {
    var cols := Columns(UserFields);
    assert cols == ["id", "name"];
    assert Placeholders(cols)[0] == ":id" && Placeholders(cols)[1] == ":name";
    assert Assignments(cols)[0] == "id=:id" && Assignments(cols)[1] == "name=:name";
    assert Quoted(cols)[0] == "\"id\"" && Quoted(cols)[1] == "\"name\"";
  }

  /** The example's lists joined as the statements join them. */
  lemma UserJoinedLists()
    ensures Join(Columns(UserFields), ListSep) == "id, name"
    ensures Join(Placeholders(Columns(UserFields)), ListSep) == ":id, :name"
    ensures Join(Assignments(Columns(UserFields)), ListSep) == "id=:id, name=:name"
    ensures Join(Quoted(Columns(UserFields)), ListSep) == "\"id\", \"name\""
  {
    UserLists();
    JoinPair("id", "name", ListSep);
    JoinPair(":id", ":name", ListSep);
    JoinPair("id=:id", "name=:name", ListSep);
    JoinPair("\"id\"", "\"name\"", ListSep);
  }

  /** The insert statement for the example fields in the table users. */
  lemma UserInsert()
    ensures InsertStatement("users", UserFields) == "INSERT INTO users (id, name) VALUES (:id, :name)"
  {
    UserJoinedLists();
    assert "INSERT INTO " + "users" + " (" + "id, name" == "INSERT INTO users (id, name";
    assert "INSERT INTO users (id, name" + ") VALUES (" + ":id, :name" + ")"
        == "INSERT INTO users (id, name) VALUES (:id, :name)";
    InsertText("users", UserFields, "INSERT INTO users (id, name) VALUES (:id, :name)");
  }

  /** The update statement for the example fields sets id too. */
  lemma UserUpdate()
    ensures UpdateStatement("users", UserFields) == "UPDATE users SET id=:id, name=:name WHERE id=:id"
  {
    UserJoinedLists();
    assert "UPDATE " + "users" + " SET " + "id=:id, name=:name" == "UPDATE users SET id=:id, name=:name";
    assert "UPDATE users SET id=:id, name=:name" + " WHERE id=:id" == "UPDATE users SET id=:id, name=:name WHERE id=:id";
    UpdateText("users", UserFields, "UPDATE users SET id=:id, name=:name WHERE id=:id");
  }

  /** FieldsAsArray for the example fields. */
  lemma UserFieldsArray()
    ensures FieldsArray(UserFields) == "\"id\", \"name\""
  {
    UserJoinedLists();
  }

  /** The receiver variable is the first letter, or the first two when the first is t. */
  lemma ExampleModelVars()
    ensures ModelVarFor("User") == "u"
    ensures ModelVarFor("Tag") == "ta"
    ensures ModelVarFor("tree") == "tr"
  {
  }

  /** The generated files of the model declared in /src/models/user.go. */
  lemma ExampleFileNames(m: Model)
    requires m.fullPath == "/src/models/user.go"
    ensures m.GeneratedFileNameModel() == "/src/models/user_generated.go"
    ensures m.GeneratedFileNameTests() == "/src/models/user_generated_test.go"
  {
    assert HasSuffix(m.fullPath, ".go");
  }

  /** The working directory joined with the file name. */
  lemma ExamplePath()
    ensures PathJoin("/src/models", "user.go") == "/src/models/user.go"
  {
  }

  /** The entries of the example flag, each with the white space written around it. */
  const FlagNames: seq<string> := ["Delete", "Update"]
  const FlagBefore: seq<string> := ["", " "]
  const FlagAfter: seq<string> := [" ", ""]

  /** The example flag reads "Delete , Update": a space before the comma and one after it. */
  lemma ExampleFlagText()
    ensures Join(Spaced(FlagNames, FlagBefore, FlagAfter), ",") == "Delete , Update"
  {
    var spaced := Spaced(FlagNames, FlagBefore, FlagAfter);
    assert spaced[0] == "" + "Delete" + " " == "Delete ";
    assert spaced[1] == " " + "Update" + "" == " Update";
    assert spaced == ["Delete ", " Update"];
    JoinPair("Delete ", " Update", ",");
  }

  /** The exclusion flag "Delete , Update" (see ExampleFlagText) excludes Delete and Update. */
  method ExampleExcluded() returns (flag: string, excluded: seq<string>)
    ensures flag == Join(Spaced(FlagNames, FlagBefore, FlagAfter), ",")
    ensures excluded == ["Delete", "Update"]
  {
    flag := Join(Spaced(FlagNames, FlagBefore, FlagAfter), ",");
    assert FlagNames[0] == Capabilities[8] && FlagNames[1] == Capabilities[6];
    assert AllSpace(FlagBefore[1]) && AllSpace(FlagAfter[0]);
    ExcludeFlagRoundTrip(FlagNames, FlagBefore, FlagAfter);
    excluded := SplitExcluded(flag);
  }

  /** The source file declaring the example struct as User. */
  const UserFile: SourceFile := SourceFile(map["User" := TypeSpec(StructType(UserDecls))])

  /**
    The generator run on User from /src/models/user.go, for the table users,
    with Delete and Update excluded: the model gets the two tagged exported
    fields and the templates the statements and names shown.
  */
  method GenerateUser() returns (err: Option<Error>, vars: ModelTemplateVars?, modelPath: string, testsPath: string)
    ensures err == None && vars != null
    ensures vars.createStmt == "INSERT INTO users (id, name) VALUES (:id, :name)"
    ensures vars.updateStmt == "UPDATE users SET id=:id, name=:name WHERE id=:id"
    ensures vars.fieldsAsArray == "\"id\", \"name\""
    ensures vars.modelVar == "u" && vars.excluded == ["Delete", "Update"]
    ensures modelPath == "/src/models/user_generated.go"
    ensures testsPath == "/src/models/user_generated_test.go"
  {
    var model;
    err, vars, model := ParseUser();
    UserInsert();
    UserUpdate();
    UserFieldsArray();
    ExampleModelVars();
    ExampleFileNames(model);
    modelPath := model.GeneratedFileNameModel();
    testsPath := model.GeneratedFileNameTests();
  }

  /** Parse run on the example: the template variables are those of the example's fields and table. */
  method ParseUser() returns (err: Option<Error>, vars: ModelTemplateVars?, model: Model)
    ensures err == None && vars != null
    ensures vars.createStmt == InsertStatement("users", UserFields)
    ensures vars.updateStmt == UpdateStatement("users", UserFields)
    ensures vars.fieldsAsArray == FieldsArray(UserFields)
    ensures vars.modelVar == ModelVarFor("User") && vars.excluded == ["Delete", "Update"]
    ensures model.fullPath == "/src/models/user.go"
  {
    var _, excluded := ExampleExcluded();
    model := new Model("User", "users", "user.go", "models", false, excluded, false);
    assert StructFields(UserFile, "User", "/src/models/user.go") == Success(UserDecls);
    UserFieldsExtracted();
    assert CheckRequired("User", "user.go", "models") == None;
    ExamplePath();
    err, vars := model.Parse(Success("/src/models"), (n: string) => n, Success(UserFile), Written, Written);
    assert model.fullPath == "/src/models/user.go";
    assert model.fields == UserFields;
    assert model.table == "users";
  }

  /**
    Parse run for the model T, which the example file does not declare: the
    run stops at the lookup, before the receiver variable (which a one-letter
    name t or T would not have) is needed, with the missing-type message.
  */
  method ParseMissingType() returns (err: Option<Error>, vars: ModelTemplateVars?)
    ensures err == Some(TypeNotFound("T", "/src/models/user.go")) && vars == null
    ensures Message(err.value) == "could not find type T in /src/models/user.go"
  {
    var model := new Model("T", "", "user.go", "models", false, [], false);
    ExamplePath();
    assert "T" !in UserFile.scope;
    assert CheckRequired("T", "user.go", "models") == None;
    err, vars := model.Parse(Success("/src/models"), (n: string) => n, Success(UserFile), Written, Written);
    MissingTypeMessage();
  }

  /** The message for the type T missing from /src/models/user.go. */
  lemma MissingTypeMessage()
    ensures Message(TypeNotFound("T", "/src/models/user.go")) == "could not find type T in /src/models/user.go"
  {
    var head := "could not find type T in ";
    assert "could not find type " + "T" + " in " == head;
    assert head + "/src/models/user.go" == "could not find type T in /src/models/user.go";
  }
}
