/**
  The model generator: from the description of a struct type it extracts the
  persisted fields, fills in defaults, builds the SQL statement texts and the
  variables that the two templates (model file and test file) are rendered
  with, and derives the names of the two generated files.

  The parsed Go file is reduced to the part the generator reads: the file's
  top-level scope, and for a struct type its field list, each field with its
  names and its tag literal. Rendering templates, writing files, the working
  directory and the snake-case conversion are outside the model and are passed
  in as parameters.
*/
module Generate {
  import opened Wrappers
  import opened GoLib
  import DbTag

  // ---------------------------------------------------------------------------
  // The parsed source file
  // ---------------------------------------------------------------------------

  /**
    One entry of a struct's field list: the declared names (none for an
    embedded field) and the tag literal exactly as written, delimiters included.
  */
  datatype FieldDecl = FieldDecl(names: seq<string>, tag: Option<string>)

  /** The type expression of a type declaration: a struct type or anything else. */
  datatype TypeExpr = StructType(fields: seq<FieldDecl>) | OtherType

  /** What a top-level name of the file is declared as: a type, or something else (a variable, a function, ...). */
  datatype Decl = TypeSpec(typeExpr: TypeExpr) | NonType

  /** A parsed file: its top-level scope, from each declared name to its declaration. */
  datatype SourceFile = SourceFile(scope: map<string, Decl>)

  // ---------------------------------------------------------------------------
  // Model fields, errors, outcomes
  // ---------------------------------------------------------------------------

  /** One persisted field: the Go field name and the column it maps to. */
  datatype ModelField = ModelField(name: string, dbName: string)

  /** The errors the generator returns. */
  datatype Error =
    | ModelNameMissing
    | FileNameMissing
    | PackageNameMissing
    | WorkingDirectory(reason: string)          // os.Getwd failed
    | SourceUnavailable(reason: string)         // opening, reading or parsing the source failed
    | TypeNotFound(typeName: string, path: string)
    | NotAType(typeName: string)
    | NotAStruct(typeName: string)

  /**
    The text of each error, as the generator words it. The errors of os.Getwd
    and of reading or parsing the source are passed on with their own text;
    the messages about the model's type start with the type's name, except the
    one for a missing type, which ends with the file's path.
  */
  function Message(e: Error): (r: string)
    ensures e.WorkingDirectory? || e.SourceUnavailable? ==> r == e.reason
    ensures e.NotAType? || e.NotAStruct? ==> |e.typeName| <= |r| && r[..|e.typeName|] == e.typeName
    ensures e.TypeNotFound? ==> HasSuffix(r, e.path)
    ensures e.ModelNameMissing? || e.FileNameMissing? || e.PackageNameMissing? ==> r != ""
  {
    match e
    case ModelNameMissing => "model name missing"
    case FileNameMissing => "filename missing. use -f to specify one"
    case PackageNameMissing => "package name missing. use -p to specify one"
    case WorkingDirectory(reason) => reason
    case SourceUnavailable(reason) => reason
    case TypeNotFound(n, path) =>
      var r := "could not find type " + n + " in " + path;
      assert r[|r| - |path|..] == path;
      r
    case NotAType(n) =>
      var r := n + " is not a type";
      assert r[..|n|] == n;
      r
    case NotAStruct(n) =>
      var r := n + " is not a struct";
      assert r[..|n|] == n;
      r
  }

  /** What became of rendering one template and writing the result to its file. */
  datatype Outcome = Written | Failed(reason: string)

  // ---------------------------------------------------------------------------
  // Validation (setDefault)
  // ---------------------------------------------------------------------------

  /**
    The checks setDefault makes, in their order: a missing model name is
    reported first, then a missing file name, then a missing package name.
  */
  function CheckRequired(name: string, fileName: string, packageName: string): (r: Option<Error>)
    ensures r == Some(ModelNameMissing) <==> name == ""
    ensures r == Some(FileNameMissing) <==> name != "" && fileName == ""
    ensures r == Some(PackageNameMissing) <==> name != "" && fileName != "" && packageName == ""
    ensures r == None <==> name != "" && fileName != "" && packageName != ""
  {
    if name == "" then Some(ModelNameMissing)
    else if fileName == "" then Some(FileNameMissing)
    else if packageName == "" then Some(PackageNameMissing)
    else None
  }

  // ---------------------------------------------------------------------------
  // Field extraction (parseTarget)
  // ---------------------------------------------------------------------------

  /**
    ast.IsExported, for ASCII: the name starts with a capital letter A to Z,
    that is, with a letter that lower-casing changes.
  */
  function IsExported(name: string): (b: bool)
    ensures b <==> |name| > 0 && ToLowerChar(name[0]) != name[0]
  {
    |name| > 0 && 'A' <= name[0] <= 'Z'
  }

  /**
    The model field one entry of a field list contributes: only an entry with a
    name, whose first name is exported, that has a tag, and whose tag matches
    the db pattern; it is named by its first name and mapped to the captured column.
  */
  function FieldOf(f: FieldDecl): (r: Option<ModelField>)
    ensures r.Some? <==>
              |f.names| > 0 && IsExported(f.names[0]) && f.tag.Some? && DbTag.Match(f.tag.value).Some?
    ensures r.Some? ==> r.value == ModelField(f.names[0], DbTag.Match(f.tag.value).value)
    ensures r.Some? ==> IsExported(r.value.name) && DbTag.IsDbName(r.value.dbName)
  {
    if |f.names| > 0 && IsExported(f.names[0]) then
      match f.tag
      case None => None
      case Some(tag) =>
        match DbTag.Match(tag)
        case None => None
        case Some(dbName) => Some(ModelField(f.names[0], dbName))
    else None
  }

  /** Every extracted field is exported and has a valid column name. */
  predicate WellFormed(fields: seq<ModelField>)
  {
    forall i | 0 <= i < |fields| :: IsExported(fields[i].name) && DbTag.IsDbName(fields[i].dbName)
  }

  /** The model fields a field list contributes, in declaration order. */
  function ExtractFields(decls: seq<FieldDecl>): (r: seq<ModelField>)
    ensures |r| <= |decls|
    ensures WellFormed(r)
    decreases |decls|
  {
    if decls == [] then []
    else
      var init := ExtractFields(decls[..|decls| - 1]);
      match FieldOf(decls[|decls| - 1])
      case Some(mf) => init + [mf]
      case None => init
  }

  /** Extraction works entry by entry: the fields of a concatenation are the fields of each part, in order. */
  lemma {:induction false} ExtractFieldsAppend(a: seq<FieldDecl>, b: seq<FieldDecl>)
    ensures ExtractFields(a + b) == ExtractFields(a) + ExtractFields(b)
    decreases |b|
  {
    if b == [] {
      assert a + b == a;
    } else {
      var b' := b[..|b| - 1];
      assert (a + b)[..|a + b| - 1] == a + b';
      assert (a + b)[|a + b| - 1] == b[|b| - 1];
      ExtractFieldsAppend(a, b');
    }
  }

  /** A single entry contributes its field when it is eligible and nothing otherwise. */
  lemma ExtractFieldsSingle(d: FieldDecl)
    ensures ExtractFields([d]) == if FieldOf(d).Some? then [FieldOf(d).value] else []
  {
    assert [d][..0] == [];
  }

  /** A model field is extracted exactly when some entry of the list contributes it. */
  lemma {:induction false} ExtractFieldsMembers(decls: seq<FieldDecl>, mf: ModelField)
    ensures mf in ExtractFields(decls) <==> exists i | 0 <= i < |decls| :: FieldOf(decls[i]) == Some(mf)
    decreases |decls|
  {
    if decls != [] {
      var init := decls[..|decls| - 1];
      ExtractFieldsMembers(init, mf);
      assert forall i | 0 <= i < |init| :: init[i] == decls[i];
      if exists i | 0 <= i < |decls| :: FieldOf(decls[i]) == Some(mf) {
        var i :| 0 <= i < |decls| && FieldOf(decls[i]) == Some(mf);
        if i < |init| {
          assert FieldOf(init[i]) == Some(mf);
        }
      }
    }
  }

  /**
    The declaration parseTarget looks up: the field list of the struct type
    `name` declares in `file`, or the error it returns. `path` is the file's
    path, which only appears in the message for a missing type.
  */
  function StructFields(file: SourceFile, name: string, path: string): (r: Result<seq<FieldDecl>, Error>)
    ensures r == Failure(TypeNotFound(name, path)) <==> name !in file.scope
    ensures r == Failure(NotAType(name)) <==> name in file.scope && !file.scope[name].TypeSpec?
    ensures r == Failure(NotAStruct(name)) <==>
              name in file.scope && file.scope[name].TypeSpec? && !file.scope[name].typeExpr.StructType?
    ensures r.Success? <==>
              name in file.scope && file.scope[name].TypeSpec? && file.scope[name].typeExpr.StructType?
    ensures r.Success? ==> file.scope[name] == TypeSpec(StructType(r.value))
  {
    if name !in file.scope then Failure(TypeNotFound(name, path))
    else match file.scope[name]
      case NonType => Failure(NotAType(name))
      case TypeSpec(OtherType) => Failure(NotAStruct(name))
      case TypeSpec(StructType(fields)) => Success(fields)
  }

  // ---------------------------------------------------------------------------
  // Statement building (generateModelFile)
  // ---------------------------------------------------------------------------

  /** The column names of the fields, in field order. */
  function Columns(fields: seq<ModelField>): seq<string>
  {
    seq(|fields|, i requires 0 <= i < |fields| => fields[i].dbName)
  }

  /** Each column as a Go string literal, "col". */
  function Quoted(cols: seq<string>): seq<string>
  {
    seq(|cols|, i requires 0 <= i < |cols| => "\"" + cols[i] + "\"")
  }

  /** Each column as a named placeholder, :col. */
  function Placeholders(cols: seq<string>): seq<string>
  {
    seq(|cols|, i requires 0 <= i < |cols| => ":" + cols[i])
  }

  /** Each column set to its placeholder, col=:col. */
  function Assignments(cols: seq<string>): seq<string>
  {
    seq(|cols|, i requires 0 <= i < |cols| => cols[i] + "=:" + cols[i])
  }

  /** The separator the statement lists are joined with. */
  const ListSep: string := ", "

  /**
    The value of the FieldsAsArray template variable: the quoted columns joined
    with ListSep, so it starts with the first field's quoted column and ends
    with the last one's, and is empty without fields.
  */
  function FieldsArray(fields: seq<ModelField>): (r: string)
    ensures |fields| == 0 ==> r == ""
    ensures |fields| > 0 ==> "\"" + fields[0].dbName + "\"" <= r
    ensures |fields| > 0 ==> HasSuffix(r, "\"" + fields[|fields| - 1].dbName + "\"")
  {
    var quoted := Quoted(Columns(fields));
    JoinEnds(quoted, ListSep);
    Join(quoted, ListSep)
  }

  /**
    The value of the CreateStmt template variable:
    INSERT INTO <table> (<columns>) VALUES (<placeholders>), both lists joined with ListSep.
  */
  function InsertStatement(table: string, fields: seq<ModelField>): (r: string)
    ensures "INSERT INTO " + table + " (" <= r
    ensures HasSuffix(r, ")")
  {
    var head := "INSERT INTO " + table + " (";
    var r := head + (Join(Columns(fields), ListSep)
      + ") VALUES (" + Join(Placeholders(Columns(fields)), ListSep) + ")");
    assert r[..|head|] == head;
    r
  }

  /** The column the update statement selects its row by. */
  const IdColumn: string := "id"

  /**
    The value of the UpdateStmt template variable:
    UPDATE <table> SET <assignments> WHERE id=:id, the assignments joined with ListSep.
  */
  function UpdateStatement(table: string, fields: seq<ModelField>): (r: string)
    ensures "UPDATE " + table + " SET " <= r
    ensures HasSuffix(r, " WHERE " + IdColumn + "=:" + IdColumn)
  {
    var head := "UPDATE " + table + " SET ";
    var tail := " WHERE " + IdColumn + "=:" + IdColumn;
    var r := head + Join(Assignments(Columns(fields)), ListSep) + tail;
    assert r[..|head|] == head;
    assert r[|r| - |tail|..] == tail;
    r
  }

  /** The insert statement as generateModelFile writes it out is InsertStatement. */
  lemma InsertText(table: string, fields: seq<ModelField>, text: string)
    requires text == "INSERT INTO " + table + " (" + Join(Columns(fields), ListSep)
               + ") VALUES (" + Join(Placeholders(Columns(fields)), ListSep) + ")"
    ensures text == InsertStatement(table, fields)
  {
  }

  /** The update statement as generateModelFile writes it out, with its literal WHERE clause, is UpdateStatement. */
  lemma UpdateText(table: string, fields: seq<ModelField>, text: string)
    requires text == "UPDATE " + table + " SET " + Join(Assignments(Columns(fields)), ListSep) + " WHERE id=:id"
    ensures text == UpdateStatement(table, fields)
  {
    assert " WHERE " + IdColumn + "=:" + IdColumn == " WHERE id=:id";
  }

  // ---------------------------------------------------------------------------
  // Comma-separated lists (the exclusion flag of GenModel)
  // ---------------------------------------------------------------------------

  /** Every entry of `parts` trimmed of white space. */
  function Trimmed(parts: seq<string>): seq<string>
  {
    seq(|parts|, i requires 0 <= i < |parts| => TrimSpace(parts[i]))
  }

  /**
    A comma-separated list split on commas, each entry trimmed of white space:
    there is always at least one entry (the empty text gives one empty entry),
    every entry is trimmed, and text without a comma is a single entry.
  */
  function ParseList(s: string): (r: seq<string>)
    ensures |r| > 0
    ensures forall i | 0 <= i < |r| :: IsTrimmed(r[i])
    ensures ',' !in s ==> |r| == 1
  {
    JoinHasSep(Split(s, ','), ',');
    Trimmed(Split(s, ','))
  }

  /** An entry that ParseList gives back unchanged: no comma in it, no white space around it. */
  predicate IsListItem(item: string)
  {
    ',' !in item && IsTrimmed(item)
  }

  /**
    ParseList undoes joining with a comma followed by any white space: the
    entries come back in order and unchanged.
  */
  lemma ParseJoinedList(items: seq<string>, pad: string)
    requires |items| > 0
    requires forall i | 0 <= i < |items| :: IsListItem(items[i])
    requires AllSpace(pad)
    ensures ParseList(Join(items, [','] + pad)) == items
  {
    assert forall k | 0 <= k < |pad| :: pad[k] != ',' by {
      forall k | 0 <= k < |pad| ensures pad[k] != ',' {
        assert IsSpace(pad[k]);
      }
    }
    SplitJoinPadded(items, ',', pad);
    TrimmedPadded(items, pad);
  }

  /** Every entry with its own white space put in front of it and after it. */
  function Spaced(items: seq<string>, pre: seq<string>, post: seq<string>): seq<string>
    requires |pre| == |items| && |post| == |items|
  {
    seq(|items|, i requires 0 <= i < |items| => pre[i] + items[i] + post[i])
  }

  /**
    ParseList undoes joining entries with commas when each entry has any
    white space of its own before and after it: the entries come back in order
    and unchanged.
  */
  lemma ParseSpacedList(items: seq<string>, pre: seq<string>, post: seq<string>)
    requires |items| > 0 && |pre| == |items| && |post| == |items|
    requires forall i | 0 <= i < |items| :: IsListItem(items[i]) && AllSpace(pre[i]) && AllSpace(post[i])
    ensures ParseList(Join(Spaced(items, pre, post), ",")) == items
  {
    var spaced := Spaced(items, pre, post);
    forall i | 0 <= i < |spaced| ensures ',' !in spaced[i] {
      SpacedWithoutComma(pre[i], items[i], post[i]);
    }
    SplitJoin(spaced, ',');
    forall i | 0 <= i < |items| ensures TrimSpace(spaced[i]) == items[i] {
      TrimSpaceAround(pre[i], items[i], post[i]);
    }
  }

  /** White space around an entry without a comma adds no comma. */
  lemma SpacedWithoutComma(pre: string, item: string, post: string)
    requires AllSpace(pre) && AllSpace(post) && ',' !in item
    ensures ',' !in pre + item + post
  {
    var x := pre + item + post;
    forall k | 0 <= k < |x| ensures x[k] != ',' {
      if k < |pre| {
        assert IsSpace(pre[k]);
      } else if k < |pre| + |item| {
        assert x[k] == item[k - |pre|];
      } else {
        assert IsSpace(post[k - |pre| - |item|]);
      }
    }
  }

  /** Trimming removes the padding put in front of trimmed entries. */
  lemma TrimmedPadded(items: seq<string>, pad: string)
    requires |items| > 0
    requires forall i | 0 <= i < |items| :: IsTrimmed(items[i])
    requires AllSpace(pad)
    ensures Trimmed([items[0]] + Prefixed(items[1..], pad)) == items
  {
    var parts := [items[0]] + Prefixed(items[1..], pad);
    forall i | 0 <= i < |items| ensures TrimSpace(parts[i]) == items[i] {
      if i == 0 {
        TrimSpaceOfTrimmed(items[0]);
      } else {
        assert parts[i] == pad + items[i];
        TrimSpacePadded(pad, items[i]);
      }
    }
  }

  /** A column name captured from a tag is a list entry: it has no comma and no white space. */
  lemma DbNameIsListItem(d: string)
    requires DbTag.IsDbName(d)
    ensures IsListItem(d)
  {
    assert forall k | 0 <= k < |d| :: d[k] != ',' by {
      forall k | 0 <= k < |d| ensures d[k] != ',' {
        assert DbTag.IsNameChar(d[k]);
      }
    }
    assert !IsSpace(d[0]) && !IsSpace(d[|d| - 1]) by {
      assert DbTag.IsNameChar(d[0]) && DbTag.IsNameChar(d[|d| - 1]);
    }
  }

  /** The column names, and their decorated forms, are all list entries. */
  lemma ColumnItems(fields: seq<ModelField>)
    requires WellFormed(fields)
    ensures forall i | 0 <= i < |fields| ::
              && IsListItem(Columns(fields)[i]) && IsListItem(Placeholders(Columns(fields))[i])
              && IsListItem(Assignments(Columns(fields))[i]) && IsListItem(Quoted(Columns(fields))[i])
  {
    var cols := Columns(fields);
    forall i | 0 <= i < |cols|
      ensures IsListItem(cols[i]) && IsListItem(Placeholders(cols)[i])
      ensures IsListItem(Assignments(cols)[i]) && IsListItem(Quoted(cols)[i])
    {
      var d := cols[i];
      assert d == fields[i].dbName;
      DbNameIsListItem(d);
      ItemsWithoutComma(d);
    }
  }

  /** The statement lists are joined with a comma followed by one space. */
  lemma ListSepIsPadded()
    ensures ListSep == [','] + " " && AllSpace(" ")
  {
  }

  /** Read back as a comma-separated list, the column list of the insert statement is the fields' columns, in order. */
  lemma ColumnsReadBack(fields: seq<ModelField>)
    requires |fields| > 0 && WellFormed(fields)
    ensures ParseList(Join(Columns(fields), ListSep)) == Columns(fields)
  {
    ColumnItems(fields);
    ListSepIsPadded();
    ParseJoinedList(Columns(fields), " ");
  }

  /** The value list of the insert statement holds one placeholder per column, in column order. */
  lemma PlaceholdersReadBack(fields: seq<ModelField>)
    requires |fields| > 0 && WellFormed(fields)
    ensures ParseList(Join(Placeholders(Columns(fields)), ListSep)) == Placeholders(Columns(fields))
  {
    ColumnItems(fields);
    ListSepIsPadded();
    ParseJoinedList(Placeholders(Columns(fields)), " ");
  }

  /** The SET list of the update statement holds one assignment per column, in column order. */
  lemma AssignmentsReadBack(fields: seq<ModelField>)
    requires |fields| > 0 && WellFormed(fields)
    ensures ParseList(Join(Assignments(Columns(fields)), ListSep)) == Assignments(Columns(fields))
  {
    ColumnItems(fields);
    ListSepIsPadded();
    ParseJoinedList(Assignments(Columns(fields)), " ");
  }

  /** FieldsAsArray holds one quoted literal per column, in column order. */
  lemma FieldsArrayReadBack(fields: seq<ModelField>)
    requires |fields| > 0 && WellFormed(fields)
    ensures ParseList(FieldsArray(fields)) == Quoted(Columns(fields))
  {
    ColumnItems(fields);
    ListSepIsPadded();
    ParseJoinedList(Quoted(Columns(fields)), " ");
  }

  /** The decorated forms of a column name are list entries too. */
  lemma ItemsWithoutComma(d: string)
    requires IsListItem(d) && d != []
    ensures IsListItem(":" + d)
    ensures IsListItem(d + "=:" + d)
    ensures IsListItem("\"" + d + "\"")
  {
    assert (":" + d)[|":" + d| - 1] == d[|d| - 1];
    assert (d + "=:" + d)[0] == d[0];
    assert (d + "=:" + d)[|d + "=:" + d| - 1] == d[|d| - 1];
  }

  /** With no fields the statements are still complete, with empty lists. */
  lemma StatementsWithoutFields(table: string)
    ensures InsertStatement(table, []) == "INSERT INTO " + table + " () VALUES ()"
    ensures UpdateStatement(table, []) == "UPDATE " + table + " SET  WHERE id=:id"
    ensures FieldsArray([]) == ""
  {
  }

  /**
    A field mapped to the column id is set like every other field: the SET
    list of the update statement keeps id=:id although the WHERE clause
    already selects the row by id.
  */
  lemma IdColumnStaysInSet(fields: seq<ModelField>, i: nat)
    requires WellFormed(fields)
    requires i < |fields| && fields[i].dbName == IdColumn
    ensures IdColumn + "=:" + IdColumn in ParseList(Join(Assignments(Columns(fields)), ListSep))
  {
    AssignmentSurvives(fields, i);
  }

  /** The assignment of every field is an entry of the SET list. */
  lemma AssignmentSurvives(fields: seq<ModelField>, i: nat)
    requires WellFormed(fields) && i < |fields|
    ensures Assignments(Columns(fields))[i] in ParseList(Join(Assignments(Columns(fields)), ListSep))
  {
    AssignmentsReadBack(fields);
  }

  // ---------------------------------------------------------------------------
  // Template variables (generateAll)
  // ---------------------------------------------------------------------------

  /** The name the generated test functions give their *testing.T parameter. */
  const TestingVar: string := "t"

  /** A name whose receiver variable can be derived: non-empty, and a second letter when the first lower-cases to t. */
  predicate HasModelVar(name: string)
  {
    |name| > 0 && (ToLowerChar(name[0]) == 't' ==> |name| >= 2)
  }

  /**
    The receiver variable of the generated code: the shortest non-empty
    prefix of the lower-cased model name that is not the testing variable t,
    which is its first letter, or its first two when the first is t.
  */
  function ModelVarFor(name: string): (v: string)
    requires HasModelVar(name)
    ensures 0 < |v| <= |name| && v == ToLower(name)[..|v|]
    ensures v != TestingVar
    ensures forall k | 0 < k < |v| :: ToLower(name)[..k] == TestingVar
  {
    var lower := ToLower(name);
    var v := lower[..1];
    assert v[0] == ToLowerChar(name[0]);
    if v == TestingVar then v + [lower[1]] else v
  }

  /** The names of the generated members that can be excluded: the ones the templates query. */
  const Capabilities: seq<string> :=
    ["JoinSQL", "Get", "GetAny", "Save", "Create", "doCreate", "Update", "doUpdate", "Delete", "IsZero"]

  /**
    Naming capabilities in the exclusion flag, separated by commas, with any
    white space before and after each name, excludes exactly those: the list
    parsed from the flag is the list that was written.
  */
  lemma ExcludeFlagRoundTrip(names: seq<string>, pre: seq<string>, post: seq<string>)
    requires |names| > 0 && |pre| == |names| && |post| == |names|
    requires forall i | 0 <= i < |names| :: names[i] in Capabilities && AllSpace(pre[i]) && AllSpace(post[i])
    ensures ParseList(Join(Spaced(names, pre, post), ",")) == names
  {
    CapabilitiesAreListItems();
    forall i | 0 <= i < |names| ensures IsListItem(names[i]) {
      var j :| 0 <= j < |Capabilities| && Capabilities[j] == names[i];
    }
    ParseSpacedList(names, pre, post);
  }

  /** Every capability name is a list entry: no comma, no white space around it. */
  lemma CapabilitiesAreListItems()
    ensures forall i | 0 <= i < |Capabilities| :: IsListItem(Capabilities[i])
  {
  }

  /** An empty exclusion flag parses to one empty entry, which excludes none of the capabilities. */
  lemma EmptyFlagExcludesNothing()
    ensures ParseList("") == [""]
    ensures forall c | c in Capabilities :: c !in ParseList("")
  {
  }

  /** The exclusion list of GenModel: the flag split on commas, each entry then trimmed in place. */
  method SplitExcluded(exclude: string) returns (excluded: seq<string>)
    ensures excluded == ParseList(exclude)
  {
    var parts := Split(exclude, ',');
    excluded := TrimAll(parts);
  }

  /** The entries of `parts`, put in a slice that is then trimmed in place. */
  method TrimAll(parts: seq<string>) returns (trimmed: seq<string>)
    ensures trimmed == Trimmed(parts)
  {
    var entries := new string[|parts|](i requires 0 <= i < |parts| => parts[i]);
    assert entries[..] == parts;
    TrimEntries(entries);
    trimmed := entries[..];
  }

  /** Trim every entry of `entries` of white space, in place. */
  method TrimEntries(entries: array<string>)
    modifies entries
    ensures entries[..] == Trimmed(old(entries[..]))
  {
    ghost var parts := entries[..];
    for i := 0 to entries.Length
      invariant forall k | 0 <= k < i :: entries[k] == TrimSpace(parts[k])
      invariant forall k | i <= k < entries.Length :: entries[k] == parts[k]
    {
      entries[i] := TrimSpace(entries[i]);
    }
    assert entries[..] == Trimmed(parts);
  }

  /** The slice fieldsAsArray of generateModelFile: one quoted column name per field, filled by index. */
  method QuoteColumns(fields: seq<ModelField>) returns (quoted: seq<string>)
    ensures quoted == Quoted(Columns(fields))
  {
    var n := |fields|;
    var a := new string[n];
    for i := 0 to n
      invariant a[..i] == Quoted(Columns(fields))[..i]
    {
      a[i] := "\"" + fields[i].dbName + "\"";
      assert a[..i + 1] == a[..i] + [a[i]];
    }
    assert a[..] == a[..n];
    quoted := a[..];
  }

  /** The slices createFields and createValues: each field's column and its placeholder, filled by index. */
  method CreateLists(fields: seq<ModelField>) returns (columns: seq<string>, values: seq<string>)
    ensures columns == Columns(fields)
    ensures values == Placeholders(Columns(fields))
  {
    var n := |fields|;
    var createFields := new string[n];
    var createValues := new string[n];
    for i := 0 to n
      invariant createFields[..i] == Columns(fields)[..i]
      invariant createValues[..i] == Placeholders(Columns(fields))[..i]
    {
      createFields[i] := fields[i].dbName;
      createValues[i] := ":" + fields[i].dbName;
      assert createFields[..i + 1] == createFields[..i] + [createFields[i]];
      assert createValues[..i + 1] == createValues[..i] + [createValues[i]];
    }
    assert createFields[..] == createFields[..n] && createValues[..] == createValues[..n];
    columns, values := createFields[..], createValues[..];
  }

  /** The slice updateFields: each field's column set to its placeholder, filled by index. */
  method UpdateList(fields: seq<ModelField>) returns (assignments: seq<string>)
    ensures assignments == Assignments(Columns(fields))
  {
    var n := |fields|;
    var a := new string[n];
    for i := 0 to n
      invariant a[..i] == Assignments(Columns(fields))[..i]
    {
      a[i] := fields[i].dbName + "=:" + fields[i].dbName;
      assert a[..i + 1] == a[..i] + [a[i]];
    }
    assert a[..] == a[..n];
    assignments := a[..];
  }

  /** The variables both templates are rendered with. */
  class ModelTemplateVars {
    var modelName: string
    var modelNameLC: string
    var tableName: string
    var modelVar: string
    var packageName: string
    var createStmt: string
    var createStmtArgs: string
    var updateStmt: string
    var updateStmtArgs: string
    var fieldsAsArray: string
    var excluded: seq<string>
    var isSingle: bool
    var useUUID: bool

    /** The variables generateAll sets when it creates them; the statements are filled in later. */
    constructor (modelName: string, modelNameLC: string, tableName: string, modelVar: string,
                 packageName: string, isSingle: bool, excluded: seq<string>, useUUID: bool)
      ensures this.modelName == modelName && this.modelNameLC == modelNameLC
      ensures this.tableName == tableName && this.modelVar == modelVar
      ensures this.packageName == packageName && this.isSingle == isSingle
      ensures this.excluded == excluded && this.useUUID == useUUID
      ensures createStmt == "" && createStmtArgs == "" && updateStmt == ""
      ensures updateStmtArgs == "" && fieldsAsArray == ""
    {
      this.modelName := modelName;
      this.modelNameLC := modelNameLC;
      this.tableName := tableName;
      this.modelVar := modelVar;
      this.packageName := packageName;
      this.isSingle := isSingle;
      this.excluded := excluded;
      this.useUUID := useUUID;
      createStmt, createStmtArgs, updateStmt, updateStmtArgs, fieldsAsArray := "", "", "", "", "";
    }

    /** Whether the member `wanted` is generated: it is, unless the exclusion list names it exactly. */
    method Generate(wanted: string) returns (generated: bool)
      ensures generated <==> wanted !in excluded
    {
      for i := 0 to |excluded|
        invariant wanted !in excluded[..i]
      {
        if excluded[i] == wanted {
          return false;
        }
      }
      return true;
    }

    /** The model name when generated names include it (not single), and the empty string otherwise. */
    function OptionalName(): (name: string)
      reads this
      ensures isSingle ==> name == ""
      ensures !isSingle ==> name == modelName
    {
      if !isSingle then modelName else ""
    }
  }

  // ---------------------------------------------------------------------------
  // The model
  // ---------------------------------------------------------------------------

  /** Suffix of the generated model file, in place of the source's .go. */
  const ModelSuffix: string := "_generated.go"

  /** Suffix of the generated test file, in place of the model file's .go. */
  const TestSuffix: string := "_test.go"

  /** How the path of the generated test file ends. */
  const TestsFileSuffix: string := "_generated_test.go"

  /** The test-file suffix is the model-file suffix with _test put in front of its .go. */
  lemma TestsFileSuffixShape()
    ensures TestsFileSuffix == ModelSuffix[..|ModelSuffix| - 3] + TestSuffix
  {
    assert ModelSuffix[..|ModelSuffix| - 3] == "_generated";
  }

  /** The model file's path ends in _generated.go and keeps everything of the source path before its .go. */
  lemma ModelPathShape(full: string)
    ensures var path := TrimSuffix(full, ".go") + ModelSuffix;
            && HasSuffix(path, ModelSuffix)
            && (var stem := path[..|path| - |ModelSuffix|];
                if HasSuffix(full, ".go") then stem + ".go" == full else stem == full)
            && |path| > |full|
  {
    var stem := TrimSuffix(full, ".go");
    var path := stem + ModelSuffix;
    assert path[..|stem|] == stem;
    assert path[|stem|..] == ModelSuffix;
  }

  /** The test file's path is the model file's with _test put in front of its final .go. */
  lemma TestsPathShape(model: string)
    requires HasSuffix(model, ModelSuffix)
    ensures var path := TrimSuffix(model, ".go") + TestSuffix;
            && HasSuffix(path, ModelSuffix[..|ModelSuffix| - 3] + TestSuffix)
            && path[..|path| - |TestSuffix|] + ".go" == model
            && |path| > |model|
  {
    var n := |model|;
    var head := model[..n - |ModelSuffix|];
    assert model == head + ModelSuffix;
    var stem := head + ModelSuffix[..|ModelSuffix| - 3];
    assert model == stem + ".go";
    assert HasSuffix(model, ".go");
    assert TrimSuffix(model, ".go") == stem;
    var path := stem + TestSuffix;
    assert path == head + (ModelSuffix[..|ModelSuffix| - 3] + TestSuffix);
    assert path[..|path| - |TestSuffix|] == stem;
  }

  /**
    The run stops with an error before the template variables are made: a
    required value is missing, os.Getwd fails, the source cannot be read or
    parsed, or the model's type is not a struct type of the file.
  */
  predicate StopsBeforeGenerating(name: string, fileName: string, packageName: string,
                                  pwd: Result<string, string>, source: Result<SourceFile, string>)
  {
    || CheckRequired(name, fileName, packageName).Some?
    || pwd.Failure? || source.Failure?
    || StructFields(source.value, name, PathJoin(pwd.value, fileName)).Failure?
  }

  /** A model to generate: what the command line gave, completed by setDefault and parseTarget. */
  class Model {
    var name: string
    var table: string
    var fileName: string
    var packageName: string
    var fullPath: string
    var fields: seq<ModelField>
    var excluded: seq<string>
    var isSingle: bool
    var useUUID: bool

    /** The model GenModel builds from the command line; the full path and the fields are not known yet. */
    constructor (name: string, table: string, fileName: string, packageName: string,
                 isSingle: bool, excluded: seq<string>, useUUID: bool)
      ensures this.name == name && this.table == table && this.fileName == fileName
      ensures this.packageName == packageName && this.isSingle == isSingle
      ensures this.excluded == excluded && this.useUUID == useUUID
      ensures fullPath == "" && fields == []
    {
      this.name := name;
      this.table := table;
      this.fileName := fileName;
      this.packageName := packageName;
      this.isSingle := isSingle;
      this.excluded := excluded;
      this.useUUID := useUUID;
      fullPath := "";
      fields := [];
    }

    /**
      setDefault: report the first missing required value; otherwise default an
      empty table name to the snake-case form of the model name and set the
      full path from the working directory `pwd` (a failure of os.Getwd is
      returned after the table name has been defaulted).
    */
    method SetDefault(pwd: Result<string, string>, camelToSnake: string -> string) returns (err: Option<Error>)
      modifies this`table, this`fullPath
      ensures CheckRequired(name, fileName, packageName).Some? ==>
                err == CheckRequired(name, fileName, packageName) && table == old(table) && fullPath == old(fullPath)
      ensures CheckRequired(name, fileName, packageName).None? ==>
                table == (if old(table) == "" then camelToSnake(name) else old(table))
      ensures CheckRequired(name, fileName, packageName).None? && pwd.Failure? ==>
                err == Some(WorkingDirectory(pwd.error)) && fullPath == old(fullPath)
      ensures CheckRequired(name, fileName, packageName).None? && pwd.Success? ==>
                err == None && fullPath == PathJoin(pwd.value, fileName)
    {
      if name == "" {
        return Some(ModelNameMissing);
      }
      if fileName == "" {
        return Some(FileNameMissing);
      }
      if packageName == "" {
        return Some(PackageNameMissing);
      }
      if table == "" {
        table := camelToSnake(name);
      }
      if pwd.Failure? {
        return Some(WorkingDirectory(pwd.error));
      }
      fullPath := PathJoin(pwd.value, fileName);
      return None;
    }

    /**
      parseTarget: look the model up in the file's scope and append, in
      declaration order, the fields of its struct type that are persisted.
    */
    method ParseTarget(file: SourceFile) returns (err: Option<Error>)
      modifies this`fields
      ensures match StructFields(file, name, fullPath)
              case Failure(e) => err == Some(e) && fields == old(fields)
              case Success(decls) => err == None && fields == old(fields) + ExtractFields(decls)
    {
      if name !in file.scope {
        return Some(TypeNotFound(name, fullPath));
      }
      var decl := file.scope[name];
      if !decl.TypeSpec? {
        return Some(NotAType(name));
      }
      if !decl.typeExpr.StructType? {
        return Some(NotAStruct(name));
      }
      var list := decl.typeExpr.fields;
      for i := 0 to |list|
        invariant fields == old(fields) + ExtractFields(list[..i])
      {
        assert list[..i + 1][..i] == list[..i];
        var field := list[i];
        if |field.names| > 0 && IsExported(field.names[0]) {
          if field.tag.None? {
            continue;
          }
          var dbName := DbTag.Match(field.tag.value);
          if dbName.None? {
            continue;
          }
          fields := fields + [ModelField(field.names[0], dbName.value)];
        }
      }
      assert list[..|list|] == list;
      return None;
    }

    /** The path of the generated model file: the source path with its .go replaced by _generated.go. */
    function GeneratedFileNameModel(): (path: string)
      reads this
      ensures HasSuffix(path, ModelSuffix)
      ensures var stem := path[..|path| - |ModelSuffix|];
              if HasSuffix(fullPath, ".go") then stem + ".go" == fullPath else stem == fullPath
      ensures |path| > |fullPath|
    {
      ModelPathShape(fullPath);
      TrimSuffix(fullPath, ".go") + ModelSuffix
    }

    /** The path of the generated test file: the model file's path with _test put in front of its .go. */
    function GeneratedFileNameTests(): (path: string)
      reads this
      ensures HasSuffix(path, TestsFileSuffix)
      ensures path[..|path| - |TestSuffix|] + ".go" == GeneratedFileNameModel()
      ensures |path| > |GeneratedFileNameModel()| > |fullPath|
    {
      TestsPathShape(GeneratedFileNameModel());
      TestsFileSuffixShape();
      TrimSuffix(GeneratedFileNameModel(), ".go") + TestSuffix
    }

    /** The template variables describe this model. */
    ghost predicate Describes(vars: ModelTemplateVars)
      reads this, vars
    {
      && vars.modelName == name
      && vars.modelNameLC == ToLower(name)
      && vars.tableName == table
      && HasModelVar(name) && vars.modelVar == ModelVarFor(name)
      && vars.packageName == packageName
      && vars.isSingle == isSingle && vars.excluded == excluded && vars.useUUID == useUUID
      && vars.fieldsAsArray == FieldsArray(fields)
      && vars.createStmt == InsertStatement(table, fields)
      && vars.updateStmt == UpdateStatement(table, fields)
      && vars.createStmtArgs == "" && vars.updateStmtArgs == ""
    }

    /**
      generateModelFile: fill in FieldsAsArray, CreateStmt and UpdateStmt,
      then render the model template and write the file, which is `written`.
    */
    method GenerateModelFile(vars: ModelTemplateVars, written: Outcome) returns (err: Option<string>)
      modifies vars`fieldsAsArray, vars`createStmt, vars`updateStmt
      ensures vars.fieldsAsArray == FieldsArray(fields)
      ensures vars.createStmt == InsertStatement(vars.tableName, fields)
      ensures vars.updateStmt == UpdateStatement(vars.tableName, fields)
      ensures err == if written.Failed? then Some(written.reason) else None
    {
      var table := vars.tableName;
      var fieldsAsArray := QuoteColumns(fields);
      vars.fieldsAsArray := Join(fieldsAsArray, ListSep);

      var createFields, createValues := CreateLists(fields);
      var createStmt := "INSERT INTO " + table + " (" + Join(createFields, ListSep)
        + ") VALUES (" + Join(createValues, ListSep) + ")";
      InsertText(table, fields, createStmt);
      vars.createStmt := createStmt;

      var updateFields := UpdateList(fields);
      var updateStmt := "UPDATE " + table + " SET " + Join(updateFields, ListSep) + " WHERE id=:id";
      UpdateText(table, fields, updateStmt);
      vars.updateStmt := updateStmt;

      err := if written.Failed? then Some(written.reason) else None;
    }

    /**
      generateAll: create the template variables, derive the receiver variable,
      then produce the model file and, only if that succeeded, the test file.
      Whatever happens to either file, no error is returned.
    */
    method GenerateAll(modelFile: Outcome, testsFile: Outcome)
      returns (vars: ModelTemplateVars, err: Option<Error>, testsAttempted: bool)
      requires HasModelVar(name)
      ensures fresh(vars) && Describes(vars)
      ensures testsAttempted <==> modelFile.Written?
      ensures err == None
    {
      var lower := ToLower(name);
      vars := new ModelTemplateVars(name, lower, table, [lower[0]], packageName, isSingle, excluded, useUUID);
      if vars.modelVar == TestingVar {
        vars.modelVar := vars.modelVar + [lower[1]];
      }
      var modelErr := GenerateModelFile(vars, modelFile);
      testsAttempted := false;
      if modelErr.Some? {
        return vars, None, testsAttempted;
      }
      testsAttempted := true;
      // generateTestsFile renders the test template from the same variables; its outcome is testsFile
      return vars, None, testsAttempted;
    }

    /**
      Parse: validate and default, read and parse the source file (`source`,
      whose failure is any error of opening, reading or parsing it), extract
      the fields, then generate the files. Template variables exist only when
      every step before the generation succeeded.
    */
    method Parse(pwd: Result<string, string>, camelToSnake: string -> string,
                 source: Result<SourceFile, string>, modelFile: Outcome, testsFile: Outcome)
      returns (err: Option<Error>, vars: ModelTemplateVars?)
      requires HasModelVar(name) || StopsBeforeGenerating(name, fileName, packageName, pwd, source)
      modifies this`table, this`fullPath, this`fields
      ensures CheckRequired(name, fileName, packageName).Some? ==>
                err == CheckRequired(name, fileName, packageName) && vars == null
                && table == old(table) && fullPath == old(fullPath) && fields == old(fields)
      ensures CheckRequired(name, fileName, packageName).None? ==>
                table == (if old(table) == "" then camelToSnake(name) else old(table))
      ensures CheckRequired(name, fileName, packageName).None? && pwd.Failure? ==>
                err == Some(WorkingDirectory(pwd.error)) && vars == null
                && fullPath == old(fullPath) && fields == old(fields)
      ensures CheckRequired(name, fileName, packageName).None? && pwd.Success? ==>
                fullPath == PathJoin(pwd.value, fileName)
      ensures CheckRequired(name, fileName, packageName).None? && pwd.Success? && source.Failure? ==>
                err == Some(SourceUnavailable(source.error)) && vars == null && fields == old(fields)
      ensures CheckRequired(name, fileName, packageName).None? && pwd.Success? && source.Success? ==>
                match StructFields(source.value, name, fullPath)
                case Failure(e) => err == Some(e) && vars == null && fields == old(fields)
                case Success(decls) =>
                  && err == None && fields == old(fields) + ExtractFields(decls)
                  && vars != null && fresh(vars) && Describes(vars)
    {
      vars := null;
      err := SetDefault(pwd, camelToSnake);
      if err.Some? {
        return;
      }
      if source.Failure? {
        return Some(SourceUnavailable(source.error)), null;
      }
      assert CheckRequired(name, fileName, packageName).None? && pwd.Success?;
      ghost var path := fullPath;
      assert path == PathJoin(pwd.value, fileName);
      assert HasModelVar(name) || StructFields(source.value, name, path).Failure?;
      err, vars := ExtractAndGenerate(source.value, modelFile, testsFile);
    }

    /** The end of Parse: parseTarget on the parsed file, then generateAll once the fields are known. */
    method ExtractAndGenerate(file: SourceFile, modelFile: Outcome, testsFile: Outcome)
      returns (err: Option<Error>, vars: ModelTemplateVars?)
      requires HasModelVar(name) || StructFields(file, name, fullPath).Failure?
      modifies this`fields
      ensures match StructFields(file, name, fullPath)
              case Failure(e) => err == Some(e) && vars == null && fields == old(fields)
              case Success(decls) =>
                && err == None && fields == old(fields) + ExtractFields(decls)
                && vars != null && fresh(vars) && Describes(vars)
    {
      vars := null;
      err := ParseTarget(file);
      if err.Some? {
        return;
      }
      var v, e, _ := GenerateAll(modelFile, testsFile);
      return e, v;
    }
  }

  /**
    GenModel: parse the exclusion flag, build the model from the command-line
    values and run Parse on it. The flag values are parameters here, and so
    are the inputs Parse takes from the environment.
  */
  method GenModel(name: string, table: string, file: string, packageName: string, single: bool,
                  exclude: string, useUUID: bool, pwd: Result<string, string>, camelToSnake: string -> string,
                  source: Result<SourceFile, string>, modelFile: Outcome, testsFile: Outcome)
    returns (err: Option<Error>, model: Model)
    requires HasModelVar(name) || StopsBeforeGenerating(name, file, packageName, pwd, source)
    ensures fresh(model)
    ensures model.name == name && model.fileName == file && model.packageName == packageName
    ensures model.isSingle == single && model.useUUID == useUUID
    ensures model.excluded == ParseList(exclude)
    ensures CheckRequired(name, file, packageName).Some? ==>
              err == CheckRequired(name, file, packageName) && model.table == table
              && model.fullPath == "" && model.fields == []
    ensures CheckRequired(name, file, packageName).None? ==>
              model.table == (if table == "" then camelToSnake(name) else table)
    ensures CheckRequired(name, file, packageName).None? && pwd.Failure? ==>
              err == Some(WorkingDirectory(pwd.error)) && model.fullPath == "" && model.fields == []
    ensures CheckRequired(name, file, packageName).None? && pwd.Success? ==>
              model.fullPath == PathJoin(pwd.value, file)
    ensures CheckRequired(name, file, packageName).None? && pwd.Success? && source.Failure? ==>
              err == Some(SourceUnavailable(source.error)) && model.fields == []
    ensures CheckRequired(name, file, packageName).None? && pwd.Success? && source.Success? ==>
              match StructFields(source.value, name, PathJoin(pwd.value, file))
              case Failure(e) => err == Some(e) && model.fields == []
              case Success(decls) => err == None && model.fields == ExtractFields(decls)
  {
    var excluded := SplitExcluded(exclude);
    model := new Model(name, table, file, packageName, single, excluded, useUUID);
    var vars;
    err, vars := model.Parse(pwd, camelToSnake, source, modelFile, testsFile);
  }
}
