# Model generator of Nivl/generator, in Dafny

This project models the `model` command of the generator (`src/generate/model.go`). The command takes a Go struct type and a few command-line values. It writes a `_generated.go` file with SQL helpers for the struct, and a `_generated_test.go` file with tests for them. The model covers:

- **Validating and defaulting the command-line values** (`setDefault`). The model name, file name and package name are required, checked in that order. An empty table name becomes the snake-case form of the model name. The full path is the working directory joined with the file name.
- **Extracting the persisted fields** (`parseTarget`). The model name is looked up in the parsed file's top-level scope. It must be a type, and a struct type. Each field that has a name, is exported, has a tag, and whose tag matches the `dbFieldRegex` pattern contributes one model field, in declaration order. That field is its first name mapped to the captured column.
- **The tag pattern** `` `db:"([a-zA-Z0-9_-]+),?.*"` `` (module `DbTag`). It is written as string functions, next to a declarative statement of the match Go's leftmost-first search reports: the leftmost start, and at that start the longest run of name characters the greedy `+` can take while the rest of the pattern still matches. Lemmas prove that the two agree. The pattern has a module of its own because a regular expression has its own semantics, and the generator uses it only through `Match`. Its matcher, its declarative meaning and the lemmas joining them stay apart from the generator's.
- **The statement builder** (`generateModelFile`). It builds the `FieldsAsArray` list, the `INSERT` statement and the `UPDATE` statement, each filled slot by slot into arrays as the Go code does. For at least one field, lemmas prove that each list, read back as a comma-separated list, is exactly one entry per field in field order. With no fields the lists are empty, and `StatementsWithoutFields` states the statements that result. One lemma proves that the `id` column stays in the `SET` list.
- **The template variables** (`generateAll`). The receiver variable is the first letter of the lower-cased model name, or the first two letters when the first is `t`. The model file is produced first. The test file is produced only when the model file succeeds. In every case no error is returned.
- **`Generate` and `OptionalName`**, the two methods the templates call.
- **The two generated file names.**
- **`GenModel`.** It splits the `-exclude` flag on commas and trims every entry in place. A lemma proves that a flag listing capabilities, with any white space before and after each name, yields exactly those capabilities.

Go's `strings` and `path` functions that the code calls are modelled in module `GoLib`: `Join`, `Split`, `TrimSpace`, `TrimSuffix`, `ToLower` and `path.Join`. A `HasSuffix` predicate is there for the contracts. `Split` is proved to be undone by `Join`, and the reverse holds for separator-free pieces. Module `Scenarios` follows the generator through on an example struct `User`. It proves the literal statements, names and paths the generator produces for it. It also covers a model type that the file does not declare, and the error message that results.

Files:

- `wrappers.dfy`: Option and Result.
- `golib.dfy`: the Go library stand-ins.
- `dbtag.dfy`: the tag pattern.
- `generate.dfy`: the data model, the `Model` and `ModelTemplateVars` classes, and the specification functions and lemmas.
- `scenarios.dfy`: the worked example.

Two behaviours of the code are worth stating:

- The `SET` list of the update statement includes a field mapped to `id`, as every other field (`IdColumnStaysInSet`). It is not left out.
- `generateAll` returns nil even when producing a file fails. After a failure on the model file it does not attempt the test file (`Generate.Model.GenerateAll`: `testsAttempted <==> modelFile.Written?` and `err == None`). So GenModel reports no rendering or writing error at all.

## Model

| member | source | states |
|---|---|---|
| DbTag.RunEnd | src/generate/model.go:22 | the `[a-zA-Z0-9_-]+` run from a position is maximal: every character up to the returned end is a name character and the one at the end is not |
| DbTag.MatchAt | src/generate/model.go:22 | a capture at a given start is a non-empty run of name characters |
| DbTag.FindFrom | src/generate/model.go:22 | any capture found scanning from a position is a valid column name |
| DbTag.Match | src/generate/model.go:22 | FindStringSubmatch's capture, when there is one, is non-empty and made of `[a-zA-Z0-9_-]` only |
| DbTag.ClosesFromMeansClosesAt | src/generate/model.go:22 | the scanning test for the tail `,?.*"`` holds exactly when a quote and backtick follow with no newline before them (`.` excludes newline) |
| DbTag.ClosesAtOverNameChars | src/generate/model.go:22 | moving the start of the tail forward over name characters keeps it matching (a name character is never the closing quote) |
| DbTag.MatchAtMeaning | src/generate/model.go:22 | MatchAt succeeds exactly when the pattern matches at that start, and then captures the longest such run |
| DbTag.LeftmostStep | src/generate/model.go:22 | with no match at a position, the match reported from the next position on is also the one reported from it |
| DbTag.FindFromNone | src/generate/model.go:22 | scanning finds nothing exactly when no match starts at or after the position |
| DbTag.FindFromSome | src/generate/model.go:22 | what scanning finds is the capture of the leftmost match, taken greedily |
| DbTag.MatchMeaning | src/generate/model.go:22 | Match is None iff the pattern matches nowhere in the tag. Otherwise it returns the capture Go's leftmost-first search reports: the leftmost start, with the greedy `+` taking the longest run after which the rest still matches (by ClosesAtOverNameChars, a shorter run closes only where that one does) |
| DbTag.LeadingDbKeyCaptured | src/generate/model.go:307-316 | a tag `` `db:"name…"` `` whose name is followed by a non-name character and no newline yields exactly that name |
| DbTag.CapturedRun | src/generate/model.go:22 | in such a tag the run of name characters after `db:"` ends exactly at the end of the name |
| DbTag.ClosedAfterRest | src/generate/model.go:22 | newline-free text ending in a quote and backtick closes the pattern |
| DbTag.ClosesBefore | src/generate/model.go:22 | a quote and backtick reached with no newline in between closes the pattern |
| DbTag.NoMatchWithoutBacktick | src/generate/model.go:22 | no match can start where no backtick follows |
| DbTag.DbKeyMustComeFirst | src/generate/model.go:22 | for a single backtick-delimited tag only a match at its start counts, so the db key must come first |
| DbTag.OtherFirstKeySkipped | src/generate/model.go:309-311 | a tag whose first key is not db (such as `json:"…" db:"…"`) is skipped |
| DbTag.EmptyDbValueSkipped | src/generate/model.go:309-311 | a db key with an empty value is skipped (the capture needs one character) |
| GoLib.JoinEnds | src/generate/model.go:164 | strings.Join of no elements is empty, and otherwise starts with the first element and ends with the last |
| GoLib.Split | src/generate/model.go:328 | strings.Split gives at least one piece, no piece holds the separator, and joining the pieces with it gives the input back |
| GoLib.JoinInjective | src/generate/model.go:328 | text joined from separator-free pieces determines the pieces |
| GoLib.SplitJoin | src/generate/model.go:328 | Split undoes Join for separator-free pieces |
| GoLib.SplitJoinPadded | src/generate/model.go:328 | splitting a list joined with `,` plus padding gives the entries back, each later one with the padding in front |
| GoLib.TrimLeadingSpace | src/generate/model.go:330 | only leading white space is removed, and no white space is left at the front |
| GoLib.TrimTrailingSpace | src/generate/model.go:330 | only trailing white space is removed, and no white space is left at the end |
| GoLib.TrimSpace | src/generate/model.go:330 | the result neither starts nor ends with Unicode white space |
| GoLib.TrimSpaceOfTrimmed | src/generate/model.go:330 | TrimSpace is the identity on trimmed text |
| GoLib.TrimSpacePadded | src/generate/model.go:330 | white space put in front of trimmed text is removed again |
| GoLib.TrimSpaceAround | src/generate/model.go:330 | white space put on both sides of trimmed text is removed again |
| GoLib.ToLower | src/generate/model.go:250 | same length, every capital `A`-`Z` becomes its small letter (32 code points on), every other code point is kept, so no capital is left |
| GoLib.PathJoin | src/generate/model.go:122 | the joined path starts with the directory, ends with the file name, and has exactly one `/` between them when both are present |
| GoLib.TrimSuffix | src/generate/model.go:276 | the suffix is removed once when present, and the string is unchanged otherwise |
| Generate.Message | src/generate/model.go:103-296 | the errors of os.Getwd and of reading the source pass through with their own text; the type messages start with the type's name, and the missing-type one ends with the file's path |
| Generate.IsExported | src/generate/model.go:302 | a name is exported iff its first letter is one that lower-casing changes (a capital) |
| Generate.CheckRequired | src/generate/model.go:101-112 | the first missing value of name, file name and package name is reported, in that order, and none exactly when all three are set |
| Generate.FieldOf | src/generate/model.go:302-316 | a field list entry contributes a field iff it has a name, its first name is exported, it has a tag and the tag matches; the field is the first name with the captured column |
| Generate.ExtractFields | src/generate/model.go:299-320 | no more model fields than entries, every one exported with a valid column name (that each entry gives at most one field, in order, is ExtractFieldsAppend with ExtractFieldsSingle) |
| Generate.ExtractFieldsAppend | src/generate/model.go:299-320 | extraction distributes over concatenation, so declaration order is kept |
| Generate.ExtractFieldsSingle | src/generate/model.go:302-319 | one entry gives its field or nothing |
| Generate.ExtractFieldsMembers | src/generate/model.go:299-320 | a field is extracted iff some entry of the list contributes it |
| Generate.StructFields | src/generate/model.go:286-297 | the three lookup errors (not found, not a type, not a struct) each occur exactly in their case, and success gives the struct's field list |
| Generate.Model.ParseTarget | src/generate/model.go:285-323 | on a lookup error the fields are unchanged and that error is returned; otherwise the extracted fields are appended to the existing ones |
| Generate.Model.SetDefault | src/generate/model.go:101-124 | the required-value errors leave the model unchanged; otherwise the table is defaulted, then a Getwd failure is returned, or the full path is the working directory joined with the file name |
| Generate.Model.ExtractAndGenerate | src/generate/model.go:150-154 | the tail of Parse: a lookup error is returned with the fields unchanged and no template variables; otherwise the extracted fields are appended and the new variables describe the model |
| Generate.Model.Parse | src/generate/model.go:127-155 | each failing step returns its error, produces no template variables and leaves what it has not reached unchanged; when every step succeeds the variables describe the validated model and its extracted fields |
| Generate.Model.constructor | src/generate/model.go:333-341 | the model holds the command-line values, with no path and no fields yet |
| Generate.ModelTemplateVars.constructor | src/generate/model.go:248-257 | the variables generateAll sets up front, with the statements still empty |
| Generate.ModelTemplateVars.Generate | src/generate/model.go:81-88 | a member is generated iff the exclusion list does not contain its name |
| Generate.ModelTemplateVars.OptionalName | src/generate/model.go:92-98 | the model name when not single, the empty string when single |
| Generate.QuoteColumns | src/generate/model.go:160-163 | the slice filled by index holds every column quoted, in field order |
| Generate.CreateLists | src/generate/model.go:167-172 | the two slices filled by index hold each column and its placeholder, in field order |
| Generate.UpdateList | src/generate/model.go:181-185 | the slice filled by index holds `col=:col` for every column, in field order |
| Generate.FieldsArray | src/generate/model.go:160-164 | FieldsAsArray is the fields' columns, each in double quotes, joined with `", "`: empty without fields, otherwise it starts with the first field's quoted column and ends with the last one's |
| Generate.InsertStatement | src/generate/model.go:173-178 | the insert statement is `INSERT INTO <table> (<columns>) VALUES (<placeholders>)`, both lists joined with `", "`: it starts with `INSERT INTO <table> (` and ends with `)` |
| Generate.UpdateStatement | src/generate/model.go:186-190 | the update statement is `UPDATE <table> SET <col=:col, …> WHERE id=:id`: it starts with `UPDATE <table> SET ` and ends with ` WHERE id=:id` |
| Generate.ParseList | src/generate/model.go:328-331 | the exclude flag split on commas with each entry trimmed: at least one entry, every entry trimmed, and exactly one entry when the flag has no comma |
| Generate.Model.GenerateModelFile | src/generate/model.go:158-216 | FieldsAsArray, CreateStmt and UpdateStmt are set to the statement specifications over the model's fields and the variables' table, and the write outcome is returned |
| Generate.ParseJoinedList | src/generate/model.go:328-331 | splitting on commas and trimming undoes joining list entries with a comma followed by the same white space after every comma |
| Generate.ParseSpacedList | src/generate/model.go:328-331 | splitting on commas and trimming undoes joining with commas list entries that each have their own white space before and after them |
| Generate.TrimmedPadded | src/generate/model.go:330 | trimming removes padding put in front of trimmed entries |
| Generate.DbNameIsListItem | src/generate/model.go:22 | a captured column name holds no comma and no white space |
| Generate.ItemsWithoutComma | src/generate/model.go:162-184 | a column's quoted form, placeholder and assignment are list entries too |
| Generate.ColumnItems | src/generate/model.go:160-185 | every column of well-formed fields and each of its decorated forms is a list entry |
| Generate.ColumnsReadBack | src/generate/model.go:173-178 | the column list of the insert statement reads back as the fields' columns, in order |
| Generate.PlaceholdersReadBack | src/generate/model.go:173-178 | the VALUES list reads back as one placeholder per column, in order |
| Generate.AssignmentsReadBack | src/generate/model.go:186-190 | the SET list reads back as one `col=:col` per column, in order |
| Generate.FieldsArrayReadBack | src/generate/model.go:160-164 | FieldsAsArray reads back as one quoted column per field, in order |
| Generate.StatementsWithoutFields | src/generate/model.go:158-190 | with no fields the statements have empty lists and FieldsAsArray is empty |
| Generate.AssignmentSurvives | src/generate/model.go:183-190 | every field's assignment is an entry of the SET list |
| Generate.IdColumnStaysInSet | src/generate/model.go:186-190 | a field mapped to id is still assigned in the SET list, next to `WHERE id=:id` |
| Generate.ModelVarFor | src/generate/model.go:252-263 | the receiver variable is the shortest non-empty prefix of the lower-cased name that differs from the testing variable t |
| Generate.Model.GenerateAll | src/generate/model.go:247-272 | the variables describe the model, the test file is attempted iff the model file was written, and no error is returned |
| Generate.ExcludeFlagRoundTrip | src/generate/model.go:328-331 | a flag listing capabilities separated by commas, each name with any white space of its own before and after it, parses to exactly that list |
| Generate.EmptyFlagExcludesNothing | src/generate/model.go:328-331 | an empty flag parses to one empty entry, which names no capability |
| Generate.SplitExcluded | src/generate/model.go:328-331 | the exclusion list is the flag split on commas with every entry trimmed |
| Generate.TrimAll | src/generate/model.go:328-331 | the split pieces, put in a slice and trimmed in place, are the trimmed pieces |
| Generate.TrimEntries | src/generate/model.go:329-331 | every slot of the slice is trimmed in place, and nothing else changes |
| Generate.ModelPathShape | src/generate/model.go:275-277 | the model path ends in `_generated.go` and keeps the source path before its `.go` |
| Generate.TestsPathShape | src/generate/model.go:280-282 | the test path ends in `_generated_test.go` and is the model path with `_test` put in front of its `.go` |
| Generate.Model.GeneratedFileNameModel | src/generate/model.go:275-277 | the model file's path ends in `_generated.go`, keeps the source path before its `.go` (or all of it when there is none), and is longer |
| Generate.Model.GeneratedFileNameTests | src/generate/model.go:280-282 | the test file's path ends in `_generated_test.go`, is the model file's path with `_test` before `.go`, and is longer still |
| Generate.GenModel | src/generate/model.go:326-344 | the model gets the flag values and the parsed exclusion list. The error is that of the first failing step, with the table, path and fields as far as the run got (no fields on any error). Otherwise there is no error and the extracted fields are in place |
| Scenarios.IdTagMatches | src/generate/model.go:307-316 | `` `db:"id"` `` yields id |
| Scenarios.NameTagMatches | src/generate/model.go:307-316 | `` `db:"name,omitempty"` `` yields name, without the options |
| Scenarios.EmailTagSkipped | src/generate/model.go:307-311 | `` `json:"email" db:"email"` `` yields nothing |
| Scenarios.EmptyTagSkipped | src/generate/model.go:307-311 | `` `db:""` `` yields nothing |
| Scenarios.UserDecl0 | src/generate/model.go:302-316 | the tagged exported field ID is kept with column id |
| Scenarios.UserDecl1 | src/generate/model.go:302-316 | the field Name is kept with column name |
| Scenarios.UserDeclsSkipped | src/generate/model.go:302-305 | an unexported field, an embedded field and an untagged field are skipped |
| Scenarios.UserDecl5 | src/generate/model.go:307-311 | a field whose tag does not start with the db key is skipped |
| Scenarios.KeepsFirstTwo | src/generate/model.go:299-320 | of six entries of which only the first two are eligible, exactly their two fields are kept, in order |
| Scenarios.UserFieldsExtracted | src/generate/model.go:299-320 | the example struct yields the fields ID→id and Name→name |
| Scenarios.UserLists | src/generate/model.go:160-185 | the example's columns, placeholders, assignments and quoted columns |
| Scenarios.UserJoinedLists | src/generate/model.go:164-189 | the example's lists joined with `, ` |
| Scenarios.UserInsert | src/generate/model.go:173-178 | `INSERT INTO users (id, name) VALUES (:id, :name)` |
| Scenarios.UserUpdate | src/generate/model.go:186-190 | `UPDATE users SET id=:id, name=:name WHERE id=:id` |
| Scenarios.UserFieldsArray | src/generate/model.go:160-164 | `"id", "name"` |
| Scenarios.ExampleModelVars | src/generate/model.go:252-263 | User gives u, Tag gives ta, tree gives tr |
| Scenarios.ExampleFileNames | src/generate/model.go:275-282 | `/src/models/user.go` gives `user_generated.go` and `user_generated_test.go` |
| Scenarios.ExampleExcluded | src/generate/model.go:328-331 | the flag `Delete , Update`, with a space before and a space after the comma, excludes Delete and Update |
| Scenarios.ParseUser | src/generate/model.go:127-155 | Parse on the example succeeds and its variables are those of the example's fields, table and receiver variable |
| Scenarios.ParseMissingType | src/generate/model.go:286-289 | Parse for a one-letter model T that the file does not declare stops at the lookup, with no template variables, and reports the missing-type error |
| Scenarios.MissingTypeMessage | src/generate/model.go:288 | the text of that error |
| Scenarios.GenerateUser | src/generate/model.go:158-282 | the whole run on the example gives the literal statements, FieldsAsArray, receiver variable, exclusion list and both file paths |

## Left out

- Rendering the two templates, the template texts themselves and the TrimSpace of the rendered output are not modelled. The model template (`modelTpl`) is not part of this model. What rendering and writing a file come to is an `Outcome` parameter (written, or failed with a reason).
- File I/O is not modelled: opening and reading the source, creating and writing the generated files. Printing template errors is not modelled either. A failure to open, read or parse the source is the `source` parameter's failure, reported as `SourceUnavailable`.
- go/parser is replaced by the `SourceFile` datatype: the file's top-level scope, and for struct types each field's names and raw tag literal. What Go accepts as a source file is not modelled.
- os.Getwd is a `Result` parameter. snaker.CamelToSnake is an uninterpreted function parameter. The cli flag lookups (`c.Args().First()`, `c.String`, `c.BoolT`) are the parameters of GenModel.
- GoLib.PathJoin: path.Join's final path.Clean (collapsing `//`, `.` and `..`) is not modelled. The two elements are joined with one slash, and empty elements are skipped.
- Generate.IsExported: ast.IsExported tests unicode.IsUpper of the first rune. The model accepts only the ASCII capitals A to Z.
- GoLib.ToLower: lower-cases ASCII letters only. Go's strings.ToLower maps every Unicode letter. A Go string is modelled as its code points, so taking the first byte of the lower-cased name for the receiver variable is modelled as taking its first code point. The two agree for ASCII names.
- GoLib.TrimSpace: the function's own contract states only that the result is trimmed. That only white space is removed, and only at the ends, is stated by the contracts of TrimLeadingSpace and TrimTrailingSpace, which it is composed of.
- Generate.Model.GenerateAll: requires a name whose receiver variable exists. For a one-letter name that lower-cases to t, the Go code indexes past the end of the string and panics. Generate.Model.Parse and Generate.GenModel require only that the run does not reach that point with such a name: either the name has a receiver variable, or an earlier step fails (`StopsBeforeGenerating`). Every run that ends with an ordinary error in Go, including one for a name t or T, is within the model. Only the panic is not modelled.
- Generate.GenModel: returns the model it ran Parse on, in addition to the error, so that its postcondition can speak of the model's fields. The Go function returns only the error.
- Generate.Model.GenerateModelFile: the error of creating the generated file's path is folded into the single `written` outcome.
- A failure of the test file (`testsFile`) has no effect on the result, as in the code. It is a parameter only so that the call is visible.
- Concurrency and memory aliasing among `*ModelField` pointers are not modelled. Fields are values.
