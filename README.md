# sql_to_fnc in Dafny

`sql_to_fnc` is a one-shot code generator. It reads a PostgreSQL
`CREATE TABLE` script and writes files for that table:

- PL/pgSQL functions to get, delete, list and save rows;
- NestJS data-transfer objects;
- end-to-end test fixtures;
- Angular edit and list components.

This project models the string logic under those templates, and under the Angular
edit and list components that `src/sql_to_fnc-www.lib.ts` writes:

- the line scanner that turns the script into a schema name, a table name, a sequence name and an ordered list of fields;
- the type-category predicates and per-type mappings;
- the per-field loops that build the generated text.

The fixed template text around those loops is written out as string
constants, so each generated file is modelled as a whole.

Modules:

- `JsText` (`jstext.dfy`) models the JavaScript string built-ins the source relies on: `trim`, `split(/\s+/)`, `split(c)`, `toUpperCase`, `indexOf`, `substring`, `slice(0, -2)`. It also holds:
  - the specification functions of the generators' loops: `Terminated` (every item followed by a separator), `Joined` (separators between items) and `Concat`;
  - the lemma that stripping the last `",\n"` turns the first into the second;
  - the lemma that a joined list reads back line by line;
  - `AppendEach`, the shared append loop.
- `Definitions` (`definitions.dfy`) holds the data model:
  - `FieldDefinition` (name, type, not-null flag, optional description);
  - `Table`, whose table name is optional because `'s'.split('.')[1]` is `undefined`;
  - `OutputFile`, a path and a text;
  - `Option` and `Result`.
- `Common` (`common.dfy`) covers `src/common.ts`: `capitalize` and the four type categories.
- `Scanner` (`scanner.dfy`) covers `sql_to_fnc.ts`:
  - the command-line checks;
  - `Scan`, the specification of the scan: a fold over the classified lines;
  - `ScanDefinition`, the source's `forEach` with its mutable accumulators, proved equal to `Scan`;
  - lemmas that say what the scan computes without replaying it.
- `SqlLib` (`sqllib.dfy`) covers `src/sql_to_fnc-sql.lib.ts`: `sqlData`, `getFunctionList`, the GET/DELETE/LIST texts and the SAVE text built by two loops.
- `TestLib` (`testlib.dfy`) covers `src/sql_to_fnc-test.lib.ts`: `testData`, the valid/wrong item fixtures, the list-filter fixture and the fetch-by-id request.
- `ApiLib` (`apilib.dfy`) covers `src/sql_to_fnc-api.lib.ts`:
  - the local `isString`;
  - the DTO property loop with its decorators;
  - the filter DTO;
  - the order in which the two DTO files are written.
- `WwwLib` (`wwwlib.dfy`) covers `src/sql_to_fnc-www.lib.ts`, the Angular emitter:
  - the edit component's form-group loop (initial value by category, `Validators.required` for NOT NULL);
  - `generateFormField` (slide toggle, datepicker or plain input) and the edit template's loop;
  - the list component's `displayedColumns` loop and the template's column loop;
  - the key-field choices: search on the second field, edit and delete by the first;
  - the order in which `generateAngularModule` writes the four component files, and the throw on a short field list.

Uncaught `TypeError`s are part of the model, as the `None`/`Err` results or the `crashed` flag of the members that can throw. They come from three places:

- reading `elems[2]` of a short `CREATE` line, or `elems[1]` of a one-token field line;
- indexing `fieldArray[0]` or `fieldArray[1]` of a list that is too short (in the SQL, test, DTO and Angular emitters);
- `capitalize` of an undefined table name.

The model follows the code where the project's own description promises more:

- there is no default schema: a bare `CREATE TABLE t` gives schema `t` and an undefined table name;
- `COMMENT ON ...` lines are not skipped, and they become fields;
- no field description is ever set;
- the four type categories are not total: `TIMESTAMPTZ` and `NUMERIC` are in none of them.

## Model

| member | source | states |
|---|---|---|
| `Common.Capitalize` | src/common.ts:3-5 | length is kept; the first character is upper-cased and the rest is unchanged; `""` stays `""` |
| `Common.CapitalizeIdempotent` | src/common.ts:3-5 | capitalizing twice is capitalizing once, and the upper-case form is unchanged |
| `Common.IsNumber` | src/common.ts:7-12 | exact membership of the upper-cased type in the number list; its properties are stated by `CategoriesDisjoint`, `CategoriesNotTotal` and `CategoriesCaseInsensitive` |
| `Common.IsString` | src/common.ts:14-19 | exact membership of the upper-cased type in the string list; stated by the same three lemmas |
| `Common.IsBoolean` | src/common.ts:21-26 | exact membership of the upper-cased type in the boolean list; stated by the same three lemmas |
| `Common.IsDate` | src/common.ts:28-33 | exact membership of the upper-cased type in the date list; stated by the same three lemmas |
| `Common.CategoriesDisjoint` | src/common.ts:7-33 | no type is in two of number/string/boolean/date |
| `Common.CategoriesNotTotal` | src/common.ts:7-33 | `TIMESTAMPTZ` and `NUMERIC` are in no category |
| `Common.CategoriesCaseInsensitive` | src/common.ts:7-33 | each category depends only on the upper-cased type |
| `Scanner.Tokens` | sql_to_fnc.ts:36 | the tokens of a trimmed line: never empty, hold no white space, and the first is empty iff the line is blank; woven back with the white-space runs between them they give the trimmed line, so the k-th token is the k-th word |
| `Scanner.Classify` | sql_to_fnc.ts:36-52 | what the `forEach` body makes of one line; stated by `ClassifyCreate`, `ClassifySkipped`, `ClassifyField` and `ClassifyThrowing` |
| `Scanner.Step` | sql_to_fnc.ts:36-61 | how one classified line changes the accumulators; stated by `SkippedLineChangesNothing`, `CreateLineAddsNoField`, `FieldLineAppendsOneField`, and tied to the loop by `ScanLine` |
| `Scanner.SequenceIn` | sql_to_fnc.ts:54-60 | a line names a sequence iff its upper-cased form contains `NEXTVAL(`; the name runs from 9 characters after that up to the next `'`, or is the line up to that point when no quote follows |
| `Scanner.ClassifyCreate` | sql_to_fnc.ts:37-41 | a line names the table iff its first token upper-cases to `CREATE` and it has 3 tokens; the schema is the third token up to its first `.`, and the table is the part between the first and second `.`, absent without a `.` |
| `Scanner.ClassifySkipped` | sql_to_fnc.ts:42-47 | a line is skipped iff it is not a CREATE line and is blank or starts with `(` or `)` |
| `Scanner.ClassifyField` | sql_to_fnc.ts:48-52 | every other line with 2 tokens is a field: its name is the first token and its type the second upper-cased; not-null iff the upper-cased line contains `NOT NULL`; no description |
| `Scanner.ClassifyThrowing` | sql_to_fnc.ts:37-52 | a line throws iff it is a CREATE line with fewer than 3 tokens or a field line with 1 token |
| `Scanner.ScanLine` | sql_to_fnc.ts:36-61 | the `forEach` body changes the accumulators exactly as one step of the scan fold |
| `Scanner.ScanDefinition` | sql_to_fnc.ts:30-62 | the loop over the lines gives exactly the scan of the split text |
| `Scanner.ScanErrorPersists` | sql_to_fnc.ts:35-62 | once a prefix of the lines throws, the whole scan reports that line |
| `Scanner.ExtName` | sql_to_fnc.ts:18 | the extension is empty iff the last path component (trailing `/` ignored) has no `.` after its first character or is `..`; otherwise it is a suffix of the path, shorter than the component, that starts with the component's last `.` and holds no other `.` and no `/` |
| `Scanner.ExtNameOfFile` | sql_to_fnc.ts:18 | a path ending in `.<ext>` (no `.` or `/` in `ext`) has extension `.<ext>` |
| `Scanner.ExtNameDotDot` | sql_to_fnc.ts:18 | `..` has no extension |
| `Scanner.ExtNameLeadingDot` | sql_to_fnc.ts:18 | a last component that starts with its only `.` has no extension |
| `Scanner.Run` | sql_to_fnc.ts:7-67 | exit for a missing argument, a missing file, a non-`.SQL` extension (case-insensitive), a crashed scan, or an empty schema; each is exactly characterised, and a successful run returns the scan |
| `Scanner.ScanOkIffNoThrow` | sql_to_fnc.ts:35-62 | the scan succeeds iff no line throws |
| `Scanner.ScanReportsFirstThrow` | sql_to_fnc.ts:35-62 | a failing scan reports the first line that throws |
| `Scanner.ScanFieldsFollowFieldLines` | sql_to_fnc.ts:48-52 | the k-th field is the one the k-th field line declares, so the fields are as many as the field lines and come in line order |
| `Scanner.ScanNamesFromLastCreate` | sql_to_fnc.ts:37-41 | the schema and table names come from the last CREATE line; without one the schema stays empty |
| `Scanner.ScanSequenceFromLastLine` | sql_to_fnc.ts:54-60 | the sequence name comes from the last field line naming one, otherwise it is empty |
| `Scanner.SkippedLineChangesNothing` | sql_to_fnc.ts:42-47 | a skipped line leaves the whole state unchanged |
| `Scanner.CreateLineAddsNoField` | sql_to_fnc.ts:37-41 | a CREATE line sets only the two names |
| `Scanner.FieldLineAppendsOneField` | sql_to_fnc.ts:48-52 | a field line appends exactly its field and keeps the names |
| `Scanner.ScannedFieldsWellFormed` | sql_to_fnc.ts:48-52 | every scanned field has a non-empty name, an upper-case type without white space, and no description |
| `JsText.StripTrailingSeparator` | src/sql_to_fnc-sql.lib.ts:15 | `slice(0, -2)` of items each followed by `",\n"` is the items joined by `",\n"`; with no items it cuts the text before them |
| `JsText.JoinedLines` | src/sql_to_fnc-sql.lib.ts:10-16 | a `",\n"`-joined list of one-line items reads back as one line per item, each but the last ending in a comma |
| `SqlLib.SqlData` | src/sql_to_fnc-sql.lib.ts:18-34 | the JSON value expression of one column; stated by `SqlDataReadsField`, `SqlDataForms`, `SqlDataByCategory`, `SqlDataCaseSensitive`, `SqlDataSingleLine` |
| `SqlLib.SqlDataReadsField` | src/sql_to_fnc-sql.lib.ts:18-34 | every SQL value expression reads the field's JSON member |
| `SqlLib.SqlDataForms` | src/sql_to_fnc-sql.lib.ts:18-34 | the expression has a `COALESCE(` form iff the type is exactly `BOOL`, and a `CAST(` form ending `as <type>)` iff the type is one of the six cast types; otherwise it is the bare member |
| `SqlLib.SqlDataByCategory` | src/sql_to_fnc-sql.lib.ts:18-34 | for an upper-case type: boolean gives COALESCE, number and date give CAST, string gives the bare member; `TIMESTAMPTZ` is cast though it is in no category |
| `SqlLib.SqlDataCaseSensitive` | src/sql_to_fnc-sql.lib.ts:18-34 | the dispatch is on the exact type: `int4` is a number yet is not cast |
| `SqlLib.SqlDataSingleLine` | src/sql_to_fnc-sql.lib.ts:18-34 | one-line name and type give a one-line expression |
| `SqlLib.GetFunctionList` | src/sql_to_fnc-sql.lib.ts:10-16 | the loop and slice give the column items joined by `",\n"` in field order, with no trailing separator |
| `SqlLib.FunctionListLines` | src/sql_to_fnc-sql.lib.ts:10-16 | the column list reads back as one `          <field>` line per field, each but the last ending in a comma |
| `SqlLib.GetSql` | src/sql_to_fnc-sql.lib.ts:47-68 | the GET function text; stated by `GetKeyedByFirstField` |
| `SqlLib.DeleteSql` | src/sql_to_fnc-sql.lib.ts:70-91 | the DELETE function text; stated by `DeleteKeyedByFirstField` |
| `SqlLib.ListSql` | src/sql_to_fnc-sql.lib.ts:93-116 | the LIST function text; stated by `ListSelectsColumns` |
| `SqlLib.SaveSql` | src/sql_to_fnc-sql.lib.ts:118-163 | the SAVE function text; built by `GenerateSave` and stated by `SaveKeyedByFirstField` and `SaveListsLines` |
| `SqlLib.GetKeyedByFirstField` | src/sql_to_fnc-sql.lib.ts:47-68 | GET selects the column list from the row chosen by `WHERE <first field> = a_id` |
| `SqlLib.DeleteKeyedByFirstField` | src/sql_to_fnc-sql.lib.ts:70-91 | DELETE holds both `PERFORM 1 FROM <schema>.<table> WHERE <first field> = a_id` and `DELETE FROM <schema>.<table> WHERE <first field> = a_id` |
| `SqlLib.ListSelectsColumns` | src/sql_to_fnc-sql.lib.ts:93-116 | LIST selects the same column list as GET |
| `SqlLib.GenerateSave` | src/sql_to_fnc-sql.lib.ts:118-163 | the two append loops and slices build the SAVE text: one `field = sqlData` per field joined by `",\n"`, then the column list, then one `sqlData` per field joined by `",\n"` |
| `SqlLib.SaveKeyedByFirstField` | src/sql_to_fnc-sql.lib.ts:119-146 | SAVE reads `f_id` from the first field, updates `WHERE <first field> = f_id`, and inserts with `nextval('<sequence>'::regclass)` |
| `SqlLib.SaveListsLines` | src/sql_to_fnc-sql.lib.ts:134-150 | the SET and VALUES lists read back one line per field without a trailing comma, and VALUES has as many lines as the column list |
| `SqlLib.GenerateSql` | src/sql_to_fnc-sql.lib.ts:36-164 | nothing is written exactly when there are no fields, because the GET text throws on `fieldArray[0]` before the first write |
| `SqlLib.GenerateSqlFiles` | src/sql_to_fnc-sql.lib.ts:36-164 | with fields, four files are written at four different paths: the i-th is the i-th of GET, DELETE, LIST, SAVE, at `dist/sql/fnc_<schema>.<table>_<op>.sql`, holding that operation's text |
| `SqlLib.SqlPathInjective` | src/sql_to_fnc-sql.lib.ts:68-163 | two operations' files share a path iff the operations are the same |
| `SqlLib.OperationFiles` | src/sql_to_fnc-sql.lib.ts:68-163 | one file per operation, in the order GET, DELETE, LIST, SAVE, each at its operation's path with its text, no two at the same path |
| `TestLib.TestData` | src/sql_to_fnc-test.lib.ts:7-23 | the sample value of one column; stated by `TestDataMatchesSqlData` and `TestDataByCategory` |
| `TestLib.TestDataMatchesSqlData` | src/sql_to_fnc-test.lib.ts:7-23 | the fixture value is `true`, `0` or `''` exactly when the SQL expression has the COALESCE, CAST or bare form |
| `TestLib.TestDataByCategory` | src/sql_to_fnc-test.lib.ts:7-23 | for an upper-case type: boolean gives `true`, number and date give `0`, string gives `''` |
| `TestLib.GenerateTestData` | src/sql_to_fnc-test.lib.ts:159-179 | with fewer than 2 fields it throws; otherwise the valid and wrong items each hold one `field: testData` entry per field joined by `",\n"`, followed by the filter fixture |
| `TestLib.TestDataText` | src/sql_to_fnc-test.lib.ts:159-179 | the whole test-data file; built by `GenerateTestData` and stated by `ItemsAgree`, `ItemLines` and `FilterUsesSecondField` |
| `TestLib.FilterFixture` | src/sql_to_fnc-test.lib.ts:173-179 | the list-filter fixture; stated by `FilterUsesSecondField` |
| `TestLib.ItemsAgree` | src/sql_to_fnc-test.lib.ts:159-171 | both items have one entry per field, and each valid entry is the wrong entry indented 3 more |
| `TestLib.ItemLines` | src/sql_to_fnc-test.lib.ts:159-171 | both item bodies read back as one line per field, each but the last ending in a comma |
| `TestLib.FilterUsesSecondField` | src/sql_to_fnc-test.lib.ts:173-179 | the list filter filters and sorts on the second field |
| `TestLib.FetchByIdRequest` | src/sql_to_fnc-test.lib.ts:125 | the fetch-by-id request addresses the item by its first field |
| `ApiLib.ApiIsString` | src/sql_to_fnc-api.lib.ts:18-25 | the file's own `isString`, a substring test; stated by `SharedStringIsApiString`, `ApiStringWider` and `NumberIsNeverApiString` |
| `ApiLib.SharedStringIsApiString` | src/sql_to_fnc-api.lib.ts:18-25 | every type the shared `isString` accepts is a string here too |
| `ApiLib.ApiStringWider` | src/sql_to_fnc-api.lib.ts:18-25 | `varchar(50)` is a string here but in no shared category |
| `ApiLib.NumberIsNeverApiString` | src/sql_to_fnc-api.lib.ts:11-25 | no number type contains a string type name |
| `ApiLib.TsType` | src/sql_to_fnc-api.lib.ts:47-48 | the TypeScript type is `number` iff the field is a number, else `string` |
| `ApiLib.Decorators` | src/sql_to_fnc-api.lib.ts:49-51 | the class-validator decorators of one property; stated by `DecoratorsIff` |
| `ApiLib.DecoratorsIff` | src/sql_to_fnc-api.lib.ts:49-51 | the three decorators follow not-null, number and string respectively; number and string never come together; they appear in that order |
| `ApiLib.AppendDtoProperty` | src/sql_to_fnc-api.lib.ts:46-57 | one iteration appends exactly the property: decorators, `@ApiProperty` block, declaration |
| `ApiLib.AppendDtoProperties` | src/sql_to_fnc-api.lib.ts:45-58 | the loop appends one property per field, in input order |
| `ApiLib.DtoText` | src/sql_to_fnc-api.lib.ts:40-59 | the DTO file text; built by `GenerateDto` |
| `ApiLib.GenerateDto` | src/sql_to_fnc-api.lib.ts:40-59 | the DTO is the opening naming `<Capitalized table>Dto`, one property per field in order, then `}` |
| `ApiLib.FilterDto` | src/sql_to_fnc-api.lib.ts:65-105 | the filter DTO text; stated by `FilterDtoSearchesSecondField` |
| `ApiLib.FilterDtoSearchesSecondField` | src/sql_to_fnc-api.lib.ts:65-105 | the filter DTO declares and describes the second field as its string search property |
| `ApiLib.DtoPathsDistinct` | src/sql_to_fnc-api.lib.ts:60-106 | the DTO file and the filter DTO file never share a path |
| `ApiLib.GenerateApiDtos` | src/sql_to_fnc-api.lib.ts:27-106 | it throws iff the table name is undefined or there are fewer than 2 fields; an undefined name throws before anything is written; otherwise the DTO file (`DtoText`) is written first at `dist/api/dto/<Table>.dto.ts`, and the filter DTO file (`FilterDto`) follows iff there are 2 fields; no two files share a path |
| `WwwLib.AppendFormControl` | src/sql_to_fnc-www.lib.ts:234-245 | one iteration of the form-group loop appends exactly the field's control and a line break |
| `WwwLib.AppendFormControls` | src/sql_to_fnc-www.lib.ts:234-245 | the loop appends one control line per field, in input order |
| `WwwLib.GenerateEditTs` | src/sql_to_fnc-www.lib.ts:203-284 | the edit component is the opening, the form-group controls of all fields, then the closing |
| `WwwLib.ControlRequiredIff` | src/sql_to_fnc-www.lib.ts:243 | a control ends with `, Validators.required],` iff its field is NOT NULL |
| `WwwLib.ControlFacts` | src/sql_to_fnc-www.lib.ts:235-244 | a control starts with `      <field>: [`, is required iff the field is NOT NULL, and is one line when the name is |
| `WwwLib.FormControlLines` | src/sql_to_fnc-www.lib.ts:234-245 | read back line by line, the form group has one line per field in input order, each starting with its field's name and required iff the field is NOT NULL, and nothing after the last line break |
| `WwwLib.EditTsDeclaresEveryControl` | src/sql_to_fnc-www.lib.ts:234-245 | every field's control appears in the edit component |
| `WwwLib.InitialValueVsTestData` | src/sql_to_fnc-www.lib.ts:236-242 | for an upper-case type, a number, boolean or string starts at the value the test fixtures use; a date starts at `''` where the fixtures use `0` |
| `WwwLib.FormFieldWidget` | src/sql_to_fnc-www.lib.ts:299-326 | the form field starts as a slide toggle iff the field is a boolean, as a date field iff it is a date and not a boolean, and as a plain input otherwise |
| `WwwLib.FormFieldBindsControl` | src/sql_to_fnc-www.lib.ts:299-326 | every kind of form field carries `formControlName="<field>"` |
| `WwwLib.DateFieldPicker` | src/sql_to_fnc-www.lib.ts:310-319 | a date form field binds the datepicker named after the camel-cased field and carries the date placeholder |
| `WwwLib.GenerateEditHtml` | src/sql_to_fnc-www.lib.ts:328-355 | the edit template is the opening, one form field per field in input order, then the closing |
| `WwwLib.EditHtmlBindsEveryField` | src/sql_to_fnc-www.lib.ts:341-343 | every field's control is bound by some form field of the edit template |
| `WwwLib.DisplayedColumnsList` | src/sql_to_fnc-www.lib.ts:395-399 | `displayedColumns` lists every field's quoted name in input order and then `'actions'`, separated by `", "` |
| `WwwLib.GenerateListTs` | src/sql_to_fnc-www.lib.ts:361-503 | the list component is the opening, one `displayedColumns` element per field, then the rest, built with the second field as search field and the first as key |
| `WwwLib.ListTsKeys` | src/sql_to_fnc-www.lib.ts:409-490 | the list component queries the search input of the second field, filters on the second field and deletes a row by its first field |
| `WwwLib.ColumnDefParts` | src/sql_to_fnc-www.lib.ts:584-594 | a field's column is defined under the field's name, and a click on its cell edits by the key |
| `WwwLib.GenerateListHtml` | src/sql_to_fnc-www.lib.ts:550-626 | the list template is the head with the search box, one column per field each followed by a blank line, then the actions column |
| `WwwLib.ListHtmlColumns` | src/sql_to_fnc-www.lib.ts:550-626 | every column of `displayedColumns` is defined in the list template, the search input is the second field's, and both a field's cells and the actions' edit button edit by the first field |
| `WwwLib.ComponentPathsDistinct` | src/sql_to_fnc-www.lib.ts:284-625 | the four component files are at four different paths |
| `WwwLib.GenerateAngularModule` | src/sql_to_fnc-www.lib.ts:629-664 | it throws iff there are fewer than 2 fields; the edit component and edit template are written first, and the list template and list component follow only when it does not throw; no two files share a path |
| `WwwLib.NotNullRoundTrip` | sql_to_fnc.ts:48-52 | for a field line, the DTO property gets `@IsNotEmpty()` iff the line contains `NOT NULL` (any case), and so does the form control's `Validators.required` |

## Left out

- Field-independent Angular files are not modelled. `generateModule`, `generateRouting`, `generateService`, `generateDataSource`, `generateEditScss` and `generateListScss` (`src/sql_to_fnc-www.lib.ts:10-197`, `287-296`, `506-547`) write fixed text around the table name, as do the `mkdirSync` calls. So `WwwLib.GenerateAngularModule` lists only the four component files. On a short field list, all of these files are written before the list template throws, including the list stylesheet written just before it.
- The fixed lines of the Angular component templates are written out in full. The lemmas state properties of the field-dependent parts only.
- File system and console:
  - a written file is an `OutputFile` value;
  - what `fs.existsSync` answers and what `fs.readFileSync` returns are parameters of `Scanner.Run`;
  - `mkdirSync`, `console.*` and `process.exit` are not modelled, and the exits are `Failure` values.
- `privOwner` and `privUser` come from `sql_to_fnc.constans`, which is not part of this model, so they are parameters.
- `snakeToCamel`, `snakeToDash` and `datePlaceholder` are not part of this model, so their values are parameters: `camelName` and `camelDefault` (the table name in camel case) of the test-data and Angular members, and `dashName`, `camelField` (applied to a field name) and `datePlaceholder` of the Angular members.
- `sql_to_fnc.interfaces` is not part of this model. `FieldDefinition` follows its use in the code: `field`, `type` (named `typeName`), `notNull` and an optional `description`.
- Template text that does not depend on the fields is not modelled:
  - the list-response DTO, controller and service files of `generateAPI`;
  - the e2e spec file of `generateTestE2E`, except the fetch-by-id request.
- The top-level wiring (`sql_to_fnc.ts:69-72` calls `generateSQL` and then `generateAPI`) is not a member. `Scanner.Run`, `SqlLib.GenerateSql` and `ApiLib.GenerateApiDtos` model its three stages. `generateTestE2E` and `generateAngularModule` are exported but not called there; `TestLib.GenerateTestData` and `WwwLib.GenerateAngularModule` model them as they would run on a scanned field list.
- `toUpperCase` is ASCII-only. Unicode case mappings, including those that change length such as `ß` to `SS`, are not modelled, and neither is `Capitalize` of a non-ASCII first character.
- `trim` and `split(/\s+/)` treat only space and `\t`..`\r` as white space, not the other Unicode spaces.
- The file is read with encoding `ascii`. The text is a parameter, and the mapping of bytes above 127 is not modelled.
- `Scanner.ExtName` follows the POSIX `path.extname`. Windows paths, with `\` separators and drive letters, are not handled.
- `TestLib.GenerateTestData` models the test-data file only. The e2e spec file written before the throw for one field is left out with the rest of that file.
- The behaviour of the generated SQL, NestJS and test code is not modelled, because it is not behaviour of this repository.
