/**
 * `src/sql_to_fnc-test.lib.ts`: sample values for the end-to-end tests and
 * the fixture module holding a valid item, a wrong item and a list filter.
 * `snakeToCamel` is not part of this model: the two camel-case spellings of
 * the table name it would give are parameters (`camelName` for
 * `snakeToCamel(tblName, false)`, `camelDefault` for `snakeToCamel(tblName)`).
 */
module TestLib {
  import opened JsText
  import opened Definitions
  import opened Common
  import opened SqlLib

  /** `testData`: a sample literal for a field, chosen by the exact type. */
  function TestData(elem: FieldDefinition): string {
    if elem.typeName == "BOOL" then "true"
    else if elem.typeName in CastTypes then "0"
    else "''"
  }

  /**
   * The sample values follow the same exact-type switch as the SQL
   * reader: `true` exactly where SAVE defaults a boolean, `0` exactly where
   * it casts, an empty string exactly where it copies the text.
   */
  lemma TestDataMatchesSqlData(elem: FieldDefinition)
    ensures TestData(elem) == "true" <==> StartsWith(SqlData(elem), "COALESCE(")
    ensures TestData(elem) == "0" <==> StartsWith(SqlData(elem), "CAST(")
    ensures TestData(elem) == "''" <==> SqlData(elem) == JsonMember(elem.field)
  {
    SqlDataForms(elem);
  }

  /** For the upper-case types the scanner stores, the samples follow the shared categories. */
  lemma TestDataByCategory(elem: FieldDefinition)
    requires UpperType(elem)
    ensures IsBoolean(elem) ==> TestData(elem) == "true"
    ensures IsNumber(elem) || IsDate(elem) ==> TestData(elem) == "0"
    ensures IsString(elem) ==> TestData(elem) == "''"
  {
  }

  /** One entry of a fixture object: `field: sample`. */
  function Entry(elem: FieldDefinition): string {
    elem.field + ": " + TestData(elem)
  }

  /** An entry of the valid item, indented by five spaces. */
  function ValidEntry(elem: FieldDefinition): string {
    "     " + Entry(elem)
  }

  /** An entry of the wrong item, indented by two spaces. */
  function WrongEntry(elem: FieldDefinition): string {
    "  " + Entry(elem)
  }

  /** The list filter: filters and sorts on `searchField`, first page of 25. */
  function FilterFixture(camelName: string, searchField: string): string {
    "export const " + camelName + "Filter: ListFilterRequestDto = {\n"
      + FilterLine(searchField)
      + "  page_index: 0,\n"
      + "  sort_direction: 'asc',\n"
      + SortLine(searchField)
      + "  page_size: 25,\n"
      + "}"
  }

  function FilterLine(searchField: string): string {
    "  filter: [{ field: '" + searchField + "', value: '%' }],\n"
  }

  function SortLine(searchField: string): string {
    "  sort: ['" + searchField + "'],\n"
  }

  function ValidItemOpening(camelName: string, camelDefault: string): string {
    "export const " + camelName + "ValidItem: " + Capitalize(camelDefault) + "Dto = {\n"
  }

  function WrongItemOpening(camelName: string, camelDefault: string): string {
    "export const " + camelName + "WrongItem : " + Capitalize(camelDefault) + "Dto = {\n"
  }

  /** The fixture module: both items list every field, in order, without a trailing comma. */
  function TestDataText(camelName: string, camelDefault: string, fieldArray: seq<FieldDefinition>): string
    requires |fieldArray| >= 2
  {
    ValidItemOpening(camelName, camelDefault) + Joined(MapText(fieldArray, ValidEntry), ",\n") + "\n};\n"
      + WrongItemOpening(camelName, camelDefault) + Joined(MapText(fieldArray, WrongEntry), ",\n") + "\n};\n"
      + FilterFixture(camelName, fieldArray[1].field)
  }

  /**
   * The fixture assembly of `generateTestE2E`: two per-field appends, each
   * followed by cutting the last `",\n"`, then the filter. With fewer than
   * two fields the filter's `fieldArray[1]` throws a TypeError and nothing
   * is written (`None`).
   */
  method GenerateTestData(camelName: string, camelDefault: string, fieldArray: seq<FieldDefinition>)
    returns (testDataTs: Option<string>)
    ensures testDataTs.None? <==> |fieldArray| < 2
    ensures testDataTs.Some? ==> testDataTs.value == TestDataText(camelName, camelDefault, fieldArray)
  {
    var text := ValidItemOpening(camelName, camelDefault);
    ghost var valid := text;
    text := AppendEach(text, fieldArray, ValidEntry, ",\n");
    StripTrailingSeparator(valid, MapText(fieldArray, ValidEntry));
    text := DropLast2(text);
    text := text + "\n};\n";
    text := text + WrongItemOpening(camelName, camelDefault);
    ghost var wrong := text;
    text := AppendEach(text, fieldArray, WrongEntry, ",\n");
    StripTrailingSeparator(wrong, MapText(fieldArray, WrongEntry));
    text := DropLast2(text);
    text := text + "\n};\n";
    if |fieldArray| < 2 {
      return None;
    }
    text := text + FilterFixture(camelName, fieldArray[1].field);
    testDataTs := Some(text);
  }

  /**
   * The valid and the wrong item agree entry by entry: same fields, same
   * order, same sample values; only the indentation differs.
   */
  lemma ItemsAgree(fieldArray: seq<FieldDefinition>)
    ensures |MapText(fieldArray, ValidEntry)| == |MapText(fieldArray, WrongEntry)| == |fieldArray|
    ensures forall i :: 0 <= i < |fieldArray| ==>
      MapText(fieldArray, ValidEntry)[i] == "   " + MapText(fieldArray, WrongEntry)[i]
  {
  }

  /**
   * Read back line by line, each item has exactly one line per field, in
   * order, with a comma on every line but the last.
   */
  lemma ItemLines(fieldArray: seq<FieldDefinition>)
    requires |fieldArray| >= 1 && SingleLine(fieldArray)
    ensures SplitChar(Joined(MapText(fieldArray, ValidEntry), ",\n"), '\n') == CommaLines(MapText(fieldArray, ValidEntry))
    ensures SplitChar(Joined(MapText(fieldArray, WrongEntry), ",\n"), '\n') == CommaLines(MapText(fieldArray, WrongEntry))
  {
    JoinedLines(MapText(fieldArray, ValidEntry));
    JoinedLines(MapText(fieldArray, WrongEntry));
  }

  /** The filter names the second field twice: once to filter on, once to sort by. */
  lemma FilterUsesSecondField(camelName: string, fieldArray: seq<FieldDefinition>)
    requires |fieldArray| >= 2
    ensures Contains(FilterFixture(camelName, fieldArray[1].field), FilterLine(fieldArray[1].field))
    ensures Contains(FilterFixture(camelName, fieldArray[1].field), SortLine(fieldArray[1].field))
  {
    var f := fieldArray[1].field;
    var open := "export const " + camelName + "Filter: ListFilterRequestDto = {\n";
    var filter := FilterLine(f);
    var sort := SortLine(f);
    ContainsEnd(open, filter);
    ContainsAppend(open + filter, "  page_index: 0,\n", filter);
    ContainsAppend(open + filter + "  page_index: 0,\n", "  sort_direction: 'asc',\n", filter);
    var before := open + filter + "  page_index: 0,\n" + "  sort_direction: 'asc',\n";
    ContainsAppend(before, sort, filter);
    ContainsEnd(before, sort);
    ContainsAppend(before + sort, "  page_size: 25,\n", filter);
    ContainsAppend(before + sort, "  page_size: 25,\n", sort);
    ContainsAppend(before + sort + "  page_size: 25,\n", "}", filter);
    ContainsAppend(before + sort + "  page_size: 25,\n", "}", sort);
  }

  /** The request of the fetch-by-id test: the item is addressed by its first field. */
  function FetchByIdRequest(tblName: string, fieldArray: seq<FieldDefinition>): (r: string)
    requires |fieldArray| >= 1
    ensures Contains(r, "${itemFromList." + fieldArray[0].field + "}")
  {
    var key := "${itemFromList." + fieldArray[0].field + "}";
    ContainsMiddle("        .get(`/" + tblName + "/", key, "`)");
    "        .get(`/" + tblName + "/" + key + "`)"
  }
}
