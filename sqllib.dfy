/**
 * `src/sql_to_fnc-sql.lib.ts`: the four PL/pgSQL functions (GET, DELETE,
 * LIST, SAVE) generated for one table. The texts are the source's
 * template literals; `privOwner` and `privUser` come from a constants
 * module that is not part of this model, so they are parameters.
 */
module SqlLib {
  import opened JsText
  import opened Definitions
  import opened Common

  /** The types `sqlData` casts to themselves; the match is exact and case-sensitive. */
  const CastTypes: seq<string> := ["DATE", "TIMESTAMPTZ", "TIMESTAMP", "INT4", "INT8", "INTEGER"]

  /** How the generated SAVE function reads member `name` of its JSON argument. */
  function JsonMember(name: string): string {
    "f_data->>'" + name + "'"
  }

  /** `sqlData`: the SQL expression SAVE stores into the column of `elem`. */
  function SqlData(elem: FieldDefinition): string {
    var member := JsonMember(elem.field);
    if elem.typeName == "BOOL" then "COALESCE( cast( " + member + " as boolean), true)"
    else if elem.typeName in CastTypes then "CAST( " + member + " as " + elem.typeName + ")"
    else member
  }

  /** Whatever the type, the expression reads the field's own JSON member. */
  lemma SqlDataReadsField(elem: FieldDefinition)
    ensures Contains(SqlData(elem), JsonMember(elem.field))
  {
    var member := JsonMember(elem.field);
    if elem.typeName == "BOOL" {
      ContainsEnd("COALESCE( cast( ", member);
      ContainsAppend("COALESCE( cast( " + member, " as boolean), true)", member);
    } else if elem.typeName in CastTypes {
      ContainsEnd("CAST( ", member);
      ContainsAppend("CAST( " + member, " as ", member);
      ContainsAppend("CAST( " + member + " as ", elem.typeName, member);
      ContainsAppend("CAST( " + member + " as " + elem.typeName, ")", member);
    } else {
      ContainsEnd("", member);
      assert "" + member == member;
    }
  }

  /**
   * The three forms of `sqlData`, told apart by how the expression starts:
   * a boolean read defaulting to true for exactly `BOOL`, a cast to the
   * type written verbatim for exactly the cast types, the bare JSON text
   * for every other type.
   */
  lemma SqlDataForms(elem: FieldDefinition)
    ensures StartsWith(SqlData(elem), "COALESCE(") <==> elem.typeName == "BOOL"
    ensures StartsWith(SqlData(elem), "CAST(") <==> elem.typeName in CastTypes
    ensures elem.typeName in CastTypes ==> EndsWith(SqlData(elem), " as " + elem.typeName + ")")
    ensures SqlData(elem) == JsonMember(elem.field) <==> elem.typeName != "BOOL" && elem.typeName !in CastTypes
  {
    var r := SqlData(elem);
    var member := JsonMember(elem.field);
    assert member[..1] == "f";
    if elem.typeName == "BOOL" {
      assert r[..9] == "COALESCE(";
      assert r[1] == 'O';
      assert r != member by { assert |r| > |member|; }
    } else if elem.typeName in CastTypes {
      assert r[..5] == "CAST(";
      assert r[1] == 'A';
      assert r != member by { assert |r| > |member|; }
      var tail := " as " + elem.typeName + ")";
      assert r == "CAST( " + member + tail;
      assert r[|r| - |tail|..] == tail;
    } else {
      assert r[0] == 'f';
    }
  }

  /**
   * For the upper-case types the scanner stores, the switch agrees with the
   * shared categories: booleans default to true, numbers and dates are cast
   * to their own type, strings are copied. `TIMESTAMPTZ` is cast although
   * no category holds it.
   */
  lemma SqlDataByCategory(elem: FieldDefinition)
    requires UpperType(elem)
    ensures IsBoolean(elem) ==> StartsWith(SqlData(elem), "COALESCE(")
    ensures IsNumber(elem) || IsDate(elem) ==>
      SqlData(elem) == "CAST( " + JsonMember(elem.field) + " as " + elem.typeName + ")"
    ensures IsString(elem) ==> SqlData(elem) == JsonMember(elem.field)
    ensures elem.typeName == "TIMESTAMPTZ" ==>
      StartsWith(SqlData(elem), "CAST(") && !IsNumber(elem) && !IsDate(elem)
  {
    SqlDataForms(elem);
    if elem.typeName == "TIMESTAMPTZ" {
      CategoriesNotTotal(elem);
    }
  }

  /**
   * The switch compares the type as written: a lower-case `int4`, which the
   * shared predicates call a number, is copied as text rather than cast.
   */
  lemma SqlDataCaseSensitive()
    ensures var elem := FieldDefinition("id", "int4", true, None);
      IsNumber(elem) && SqlData(elem) == JsonMember("id")
  {
    var elem := FieldDefinition("id", "int4", true, None);
    assert Upper("int4") == "INT4";
    assert "int4" !in CastTypes;
  }

  // ------------------------------------------------------ getFunctionList

  /** One line of the column list: the field name, indented. */
  function ColumnItem(elem: FieldDefinition): string {
    "          " + elem.field
  }

  function ColumnItems(fields: seq<FieldDefinition>): (r: seq<string>) {
    MapText(fields, ColumnItem)
  }

  /** The column list: the column lines separated by `",\n"`. */
  function FunctionList(fields: seq<FieldDefinition>): string {
    Joined(ColumnItems(fields), ",\n")
  }

  /** `getFunctionList`: appends a terminated line per field, then cuts the last `",\n"`. */
  method GetFunctionList(arr: seq<FieldDefinition>) returns (fieldList: string)
    ensures fieldList == FunctionList(arr)
  {
    fieldList := "";
    for i := 0 to |arr|
      invariant fieldList == Terminated(ColumnItems(arr[..i]), ",\n")
    {
      MapTextSnoc(arr, ColumnItem, i);
      TerminatedSnoc(ColumnItems(arr[..i]), ColumnItem(arr[i]), ",\n");
      fieldList := fieldList + ColumnItem(arr[i]) + ",\n";
    }
    assert arr[..|arr|] == arr;
    StripTrailingSeparator("", ColumnItems(arr));
    assert "" + Terminated(ColumnItems(arr), ",\n") == fieldList;
    fieldList := DropLast2(fieldList);
  }

  /**
   * Read back line by line, the column list has one line per field, in
   * order, each ending in a comma except the last.
   */
  lemma FunctionListLines(fields: seq<FieldDefinition>)
    requires |fields| >= 1 && SingleLine(fields)
    ensures SplitChar(FunctionList(fields), '\n') == CommaLines(ColumnItems(fields))
  {
    JoinedLines(ColumnItems(fields));
  }

  // ------------------------------------------------------ GET, DELETE, LIST

  /** The filter on the key column the generated functions use. */
  function KeyClause(key: string, param: string): string {
    "WHERE " + key + " = " + param
  }

  /** The qualified name of a generated function: `schema.table_suffix`. */
  function FunctionName(schemaName: string, tblName: string, suffix: string): string {
    schemaName + "." + tblName + "_" + suffix
  }

  /** The GET function: one row, as JSON, chosen by the first field. */
  function GetSql(schemaName: string, tblName: string, fieldArray: seq<FieldDefinition>,
                  privOwner: string, privUser: string): string
    requires |fieldArray| >= 1
  {
    var getFncName := FunctionName(schemaName, tblName, "get");
    GetOpening(getFncName) + FunctionList(fieldArray) + GetFrom(schemaName, tblName)
      + KeyClause(fieldArray[0].field, "a_id") + GetClosing(getFncName, tblName, privOwner, privUser)
  }

  function GetOpening(getFncName: string): string {
    "\n"
      + "    CREATE OR REPLACE FUNCTION " + getFncName + "(a_id integer)\n"
      + "      RETURNS TEXT AS\n"
      + "    $BODY$\n"
      + "    BEGIN\n"
      + "      RETURN to_jsonb( u ) FROM (\n"
      + "        SELECT\n"
      + "    "
  }

  function GetFrom(schemaName: string, tblName: string): string {
    " \n"
      + "        FROM " + schemaName + "." + tblName + "\n"
      + "        "
  }

  function GetClosing(getFncName: string, tblName: string, privOwner: string, privUser: string): string {
    "\n"
      + "      ) as u;\n"
      + "    END;\n"
      + "    $BODY$\n"
      + "      LANGUAGE plpgsql VOLATILE\n"
      + "                       COST 100;\n"
      + "    COMMENT ON FUNCTION " + getFncName + "(integer) IS 'Get " + tblName + "';\n"
      + "    ALTER FUNCTION " + getFncName + "(integer) OWNER TO " + privOwner + ";\n"
      + "    GRANT EXECUTE ON FUNCTION " + getFncName + "(integer) TO " + privUser + ";\n"
      + "    "
  }

  /** The DELETE function: checks that the row exists, then deletes it, both by the first field. */
  function DeleteSql(schemaName: string, tblName: string, fieldArray: seq<FieldDefinition>,
                     privOwner: string, privUser: string): string
    requires |fieldArray| >= 1
  {
    var delFncName := FunctionName(schemaName, tblName, "delete");
    DeleteOpening(delFncName) + ExistsCheck(schemaName, tblName, fieldArray[0].field)
      + DeleteMiddle() + DeleteRow(schemaName, tblName, fieldArray[0].field)
      + DeleteClosing(delFncName, privOwner, privUser)
  }

  function DeleteOpening(delFncName: string): string {
    "\n"
      + "    CREATE OR REPLACE FUNCTION " + delFncName + "( a_id integer )\n"
      + "      RETURNS TEXT AS\n"
      + "    $BODY$\n"
      + "    BEGIN\n"
      + "      "
  }

  /** The statement that looks for the row whose key equals the argument. */
  function ExistsCheck(schemaName: string, tblName: string, key: string): string {
    "PERFORM 1 FROM " + schemaName + "." + tblName + " " + KeyClause(key, "a_id")
  }

  function DeleteMiddle(): string {
    ";\n"
      + "      IF NOT FOUND THEN\n"
      + "        RETURN jsonb_build_object('error', 'Item not exist', 'code', 404);\n"
      + "      END IF;\n"
      + "    \n"
      + "      "
  }

  /** The statement that deletes the row whose key equals the argument. */
  function DeleteRow(schemaName: string, tblName: string, key: string): string {
    "DELETE FROM " + schemaName + "." + tblName + " " + KeyClause(key, "a_id")
  }

  function DeleteClosing(delFncName: string, privOwner: string, privUser: string): string {
    ";\n"
      + "    \n"
      + "      RETURN jsonb_build_object('code', 202 );\n"
      + "    END;\n"
      + "    $BODY$\n"
      + "    LANGUAGE plpgsql VOLATILE\n"
      + "                       COST 100;\n"
      + "    ALTER FUNCTION " + delFncName + "(integer) OWNER TO " + privOwner + ";\n"
      + "    GRANT EXECUTE ON FUNCTION " + delFncName + "(integer) TO " + privUser + ";"
  }

  /** The LIST function: every row, as a JSON array; it reads no key. */
  function ListSql(schemaName: string, tblName: string, fieldArray: seq<FieldDefinition>,
                   privOwner: string, privUser: string): string
  {
    var listFncName := FunctionName(schemaName, tblName, "list");
    ListOpening(listFncName) + FunctionList(fieldArray)
      + ListClosing(listFncName, schemaName, tblName, privOwner, privUser)
  }

  function ListOpening(listFncName: string): string {
    "\n"
      + "    CREATE OR  REPLACE FUNCTION " + listFncName + "(a_filter character varying)\n"
      + "      RETURNS TEXT AS\n"
      + "    $BODY$\n"
      + "    DECLARE\n"
      + "      f_filter jsonb;\n"
      + "    BEGIN\n"
      + "      f_filter = CAST(a_filter as jsonb);\n"
      + "      RETURN COALESCE(to_jsonb(array_agg( u )),'[]'::jsonb) FROM (\n"
      + "        SELECT\n"
      + "    "
  }

  function ListClosing(listFncName: string, schemaName: string, tblName: string,
                       privOwner: string, privUser: string): string {
    "\n"
      + "        FROM " + schemaName + "." + tblName + "\n"
      + "      ) as u;\n"
      + "    END;\n"
      + "    $BODY$\n"
      + "      LANGUAGE plpgsql VOLATILE\n"
      + "                       COST 100;\n"
      + "    COMMENT ON FUNCTION " + listFncName + "(character varying) IS 'List';\n"
      + "    ALTER FUNCTION " + listFncName + "(character varying) OWNER TO " + privOwner + ";\n"
      + "    GRANT EXECUTE ON FUNCTION " + listFncName + "(character varying) TO " + privUser + ";\n"
      + "    "
  }

  /** GET selects the columns of the column list from the row whose first field equals the argument. */
  lemma GetKeyedByFirstField(schemaName: string, tblName: string, fieldArray: seq<FieldDefinition>,
                             privOwner: string, privUser: string)
    requires |fieldArray| >= 1
    ensures Contains(GetSql(schemaName, tblName, fieldArray, privOwner, privUser), KeyClause(fieldArray[0].field, "a_id"))
    ensures Contains(GetSql(schemaName, tblName, fieldArray, privOwner, privUser), FunctionList(fieldArray))
  {
    var key := KeyClause(fieldArray[0].field, "a_id");
    var columns := FunctionList(fieldArray);
    var getFncName := FunctionName(schemaName, tblName, "get");
    var getStart := GetOpening(getFncName) + columns + GetFrom(schemaName, tblName);
    var getEnd := GetClosing(getFncName, tblName, privOwner, privUser);
    ContainsEnd(getStart, key);
    ContainsAppend(getStart + key, getEnd, key);
    ContainsEnd(GetOpening(getFncName), columns);
    ContainsAppend(GetOpening(getFncName) + columns, GetFrom(schemaName, tblName), columns);
    ContainsAppend(getStart, key, columns);
    ContainsAppend(getStart + key, getEnd, columns);
  }

  /**
   * DELETE looks for the row of the table whose first field equals the
   * argument (`PERFORM 1 FROM <schema>.<table> WHERE <first field> = a_id`)
   * and deletes that same row (`DELETE FROM <schema>.<table> WHERE <first
   * field> = a_id`).
   */
  lemma DeleteKeyedByFirstField(schemaName: string, tblName: string, fieldArray: seq<FieldDefinition>,
                                privOwner: string, privUser: string)
    requires |fieldArray| >= 1
    ensures Contains(DeleteSql(schemaName, tblName, fieldArray, privOwner, privUser),
                     "PERFORM 1 FROM " + schemaName + "." + tblName + " " + KeyClause(fieldArray[0].field, "a_id"))
    ensures Contains(DeleteSql(schemaName, tblName, fieldArray, privOwner, privUser),
                     "DELETE FROM " + schemaName + "." + tblName + " " + KeyClause(fieldArray[0].field, "a_id"))
  {
    var key := fieldArray[0].field;
    var delFncName := FunctionName(schemaName, tblName, "delete");
    var opening := DeleteOpening(delFncName);
    var check := ExistsCheck(schemaName, tblName, key);
    var remove := DeleteRow(schemaName, tblName, key);
    var closing := DeleteClosing(delFncName, privOwner, privUser);
    ContainsEnd(opening, check);
    ContainsAppend(opening + check, DeleteMiddle(), check);
    ContainsAppend(opening + check + DeleteMiddle(), remove, check);
    ContainsAppend(opening + check + DeleteMiddle() + remove, closing, check);
    ContainsEnd(opening + check + DeleteMiddle(), remove);
    ContainsAppend(opening + check + DeleteMiddle() + remove, closing, remove);
  }

  /** LIST selects the same column list as GET. */
  lemma ListSelectsColumns(schemaName: string, tblName: string, fieldArray: seq<FieldDefinition>,
                           privOwner: string, privUser: string)
    ensures Contains(ListSql(schemaName, tblName, fieldArray, privOwner, privUser), FunctionList(fieldArray))
  {
    var columns := FunctionList(fieldArray);
    var listFncName := FunctionName(schemaName, tblName, "list");
    ContainsEnd(ListOpening(listFncName), columns);
    ContainsAppend(ListOpening(listFncName) + columns,
                   ListClosing(listFncName, schemaName, tblName, privOwner, privUser), columns);
  }

  // ------------------------------------------------------------------- SAVE

  /** One assignment of the UPDATE's SET list. */
  function SetItem(elem: FieldDefinition): string {
    "      " + elem.field + " = " + SqlData(elem)
  }

  function SetItems(fields: seq<FieldDefinition>): (r: seq<string>) {
    MapText(fields, SetItem)
  }

  /** One entry of the INSERT's VALUES list after the leading `f_id`. */
  function ValueItem(elem: FieldDefinition): string {
    "      " + SqlData(elem)
  }

  function ValueItems(fields: seq<FieldDefinition>): (r: seq<string>) {
    MapText(fields, ValueItem)
  }

  /** The SAVE text up to the SET list; the id is read from the key field. */
  function SaveHead(saveFncName: string, key: string, schemaName: string, tblName: string): string {
    SaveOpening(saveFncName) + IdRead(key) + SaveUpdate(schemaName, tblName)
  }

  function SaveOpening(saveFncName: string): string {
    "\n"
      + "    CREATE OR REPLACE FUNCTION " + saveFncName + "( a_data character varying )\n"
      + "        RETURNS text AS\n"
      + "    $BODY$\n"
      + "    DECLARE\n"
      + "        f_id    integer;\n"
      + "        f_data  jsonb;\n"
      + "    BEGIN\n"
      + "        f_data = a_data::jsonb;\n"
      + "        f_id   = "
  }

  /** How SAVE reads the row id: the key field's JSON member cast to integer. */
  function IdRead(key: string): string {
    "cast( " + JsonMember(key) + " as integer )"
  }

  function SaveUpdate(schemaName: string, tblName: string): string {
    ";\n"
      + "    \n"
      + "        IF f_id > 0 THEN\n"
      + "            UPDATE " + schemaName + "." + tblName + " SET\n"
      + "    "
  }

  /** How SAVE draws a new id from the sequence. */
  function NextVal(sequenceName: string): string {
    "nextval('" + sequenceName + "'::regclass)"
  }

  /** Between the SET list and the VALUES list: the update filter and the insert's columns. */
  function SaveMiddle(key: string, sequenceName: string, schemaName: string, tblName: string,
                      columns: string): string {
    "\n"
      + "            " + KeyClause(key, "f_id") + ";\n"
      + "        ELSE\n"
      + "            f_id = " + NextVal(sequenceName)
      + SaveInsert(schemaName, tblName, columns)
  }

  function SaveInsert(schemaName: string, tblName: string, columns: string): string {
    ";\n"
      + "            INSERT INTO " + schemaName + "." + tblName + " (\n"
      + "    " + columns + "\n"
      + "            ) VALUES (\n"
      + "                f_id,\n"
      + "    "
  }

  function SaveTail(saveFncName: string, privOwner: string, privUser: string): string {
    "\n"
      + "            );\n"
      + "        END IF;\n"
      + "    \n"
      + "        RETURN jsonb_build_object('id', f_id, 'code', 200 );\n"
      + "    END;\n"
      + "    $BODY$\n"
      + "        LANGUAGE plpgsql VOLATILE\n"
      + "                         COST 100;\n"
      + "    ALTER FUNCTION " + saveFncName + "(character varying) OWNER TO " + privOwner + ";\n"
      + "    GRANT EXECUTE ON FUNCTION " + saveFncName + "(character varying) TO " + privUser + ";\n"
      + "    "
  }

  /**
   * The SAVE text: the SET list and the VALUES list hold one entry per
   * field, in order, separated by `",\n"`, with the fixed text around them.
   */
  function SaveSql(schemaName: string, tblName: string, sequenceName: string,
                   fieldArray: seq<FieldDefinition>, privOwner: string, privUser: string): string
    requires |fieldArray| >= 1
  {
    var saveFncName := FunctionName(schemaName, tblName, "save");
    var key := fieldArray[0].field;
    SaveHead(saveFncName, key, schemaName, tblName)
      + Joined(SetItems(fieldArray), ",\n")
      + SaveMiddle(key, sequenceName, schemaName, tblName, FunctionList(fieldArray))
      + Joined(ValueItems(fieldArray), ",\n")
      + SaveTail(saveFncName, privOwner, privUser)
  }

  /**
   * The SAVE assembly of `generateSQL`: the two per-field appends, each
   * followed by cutting the last `",\n"`.
   */
  method GenerateSave(schemaName: string, tblName: string, sequenceName: string,
                      fieldArray: seq<FieldDefinition>, privOwner: string, privUser: string)
    returns (sqlSave: string)
    requires |fieldArray| >= 1
    ensures sqlSave == SaveSql(schemaName, tblName, sequenceName, fieldArray, privOwner, privUser)
  {
    var saveFncName := FunctionName(schemaName, tblName, "save");
    var head := SaveHead(saveFncName, fieldArray[0].field, schemaName, tblName);
    sqlSave := AppendEach(head, fieldArray, SetItem, ",\n");
    StripTrailingSeparator(head, SetItems(fieldArray));
    sqlSave := DropLast2(sqlSave);
    var columns := GetFunctionList(fieldArray);
    var beforeValues := sqlSave + SaveMiddle(fieldArray[0].field, sequenceName, schemaName, tblName, columns);
    sqlSave := AppendEach(beforeValues, fieldArray, ValueItem, ",\n");
    StripTrailingSeparator(beforeValues, ValueItems(fieldArray));
    sqlSave := DropLast2(sqlSave);
    sqlSave := sqlSave + SaveTail(saveFncName, privOwner, privUser);
  }

  /**
   * SAVE reads the id from the first field, updates the row whose first
   * field equals it, and otherwise draws the id from the sequence named
   * verbatim.
   */
  lemma SaveKeyedByFirstField(schemaName: string, tblName: string, sequenceName: string,
                              fieldArray: seq<FieldDefinition>, privOwner: string, privUser: string)
    requires |fieldArray| >= 1
    ensures var sql := SaveSql(schemaName, tblName, sequenceName, fieldArray, privOwner, privUser);
      Contains(sql, IdRead(fieldArray[0].field))
      && Contains(sql, KeyClause(fieldArray[0].field, "f_id"))
      && Contains(sql, NextVal(sequenceName))
  {
    var saveFncName := FunctionName(schemaName, tblName, "save");
    var key := fieldArray[0].field;
    var head := SaveHead(saveFncName, key, schemaName, tblName);
    var sets := Joined(SetItems(fieldArray), ",\n");
    var mid := SaveMiddle(key, sequenceName, schemaName, tblName, FunctionList(fieldArray));
    var values := Joined(ValueItems(fieldArray), ",\n");
    var tail := SaveTail(saveFncName, privOwner, privUser);
    SaveHeadReadsId(saveFncName, key, schemaName, tblName);
    ContainsInFirst(head, sets, mid, values, tail, IdRead(key));
    SaveMiddleKeys(key, sequenceName, schemaName, tblName, FunctionList(fieldArray));
    ContainsInThird(head, sets, mid, values, tail, KeyClause(key, "f_id"));
    ContainsInThird(head, sets, mid, values, tail, NextVal(sequenceName));
  }

  lemma SaveHeadReadsId(saveFncName: string, key: string, schemaName: string, tblName: string)
    ensures Contains(SaveHead(saveFncName, key, schemaName, tblName), IdRead(key))
  {
    ContainsEnd(SaveOpening(saveFncName), IdRead(key));
    ContainsAppend(SaveOpening(saveFncName) + IdRead(key), SaveUpdate(schemaName, tblName), IdRead(key));
  }

  lemma SaveMiddleKeys(key: string, sequenceName: string, schemaName: string, tblName: string, columns: string)
    ensures Contains(SaveMiddle(key, sequenceName, schemaName, tblName, columns), KeyClause(key, "f_id"))
    ensures Contains(SaveMiddle(key, sequenceName, schemaName, tblName, columns), NextVal(sequenceName))
  {
    var filter := KeyClause(key, "f_id");
    var nextval := NextVal(sequenceName);
    var m1 := "\n" + "            " + filter;
    var m2 := m1 + ";\n" + "        ELSE\n" + "            f_id = " + nextval;
    ContainsEnd("\n" + "            ", filter);
    ContainsAppend(m1, ";\n", filter);
    ContainsAppend(m1 + ";\n", "        ELSE\n", filter);
    ContainsAppend(m1 + ";\n" + "        ELSE\n", "            f_id = ", filter);
    ContainsAppend(m1 + ";\n" + "        ELSE\n" + "            f_id = ", nextval, filter);
    ContainsEnd(m1 + ";\n" + "        ELSE\n" + "            f_id = ", nextval);
    ContainsAppend(m2, SaveInsert(schemaName, tblName, columns), filter);
    ContainsAppend(m2, SaveInsert(schemaName, tblName, columns), nextval);
  }

  lemma ContainsInFirst(a: string, b: string, c: string, d: string, e: string, pat: string)
    requires Contains(a, pat)
    ensures Contains(a + b + c + d + e, pat)
  {
    ContainsAppend(a, b, pat);
    ContainsAppend(a + b, c, pat);
    ContainsAppend(a + b + c, d, pat);
    ContainsAppend(a + b + c + d, e, pat);
  }

  lemma ContainsInThird(a: string, b: string, c: string, d: string, e: string, pat: string)
    requires Contains(c, pat)
    ensures Contains(a + b + c + d + e, pat)
  {
    ContainsPrepend(a + b, c, pat);
    ContainsAppend(a + b + c, d, pat);
    ContainsAppend(a + b + c + d, e, pat);
  }

  /** A SQL expression built from single-line names is a single line. */
  lemma SqlDataSingleLine(elem: FieldDefinition)
    requires '\n' !in elem.field && '\n' !in elem.typeName
    ensures '\n' !in SqlData(elem)
  {
  }

  /**
   * Read back line by line, the SET list has one `field = value` line per
   * field and the VALUES list one value line per field, both in field
   * order and with a comma after every line but the last. Together with
   * the `f_id,` line before it, the VALUES list has one entry more than
   * the column list.
   */
  lemma SaveListsLines(fieldArray: seq<FieldDefinition>)
    requires |fieldArray| >= 1 && SingleLine(fieldArray)
    ensures SplitChar(Joined(SetItems(fieldArray), ",\n"), '\n') == CommaLines(SetItems(fieldArray))
    ensures SplitChar(Joined(ValueItems(fieldArray), ",\n"), '\n') == CommaLines(ValueItems(fieldArray))
    ensures |CommaLines(ValueItems(fieldArray))| == |SplitChar(FunctionList(fieldArray), '\n')|
  {
    forall i | 0 <= i < |fieldArray|
      ensures '\n' !in SetItem(fieldArray[i]) && '\n' !in ValueItem(fieldArray[i])
    {
      SqlDataSingleLine(fieldArray[i]);
    }
    JoinedLines(SetItems(fieldArray));
    JoinedLines(ValueItems(fieldArray));
    FunctionListLines(fieldArray);
  }

  /** The operations `generateSQL` writes a function for, in the order written. */
  const Operations: seq<string> := ["get", "delete", "list", "save"]

  /** Where `generateSQL` writes the function named with `operation`. */
  function SqlPath(table: Table, operation: string): string {
    "dist/sql/fnc_" + FunctionName(table.schemaName, Interpolate(table.tblName), operation) + ".sql"
  }

  /** Two operations share a file exactly when they are the same, so no file overwrites another. */
  lemma SqlPathInjective(table: Table, op1: string, op2: string)
    ensures SqlPath(table, op1) == SqlPath(table, op2) <==> op1 == op2
  {
    var prefix := "dist/sql/fnc_" + table.schemaName + "." + Interpolate(table.tblName) + "_";
    assert SqlPath(table, op1) == prefix + op1 + ".sql";
    assert SqlPath(table, op2) == prefix + op2 + ".sql";
    if SqlPath(table, op1) == SqlPath(table, op2) {
      assert (prefix + op1 + ".sql")[|prefix|..|prefix| + |op1|] == op1;
      assert (prefix + op2 + ".sql")[|prefix|..|prefix| + |op2|] == op2;
    }
  }

  /**
   * The files `generateSQL` writes, given their texts in the order of
   * `Operations`: one per operation, no two at the same path.
   */
  function OperationFiles(table: Table, texts: seq<string>): (files: seq<OutputFile>)
    requires |texts| == |Operations|
    ensures |files| == |Operations|
    ensures forall i :: 0 <= i < |Operations| ==> files[i] == OutputFile(SqlPath(table, Operations[i]), texts[i])
    ensures DistinctPaths(files)
  {
    OperationPathsDistinct(table);
    seq(|Operations|, i requires 0 <= i < |Operations| => OutputFile(SqlPath(table, Operations[i]), texts[i]))
  }

  /** The texts of the GET, DELETE, LIST and SAVE functions, in the order of `Operations`. */
  function OperationTexts(table: Table, privOwner: string, privUser: string): (texts: seq<string>)
    requires |table.fields| >= 1
    ensures |texts| == |Operations|
  {
    var schema := table.schemaName;
    var tbl := Interpolate(table.tblName);
    [GetSql(schema, tbl, table.fields, privOwner, privUser),
     DeleteSql(schema, tbl, table.fields, privOwner, privUser),
     ListSql(schema, tbl, table.fields, privOwner, privUser),
     SaveSql(schema, tbl, table.sequenceName, table.fields, privOwner, privUser)]
  }

  /**
   * `generateSQL`: the GET, DELETE, LIST and SAVE functions, in that order,
   * each in a file of its own. With no fields it stops with a TypeError
   * while building GET, before writing anything. The SAVE text is
   * `SaveSql`, which `GenerateSave` builds with the source's two loops.
   */
  function GenerateSql(table: Table, privOwner: string, privUser: string): (files: Option<seq<OutputFile>>)
    ensures files.None? <==> |table.fields| == 0
  {
    if |table.fields| == 0 then None
    else Some(OperationFiles(table, OperationTexts(table, privOwner, privUser)))
  }

  /**
   * With at least one field, `generateSQL` writes four files at four
   * different paths, the i-th holding the i-th operation's text at that
   * operation's path.
   */
  lemma GenerateSqlFiles(table: Table, privOwner: string, privUser: string)
    requires |table.fields| >= 1
    ensures (hide GetSql, DeleteSql, ListSql, SaveSql;
             var files := GenerateSql(table, privOwner, privUser).value;
             && |files| == |Operations|
             && DistinctPaths(files)
             && forall i :: 0 <= i < |files| ==>
                  files[i] == OutputFile(SqlPath(table, Operations[i]), OperationTexts(table, privOwner, privUser)[i]))
  {
    hide GetSql, DeleteSql, ListSql, SaveSql;
  }

  /** The four operations' files are at four different paths. */
  lemma OperationPathsDistinct(table: Table)
    ensures forall i, j :: 0 <= i < j < |Operations| ==> SqlPath(table, Operations[i]) != SqlPath(table, Operations[j])
  {
    forall i, j | 0 <= i < j < |Operations|
      ensures SqlPath(table, Operations[i]) != SqlPath(table, Operations[j])
    {
      SqlPathInjective(table, Operations[i], Operations[j]);
    }
  }
}
