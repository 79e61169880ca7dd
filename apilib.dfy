/**
 * `src/sql_to_fnc-api.lib.ts`: the NestJS data-transfer objects for one
 * table. The file keeps local copies of `capitalize` and `isNumber` that
 * are the same as the shared ones (so the shared `Capitalize` and
 * `IsNumber` serve here), and a local `isString` that differs: it looks for
 * the string type names anywhere in the upper-cased type.
 */
module ApiLib {
  import opened JsText
  import opened Definitions
  import opened Common

  /** The local `isString`: the upper-cased type contains `VARCHAR`, `BPCHAR` or `TEXT`. */
  predicate ApiIsString(item: FieldDefinition) {
    var t := Upper(item.typeName);
    Contains(t, "VARCHAR") || Contains(t, "BPCHAR") || Contains(t, "TEXT")
  }

  /** Every type the shared `isString` accepts is a string here too. */
  lemma SharedStringIsApiString(item: FieldDefinition)
    requires IsString(item)
    ensures ApiIsString(item)
  {
    var t := Upper(item.typeName);
    ContainsMiddle("", t, "");
    assert "" + t + "" == t;
  }

  /**
   * The containment test is wider than the shared exact match: a sized
   * `varchar(50)` is a string here and in no shared category.
   */
  lemma ApiStringWider()
    ensures var item := FieldDefinition("name", "varchar(50)", false, None);
      ApiIsString(item) && !IsString(item)
  {
    var item := FieldDefinition("name", "varchar(50)", false, None);
    var t := Upper(item.typeName);
    assert t == "VARCHAR(50)";
    ContainsMiddle("", "VARCHAR", "(50)");
    assert "" + "VARCHAR" + "(50)" == t;
  }

  /** A text does not contain `pat` when no window of it agrees with `pat` at offset `j`. */
  lemma NoMatchAtOffset(t: string, pat: string, j: nat)
    requires j < |pat|
    requires forall i :: j <= i && i - j + |pat| <= |t| ==> t[i] != pat[j]
    ensures !Contains(t, pat)
  {
    forall k ensures !MatchesAt(t, pat, k) {
      if 0 <= k && k + |pat| <= |t| {
        assert t[k..k + |pat|][j] == t[k + j];
      }
    }
    ContainsIff(t, pat);
  }

  /** No number type contains a string type name, so no field is both. */
  lemma NumberIsNeverApiString(item: FieldDefinition)
    requires IsNumber(item)
    ensures !ApiIsString(item)
  {
    var t := Upper(item.typeName);
    assert t in NumberTypes;
    NoMatchAtOffset(t, "VARCHAR", 0);
    NoMatchAtOffset(t, "BPCHAR", 0);
    if t == "INTEGER" {
      NoMatchAtOffset(t, "TEXT", 2);
    } else {
      NoMatchAtOffset(t, "TEXT", 0);
    }
  }

  /** The TypeScript type of a property. */
  function TsType(item: FieldDefinition): (tsType: string)
    ensures tsType == "number" <==> IsNumber(item)
    ensures tsType == "string" <==> !IsNumber(item)
  {
    if IsNumber(item) then "number" else "string"
  }

  const NotEmptyDecorator: string := "  @IsNotEmpty()\n"
  const NumberDecorator: string := "  @IsNumber()\n"
  const StringDecorator: string := "  @IsString()\n"

  /** The validation decorators of a property, in the order they are written. */
  function Decorators(item: FieldDefinition): seq<string> {
    (if item.notNull then [NotEmptyDecorator] else [])
      + (if IsNumber(item) then [NumberDecorator] else [])
      + (if ApiIsString(item) then [StringDecorator] else [])
  }

  /** Position of a decorator in the fixed order not-empty, number, string. */
  function DecoratorRank(d: string): int {
    if d == NotEmptyDecorator then 0 else if d == NumberDecorator then 1 else 2
  }

  /**
   * Each decorator is written exactly when its condition holds, in the
   * fixed order, at most once; number and string never both.
   */
  lemma DecoratorsIff(item: FieldDefinition)
    ensures NotEmptyDecorator in Decorators(item) <==> item.notNull
    ensures NumberDecorator in Decorators(item) <==> IsNumber(item)
    ensures StringDecorator in Decorators(item) <==> ApiIsString(item)
    ensures !(NumberDecorator in Decorators(item) && StringDecorator in Decorators(item))
    ensures forall i, j :: 0 <= i < j < |Decorators(item)| ==>
      DecoratorRank(Decorators(item)[i]) < DecoratorRank(Decorators(item)[j])
  {
    if IsNumber(item) {
      NumberIsNeverApiString(item);
    }
    assert NotEmptyDecorator != NumberDecorator && NotEmptyDecorator != StringDecorator;
    assert NumberDecorator[5] != StringDecorator[5];
  }

  /** The swagger annotation of a property. */
  function ApiPropertyBlock(tsType: string): string {
    "  @ApiProperty({\n"
      + "    description: '',\n"
      + "    type: '" + tsType + "',\n"
      + "    example: '',\n"
      + "  })\n"
  }

  /** The declaration line of a property. */
  function Declaration(item: FieldDefinition): string {
    "  " + item.field + ": " + TsType(item) + ";\n\n"
  }

  /** One property of the DTO class: decorators, annotation, declaration. */
  function DtoProperty(item: FieldDefinition): string {
    Concat(Decorators(item)) + ApiPropertyBlock(TsType(item)) + Declaration(item)
  }

  /** The body of the `forEach` in the DTO assembly. */
  method AppendDtoProperty(tsDto: string, item: FieldDefinition) returns (r: string)
    ensures r == tsDto + DtoProperty(item)
  {
    var tsType := "string";
    if IsNumber(item) { tsType := "number"; }
    r := AppendIf(tsDto, item.notNull, NotEmptyDecorator);
    r := AppendIf(r, IsNumber(item), NumberDecorator);
    r := AppendIf(r, ApiIsString(item), StringDecorator);
    r := r + ApiPropertyBlock(tsType);
    r := r + ("  " + item.field + ": " + tsType + ";\n\n");
    DecoratorsText(item);
    RegroupProperty(tsDto, Optional(item.notNull, NotEmptyDecorator), Optional(IsNumber(item), NumberDecorator),
                    Optional(ApiIsString(item), StringDecorator), ApiPropertyBlock(tsType), Declaration(item));
  }

  /** The decorators written one after another are the three optional pieces in order. */
  lemma DecoratorsText(item: FieldDefinition)
    ensures Concat(Decorators(item)) ==
      Optional(item.notNull, NotEmptyDecorator) + Optional(IsNumber(item), NumberDecorator)
        + Optional(ApiIsString(item), StringDecorator)
  {
    ConcatOfOptionals(item.notNull, IsNumber(item), ApiIsString(item), NotEmptyDecorator, NumberDecorator, StringDecorator);
  }

  lemma ConcatOfOptionals(p: bool, q: bool, u: bool, a: string, b: string, c: string)
    ensures Concat((if p then [a] else []) + (if q then [b] else []) + (if u then [c] else []))
      == Optional(p, a) + Optional(q, b) + Optional(u, c)
  {
    var s0: seq<string> := if p then [a] else [];
    assert Concat(s0) == Optional(p, a) by {
      if p {
        ConcatSnoc([], a);
        assert [] + [a] == [a];
      }
    }
    var s1 := s0 + (if q then [b] else []);
    assert Concat(s1) == Optional(p, a) + Optional(q, b) by {
      if q { ConcatSnoc(s0, b); } else { assert s1 == s0; }
    }
    var s2 := s1 + (if u then [c] else []);
    if u { ConcatSnoc(s1, c); } else { assert s2 == s1; }
  }

  lemma RegroupProperty(x: string, a: string, b: string, c: string, p: string, d: string)
    ensures x + a + b + c + p + d == x + ((a + b + c) + p + d)
  {
  }

  function DtoOpening(dtoName: string): string {
    "import { ApiProperty } from '@nestjs/swagger';\n"
      + "import { IsNotEmpty, IsNumber, IsString } from 'class-validator';\n"
      + "\n"
      + "export class " + dtoName + " {\n"
  }

  /** The DTO class for the table: the opening, one property per field in input order, the closing brace. */
  function DtoText(tblName: string, fieldArray: seq<FieldDefinition>): string {
    DtoOpening(Capitalize(tblName) + "Dto") + Concat(MapText(fieldArray, DtoProperty)) + "}"
  }

  method GenerateDto(tblName: string, fieldArray: seq<FieldDefinition>) returns (tsDto: string)
    ensures tsDto == DtoText(tblName, fieldArray)
  {
    var dtoName := Capitalize(tblName) + "Dto";
    tsDto := DtoOpening(dtoName);
    tsDto := AppendDtoProperties(tsDto, fieldArray);
    tsDto := tsDto + "}";
  }

  /** The `forEach` of `generateAPI`: one property per field, appended in order. */
  method AppendDtoProperties(tsDto: string, fieldArray: seq<FieldDefinition>) returns (r: string)
    ensures r == tsDto + Concat(MapText(fieldArray, DtoProperty))
  {
    r := tsDto;
    for i := 0 to |fieldArray|
      invariant r == tsDto + Concat(MapText(fieldArray[..i], DtoProperty))
    {
      MapTextSnoc(fieldArray, DtoProperty, i);
      ConcatAfter(tsDto, MapText(fieldArray[..i], DtoProperty), DtoProperty(fieldArray[i]));
      r := AppendDtoProperty(r, fieldArray[i]);
    }
    assert fieldArray[..|fieldArray|] == fieldArray;
  }

  /** The property the list filter searches by: the second field, a required string. */
  function SearchProperty(searchField: string): string {
    SearchHead() + SearchDescription(searchField) + SearchTail() + SearchDeclaration(searchField)
  }

  function SearchHead(): string {
    "  @IsNotEmpty()\n"
      + "  @IsString()\n"
      + "  @ApiProperty({\n"
  }

  function SearchDescription(searchField: string): string {
    "    description: 'Search field " + searchField + "',\n"
  }

  function SearchTail(): string {
    "    type: 'string',\n"
      + "    example: '%',\n"
      + "  })\n"
  }

  function SearchDeclaration(searchField: string): string {
    "  " + searchField + ": string;\n"
  }

  function FilterDtoOpening(filterDtoName: string): string {
    "import { ApiProperty } from '@nestjs/swagger';\n"
      + "import { IsNotEmpty, IsString, MinLength } from 'class-validator';\n"
      + "\n"
      + "export class " + filterDtoName + " {\n\n"
  }

  /** The paging and sorting properties after the search property. */
  function FilterDtoPaging(): string {
    "\n"
      + "  @IsString()\n"
      + "  @ApiProperty({\n"
      + "    description: 'Sort direction',\n"
      + "    type: 'string',\n"
      + "    enum: ['asc', 'desc', ''],\n"
      + "    example: 'asc',\n"
      + "  })\n"
      + "  sort_direction:string;\n"
      + "\n"
      + "  @IsNotEmpty()\n"
      + "  @IsNumber()\n"
      + "  @ApiProperty({\n"
      + "    description: 'Page index',\n"
      + "    type: 'number',\n"
      + "    example: '1',\n"
      + "  })\n"
      + "  page_index: number;\n"
      + "\n"
      + "  @IsNotEmpty()\n"
      + "  @IsNumber()\n"
      + "  @ApiProperty({\n"
      + "    description: 'Page size',\n"
      + "    type: 'number',\n"
      + "    example: 25,\n"
      + "  })\n"
      + "  page_size: number;\n"
  }

  /** The filter DTO class: searched by the second field of the table. */
  function FilterDto(tblName: string, fieldArray: seq<FieldDefinition>): string
    requires |fieldArray| >= 2
  {
    FilterDtoOpening(Capitalize(tblName) + "FilterDto") + SearchProperty(fieldArray[1].field)
      + FilterDtoPaging() + "}"
  }

  /** The filter DTO declares and describes the second field as its search property. */
  lemma {:induction false} FilterDtoSearchesSecondField(tblName: string, fieldArray: seq<FieldDefinition>)
    requires |fieldArray| >= 2
    ensures Contains(FilterDto(tblName, fieldArray), SearchDeclaration(fieldArray[1].field))
    ensures Contains(FilterDto(tblName, fieldArray), SearchDescription(fieldArray[1].field))
  {
    var f := fieldArray[1].field;
    var opening := FilterDtoOpening(Capitalize(tblName) + "FilterDto");
    var search := SearchProperty(f);
    ContainsEnd(SearchHead(), SearchDescription(f));
    ContainsAppend(SearchHead() + SearchDescription(f), SearchTail(), SearchDescription(f));
    ContainsAppend(SearchHead() + SearchDescription(f) + SearchTail(), SearchDeclaration(f), SearchDescription(f));
    ContainsEnd(SearchHead() + SearchDescription(f) + SearchTail(), SearchDeclaration(f));
    SearchInFilterDto(opening, search, FilterDtoPaging(), SearchDescription(f));
    SearchInFilterDto(opening, search, FilterDtoPaging(), SearchDeclaration(f));
  }

  lemma SearchInFilterDto(opening: string, search: string, paging: string, pat: string)
    requires Contains(search, pat)
    ensures Contains(opening + search + paging + "}", pat)
  {
    ContainsPrepend(opening, search, pat);
    ContainsAppend(opening + search, paging, pat);
    ContainsAppend(opening + search + paging, "}", pat);
  }

  /** Where the DTO class of the table is written. */
  function DtoPath(tblName: string): string {
    "dist/api/dto/" + Capitalize(tblName) + ".dto.ts"
  }

  /** Where the filter DTO class of the table is written. */
  function FilterDtoPath(tblName: string): string {
    "dist/api/dto/" + Capitalize(tblName) + "Filter.dto.ts"
  }

  /** The two DTO files of a table never share a path. */
  lemma DtoPathsDistinct(tblName: string)
    ensures DtoPath(tblName) != FilterDtoPath(tblName)
  {
    assert |FilterDtoPath(tblName)| == |DtoPath(tblName)| + 6;
  }

  /**
   * The DTO part of `generateAPI` for the scanned table: the DTO file, then
   * the filter DTO file. `capitalize` of an undefined table name throws a
   * TypeError before anything is written; with fewer than two fields the
   * filter's `fieldArray[1]` throws after the DTO file is written. Either
   * way `crashed` is set and `written` holds the files written before.
   * The DTO text is `DtoText`, which `GenerateDto` builds with the
   * source's loop.
   */
  method GenerateApiDtos(table: Table) returns (written: seq<OutputFile>, crashed: bool)
    ensures crashed <==> table.tblName.None? || |table.fields| < 2
    ensures table.tblName.None? ==> written == []
    ensures table.tblName.Some? ==>
      var tblName := table.tblName.value;
      && |written| == (if |table.fields| >= 2 then 2 else 1)
      && written[0] == OutputFile(DtoPath(tblName), DtoText(tblName, table.fields))
      && (|written| == 2 ==> written[1] == OutputFile(FilterDtoPath(tblName), FilterDto(tblName, table.fields)))
    ensures DistinctPaths(written)
  {
    hide DtoText, FilterDto;
    if table.tblName.None? {
      return [], true;
    }
    var tblName := table.tblName.value;
    var dto := OutputFile(DtoPath(tblName), DtoText(tblName, table.fields));
    written := [dto];
    if |table.fields| < 2 {
      crashed := true;
      return;
    }
    crashed := false;
    var filter := OutputFile(FilterDtoPath(tblName), FilterDto(tblName, table.fields));
    DtoPathsDistinct(tblName);
    PairDistinct(dto, filter);
    written := written + [filter];
  }

  lemma PairDistinct(a: OutputFile, b: OutputFile)
    requires a.path != b.path
    ensures DistinctPaths([a] + [b])
  {
  }
}
