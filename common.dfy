/**
 * `src/common.ts`: capitalisation and the four type-category predicates
 * the browser emitter uses. Each predicate compares the upper-cased type
 * against a fixed list of exact names.
 */
module Common {
  import opened JsText
  import opened Definitions

  /** `capitalize`: upper-cases the first character, keeps the rest. */
  function Capitalize(s: string): (r: string)
    ensures |r| == |s|
    ensures |s| > 0 ==> r[0] == UpperChar(s[0]) && r[1..] == s[1..]
  {
    if |s| == 0 then "" else Upper(s[..1]) + s[1..]
  }

  const NumberTypes: seq<string> := ["INT4", "INT8", "INTEGER"]
  const StringTypes: seq<string> := ["VARCHAR", "BPCHAR", "TEXT"]
  const BooleanTypes: seq<string> := ["BOOL"]
  const DateTypes: seq<string> := ["DATE", "TIMESTAMP"]

  predicate IsNumber(item: FieldDefinition) {
    Upper(item.typeName) in NumberTypes
  }

  predicate IsString(item: FieldDefinition) {
    Upper(item.typeName) in StringTypes
  }

  predicate IsBoolean(item: FieldDefinition) {
    Upper(item.typeName) in BooleanTypes
  }

  predicate IsDate(item: FieldDefinition) {
    Upper(item.typeName) in DateTypes
  }

  /** The type is already upper case, as every type the scanner stores is. */
  predicate UpperType(item: FieldDefinition) {
    Upper(item.typeName) == item.typeName
  }

  /** Capitalising twice is capitalising once, and only the case of the first character moves. */
  lemma CapitalizeIdempotent(s: string)
    ensures Capitalize(Capitalize(s)) == Capitalize(s)
    ensures Upper(Capitalize(s)) == Upper(s)
  {
    if |s| > 0 {
      var c := Capitalize(s);
      var cc := Capitalize(c);
      UpperCharIdempotent(s[0]);
      assert cc[1..] == c[1..];
      assert cc == [cc[0]] + cc[1..] && c == [c[0]] + c[1..];
      forall i | 0 <= i < |s|
        ensures Upper(c)[i] == Upper(s)[i]
      {
        if i > 0 {
          assert c[i] == c[1..][i - 1] == s[1..][i - 1] == s[i];
        }
      }
    }
  }

  lemma UpperCharIdempotent(ch: char)
    ensures UpperChar(UpperChar(ch)) == UpperChar(ch)
  {
  }

  /** No type is in two categories. */
  lemma CategoriesDisjoint(item: FieldDefinition)
    ensures !(IsNumber(item) && IsString(item))
    ensures !(IsNumber(item) && IsBoolean(item))
    ensures !(IsNumber(item) && IsDate(item))
    ensures !(IsString(item) && IsBoolean(item))
    ensures !(IsString(item) && IsDate(item))
    ensures !(IsBoolean(item) && IsDate(item))
  {
  }

  /**
   * The categories do not cover every type: `TIMESTAMPTZ` (which the SQL
   * emitter does cast) and `NUMERIC` are in none of them.
   */
  lemma CategoriesNotTotal(item: FieldDefinition)
    requires item.typeName == "TIMESTAMPTZ" || item.typeName == "NUMERIC"
    ensures !IsNumber(item) && !IsString(item) && !IsBoolean(item) && !IsDate(item)
  {
    if item.typeName == "TIMESTAMPTZ" {
      assert Upper(item.typeName) == "TIMESTAMPTZ";
    } else {
      assert Upper(item.typeName) == "NUMERIC";
    }
  }

  /**
   * Each predicate depends only on the upper-case form of the type, so
   * writing the type in any case gives the same answer.
   */
  lemma CategoriesCaseInsensitive(item: FieldDefinition, t: string)
    requires Upper(t) == Upper(item.typeName)
    ensures IsNumber(item.(typeName := t)) == IsNumber(item)
    ensures IsString(item.(typeName := t)) == IsString(item)
    ensures IsBoolean(item.(typeName := t)) == IsBoolean(item)
    ensures IsDate(item.(typeName := t)) == IsDate(item)
    ensures IsNumber(item.(typeName := Upper(t))) == IsNumber(item)
  {
    UpperIdempotent(t);
  }
}
