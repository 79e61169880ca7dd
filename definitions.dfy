/**
 * The values shared by the scanner and the emitters.
 */
module Definitions {

  datatype Option<T> = None | Some(value: T)

  datatype Result<T, E> = Ok(value: T) | Err(error: E)

  /**
   * One column of the table (`typeName` is the source's `type` member).
   * `description` stays undefined (`None`): the scanner never assigns it,
   * and the browser form fields interpolate it as is.
   */
  datatype FieldDefinition = FieldDefinition(
    field: string,
    typeName: string,
    notNull: bool,
    description: Option<string>)

  /**
   * What one scan of the definition file yields. `tblName` is undefined when
   * the CREATE line's qualifier holds no `.`.
   */
  datatype Table = Table(
    schemaName: string,
    tblName: Option<string>,
    sequenceName: string,
    fields: seq<FieldDefinition>)

  /** No field name or type of `fields` holds a line break (true of every scanned field). */
  predicate SingleLine(fields: seq<FieldDefinition>) {
    forall i :: 0 <= i < |fields| ==> '\n' !in fields[i].field && '\n' !in fields[i].typeName
  }

  /** A file an emitter writes: its path below the working directory and its text. */
  datatype OutputFile = OutputFile(path: string, text: string)

  /** No two of `files` are written to the same path, so none overwrites another. */
  predicate DistinctPaths(files: seq<OutputFile>) {
    forall i, j :: 0 <= i < j < |files| ==> files[i].path != files[j].path
  }

  /** How a template literal renders `${v}` for a value that may be undefined. */
  function Interpolate(v: Option<string>): string {
    match v
    case Some(s) => s
    case None => "undefined"
  }
}
