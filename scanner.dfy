/**
 * `sql_to_fnc.ts`: the command-line checks and the line scanner that turns
 * a table-definition script into a schema name, a table name, a sequence
 * name and the ordered list of fields.
 *
 * `Scan` is the specification: the scanner's state after each prefix of
 * the lines. `ScanDefinition` is the source's loop over the lines with its
 * mutable accumulators, proved against it, and the lemmas below say what
 * `Scan` computes without replaying it line by line.
 */
module Scanner {
  import opened JsText
  import opened Definitions
  import opened Common

  /** A `TypeError` thrown inside the `forEach`, at the line with this index. */
  datatype ScanError = UncaughtTypeError(line: nat)

  /** Why a run stops before any file is generated. */
  datatype Failure =
    | MissingArgument           // no first argument, or an empty one (exit -1)
    | FileNotFound              // `fs.existsSync` is false (exit -1)
    | NotSqlFile                // the extension, upper-cased, is not `.SQL` (exit -1)
    | ScanCrashed(line: nat)    // uncaught `TypeError` while scanning
    | NoSchema                  // `schemaName` still empty after the scan (exit -1)

  // ------------------------------------------------- line classification

  /**
   * `line.trim().split(/\s+/)`: never empty; the first token is empty iff
   * the line is blank. The tokens hold no white space, and with the runs
   * of white space between them put back they give the trimmed line, so
   * the k-th token is the k-th maximal non-blank part of the line.
   */
  function Tokens(line: string): (elems: seq<string>)
    ensures |elems| >= 1
    ensures elems[0] == "" <==> Trim(line) == ""
    ensures forall k :: 0 <= k < |elems| ==> NoSpace(elems[k])
    ensures |SplitSeparators(Trim(line))| == |elems| - 1
    ensures Weave(elems, SplitSeparators(Trim(line))) == Trim(line)
  {
    var t := Trim(line);
    assert t != "" ==> NextSpace(t, 0) > 0;
    SplitWsWeave(t);
    SplitWs(t)
  }

  /** What the `forEach` body makes of one line. */
  datatype LineKind =
    | CreateLine(schema: string, table: Option<string>)
    | SkippedLine
    | FieldLine(def: FieldDefinition, sequence: Option<string>)
    | ThrowingLine

  function Min(a: int, b: int): int {
    if a <= b then a else b
  }

  /**
   * The sequence a line names: present iff the upper-cased line contains
   * `NEXTVAL(`; then the text from 9 characters after its first occurrence
   * up to the next `'`. Without such a quote `substring` swaps its bounds,
   * and the name becomes the line up to that point.
   */
  function SequenceIn(line: string): (r: Option<string>)
    ensures r.Some? <==> exists k :: MatchesAt(Upper(line), "NEXTVAL(", k)
    ensures r.Some? ==>
      var nv := IndexOf(Upper(line), "NEXTVAL(", 0);
      var q := IndexOf(line, "'", nv + 9);
      && (q >= 0 ==> nv + 9 <= q && r.value == line[nv + 9..q])
      && (q < 0 ==> r.value == line[..Min(nv + 9, |line|)])
  {
    var nextVal := IndexOf(Upper(line), "NEXTVAL(", 0);
    ContainsIff(Upper(line), "NEXTVAL(");
    if nextVal >= 0 then
      Some(Substring(line, nextVal + 9, IndexOf(line, "'", nextVal + 9)))
    else
      None
  }

  /**
   * The branches of the `forEach` body: a first token that upper-cases to
   * `CREATE` names the table (reading `elems[2]`, which throws when the
   * line has fewer than three tokens); a blank line or a first token
   * starting with `(` or `)` is skipped; anything else declares a field
   * (reading `elems[1]`, which throws when the line has one token).
   */
  function Classify(line: string): LineKind {
    var elems := Tokens(line);
    if Upper(elems[0]) == "CREATE" then
      if |elems| < 3 then ThrowingLine
      else
        var parts := SplitChar(elems[2], '.');
        CreateLine(parts[0], if |parts| > 1 then Some(parts[1]) else None)
    else if elems[0][..Min(1, |elems[0]|)] in ["(", ")"] then
      SkippedLine
    else if elems[0] == "" then
      SkippedLine
    else if |elems| < 2 then
      ThrowingLine
    else
      var field := FieldDefinition(elems[0], Upper(elems[1]), Contains(Upper(line), "NOT NULL"), None);
      FieldLine(field, SequenceIn(line))
  }

  /** Which lines name the table, and what they name. */
  lemma ClassifyCreate(line: string)
    ensures Classify(line).CreateLine? <==> Upper(Tokens(line)[0]) == "CREATE" && |Tokens(line)| >= 3
    ensures Classify(line).CreateLine? ==>
      var e := Tokens(line)[2];
      var i := CharIndex(e, '.');
      && Classify(line).schema == e[..i]
      && (Classify(line).table.Some? <==> i < |e|)
      && (i < |e| ==> Classify(line).table.value == e[i + 1..][..CharIndex(e[i + 1..], '.')])
  {
    var elems := Tokens(line);
    if Upper(elems[0]) == "CREATE" && |elems| >= 3 {
      var e := elems[2];
      var parts := SplitChar(e, '.');
      assert (|parts| > 1) <==> CharIndex(e, '.') < |e|;
    }
  }

  /** Which lines are skipped: blank ones and those opening or closing a parenthesis. */
  lemma ClassifySkipped(line: string)
    ensures Classify(line).SkippedLine? <==>
      Upper(Tokens(line)[0]) != "CREATE" &&
      (Trim(line) == "" || Tokens(line)[0][0] == '(' || Tokens(line)[0][0] == ')')
  {
    var first := Tokens(line)[0];
    if first != "" {
      assert first[..Min(1, |first|)] == [first[0]];
    }
  }

  /**
   * Every other line with two tokens declares a field, `COMMENT ON ...`
   * lines included: its first token, its second token upper-cased, not-null
   * iff the upper-cased line contains `NOT NULL`, no description.
   */
  lemma ClassifyField(line: string)
    ensures Classify(line).FieldLine? <==>
      Upper(Tokens(line)[0]) != "CREATE" && Trim(line) != "" &&
      Tokens(line)[0][0] != '(' && Tokens(line)[0][0] != ')' && |Tokens(line)| >= 2
    ensures Classify(line).FieldLine? ==>
      var f := Classify(line).def;
      && f.field == Tokens(line)[0] && f.field != "" && NoSpace(f.field)
      && f.typeName == Upper(Tokens(line)[1]) && NoSpace(f.typeName)
      && (f.notNull <==> exists k :: MatchesAt(Upper(line), "NOT NULL", k))
      && f.description.None?
      && Classify(line).sequence == SequenceIn(line)
  {
    ClassifySkipped(line);
    ContainsIff(Upper(line), "NOT NULL");
    if Classify(line).FieldLine? {
      UpperKeepsNoSpace(Tokens(line)[1]);
    }
  }

  /** Which lines throw: a short CREATE line, or a one-token field line. */
  lemma ClassifyThrowing(line: string)
    ensures Classify(line).ThrowingLine? <==>
      (Upper(Tokens(line)[0]) == "CREATE" && |Tokens(line)| < 3) ||
      (Upper(Tokens(line)[0]) != "CREATE" && Trim(line) != "" &&
       Tokens(line)[0][0] != '(' && Tokens(line)[0][0] != ')' && |Tokens(line)| < 2)
  {
    ClassifySkipped(line);
  }

  // ------------------------------------------------------ the scan fold

  /** The accumulators before the first line. */
  const Initial: Table := Table("", Some(""), "", [])

  /** What one line does to the accumulators; `None` when it throws. */
  function Step(st: Table, kind: LineKind): Option<Table> {
    match kind
    case CreateLine(schema, table) => Some(st.(schemaName := schema, tblName := table))
    case SkippedLine => Some(st)
    case FieldLine(def, sequence) =>
      Some(st.(fields := st.fields + [def],
               sequenceName := if sequence.Some? then sequence.value else st.sequenceName))
    case ThrowingLine => None
  }

  /** The accumulators after the classified lines, or the index of the line that threw. */
  function ScanKinds(kinds: seq<LineKind>): Result<Table, ScanError> {
    if |kinds| == 0 then Ok(Initial)
    else
      match ScanKinds(kinds[..|kinds| - 1])
      case Err(e) => Err(e)
      case Ok(st) =>
        match Step(st, kinds[|kinds| - 1])
        case None => Err(UncaughtTypeError(|kinds| - 1))
        case Some(st') => Ok(st')
  }

  function Kinds(lines: seq<string>): (kinds: seq<LineKind>)
    ensures |kinds| == |lines|
    ensures forall i :: 0 <= i < |lines| ==> kinds[i] == Classify(lines[i])
  {
    seq(|lines|, i requires 0 <= i < |lines| => Classify(lines[i]))
  }

  /** The scan of the definition's lines. */
  function Scan(lines: seq<string>): Result<Table, ScanError> {
    ScanKinds(Kinds(lines))
  }

  // ------------------------------------------------- the imperative scan

  /**
   * The `forEach` callback: what one line does to the accumulators
   * `tblName`, `schemaName`, `sequenceName` and `fieldArray` (held in `st`);
   * `None` when it throws.
   */
  method ScanLine(line: string, st: Table) returns (next: Option<Table>)
    ensures next == Step(st, Classify(line))
  {
    hide Upper, SplitWs, Trim, SplitChar, IndexOf, Substring, Contains;
    var elems := SplitWs(Trim(line));
    assert elems == Tokens(line);
    if Upper(elems[0]) == "CREATE" {
      if |elems| < 3 {
        return None;
      }
      var parts := SplitChar(elems[2], '.');
      var schemaName := parts[0];
      var tblName := if |parts| > 1 then Some(parts[1]) else None;
      return Some(st.(schemaName := schemaName, tblName := tblName));
    }
    if elems[0][..Min(1, |elems[0]|)] in ["(", ")"] {
      return Some(st);
    }
    if elems[0] == "" {
      return Some(st);
    }
    if |elems| < 2 {
      return None;
    }
    var fieldArray := st.fields + [FieldDefinition(elems[0], Upper(elems[1]), Contains(Upper(line), "NOT NULL"), None)];
    var sequenceName := st.sequenceName;
    var nextVal := IndexOf(Upper(line), "NEXTVAL(", 0);
    if nextVal >= 0 {
      var lastElem := IndexOf(line, "'", nextVal + 9);
      sequenceName := Substring(line, nextVal + 9, lastElem);
    }
    return Some(st.(fields := fieldArray, sequenceName := sequenceName));
  }

  /** The body of `sql_to_fnc.ts` from the split into lines to the end of the `forEach`. */
  method ScanDefinition(sqlFile: string) returns (r: Result<Table, ScanError>)
    ensures r == Scan(SplitChar(sqlFile, '\n'))
  {
    var lines := SplitChar(sqlFile, '\n');
    ghost var kinds := Kinds(lines);
    var st := Initial;
    assert kinds[..0] == [];
    ScanFromAgrees(kinds, 0, st);
    var i := 0;
    while i < |lines|
      invariant 0 <= i <= |lines|
      invariant ScanFrom(st, kinds, i) == ScanKinds(kinds)
    {
      var next := ScanLine(lines[i], st);
      assert next == Step(st, kinds[i]);
      if next.None? {
        assert ScanFrom(st, kinds, i) == Err(UncaughtTypeError(i));
        return Err(UncaughtTypeError(i));
      }
      assert ScanFrom(st, kinds, i) == ScanFrom(next.value, kinds, i + 1);
      st := next.value;
      i := i + 1;
    }
    r := Ok(st);
  }

  /** The same fold run forwards from line `i` with accumulators `st`. */
  function ScanFrom(st: Table, kinds: seq<LineKind>, i: nat): Result<Table, ScanError>
    requires i <= |kinds|
    decreases |kinds| - i
  {
    if i == |kinds| then Ok(st)
    else
      match Step(st, kinds[i])
      case None => Err(UncaughtTypeError(i))
      case Some(st') => ScanFrom(st', kinds, i + 1)
  }

  lemma {:induction false} ScanFromAgrees(kinds: seq<LineKind>, i: nat, st: Table)
    requires i <= |kinds| && ScanKinds(kinds[..i]) == Ok(st)
    ensures ScanFrom(st, kinds, i) == ScanKinds(kinds)
    decreases |kinds| - i
  {
    if i == |kinds| {
      assert kinds[..i] == kinds;
    } else {
      assert kinds[..i + 1][..i] == kinds[..i];
      match Step(st, kinds[i])
      case None =>
        ScanErrorPersists(kinds, i + 1);
      case Some(st') =>
        ScanFromAgrees(kinds, i + 1, st');
    }
  }

  /** Once a prefix throws, the whole scan reports that line. */
  lemma {:induction false} ScanErrorPersists(kinds: seq<LineKind>, k: nat)
    requires k <= |kinds| && ScanKinds(kinds[..k]).Err?
    ensures ScanKinds(kinds) == ScanKinds(kinds[..k])
    decreases |kinds| - k
  {
    if k < |kinds| {
      assert kinds[..k + 1][..k] == kinds[..k];
      ScanErrorPersists(kinds, k + 1);
    } else {
      assert kinds[..k] == kinds;
    }
  }

  // ------------------------------------------------ the command line run

  /** The last path component: the text after the last `/`. */
  function BaseName(p: string): (r: string)
    ensures '/' !in r
    ensures |r| <= |p| && r == p[|p| - |r|..]
    ensures |r| < |p| ==> p[|p| - |r| - 1] == '/'
  {
    if |p| == 0 || p[|p| - 1] == '/' then "" else BaseName(p[..|p| - 1]) + [p[|p| - 1]]
  }

  /** Index of the last `.` in `s`, or -1. */
  function LastDot(s: string): (r: int)
    ensures -1 <= r < |s| && (r >= 0 ==> s[r] == '.')
    ensures forall k :: r < k < |s| ==> s[k] != '.'
  {
    if |s| == 0 then -1 else if s[|s| - 1] == '.' then |s| - 1 else LastDot(s[..|s| - 1])
  }

  /** `p` without the `/` characters at its end. */
  function TrimTrailingSlashes(p: string): (r: string)
    ensures |r| <= |p| && r == p[..|r|]
    ensures r == "" || r[|r| - 1] != '/'
    ensures forall k :: |r| <= k < |p| ==> p[k] == '/'
  {
    if |p| > 0 && p[|p| - 1] == '/' then TrimTrailingSlashes(p[..|p| - 1]) else p
  }

  /**
   * `path.extname` on a POSIX path: the last component, trailing `/`
   * ignored, from its last `.` on. It is empty when the component has no
   * `.`, when its only `.` starts it, and for the component `..`.
   * Otherwise it is a suffix of the path that starts with its only `.`
   * and is shorter than the component.
   */
  function ExtName(p: string): (r: string)
    ensures var b := BaseName(TrimTrailingSlashes(p));
      r == "" <==> LastDot(b) <= 0 || b == ".."
    ensures r != "" ==>
      && r[0] == '.' && '.' !in r[1..] && '/' !in r
      && |r| < |BaseName(TrimTrailingSlashes(p))|
      && EndsWith(TrimTrailingSlashes(p), r)
  {
    var t := TrimTrailingSlashes(p);
    var b := BaseName(t);
    var d := LastDot(b);
    if d <= 0 || b == ".." then ""
    else
      ExtensionIsSuffix(t, b, d);
      b[d..]
  }

  /** The text from the last `.` of a component of `t` on is a suffix of `t` with one `.`. */
  lemma ExtensionIsSuffix(t: string, b: string, d: int)
    requires |b| <= |t| && b == t[|t| - |b|..] && '/' !in b
    requires 0 < d < |b| && b[d] == '.'
    requires forall k :: d < k < |b| ==> b[k] != '.'
    ensures var r := b[d..];
      && r[0] == '.' && '.' !in r[1..] && '/' !in r
      && |r| < |b| && EndsWith(t, r)
  {
    var r := b[d..];
    forall i | 0 <= i < |r[1..]|
      ensures r[1..][i] != '.'
    {
      assert r[1..][i] == b[d + 1 + i];
    }
    assert t[|t| - |r|..] == r;
  }

  /** `BaseName` of a path ending in a piece without `/` ends in that piece. */
  lemma {:induction false} BaseNameAppend(p: string, s: string)
    requires '/' !in s
    ensures BaseName(p + s) == BaseName(p) + s
    decreases |s|
  {
    if |s| > 0 {
      var n := |s|;
      BaseNameAppend(p, s[..n - 1]);
      assert (p + s)[..|p + s| - 1] == p + s[..n - 1];
      assert BaseName(p) + s[..n - 1] + [s[n - 1]] == BaseName(p) + s;
    } else {
      assert p + s == p;
    }
  }

  /**
   * A file name with a non-empty extension free of `.` and `/`, after a path
   * that does not end in `/`, has that extension.
   */
  lemma ExtNameOfFile(p: string, ext: string)
    requires |p| > 0 && p[|p| - 1] != '/'
    requires ext != "" && '.' !in ext && '/' !in ext
    ensures ExtName(p + "." + ext) == "." + ext
  {
    NoTrailingSlash(p + "." + ext);
    BaseNameOfFile(p, ext);
    LastDotBeforeExtension(BaseName(p), ext);
    ExtNameOfParts(p + "." + ext, BaseName(p), ext);
  }

  /** A path that does not end in `/` loses nothing to `TrimTrailingSlashes`. */
  lemma NoTrailingSlash(path: string)
    requires |path| > 0 && path[|path| - 1] != '/'
    ensures TrimTrailingSlashes(path) == path
  {
  }

  /** Appending `.ext` to a path that does not end in `/` extends its last component. */
  lemma BaseNameOfFile(p: string, ext: string)
    requires |p| > 0 && p[|p| - 1] != '/'
    requires '/' !in ext
    ensures BaseName(p + "." + ext) == BaseName(p) + "." + ext
    ensures |BaseName(p)| > 0
  {
    hide BaseName;
    BaseNameAppend(p, "." + ext);
    AppendAssoc(p, ".", ext);
    AppendAssoc(BaseName(p), ".", ext);
    BaseNameNonEmpty(p);
  }

  lemma BaseNameNonEmpty(p: string)
    requires |p| > 0 && p[|p| - 1] != '/'
    ensures |BaseName(p)| > 0
  {
  }

  /** `ExtName` once the component and its last `.` are known. */
  lemma ExtNameOfParts(path: string, stem: string, ext: string)
    requires TrimTrailingSlashes(path) == path && BaseName(path) == stem + "." + ext
    requires LastDot(stem + "." + ext) == |stem| && |stem| > 0 && ext != ""
    ensures ExtName(path) == "." + ext
  {
    hide ExtName, TrimTrailingSlashes, BaseName, LastDot;
    var b := stem + "." + ext;
    AppendAssoc(stem, ".", ext);
    EndsWithConcat(stem, "." + ext);
    assert |b| == |stem| + 1 + |ext| && |".."| == 2;
    ExtNameFromParts(path, b, |stem|);
  }

  lemma ExtNameFromParts(path: string, b: string, d: int)
    requires TrimTrailingSlashes(path) == path && BaseName(path) == b
    requires LastDot(b) == d && 0 < d && |b| != 2
    ensures ExtName(path) == b[d..]
  {
  }

  /** The component `..` has no extension. */
  lemma ExtNameDotDot()
    ensures ExtName("..") == ""
  {
    hide ExtName, BaseName, TrimTrailingSlashes;
    DotDotParts("..");
    ExtNameOfDotDot("..");
  }

  /** `..` has no trailing `/` and is its own last component. */
  lemma DotDotParts(s: string)
    requires |s| == 2 && s[0] == '.' && s[1] == '.'
    ensures TrimTrailingSlashes(s) == s && BaseName(s) == s
  {
    assert BaseName(s[..1][..0]) == "";
    assert BaseName(s[..1]) == s[..1];
    FrontAndLast(s);
  }

  lemma ExtNameOfDotDot(path: string)
    requires TrimTrailingSlashes(path) == path && BaseName(path) == ".."
    ensures ExtName(path) == ""
  {
  }

  /** A name that starts with its only `.` has no extension. */
  lemma ExtNameLeadingDot(dir: string, name: string)
    requires name != "" && '.' !in name && '/' !in name
    ensures ExtName(dir + "/." + name) == ""
  {
    hide ExtName, TrimTrailingSlashes, BaseName, LastDot;
    var path := dir + "/." + name;
    var b := "." + name;
    assert path[|path| - 1] == name[|name| - 1];
    NoTrailingSlash(path);
    AppendAssoc(dir + "/", ".", name);
    assert path == (dir + "/") + b;
    BaseNameAppend(dir + "/", b);
    BaseNameAfterSlash(dir);
    forall k | 0 < k < |b|
      ensures b[k] != '.'
    {
      assert b[k] == name[k - 1];
    }
    LastDotIs(b, 0);
    ExtNameNoInnerDot(path, b);
  }

  lemma BaseNameAfterSlash(dir: string)
    ensures BaseName(dir + "/") == ""
  {
  }

  /** A last component whose last `.` starts it, or that has none, gives no extension. */
  lemma ExtNameNoInnerDot(path: string, b: string)
    requires TrimTrailingSlashes(path) == path && BaseName(path) == b && LastDot(b) <= 0
    ensures ExtName(path) == ""
  {
  }

  /** In `a + "." + ext` with no `.` in `ext`, the last `.` is the one after `a`. */
  lemma LastDotBeforeExtension(a: string, ext: string)
    requires '.' !in ext
    ensures LastDot(a + "." + ext) == |a|
  {
    var p := a + ".";
    assert |p| == |a| + 1 && p[|a|] == '.';
    forall k | |p| <= k < |p + ext|
      ensures (p + ext)[k] != '.'
    {
      assert (p + ext)[k] == ext[k - |p|];
    }
    LastDotIs(p + ext, |a|);
  }

  lemma LastDotIs(s: string, d: nat)
    requires d < |s| && s[d] == '.'
    requires forall k :: d < k < |s| ==> s[k] != '.'
    ensures LastDot(s) == d
  {
  }

  predicate NoThrow(kinds: seq<LineKind>) {
    forall i :: 0 <= i < |kinds| ==> !kinds[i].ThrowingLine?
  }

  /**
   * The script: the argument checks, the scan, and the schema check. The
   * file system is given as `fileExists` (what `fs.existsSync(args[0])`
   * answers) and `sqlFile` (what `fs.readFileSync(args[0])` returns).
   */
  method Run(args: seq<string>, fileExists: bool, sqlFile: string) returns (r: Result<Table, Failure>)
    ensures (|args| == 0 || args[0] == "") <==> r == Err(MissingArgument)
    ensures r == Err(FileNotFound) <==> |args| > 0 && args[0] != "" && !fileExists
    ensures r == Err(NotSqlFile) <==>
      |args| > 0 && args[0] != "" && fileExists && Upper(ExtName(args[0])) != ".SQL"
    ensures r.Err? && r.error.ScanCrashed? <==>
      |args| > 0 && args[0] != "" && fileExists && Upper(ExtName(args[0])) == ".SQL"
      && !NoThrow(Kinds(SplitChar(sqlFile, '\n')))
    ensures r.Ok? <==>
      |args| > 0 && args[0] != "" && fileExists && Upper(ExtName(args[0])) == ".SQL"
      && Scan(SplitChar(sqlFile, '\n')).Ok? && Scan(SplitChar(sqlFile, '\n')).value.schemaName != ""
    ensures r.Ok? ==> Scan(SplitChar(sqlFile, '\n')) == Ok(r.value) && r.value.schemaName != ""
  {
    if |args| == 0 || args[0] == "" {
      return Err(MissingArgument);
    }
    if !fileExists {
      return Err(FileNotFound);
    }
    if Upper(ExtName(args[0])) != ".SQL" {
      return Err(NotSqlFile);
    }
    ScanOkIffNoThrow(Kinds(SplitChar(sqlFile, '\n')));
    var scanned := ScanDefinition(sqlFile);
    if scanned.Err? {
      return Err(ScanCrashed(scanned.error.line));
    }
    if scanned.value.schemaName == "" {
      return Err(NoSchema);
    }
    r := Ok(scanned.value);
  }

  // ------------------------------------- what the scan computes, stated directly

  /** The scan throws exactly when some line throws. */
  lemma {:induction false} ScanOkIffNoThrow(kinds: seq<LineKind>)
    ensures ScanKinds(kinds).Ok? <==> NoThrow(kinds)
  {
    if |kinds| > 0 {
      var init := kinds[..|kinds| - 1];
      ScanOkIffNoThrow(init);
      assert forall i :: 0 <= i < |init| ==> init[i] == kinds[i];
    }
  }

  /** The scan reports the FIRST line that throws. */
  lemma ScanReportsFirstThrow(kinds: seq<LineKind>, j: nat)
    requires j < |kinds| && kinds[j].ThrowingLine? && NoThrow(kinds[..j])
    ensures ScanKinds(kinds) == Err(UncaughtTypeError(j))
  {
    ScanOkIffNoThrow(kinds[..j]);
    assert kinds[..j + 1][..j] == kinds[..j];
    ScanErrorPersists(kinds, j + 1);
  }

  /** Indices of the field lines, in increasing order. */
  function FieldLineIndices(kinds: seq<LineKind>): (r: seq<nat>)
    ensures forall k :: 0 <= k < |r| ==> r[k] < |kinds| && kinds[r[k]].FieldLine?
    ensures forall k, m :: 0 <= k < m < |r| ==> r[k] < r[m]
    ensures forall i :: 0 <= i < |kinds| && kinds[i].FieldLine? ==> i in r
  {
    if |kinds| == 0 then []
    else
      var init := kinds[..|kinds| - 1];
      var prev := FieldLineIndices(init);
      assert forall k :: 0 <= k < |prev| ==> kinds[prev[k]] == init[prev[k]];
      if kinds[|kinds| - 1].FieldLine? then prev + [|kinds| - 1] else prev
  }

  /**
   * Every field line appends exactly one field and no other line does:
   * the k-th field is the one the k-th field line declares, so the fields
   * follow the lines' order and there are as many as field lines.
   */
  lemma {:induction false} ScanFieldsFollowFieldLines(kinds: seq<LineKind>)
    requires NoThrow(kinds)
    ensures ScanKinds(kinds).Ok?
    ensures var fields := ScanKinds(kinds).value.fields;
      var idx := FieldLineIndices(kinds);
      |fields| == |idx| &&
      forall k :: 0 <= k < |idx| ==> fields[k] == kinds[idx[k]].def
  {
    ScanOkIffNoThrow(kinds);
    if |kinds| > 0 {
      var n := |kinds|;
      var init := kinds[..n - 1];
      assert forall i :: 0 <= i < |init| ==> init[i] == kinds[i];
      ScanFieldsFollowFieldLines(init);
      var prev := FieldLineIndices(init);
      assert forall k :: 0 <= k < |prev| ==> kinds[prev[k]] == init[prev[k]];
    }
  }

  /**
   * Every scanned field has a non-empty name and a type without white
   * space, its type is already upper-cased (so the emitters' exact-match
   * dispatch and the case-insensitive categories agree on it), and no
   * description.
   */
  lemma ScannedFieldsWellFormed(lines: seq<string>)
    requires Scan(lines).Ok?
    ensures forall f | f in Scan(lines).value.fields ::
      && f.field != "" && NoSpace(f.field) && NoSpace(f.typeName)
      && UpperType(f) && f.description.None?
  {
    var kinds := Kinds(lines);
    ScanOkIffNoThrow(kinds);
    ScanFieldsFollowFieldLines(kinds);
    var fields := Scan(lines).value.fields;
    var idx := FieldLineIndices(kinds);
    forall f | f in fields
      ensures && f.field != "" && NoSpace(f.field) && NoSpace(f.typeName)
              && UpperType(f) && f.description.None?
    {
      var k :| 0 <= k < |fields| && fields[k] == f;
      var line := lines[idx[k]];
      ClassifyField(line);
      UpperIdempotent(Tokens(line)[1]);
    }
  }

  /** Index of the last CREATE line, if any. */
  function LastCreateLine(kinds: seq<LineKind>): (r: Option<nat>)
    ensures r.Some? ==> r.value < |kinds| && kinds[r.value].CreateLine?
    ensures r.Some? ==> forall k :: r.value < k < |kinds| ==> !kinds[k].CreateLine?
    ensures r.None? ==> forall k :: 0 <= k < |kinds| ==> !kinds[k].CreateLine?
  {
    if |kinds| == 0 then None
    else if kinds[|kinds| - 1].CreateLine? then Some(|kinds| - 1)
    else
      var init := kinds[..|kinds| - 1];
      assert forall k :: 0 <= k < |init| ==> init[k] == kinds[k];
      LastCreateLine(init)
  }

  /**
   * The schema and table names come from the last CREATE line; without
   * one the schema stays empty (no default schema) and the table name `''`.
   */
  lemma {:induction false} ScanNamesFromLastCreate(kinds: seq<LineKind>)
    requires NoThrow(kinds)
    ensures ScanKinds(kinds).Ok?
    ensures var st := ScanKinds(kinds).value;
      match LastCreateLine(kinds)
      case None => st.schemaName == "" && st.tblName == Some("")
      case Some(j) => st.schemaName == kinds[j].schema && st.tblName == kinds[j].table
  {
    ScanOkIffNoThrow(kinds);
    if |kinds| > 0 {
      var init := kinds[..|kinds| - 1];
      assert forall i :: 0 <= i < |init| ==> init[i] == kinds[i];
      ScanNamesFromLastCreate(init);
    }
  }

  /** Index of the last field line that names a sequence, if any. */
  function LastSequenceLine(kinds: seq<LineKind>): (r: Option<nat>)
    ensures r.Some? ==> r.value < |kinds| && kinds[r.value].FieldLine? && kinds[r.value].sequence.Some?
    ensures r.Some? ==> forall k :: r.value < k < |kinds| ==> !(kinds[k].FieldLine? && kinds[k].sequence.Some?)
    ensures r.None? ==> forall k :: 0 <= k < |kinds| ==> !(kinds[k].FieldLine? && kinds[k].sequence.Some?)
  {
    if |kinds| == 0 then None
    else if kinds[|kinds| - 1].FieldLine? && kinds[|kinds| - 1].sequence.Some? then Some(|kinds| - 1)
    else
      var init := kinds[..|kinds| - 1];
      assert forall k :: 0 <= k < |init| ==> init[k] == kinds[k];
      LastSequenceLine(init)
  }

  /**
   * The sequence name is the one the last naming field line gives: a
   * later `nextval(` overwrites an earlier one, and CREATE and skipped
   * lines are never searched.
   */
  lemma {:induction false} ScanSequenceFromLastLine(kinds: seq<LineKind>)
    requires NoThrow(kinds)
    ensures ScanKinds(kinds).Ok?
    ensures var st := ScanKinds(kinds).value;
      match LastSequenceLine(kinds)
      case None => st.sequenceName == ""
      case Some(j) => st.sequenceName == kinds[j].sequence.value
  {
    ScanOkIffNoThrow(kinds);
    if |kinds| > 0 {
      var init := kinds[..|kinds| - 1];
      assert forall i :: 0 <= i < |init| ==> init[i] == kinds[i];
      ScanSequenceFromLastLine(init);
    }
  }

  /** A skipped line changes nothing. */
  lemma SkippedLineChangesNothing(kinds: seq<LineKind>)
    ensures ScanKinds(kinds + [SkippedLine]) == ScanKinds(kinds)
  {
    assert (kinds + [SkippedLine])[..|kinds|] == kinds;
  }

  /** A CREATE line sets the two names and adds no field. */
  lemma CreateLineAddsNoField(kinds: seq<LineKind>, schema: string, table: Option<string>)
    requires ScanKinds(kinds).Ok?
    ensures ScanKinds(kinds + [CreateLine(schema, table)])
      == Ok(ScanKinds(kinds).value.(schemaName := schema, tblName := table))
  {
    assert (kinds + [CreateLine(schema, table)])[..|kinds|] == kinds;
  }

  /** A field line appends exactly its own field and keeps the names. */
  lemma FieldLineAppendsOneField(kinds: seq<LineKind>, def: FieldDefinition, sequence: Option<string>)
    requires ScanKinds(kinds).Ok?
    ensures ScanKinds(kinds + [FieldLine(def, sequence)]).Ok?
    ensures var before := ScanKinds(kinds).value;
      var after := ScanKinds(kinds + [FieldLine(def, sequence)]).value;
      && after.fields == before.fields + [def]
      && after.schemaName == before.schemaName && after.tblName == before.tblName
  {
    assert (kinds + [FieldLine(def, sequence)])[..|kinds|] == kinds;
  }
}
