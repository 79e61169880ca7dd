/**
 * The JavaScript string built-ins the generator relies on, over ASCII text
 * (the definition file is decoded as 7-bit ASCII, so no other character
 * reaches them): `trim`, `split(/\s+/)`, `split(c)`, `toUpperCase`,
 * `indexOf`, `substring`, `slice(0, -2)`, and the concatenation shapes the
 * emitters build with `+=`.
 */
module JsText {

  /** The characters `\s` and `trim` treat as white space (ASCII part). */
  predicate IsSpace(c: char) {
    c == ' ' || ('\t' <= c <= '\r')
  }

  predicate NoSpace(s: string) {
    forall i :: 0 <= i < |s| ==> !IsSpace(s[i])
  }

  // ---------------------------------------------------------------- trim

  function TrimStart(s: string): (r: string)
    ensures |r| <= |s| && r == s[|s| - |r|..]
    ensures forall i :: 0 <= i < |s| - |r| ==> IsSpace(s[i])
    ensures r == [] || !IsSpace(r[0])
  {
    if |s| > 0 && IsSpace(s[0]) then TrimStart(s[1..]) else s
  }

  function TrimEnd(s: string): (r: string)
    ensures |r| <= |s| && r == s[..|r|]
    ensures forall i :: |r| <= i < |s| ==> IsSpace(s[i])
    ensures r == [] || !IsSpace(r[|r| - 1])
  {
    if |s| > 0 && IsSpace(s[|s| - 1]) then TrimEnd(s[..|s| - 1]) else s
  }

  /** `s.trim()` */
  function Trim(s: string): (r: string)
    ensures r == [] || (!IsSpace(r[0]) && !IsSpace(r[|r| - 1]))
  {
    TrimEnd(TrimStart(s))
  }

  // ------------------------------------------------------ split(/\s+/)

  /** Index of the first white-space character at or after `i`, or `|s|`. */
  function NextSpace(s: string, i: nat): (j: nat)
    requires i <= |s|
    ensures i <= j <= |s| && (j == |s| || IsSpace(s[j]))
    ensures forall k :: i <= k < j ==> !IsSpace(s[k])
    decreases |s| - i
  {
    if i == |s| || IsSpace(s[i]) then i else NextSpace(s, i + 1)
  }

  /** Index just past the run of white space starting at `i`. */
  function SpaceRunEnd(s: string, i: nat): (j: nat)
    requires i <= |s|
    ensures i <= j <= |s| && (j == |s| || !IsSpace(s[j]))
    ensures forall k :: i <= k < j ==> IsSpace(s[k])
    decreases |s| - i
  {
    if i < |s| && IsSpace(s[i]) then SpaceRunEnd(s, i + 1) else i
  }

  /**
   * `s.split(/\s+/)`: the pieces between maximal runs of white space.
   * No piece holds white space, and the first piece is the text before the
   * first white-space character.
   */
  function SplitWs(s: string): (r: seq<string>)
    ensures |r| >= 1
    ensures r[0] == s[..NextSpace(s, 0)]
    ensures forall k :: 0 <= k < |r| ==> NoSpace(r[k])
    decreases |s|
  {
    var i := NextSpace(s, 0);
    if i == |s| then [s]
    else
      var j := SpaceRunEnd(s, i);
      assert j > i;
      [s[..i]] + SplitWs(s[j..])
  }

  /** A non-empty run of white space: what `split(/\s+/)` cuts out between two pieces. */
  predicate SpaceRun(w: string) {
    |w| > 0 && forall i :: 0 <= i < |w| ==> IsSpace(w[i])
  }

  /** The white-space runs `split(/\s+/)` cuts `s` at, in order. */
  function SplitSeparators(s: string): (r: seq<string>)
    ensures forall k :: 0 <= k < |r| ==> SpaceRun(r[k])
    decreases |s|
  {
    var i := NextSpace(s, 0);
    if i == |s| then []
    else
      var j := SpaceRunEnd(s, i);
      assert j > i;
      [s[i..j]] + SplitSeparators(s[j..])
  }

  /** The pieces with one separator between each two neighbours. */
  function Weave(pieces: seq<string>, seps: seq<string>): string
    requires |pieces| == |seps| + 1
    decreases |seps|
  {
    if |seps| == 0 then pieces[0] else pieces[0] + seps[0] + Weave(pieces[1..], seps[1..])
  }

  /**
   * Putting the cut-out runs back between the pieces gives the string again.
   * As no piece holds white space and every run is white space, this fixes
   * every piece: the k-th piece is the text between the k-th and the
   * (k+1)-th maximal run of white space.
   */
  lemma {:induction false} SplitWsWeave(s: string)
    ensures |SplitSeparators(s)| == |SplitWs(s)| - 1
    ensures Weave(SplitWs(s), SplitSeparators(s)) == s
    decreases |s|
  {
    var i := NextSpace(s, 0);
    if i < |s| {
      var j := SpaceRunEnd(s, i);
      var rest := s[j..];
      SplitWsWeave(rest);
      WeaveFront(s[..i], s[i..j], SplitWs(rest), SplitSeparators(rest));
      ThreeSlices(s, i, j);
    }
  }

  lemma WeaveFront(first: string, sep: string, pieces: seq<string>, seps: seq<string>)
    requires |pieces| == |seps| + 1
    ensures Weave([first] + pieces, [sep] + seps) == first + sep + Weave(pieces, seps)
  {
    assert ([first] + pieces)[1..] == pieces;
    assert ([sep] + seps)[1..] == seps;
  }

  lemma ThreeSlices(s: string, i: nat, j: nat)
    requires i <= j <= |s|
    ensures s[..i] + s[i..j] + s[j..] == s
  {
  }

  // --------------------------------------------------------- split(c)

  /** Index of the first `c` in `s`, or `|s|`. */
  function CharIndex(s: string, c: char): (i: nat)
    ensures i <= |s| && (i == |s| || s[i] == c)
    ensures forall k :: 0 <= k < i ==> s[k] != c
  {
    if |s| == 0 || s[0] == c then 0 else 1 + CharIndex(s[1..], c)
  }

  /** `s.split(c)` for a one-character separator. */
  function SplitChar(s: string, c: char): (r: seq<string>)
    ensures |r| >= 1
    ensures r[0] == s[..CharIndex(s, c)]
    ensures forall k :: 0 <= k < |r| ==> c !in r[k]
    decreases |s|
  {
    var i := CharIndex(s, c);
    if i == |s| then [s] else [s[..i]] + SplitChar(s[i + 1..], c)
  }

  lemma SplitCharAfterPiece(a: string, c: char, b: string)
    requires c !in a
    ensures SplitChar(a + [c] + b, c) == [a] + SplitChar(b, c)
  {
    var s := a + [c] + b;
    assert s[..|a|] == a;
    assert s[|a|] == c;
    assert CharIndex(s, c) == |a|;
    assert s[|a| + 1..] == b;
  }

  // ---------------------------------------------------- toUpperCase

  function UpperChar(c: char): char {
    if 'a' <= c <= 'z' then (c as int - 32) as char else c
  }

  /** `s.toUpperCase()` for ASCII text: length-preserving. */
  function Upper(s: string): (r: string)
    ensures |r| == |s|
    ensures forall i :: 0 <= i < |s| ==> r[i] == UpperChar(s[i])
  {
    seq(|s|, i requires 0 <= i < |s| => UpperChar(s[i]))
  }

  lemma UpperIdempotent(s: string)
    ensures Upper(Upper(s)) == Upper(s)
  {
    assert forall i :: 0 <= i < |s| ==> UpperChar(UpperChar(s[i])) == UpperChar(s[i]);
  }

  lemma UpperKeepsNoSpace(s: string)
    requires NoSpace(s)
    ensures NoSpace(Upper(s))
  {
  }

  // -------------------------------------------------------- indexOf

  predicate MatchesAt(s: string, pat: string, k: int) {
    0 <= k && k + |pat| <= |s| && s[k..k + |pat|] == pat
  }

  function IndexFrom(s: string, pat: string, k: nat): (r: int)
    ensures r == -1 || (k <= r && MatchesAt(s, pat, r))
    ensures r == -1 ==> forall m :: k <= m ==> !MatchesAt(s, pat, m)
    ensures r != -1 ==> forall m :: k <= m < r ==> !MatchesAt(s, pat, m)
    decreases |s| - k
  {
    if k + |pat| > |s| then -1
    else if s[k..k + |pat|] == pat then k
    else IndexFrom(s, pat, k + 1)
  }

  function Clamp(x: int, n: nat): (r: nat)
    ensures r <= n
  {
    if x < 0 then 0 else if x > n then n else x
  }

  /** `s.indexOf(pat, from)`: the first match at or after `from`, or -1. */
  function IndexOf(s: string, pat: string, from: int): int {
    IndexFrom(s, pat, Clamp(from, |s|))
  }

  predicate StartsWith(s: string, pat: string) {
    |pat| <= |s| && s[..|pat|] == pat
  }

  predicate EndsWith(s: string, pat: string) {
    |pat| <= |s| && s[|s| - |pat|..] == pat
  }

  /** `s.indexOf(pat) >= 0` */
  predicate Contains(s: string, pat: string) {
    IndexOf(s, pat, 0) >= 0
  }

  lemma ContainsAt(s: string, pat: string, k: nat)
    requires MatchesAt(s, pat, k)
    ensures Contains(s, pat)
  {
  }

  /** `indexOf` finds a match exactly when there is one. */
  lemma ContainsIff(s: string, pat: string)
    ensures Contains(s, pat) <==> exists k :: MatchesAt(s, pat, k)
  {
    if Contains(s, pat) {
      assert MatchesAt(s, pat, IndexOf(s, pat, 0));
    }
  }

  /** `a + pat + b` contains `pat`. */
  lemma ContainsMiddle(a: string, pat: string, b: string)
    ensures Contains(a + pat + b, pat)
  {
    var s := a + pat + b;
    assert s[|a|..|a| + |pat|] == pat;
    ContainsAt(s, pat, |a|);
  }

  lemma ContainsEnd(a: string, pat: string)
    ensures Contains(a + pat, pat)
  {
    ContainsMiddle(a, pat, "");
    assert a + pat + "" == a + pat;
  }

  /** Text around a match keeps the match. */
  lemma ContainsAppend(s: string, b: string, pat: string)
    requires Contains(s, pat)
    ensures Contains(s + b, pat)
  {
    var k := IndexOf(s, pat, 0);
    assert (s + b)[k..k + |pat|] == s[k..k + |pat|];
    ContainsAt(s + b, pat, k);
  }

  lemma ContainsPrepend(a: string, s: string, pat: string)
    requires Contains(s, pat)
    ensures Contains(a + s, pat)
  {
    var k := IndexOf(s, pat, 0);
    assert (a + s)[|a| + k..|a| + k + |pat|] == s[k..k + |pat|];
    ContainsAt(a + s, pat, |a| + k);
  }

  lemma StartsWithConcat(a: string, b: string)
    ensures StartsWith(a + b, a)
  {
    assert (a + b)[..|a|] == a;
  }

  lemma EndsWithConcat(a: string, b: string)
    ensures EndsWith(a + b, b)
  {
    assert (a + b)[|a|..] == b;
  }

  lemma StartsWithContains(s: string, pat: string)
    requires StartsWith(s, pat)
    ensures Contains(s, pat)
  {
    assert s[0..|pat|] == pat;
    ContainsAt(s, pat, 0);
  }

  /** A prefix of a prefix is a prefix. */
  lemma StartsWithTrans(s: string, t: string, p: string)
    requires StartsWith(s, t) && StartsWith(t, p)
    ensures StartsWith(s, p)
  {
    assert s[..|p|] == s[..|t|][..|p|];
  }

  /** Two patterns that differ where both reach cannot both be prefixes of one string. */
  lemma StartsWithExcludes(s: string, p: string, q: string, i: nat)
    requires StartsWith(s, p) && i < |p| && i < |q| && p[i] != q[i]
    ensures !StartsWith(s, q)
  {
    assert s[..|p|][i] == s[i];
    assert |q| <= |s| ==> s[..|q|][i] == s[i];
  }

  // ------------------------------------------------------ substring

  /**
   * `s.substring(start, end)`: both bounds clamped to `[0, |s|]`, and
   * swapped when the start lies after the end.
   */
  function Substring(s: string, start: int, end: int): string {
    var a := Clamp(start, |s|);
    var b := Clamp(end, |s|);
    if a <= b then s[a..b] else s[b..a]
  }

  // ------------------------------------------- slice(0, -2) and joins

  /** `s.slice(0, -2)`: drops the last two characters, or all of a shorter string. */
  function DropLast2(s: string): string {
    s[..if |s| >= 2 then |s| - 2 else 0]
  }

  /** The items one after another. */
  function Concat(items: seq<string>): string {
    if |items| == 0 then "" else Concat(items[..|items| - 1]) + items[|items| - 1]
  }

  /** Each item followed by `sep`: what a `forEach` with `+= item + sep` adds. */
  function Terminated(items: seq<string>, sep: string): string {
    if |items| == 0 then "" else Terminated(items[..|items| - 1], sep) + items[|items| - 1] + sep
  }

  /** The item text of each element, in order: what a per-element `forEach` appends. */
  function MapText<T>(xs: seq<T>, f: T -> string): (r: seq<string>)
    ensures |r| == |xs|
    ensures forall i :: 0 <= i < |xs| ==> r[i] == f(xs[i])
  {
    seq(|xs|, i requires 0 <= i < |xs| => f(xs[i]))
  }

  lemma MapTextSnoc<T>(xs: seq<T>, f: T -> string, i: nat)
    requires i < |xs|
    ensures MapText(xs[..i + 1], f) == MapText(xs[..i], f) + [f(xs[i])]
  {
  }

  lemma ConcatSnoc(items: seq<string>, x: string)
    ensures Concat(items + [x]) == Concat(items) + x
  {
    assert (items + [x])[..|items|] == items;
  }

  /** Appending one more item after a prefix. */
  lemma ConcatAfter(prefix: string, items: seq<string>, x: string)
    ensures prefix + Concat(items + [x]) == prefix + Concat(items) + x
  {
    ConcatSnoc(items, x);
  }

  lemma TerminatedSnoc(items: seq<string>, x: string, sep: string)
    ensures Terminated(items + [x], sep) == Terminated(items, sep) + x + sep
  {
    assert (items + [x])[..|items|] == items;
  }

  /** Appending one more terminated item after a prefix. */
  lemma TerminatedAfter(prefix: string, items: seq<string>, x: string, sep: string)
    ensures prefix + Terminated(items + [x], sep) == prefix + Terminated(items, sep) + x + sep
  {
    TerminatedSnoc(items, x, sep);
  }

  /**
   * `xs.forEach((x) => { text += f(x) + sep; })`: the text followed by the
   * item text of every element, each terminated by `sep`.
   */
  method AppendEach<T>(text: string, xs: seq<T>, f: T -> string, sep: string) returns (r: string)
    ensures r == text + Terminated(MapText(xs, f), sep)
  {
    r := text;
    for i := 0 to |xs|
      invariant r == text + Terminated(MapText(xs[..i], f), sep)
    {
      MapTextSnoc(xs, f, i);
      TerminatedAfter(text, MapText(xs[..i], f), f(xs[i]), sep);
      r := r + f(xs[i]) + sep;
    }
    assert xs[..|xs|] == xs;
  }

  /** The piece when the condition holds, nothing otherwise. */
  function Optional(cond: bool, piece: string): (r: string)
    ensures cond ==> r == piece
    ensures !cond ==> r == ""
  {
    if cond then piece else ""
  }

  /** `if (cond) { text += piece; }` */
  method AppendIf(text: string, cond: bool, piece: string) returns (r: string)
    ensures r == text + Optional(cond, piece)
  {
    r := text;
    if cond {
      r := r + piece;
    }
  }

  /** Terminating peels from the front as well as from the back. */
  lemma {:induction false} TerminatedFront(items: seq<string>, sep: string)
    requires |items| >= 1
    ensures Terminated(items, sep) == items[0] + sep + Terminated(items[1..], sep)
  {
    var n := |items|;
    if n == 1 {
      assert items[..0] == [] && items[1..] == [];
    } else {
      var init := items[..n - 1];
      TerminatedFront(init, sep);
      assert init[1..] == items[1..][..n - 2];
      assert items[1..][n - 2] == items[n - 1];
    }
  }

  /**
   * Read back line by line, items each followed by a line break give one
   * line per item, in order, and an empty last line.
   */
  lemma {:induction false} TerminatedLines(items: seq<string>)
    requires forall i :: 0 <= i < |items| ==> '\n' !in items[i]
    ensures SplitChar(Terminated(items, "\n"), '\n') == items + [""]
  {
    if |items| == 0 {
      assert CharIndex("", '\n') == 0;
    } else {
      var rest := items[1..];
      assert forall i :: 0 <= i < |rest| ==> '\n' !in rest[i] by {
        forall i | 0 <= i < |rest| ensures '\n' !in rest[i] {
          assert rest[i] == items[i + 1];
        }
      }
      calc {
        SplitChar(Terminated(items, "\n"), '\n');
        { TerminatedFront(items, "\n"); }
        SplitChar(items[0] + "\n" + Terminated(rest, "\n"), '\n');
        { SplitCharAfterPiece(items[0], '\n', Terminated(rest, "\n")); }
        [items[0]] + SplitChar(Terminated(rest, "\n"), '\n');
        { TerminatedLines(rest); }
        [items[0]] + (rest + [""]);
        { assert [items[0]] + rest == items; }
        items + [""];
      }
    }
  }

  /** A match inside a match is a match. */
  lemma ContainsTrans(s: string, t: string, pat: string)
    requires Contains(s, t) && Contains(t, pat)
    ensures Contains(s, pat)
  {
    var i := IndexOf(s, t, 0);
    var j := IndexOf(t, pat, 0);
    assert MatchesAt(s, t, i) && MatchesAt(t, pat, j);
    forall m | 0 <= m < |pat|
      ensures s[i + j + m] == pat[m]
    {
      assert s[i..i + |t|][j + m] == t[j + m];
      assert t[j..j + |pat|][m] == pat[m];
    }
    assert s[i + j..i + j + |pat|] == pat;
    ContainsAt(s, pat, i + j);
  }

  /** Each item is found in the items written one after another. */
  lemma {:induction false} ConcatContains(items: seq<string>, k: nat)
    requires k < |items|
    ensures Contains(Concat(items), items[k])
  {
    var n := |items|;
    var init := items[..n - 1];
    if k == n - 1 {
      ContainsEnd(Concat(init), items[k]);
    } else {
      ConcatContains(init, k);
      ContainsAppend(Concat(init), items[n - 1], items[k]);
    }
  }

  /** Each item is found in the items each followed by `sep`. */
  lemma {:induction false} TerminatedContains(items: seq<string>, sep: string, k: nat)
    requires k < |items|
    ensures Contains(Terminated(items, sep), items[k])
  {
    var n := |items|;
    var init := items[..n - 1];
    if k == n - 1 {
      ContainsEnd(Terminated(init, sep), items[k]);
      ContainsAppend(Terminated(init, sep) + items[k], sep, items[k]);
    } else {
      TerminatedContains(init, sep, k);
      ContainsAppend(Terminated(init, sep), items[n - 1], items[k]);
      ContainsAppend(Terminated(init, sep) + items[n - 1], sep, items[k]);
    }
  }

  /** The items with `sep` between neighbours and nowhere else. */
  function Joined(items: seq<string>, sep: string): string {
    if |items| == 0 then ""
    else if |items| == 1 then items[0]
    else Joined(items[..|items| - 1], sep) + sep + items[|items| - 1]
  }

  /** Items each followed by `sep`, then one more item, are the items and that one joined by `sep`. */
  lemma {:induction false} TerminatedThenLast(items: seq<string>, sep: string, last: string)
    ensures Terminated(items, sep) + last == Joined(items + [last], sep)
  {
    var all := items + [last];
    if |items| == 0 {
      assert all == [last];
    } else {
      hide Terminated;
      TerminatedIsJoinedPlusSep(items, sep);
      assert all[..|all| - 1] == items && all[|all| - 1] == last;
    }
  }

  lemma {:induction false} TerminatedIsJoinedPlusSep(items: seq<string>, sep: string)
    requires |items| >= 1
    ensures Terminated(items, sep) == Joined(items, sep) + sep
  {
    if |items| > 1 {
      TerminatedIsJoinedPlusSep(items[..|items| - 1], sep);
      assert items[..|items| - 1][..|items| - 2] == items[..|items| - 2];
    } else {
      assert items[..0] == [];
    }
  }

  /** A non-empty string is its front and its last character. */
  lemma FrontAndLast(s: string)
    requires |s| > 0
    ensures s[..|s| - 1] + [s[|s| - 1]] == s
  {
  }

  lemma AppendAssoc(a: string, b: string, c: string)
    ensures a + (b + c) == a + b + c
  {
  }

  lemma DropSeparator(x: string)
    ensures DropLast2(x + ",\n") == x
  {
    assert (x + ",\n")[..|x|] == x;
  }

  /**
   * A builder that appends `item + ",\n"` per item to `prefix` and then
   * strips the last two characters produces `prefix` followed by the items
   * separated by `",\n"`, with no trailing separator; on an empty list it
   * strips two characters of the prefix instead.
   */
  lemma StripTrailingSeparator(prefix: string, items: seq<string>)
    ensures |items| >= 1 ==> DropLast2(prefix + Terminated(items, ",\n")) == prefix + Joined(items, ",\n")
    ensures |items| == 0 ==> DropLast2(prefix + Terminated(items, ",\n")) == DropLast2(prefix)
  {
    if |items| >= 1 {
      TerminatedIsJoinedPlusSep(items, ",\n");
      AppendAssoc(prefix, Joined(items, ",\n"), ",\n");
      DropSeparator(prefix + Joined(items, ",\n"));
    } else {
      assert prefix + Terminated(items, ",\n") == prefix;
    }
  }

  /** The lines `Joined(items, ",\n")` reads back as: every item but the last with its comma. */
  function CommaLines(items: seq<string>): (r: seq<string>)
    ensures |r| == |items|
  {
    seq(|items|, i requires 0 <= i < |items| => if i < |items| - 1 then items[i] + "," else items[i])
  }

  /**
   * Read back line by line, items separated by `",\n"` give one line per
   * item, in order, each but the last ending in the comma.
   */
  lemma {:induction false} JoinedLines(items: seq<string>)
    requires |items| >= 1
    requires forall i :: 0 <= i < |items| ==> '\n' !in items[i]
    ensures SplitChar(Joined(items, ",\n"), '\n') == CommaLines(items)
  {
    if |items| == 1 {
      assert CharIndex(items[0], '\n') == |items[0]|;
      assert SplitChar(items[0], '\n') == [items[0]];
    } else {
      var rest := items[1..];
      JoinedLines(rest);
      JoinedFront(items);
      var head := items[0] + ",";
      assert '\n' !in head;
      assert items[0] + ",\n" == head + "\n";
      assert Joined(items, ",\n") == head + "\n" + Joined(rest, ",\n");
      SplitCharAfterPiece(head, '\n', Joined(rest, ",\n"));
      CommaLinesFront(items);
    }
  }

  lemma CommaLinesFront(items: seq<string>)
    requires |items| >= 2
    ensures CommaLines(items) == [items[0] + ","] + CommaLines(items[1..])
  {
    var a := CommaLines(items);
    var b := [items[0] + ","] + CommaLines(items[1..]);
    forall i | 0 <= i < |a|
      ensures a[i] == b[i]
    {
      if i > 0 {
        assert b[i] == CommaLines(items[1..])[i - 1];
      }
    }
  }

  /** Joining peels from the front as well as from the back. */
  lemma {:induction false} JoinedFront(items: seq<string>)
    requires |items| >= 2
    ensures Joined(items, ",\n") == items[0] + ",\n" + Joined(items[1..], ",\n")
  {
    var n := |items|;
    if n == 2 {
      assert items[..1] == [items[0]];
      assert items[1..] == [items[1]];
    } else {
      JoinedFront(items[..n - 1]);
      assert items[..n - 1][1..] == items[1..][..n - 2];
      assert items[..n - 1][0] == items[0];
      assert items[1..][n - 2] == items[n - 1];
    }
  }
}
