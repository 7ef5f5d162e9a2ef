/**
 * String building blocks of the renderer and the reader used to state its
 * layout:
 *  - the decimal numeral JavaScript writes for a step number `${idx + 1}`,
 *    with its parser;
 *  - the list `items.map(p => `\`${p}\``).join(', ')` of a step's prompts,
 *    with its parser;
 *  - the concatenation of one text per list element, which is what each
 *    `forEach(x => content += ...)` loop accumulates;
 *  - a line view of a document (`split('\n')`), with the text made of
 *    given lines.
 */
module Text {
  import opened Optional

  predicate StartsWith(s: string, prefix: string) {
    |prefix| <= |s| && s[..|prefix|] == prefix
  }

  predicate EndsWith(s: string, suffix: string) {
    |suffix| <= |s| && s[|s| - |suffix|..] == suffix
  }

  lemma AppendStartsEnds(a: string, b: string)
    ensures StartsWith(a + b, a) && EndsWith(a + b, b)
  {
    assert (a + b)[..|a|] == a;
    assert (a + b)[|a + b| - |b|..] == b;
  }

  lemma StartsWithAppend(s: string, prefix: string, t: string)
    requires StartsWith(s, prefix)
    ensures StartsWith(s + t, prefix)
  {
    assert (s + t)[..|prefix|] == s[..|prefix|];
  }

  /** Regrouping a concatenation; used to match an accumulator against a document built in one piece. */
  lemma AppendEmpty(s: string)
    ensures s + "" == s
  {
  }

  lemma AppendAssoc(a: string, b: string, c: string)
    ensures a + (b + c) == a + b + c
  {
  }

  // ---------------------------------------------------------------------
  // Decimal numerals

  predicate IsDigit(c: char) {
    '0' <= c <= '9'
  }

  predicate AllDigits(s: string) {
    forall i :: 0 <= i < |s| ==> IsDigit(s[i])
  }

  function DigitChar(d: nat): (c: char)
    requires d < 10
    ensures IsDigit(c)
  {
    ('0' as int + d) as char
  }

  function DigitValue(c: char): (d: nat)
    requires IsDigit(c)
    ensures d < 10
  {
    c as int - '0' as int
  }

  /** The decimal numeral of n, as JavaScript converts a non-negative integer to a string. */
  function NatToString(n: nat): (s: string)
    ensures |s| >= 1 && AllDigits(s)
    ensures (s == "0") == (n == 0)
    ensures s[0] == '0' ==> s == "0"
    decreases n
  {
    if n < 10 then [DigitChar(n)] else NatToString(n / 10) + [DigitChar(n % 10)]
  }

  /** The value of a string of decimal digits. */
  function ParseNat(s: string): nat
    requires AllDigits(s)
  {
    if s == [] then 0 else 10 * ParseNat(s[..|s| - 1]) + DigitValue(s[|s| - 1])
  }

  lemma {:induction false} ParseNatToString(n: nat)
    ensures ParseNat(NatToString(n)) == n
  {
    var s := NatToString(n);
    if n < 10 {
      assert s[..0] == [];
    } else {
      assert s[..|s| - 1] == NatToString(n / 10);
      ParseNatToString(n / 10);
    }
  }

  /** Different numbers get different numerals. */
  lemma NatToStringInjective(a: nat, b: nat)
    ensures NatToString(a) == NatToString(b) ==> a == b
  {
    ParseNatToString(a);
    ParseNatToString(b);
  }

  // ---------------------------------------------------------------------
  // Lists of code spans: `items.map(p => `\`${p}\``).join(', ')`

  function CodeSpan(s: string): string {
    "`" + s + "`"
  }

  /** Each item wrapped in backticks, joined with ", "; the empty list gives "". */
  function CodeList(items: seq<string>): string
    decreases |items|
  {
    if |items| == 0 then ""
    else if |items| == 1 then CodeSpan(items[0])
    else CodeSpan(items[0]) + ", " + CodeList(items[1..])
  }

  /** The text before the first backtick of s and the text after it. */
  function BreakAtTick(s: string): (r: Option<(string, string)>)
    ensures r.Some? ==> |r.value.1| < |s|
    decreases |s|
  {
    if s == [] then None
    else if s[0] == '`' then Some(([], s[1..]))
    else
      match BreakAtTick(s[1..])
      case None => None
      case Some((before, after)) => Some(([s[0]] + before, after))
  }

  /** Reads a list written by CodeList back into its items. */
  function ParseCodeList(s: string): Option<seq<string>> {
    if s == [] then Some([]) else ParseCodeSpans(s)
  }

  function ParseCodeSpans(s: string): Option<seq<string>>
    decreases |s|
  {
    if s == [] || s[0] != '`' then None
    else
      match BreakAtTick(s[1..])
      case None => None
      case Some((item, rest)) =>
        if rest == [] then Some([item])
        else if |rest| >= 2 && rest[..2] == ", " then
          match ParseCodeSpans(rest[2..])
          case None => None
          case Some(more) => Some([item] + more)
        else None
  }

  lemma {:induction false} BreakAtTickAfter(x: string, rest: string)
    requires '`' !in x
    ensures BreakAtTick(x + "`" + rest) == Some((x, rest))
  {
    if x == [] {
      assert x + "`" + rest == "`" + rest;
    } else {
      assert (x + "`" + rest)[1..] == x[1..] + "`" + rest;
      BreakAtTickAfter(x[1..], rest);
      assert [x[0]] + x[1..] == x;
    }
  }

  lemma {:induction false} ParseCodeSpansRoundTrip(items: seq<string>)
    requires |items| >= 1
    requires forall i :: 0 <= i < |items| ==> '`' !in items[i]
    ensures ParseCodeSpans(CodeList(items)) == Some(items)
    decreases |items|
  {
    var x := items[0];
    if |items| == 1 {
      assert CodeList(items)[1..] == x + "`" + "";
      BreakAtTickAfter(x, "");
      assert [x] == items;
    } else {
      var tail := CodeList(items[1..]);
      assert CodeList(items)[1..] == x + "`" + (", " + tail);
      BreakAtTickAfter(x, ", " + tail);
      assert (", " + tail)[..2] == ", " && (", " + tail)[2..] == tail;
      ParseCodeSpansRoundTrip(items[1..]);
      assert [x] + items[1..] == items;
    }
  }

  /** Reading back a prompts list gives exactly the items, in order, when no item holds a backtick. */
  lemma ParseCodeListRoundTrip(items: seq<string>)
    requires forall i :: 0 <= i < |items| ==> '`' !in items[i]
    ensures ParseCodeList(CodeList(items)) == Some(items)
  {
    if |items| > 0 {
      ParseCodeSpansRoundTrip(items);
    }
  }

  // ---------------------------------------------------------------------
  // One text per element, concatenated in order (a `forEach` that appends)

  function ConcatMap<T>(xs: seq<T>, f: T -> string): string
    decreases |xs|
  {
    if xs == [] then "" else ConcatMap(xs[..|xs| - 1], f) + f(xs[|xs| - 1])
  }

  /** One more element: the loop step of a `forEach` that appends. */
  lemma ConcatMapSnoc<T>(xs: seq<T>, f: T -> string, i: nat)
    requires i < |xs|
    ensures ConcatMap(xs[..i + 1], f) == ConcatMap(xs[..i], f) + f(xs[i])
  {
    assert xs[..i + 1][..i] == xs[..i];
  }

  function Concat(parts: seq<string>): string
    decreases |parts|
  {
    if parts == [] then "" else Concat(parts[..|parts| - 1]) + parts[|parts| - 1]
  }

  // ---------------------------------------------------------------------
  // Lines

  predicate SingleLine(s: string) {
    '\n' !in s
  }

  predicate AllSingleLine(lines: seq<string>) {
    forall i :: 0 <= i < |lines| ==> SingleLine(lines[i])
  }

  /** The text made of the given lines, each ended by a newline. */
  function JoinLines(lines: seq<string>): string
    decreases |lines|
  {
    if lines == [] then "" else lines[0] + "\n" + JoinLines(lines[1..])
  }

  /** The pieces of s between newlines, as JavaScript's `s.split('\n')`. */
  function SplitLines(s: string): (lines: seq<string>)
    ensures |lines| >= 1
    decreases |s|
  {
    if s == [] then [""]
    else
      var rest := SplitLines(s[1..]);
      if s[0] == '\n' then [""] + rest else [[s[0]] + rest[0]] + rest[1..]
  }

  lemma {:induction false} JoinLinesAppend(a: seq<string>, b: seq<string>)
    ensures JoinLines(a + b) == JoinLines(a) + JoinLines(b)
    decreases |a|
  {
    if a == [] {
      assert a + b == b;
    } else {
      assert (a + b)[1..] == a[1..] + b;
      JoinLinesAppend(a[1..], b);
    }
  }

  lemma JoinLinesSnoc(lines: seq<string>, line: string)
    ensures JoinLines(lines + [line]) == JoinLines(lines) + (line + "\n")
  {
    JoinLinesAppend(lines, [line]);
    assert [line][1..] == [];
  }

  lemma JoinLinesOne(line: string)
    ensures JoinLines([line]) == line + "\n"
  {
    assert [line][1..] == [];
  }

  /** A line followed by an empty line: the "text\n\n" chunks of the document. */
  lemma JoinLinesBlank(line: string)
    ensures JoinLines([line, ""]) == line + "\n\n"
  {
    JoinLinesSnoc([line], "");
    JoinLinesOne(line);
    assert [line] + [""] == [line, ""];
  }

  lemma EndsWithAppend(a: string, b: string, suffix: string)
    requires EndsWith(b, suffix)
    ensures EndsWith(a + b, suffix)
  {
    assert (a + b)[|a + b| - |suffix|..] == b[|b| - |suffix|..];
  }

  lemma EndsWithShorter(s: string, x: string, suffix: string)
    requires EndsWith(s, x + suffix)
    ensures EndsWith(s, suffix)
  {
    assert s[|s| - |suffix|..] == (x + suffix)[|x|..];
  }

  lemma {:induction false} SplitLinesAfterLine(line: string, rest: string)
    requires SingleLine(line)
    ensures SplitLines(line + "\n" + rest) == [line] + SplitLines(rest)
    decreases |line|
  {
    if line == [] {
      assert line + "\n" + rest == "\n" + rest;
      assert ("\n" + rest)[1..] == rest;
    } else {
      var s := line + "\n" + rest;
      assert s[1..] == line[1..] + "\n" + rest;
      SplitLinesAfterLine(line[1..], rest);
      assert [line[0]] + line[1..] == line;
    }
  }

  /** Reading the text made of single-line pieces gives back those pieces. */
  lemma {:induction false} SplitJoinLines(lines: seq<string>, rest: string)
    requires AllSingleLine(lines)
    ensures SplitLines(JoinLines(lines) + rest) == lines + SplitLines(rest)
    decreases |lines|
  {
    if lines == [] {
      assert JoinLines(lines) + rest == rest;
    } else {
      var first, others := lines[0], lines[1..];
      assert AllSingleLine(others);
      var tail := JoinLines(others) + rest;
      assert JoinLines(lines) == first + "\n" + JoinLines(others);
      AppendAssoc(first + "\n", JoinLines(others), rest);
      SplitLinesAfterLine(first, tail);
      SplitJoinLines(others, rest);
      assert lines == [first] + others;
    }
  }

  lemma SplitJoinLinesAll(lines: seq<string>)
    requires AllSingleLine(lines)
    ensures SplitLines(JoinLines(lines)) == lines + [""]
  {
    SplitJoinLines(lines, "");
    assert JoinLines(lines) + "" == JoinLines(lines);
  }

  /** The line g(x) of each element x, in order. */
  function MapLines<T>(xs: seq<T>, g: T -> string): (lines: seq<string>)
    ensures |lines| == |xs|
    ensures forall i :: 0 <= i < |xs| ==> lines[i] == g(xs[i])
  {
    seq(|xs|, i requires 0 <= i < |xs| => g(xs[i]))
  }

  /** When every element's text is one line plus a newline, the concatenation is those lines. */
  lemma {:induction false} ConcatMapLines<T>(xs: seq<T>, f: T -> string, g: T -> string)
    requires forall x :: f(x) == g(x) + "\n"
    ensures ConcatMap(xs, f) == JoinLines(MapLines(xs, g))
    decreases |xs|
  {
    if xs != [] {
      var init, last := xs[..|xs| - 1], xs[|xs| - 1];
      ConcatMapLines(init, f, g);
      assert MapLines(xs, g) == MapLines(init, g) + [g(last)];
      JoinLinesSnoc(MapLines(init, g), g(last));
    }
  }
}
