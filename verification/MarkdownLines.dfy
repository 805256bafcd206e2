/** How the Markdown parser reads one line, and how it cuts the lines of a document into segments. */
module MarkdownLines {
  import opened Text
  import Decimal

  // ---------- one line ----------

  /** The kinds of block a Markdown document has at its top level. */
  datatype Kind = HeadingKind | QuoteKind | ListItemKind | TableKind | CodeKind | ParagraphKind

  /** The first ". " in the line, or the end of the line. */
  function DotSpace(line: string): (n: nat)
    ensures n <= |line|
    ensures n < |line| ==> n + 2 <= |line|
  {
    if line == [] then 0
    else if HasPrefix(line, ". ") then 0
    else var n := DotSpace(line[1..]); 1 + n
  }

  /** A number `strconv.Atoi` accepts: an optional sign, digits, and a value of 64 bits. */
  predicate IsAtoi(s: string) {
    var digits := if s != [] && s[0] in {'+', '-'} then s[1..] else s;
    && digits != [] && Decimal.Digits(digits)
    && Decimal.Value(digits) <= (if s[0] == '-' then 0x8000_0000_0000_0000 else 0x7FFF_FFFF_FFFF_FFFF)
  }

  datatype Line = Line(kind: Kind, text: string, level: nat)

  /** The kind, text and heading level of a trimmed line. */
  function LineType(line: string): Line {
    var level := HashCount(line);
    if HasPrefix(line, "#") && level <= 6 && level < |line| && line[level] == ' ' then
      Line(HeadingKind, Trim(line[level..]), level)
    else if HasPrefix(line, ">") then Line(QuoteKind, Trim(line[1..]), 0)
    else if HasPrefix(line, "- ") || HasPrefix(line, "* ") || HasPrefix(line, "+ ") then Line(ListItemKind, Trim(line[2..]), 0)
    else
      var index := DotSpace(line);
      if 0 < index < |line| && IsAtoi(line[..index]) then Line(ListItemKind, Trim(line[index + 2..]), 0)
      else if '|' in line then Line(TableKind, line, 0)
      else Line(ParagraphKind, line, 0)
  }

  predicate IsFence(line: string) {
    HasPrefix(Trim(line), "```")
  }

  function Without(s: string, c: char): string {
    if s == [] then [] else (if s[0] == c then [] else [s[0]]) + Without(s[1..], c)
  }

  predicate IsTableSeparator(line: string) {
    var value := Without(Without(Trim(line), '|'), ':');
    Trim(Without(value, '-')) == []
  }

  lemma {:induction false} InWithout(s: string, c: char, d: char)
    ensures d in Without(s, c) <==> d in s && d != c
  {
    if s != [] {
      InWithout(s[1..], c, d);
      assert s == [s[0]] + s[1..];
    }
  }

  predicate SeparatorRune(c: char) {
    IsSpace(c) || c in {'|', ':', '-'}
  }

  /** A separator line holds nothing but bars, colons, dashes and white space; a blank line is one. */
  lemma {:induction false} SeparatorRunes(line: string)
    ensures IsTableSeparator(line) <==> forall c :: c in line ==> SeparatorRune(c)
  {
    var value := Without(Without(Without(Trim(line), '|'), ':'), '-');
    TrimBlank(value);
    if IsTableSeparator(line) {
      forall c | c in line ensures SeparatorRune(c) {
        SeparatorRune1(line, c);
      }
    } else {
      var c :| c in value && !IsSpace(c);
      SeparatorRune1(line, c);
    }
  }

  lemma {:induction false} SeparatorRune1(line: string, c: char)
    ensures c in Without(Without(Without(Trim(line), '|'), ':'), '-') && !IsSpace(c) <==> c in line && !SeparatorRune(c)
  {
    var trimmed := Trim(line);
    InWithout(Without(Without(trimmed, '|'), ':'), '-', c);
    InWithout(Without(trimmed, '|'), ':', c);
    InWithout(trimmed, '|', c);
    if !IsSpace(c) {
      InTrim(line, c);
    }
  }

  // ---------- segments ----------

  /**
   * The grammar of a document: blank lines; a fence with the lines up to the next fence, or to the end; a table, from a
   * table line with a separator below it to the first line without a bar; any other line on its own.
   */
  datatype Segment =
    | Blank(at: nat)
    | Fenced(open: nat, close: nat)
    | Unclosed(open: nat)
    | Table(from: nat, to: nat)
    | Single(at: nat)

  /** The first fence line at or after `i`, or the end. */
  function FenceFrom(lines: seq<string>, i: nat): (n: nat)
    requires i <= |lines|
    ensures i <= n <= |lines|
    ensures forall k :: i <= k < n ==> !IsFence(lines[k])
    ensures n < |lines| ==> IsFence(lines[n])
    decreases |lines| - i
  {
    if i == |lines| || IsFence(lines[i]) then i else FenceFrom(lines, i + 1)
  }

  /** The first line without a bar at or after `i`, or the end. */
  function TableEnd(lines: seq<string>, i: nat): (n: nat)
    requires i <= |lines|
    ensures i <= n <= |lines|
    ensures forall k :: i <= k < n ==> '|' in lines[k]
    ensures n < |lines| ==> '|' !in lines[n]
    decreases |lines| - i
  {
    if i == |lines| || '|' !in lines[i] then i else TableEnd(lines, i + 1)
  }

  predicate TableStart(lines: seq<string>, i: nat)
    requires i < |lines|
  {
    LineType(Trim(lines[i])).kind == TableKind && i + 1 < |lines| && IsTableSeparator(lines[i + 1])
  }

  function Next(lines: seq<string>, i: nat): Segment
    requires i < |lines|
  {
    if IsFence(lines[i]) then
      var close := FenceFrom(lines, i + 1);
      if close < |lines| then Fenced(i, close) else Unclosed(i)
    else if Trim(lines[i]) == [] then Blank(i)
    else if TableStart(lines, i) then Table(i, TableEnd(lines, i + 1))
    else Single(i)
  }

  function End(segment: Segment, lines: seq<string>): nat {
    match segment
    case Blank(at) => at + 1
    case Fenced(_, close) => close + 1
    case Unclosed(_) => |lines|
    case Table(_, to) => to
    case Single(at) => at + 1
  }

  /** The segments from line `i` on. */
  function Segments(lines: seq<string>, i: nat): seq<Segment>
    requires i <= |lines|
    decreases |lines| - i
  {
    if i == |lines| then [] else [Next(lines, i)] + Segments(lines, End(Next(lines, i), lines))
  }

  /** A table line has a bar, so the table loop passes it: the outer loop always makes progress. */
  lemma {:induction false} TableProgress(lines: seq<string>, i: nat)
    requires i < |lines| && TableStart(lines, i)
    ensures '|' in lines[i] && TableEnd(lines, i) == TableEnd(lines, i + 1) > i
  {
    InTrim(lines[i], '|');
  }
}
