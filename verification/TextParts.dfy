/** The parts of a text: one string inside another, marks in front, and the runes that are no white space. */
module TextParts {
  import opened Text

  predicate At(s: string, t: string, i: int) {
    0 <= i <= |s| - |t| && s[i..i + |t|] == t
  }

  /** t stands somewhere in s. */
  ghost predicate Contains(s: string, t: string) {
    exists i :: At(s, t, i)
  }

  lemma ContainsSelf(s: string)
    ensures Contains(s, s)
  {
    assert At(s, s, 0);
  }

  lemma ContainsMiddle(a: string, t: string, b: string)
    ensures Contains(a + t + b, t)
  {
    assert At(a + t + b, t, |a|);
  }

  lemma ContainsWithin(a: string, s: string, b: string, t: string)
    requires Contains(s, t)
    ensures Contains(a + s + b, t)
  {
    var i :| At(s, t, i);
    assert (a + s + b)[|a| + i..|a| + i + |t|] == s[i..i + |t|];
    assert At(a + s + b, t, |a| + i);
  }

  lemma ContainsTrans(s: string, t: string, u: string)
    requires Contains(s, t) && Contains(t, u)
    ensures Contains(s, u)
  {
    var i :| At(s, t, i);
    ContainsWithin(s[..i], t, s[i + |t|..], u);
    assert s == s[..i] + s[i..i + |t|] + s[i + |t|..];
  }

  lemma {:induction false} JoinContains(parts: seq<string>, sep: string, k: nat)
    requires k < |parts|
    ensures Contains(Join(parts, sep), parts[k])
  {
    if |parts| == 1 {
      ContainsSelf(parts[0]);
    } else if k == 0 {
      ContainsMiddle("", parts[0], sep + Join(parts[1..], sep));
      assert "" + parts[0] + (sep + Join(parts[1..], sep)) == Join(parts, sep);
    } else {
      JoinContains(parts[1..], sep, k - 1);
      ContainsWithin(parts[0] + sep, Join(parts[1..], sep), "", parts[k]);
      assert parts[0] + sep + Join(parts[1..], sep) + "" == Join(parts, sep);
    }
  }

  /** Trimming takes white space off both ends, and nothing else. */
  lemma {:induction false} TrimTakesSpace(s: string) returns (before: string, behind: string)
    ensures s == before + Trim(s) + behind
    ensures (forall c :: c in before ==> IsSpace(c)) && forall c :: c in behind ==> IsSpace(c)
  {
    before := LeftSpace(s);
    behind := RightSpace(TrimLeft(s));
    assert s == before + (TrimRight(TrimLeft(s)) + behind);
  }

  lemma {:induction false} LeftSpace(s: string) returns (before: string)
    ensures s == before + TrimLeft(s) && forall c :: c in before ==> IsSpace(c)
  {
    before := "";
    if s != [] && IsSpace(s[0]) {
      before := LeftSpace(s[1..]);
      before := [s[0]] + before;
      assert s == [s[0]] + s[1..];
    }
  }

  lemma {:induction false} RightSpace(s: string) returns (behind: string)
    ensures s == TrimRight(s) + behind && forall c :: c in behind ==> IsSpace(c)
  {
    behind := "";
    if s != [] && IsSpace(s[|s| - 1]) {
      behind := RightSpace(s[..|s| - 1]);
      behind := behind + [s[|s| - 1]];
      assert s == s[..|s| - 1] + [s[|s| - 1]];
    }
  }

  /** A text with no white space at its ends survives trimming around it. */
  lemma {:induction false} TrimContains(s: string, t: string)
    requires Contains(s, t) && Trimmed(t) && t != []
    ensures Contains(Trim(s), t)
  {
    hide Trim;
    var before, behind := TrimTakesSpace(s);
    var i :| At(s, t, i);
    CoreContains(before, Trim(s), behind, t, i);
  }

  lemma {:induction false} CoreContains(before: string, middle: string, behind: string, t: string, i: int)
    requires At(before + middle + behind, t, i) && Trimmed(t) && t != []
    requires (forall c :: c in before ==> IsSpace(c)) && forall c :: c in behind ==> IsSpace(c)
    ensures Contains(middle, t)
  {
    hide IsSpace;
    var s := before + middle + behind;
    var last := i + |t| - 1;
    assert s[i..i + |t|][0] == s[i] && s[i..i + |t|][|t| - 1] == s[last];
    assert forall k :: 0 <= k < |before| ==> s[k] == before[k] && IsSpace(s[k]);
    assert forall k :: |before| + |middle| <= k < |s| ==> s[k] == behind[k - |before| - |middle|] && IsSpace(s[k]);
    assert s[i..i + |t|] == middle[i - |before|..i - |before| + |t|];
    assert At(middle, t, i - |before|);
  }

  /** What a line shows, the joined and trimmed lines show. */
  lemma {:induction false} LinesContain(lines: seq<string>, sep: string, k: nat, t: string)
    requires k < |lines| && Contains(lines[k], t) && Trimmed(t) && t != []
    ensures Contains(Trim(Join(lines, sep)), t)
  {
    hide Trim, Trimmed, Join, Contains;
    JoinContains(lines, sep, k);
    ContainsTrans(Join(lines, sep), lines[k], t);
    TrimContains(Join(lines, sep), t);
  }

  /** White space between the parts does not show in the ink. */
  lemma {:induction false} InkJoin(parts: seq<string>, sep: string)
    requires forall c :: c in sep ==> IsSpace(c)
    ensures Ink(Join(parts, sep)) == InkAll(parts)
  {
    if |parts| == 1 {
      assert parts[1..] == [];
      Regroup(Ink(parts[0]), [], []);
    } else if parts != [] {
      InkJoin(parts[1..], sep);
      InkSpace(sep);
      InkConcat(parts[0] + sep, Join(parts[1..], sep));
      InkConcat(parts[0], sep);
      Regroup(Ink(parts[0]), [], []);
    }
  }

  function InkAll(parts: seq<string>): string {
    if parts == [] then "" else Ink(parts[0]) + InkAll(parts[1..])
  }

  lemma {:induction false} InkAllConcat(a: seq<string>, b: seq<string>)
    ensures InkAll(a + b) == InkAll(a) + InkAll(b)
  {
    if a == [] {
      assert a + b == b;
    } else {
      assert (a + b)[1..] == a[1..] + b;
      InkAllConcat(a[1..], b);
      Regroup(Ink(a[0]), InkAll(a[1..]), InkAll(b));
    }
  }

  lemma {:induction false} InkSpace(s: string)
    requires forall c :: c in s ==> IsSpace(c)
    ensures Ink(s) == ""
  {
    if s != [] {
      InkSpace(s[1..]);
    }
  }

  /** A text without white space is all ink. */
  lemma {:induction false} InkOfInk(s: string)
    requires forall c :: c in s ==> !IsSpace(c)
    ensures Ink(s) == s
  {
    if s != [] {
      InkOfInk(s[1..]);
      assert s == [s[0]] + s[1..];
    }
  }

  // ---------- marks in front of a text ----------

  predicate AllSpace(s: string) {
    forall c :: c in s ==> IsSpace(c)
  }

  /** One to six '#' and a blank. */
  predicate HashLine(line: string, level: nat) {
    && 1 <= level <= 6 && level < |line| && line[level] == ' '
    && forall k :: 0 <= k < level ==> line[k] == '#'
  }

  /** The line is a mark, white space, and the text. */
  predicate MarkAt(line: string, mark: string, gap: string, text: string) {
    line == mark + gap + text && AllSpace(gap) && Trimmed(text)
  }

  ghost predicate TextBehind(line: string, mark: string, text: string) {
    exists gap :: MarkAt(line, mark, gap, text)
  }

  function HashMark(level: nat): string {
    seq(level, i => '#')
  }

  lemma TrimmedTail(rest: string)
    requires rest == "" || !IsSpace(rest[|rest| - 1])
    ensures exists gap :: rest == gap + Trim(rest) && AllSpace(gap)
  {
    var gap := LeftSpace(rest);
    var tail := TrimLeft(rest);
    assert tail != "" ==> tail[|tail| - 1] == (gap + tail)[|gap + tail| - 1];
    assert TrimRight(tail) == tail;
    assert rest == gap + Trim(rest);
  }

  lemma BehindMark(line: string, n: nat)
    requires n <= |line| && Trimmed(line)
    ensures TextBehind(line, line[..n], Trim(line[n..]))
  {
    var rest := line[n..];
    assert rest != "" ==> rest[|rest| - 1] == line[|line| - 1];
    TrimmedTail(rest);
    var gap :| rest == gap + Trim(rest) && AllSpace(gap);
    hide Trim;
    assert line == line[..n] + gap + Trim(rest) by {
      Regroup(line[..n], gap, Trim(rest));
      assert line == line[..n] + line[n..];
    }
    assert MarkAt(line, line[..n], gap, Trim(rest));
  }

  lemma {:induction false} HashCountIs(line: string, level: nat)
    requires level < |line| && line[level] != '#' && forall k :: 0 <= k < level ==> line[k] == '#'
    ensures HashCount(line) == level
  {
    if level > 0 {
      HashCountIs(line[1..], level - 1);
    }
  }

  lemma HashRun(line: string, level: nat)
    requires HashLine(line, level)
    ensures HashCount(line) == level && line[..level] == HashMark(level) && "#" <= line
  {
    HashCountIs(line, level);
    assert line[0] == '#' && line[..1] == "#";
  }
}
