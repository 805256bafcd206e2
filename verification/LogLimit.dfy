/** The pod log limiter. A log is a string of bytes here: each char stands for one byte. */
module LogLimit {
  import opened Text

  const DEFAULT_TAIL := 200
  const DEFAULT_BYTES := 65536

  /** `normalizeLogLimits`. */
  function NormalizeLimits(tailLines: int, maxBytes: int): (r: (nat, nat))
    ensures 1 <= r.0 <= 2000 && 1 <= r.1 <= 1048576
    ensures 1 <= tailLines <= 2000 ==> r.0 == tailLines
    ensures 1 <= maxBytes <= 1048576 ==> r.1 == maxBytes
    ensures !(1 <= tailLines <= 2000) ==> r.0 == 200
    ensures !(1 <= maxBytes <= 1048576) ==> r.1 == 65536
  {
    (if tailLines <= 0 || tailLines > 2000 then DEFAULT_TAIL else tailLines,
     if maxBytes <= 0 || maxBytes > 1048576 then DEFAULT_BYTES else maxBytes)
  }

  predicate EndsInNewline(s: string) {
    s != [] && s[|s| - 1] == '\n'
  }

  function Newlines(s: string): nat {
    if s == [] then 0 else (if s[0] == '\n' then 1 else 0) + Newlines(s[1..])
  }

  /** `countLogLines`. */
  function CountLogLines(content: string): nat {
    var trimmed := if EndsInNewline(content) then content[..|content| - 1] else content;
    if trimmed == [] then 0 else Newlines(trimmed) + 1
  }

  predicate IsSuffix(t: string, s: string) {
    |t| <= |s| && s[|s| - |t|..] == t
  }

  /** The lines of a log; the empty piece behind a final newline is none. */
  function LinesOf(content: string): seq<string> {
    var lines := Split(content, '\n');
    if lines[|lines| - 1] == [] then lines[..|lines| - 1] else lines
  }

  function Rebuilt(lines: seq<string>, content: string): string {
    Join(lines, "\n") + if EndsInNewline(content) then "\n" else ""
  }

  /** The lines kept: all of them, or the last `tailLines`. */
  method KeepTail(content: string, tailLines: nat) returns (lines: seq<string>, truncated: bool)
    requires tailLines > 0
    ensures |lines| <= tailLines && |lines| <= |LinesOf(content)| && lines == LinesOf(content)[|LinesOf(content)| - |lines|..]
    ensures |lines| == if |LinesOf(content)| > tailLines then tailLines else |LinesOf(content)|
    ensures truncated <==> |lines| < |LinesOf(content)|
    ensures truncated ==> lines != []
  {
    lines := Split(content, '\n');
    if |lines| > 0 && lines[|lines| - 1] == [] {
      lines := lines[..|lines| - 1];
    }
    truncated := false;
    assert lines == LinesOf(content);
    assert lines[0..] == lines;
    if |lines| > tailLines {
      lines := lines[|lines| - tailLines..];
      truncated := true;
    }
  }

  lemma {:induction false} KeptIsSuffix(content: string, lines: seq<string>)
    requires |lines| <= |LinesOf(content)| && lines == LinesOf(content)[|LinesOf(content)| - |lines|..]
    requires |lines| < |LinesOf(content)| ==> lines != []
    ensures var kept := Rebuilt(lines, content);
            IsSuffix(kept, content) && (|lines| < |LinesOf(content)| <==> |kept| < |content|)
  {
    hide LinesOf, Rebuilt;
    RebuildsContent(content);
    if |lines| < |LinesOf(content)| {
      DropsLines(content, |LinesOf(content)| - |lines|);
    } else {
      assert lines == LinesOf(content);
      assert IsSuffix(content, content);
    }
  }

  /** `limitLogContent`. */
  method LimitLogContent(content: string, tailLines: nat, maxBytes: nat) returns (raw: string, truncated: bool)
    requires tailLines > 0 && maxBytes > 0
    ensures IsSuffix(raw, content)
    ensures |raw| <= maxBytes
    ensures CountLogLines(raw) <= tailLines
    ensures truncated <==> raw != content
    ensures forall t :: IsSuffix(t, content) && |t| > |raw| ==> |t| > maxBytes || CountLogLines(t) > tailLines
  {
    hide LinesOf, CountLogLines, IsSuffix;
    var lines;
    lines, truncated := KeepTail(content, tailLines);
    var limited := Join(lines, "\n");
    if content != [] && EndsInNewline(content) {
      limited := limited + "\n";
    }
    assert limited == Rebuilt(lines, content) by {
      Regroup(Join(lines, "\n"), [], []);
    }
    hide *;
    KeptIsSuffix(content, lines);
    TailLines(content, LinesOf(content), lines);
    raw := CutBytes(limited, maxBytes);
    truncated := truncated || |limited| > maxBytes;
    ShorterSuffix(raw, limited, content);
    LongestSuffix(content, tailLines, maxBytes, lines, limited, raw);
  }

  method CutBytes(limited: string, maxBytes: nat) returns (raw: string)
    ensures IsSuffix(raw, limited) && |raw| == if |limited| > maxBytes then maxBytes else |limited|
  {
    raw := limited;
    if |raw| > maxBytes {
      raw := raw[|raw| - maxBytes..];
    }
  }

  // ---------- the lines of a log ----------

  lemma {:induction false} LastOfSplit(s: string)
    ensures var parts := Split(s, '\n');
            parts[|parts| - 1] == [] <==> s == [] || EndsInNewline(s)
  {
    if s != [] {
      LastOfSplit(s[1..]);
      var rest := Split(s[1..], '\n');
      if s[0] != '\n' && |rest| == 1 {
        assert s[1..] != [] ==> s[1..][|s| - 2] == s[|s| - 1];
      }
    }
  }

  lemma {:induction false} JoinSnoc(lines: seq<string>, last: string)
    requires lines != []
    ensures Join(lines + [last], "\n") == Join(lines, "\n") + "\n" + last
  {
    if |lines| == 1 {
      assert (lines + [last])[1..] == [last];
    } else {
      assert (lines + [last])[1..] == lines[1..] + [last];
      JoinSnoc(lines[1..], last);
    }
  }

  lemma {:induction false} JoinWithLast(lines: seq<string>, last: string)
    ensures Join(lines + [last], "\n") == if lines == [] then last else Join(lines, "\n") + "\n" + last
  {
    if lines == [] {
      assert lines + [last] == [last];
    } else {
      JoinSnoc(lines, last);
    }
  }

  /** Joining the lines again, with the final newline, gives the log back. */
  lemma {:induction false} RebuildsContent(content: string)
    ensures Rebuilt(LinesOf(content), content) == content
  {
    hide Join, Split;
    var parts := Split(content, '\n');
    JoinSplit(content, '\n');
    LastOfSplit(content);
    Regroup(content, [], []);
    if parts[|parts| - 1] == [] {
      var lines := parts[..|parts| - 1];
      assert parts == lines + [[]];
      JoinWithLast(lines, []);
      Regroup(Join(lines, "\n") + "\n", [], []);
      JoinEmpty();
    }
  }

  lemma JoinEmpty()
    ensures Join([], "\n") == ""
  {
  }

  /** Without its first lines the log is a shorter suffix of itself. */
  lemma {:induction false} JoinDrop(lines: seq<string>, n: nat)
    requires n <= |lines|
    ensures IsSuffix(Join(lines[n..], "\n"), Join(lines, "\n"))
    ensures 0 < n < |lines| ==> |Join(lines[n..], "\n")| < |Join(lines, "\n")|
  {
    if n == 0 {
      assert lines[0..] == lines;
    } else if n == |lines| {
      assert lines[n..] == [];
    } else {
      JoinDrop(lines[1..], n - 1);
      assert lines[1..][n - 1..] == lines[n..];
      SuffixOfLonger(Join(lines[n..], "\n"), Join(lines[1..], "\n"), lines[0] + "\n");
    }
  }

  lemma {:induction false} SuffixOfLonger(t: string, s: string, before: string)
    requires IsSuffix(t, s)
    ensures IsSuffix(t, before + s)
  {
    assert (before + s)[|before + s| - |t|..] == s[|s| - |t|..];
  }

  lemma {:induction false} SuffixExtended(t: string, s: string, more: string)
    requires IsSuffix(t, s)
    ensures IsSuffix(t + more, s + more)
  {
    assert (s + more)[|s| - |t|..] == s[|s| - |t|..] + more;
  }

  lemma {:induction false} DropsLines(content: string, n: nat)
    requires 0 < n < |LinesOf(content)|
    ensures var kept := Rebuilt(LinesOf(content)[n..], content);
            IsSuffix(kept, content) && |kept| < |content|
  {
    var lines := LinesOf(content);
    RebuildsContent(content);
    JoinDrop(lines, n);
    SuffixExtended(Join(lines[n..], "\n"), Join(lines, "\n"), if EndsInNewline(content) then "\n" else "");
  }

  // ---------- counting lines ----------

  lemma {:induction false} NewlinesConcat(a: string, b: string)
    ensures Newlines(a + b) == Newlines(a) + Newlines(b)
  {
    if a == [] {
      assert a + b == b;
    } else {
      assert (a + b)[1..] == a[1..] + b;
      NewlinesConcat(a[1..], b);
    }
  }

  lemma {:induction false} NoNewlines(s: string)
    requires '\n' !in s
    ensures Newlines(s) == 0
  {
    if s != [] {
      NoNewlines(s[1..]);
    }
  }

  ghost predicate PlainLines(lines: seq<string>) {
    forall i :: 0 <= i < |lines| ==> '\n' !in lines[i]
  }

  lemma {:induction false} JoinedNewlines(lines: seq<string>)
    requires PlainLines(lines) && lines != []
    ensures Newlines(Join(lines, "\n")) == |lines| - 1
  {
    NoNewlines(lines[0]);
    if |lines| > 1 {
      JoinedNewlines(lines[1..]);
      NewlinesConcat(lines[0] + "\n", Join(lines[1..], "\n"));
      NewlinesConcat(lines[0], "\n");
      assert Newlines("\n") == 1;
    }
  }

  lemma {:induction false} RebuiltCount(lines: seq<string>, content: string)
    requires PlainLines(lines)
    requires EndsInNewline(Rebuilt(lines, content)) ==> EndsInNewline(content)
    ensures CountLogLines(Rebuilt(lines, content)) <= |lines|
  {
    var text := Rebuilt(lines, content);
    var joined := Join(lines, "\n");
    if lines != [] {
      JoinedNewlines(lines);
    }
    if EndsInNewline(content) {
      assert text[..|text| - 1] == joined;
    } else {
      assert text == joined;
    }
  }

  /** A suffix has no more lines than the whole, and ends as it ends. */
  lemma {:induction false} SuffixCount(t: string, s: string)
    requires IsSuffix(t, s)
    ensures CountLogLines(t) <= CountLogLines(s)
  {
    if t != [] {
      var cut := |s| - |t|;
      assert s == s[..cut] + t;
      NewlinesConcat(s[..cut], t);
      assert EndsInNewline(t) == EndsInNewline(s);
      if EndsInNewline(s) {
        assert s[..|s| - 1] == s[..cut] + t[..|t| - 1];
        NewlinesConcat(s[..cut], t[..|t| - 1]);
      }
    }
  }

  lemma {:induction false} TailLines(content: string, all: seq<string>, lines: seq<string>)
    requires all == LinesOf(content) && |lines| <= |all| && lines == all[|all| - |lines|..]
    ensures CountLogLines(Rebuilt(lines, content)) <= |lines|
  {
    forall i | 0 <= i < |lines| ensures '\n' !in lines[i] {
      assert lines[i] in Split(content, '\n');
    }
    LastOfSplit(content);
    RebuildsContent(content);
    EndsAlike(content, all, lines);
    RebuiltCount(lines, content);
  }

  /** The kept lines end in a newline only where the log does. */
  lemma {:induction false} EndsAlike(content: string, all: seq<string>, lines: seq<string>)
    requires all == LinesOf(content) && |lines| <= |all| && lines == all[|all| - |lines|..]
    ensures EndsInNewline(Rebuilt(lines, content)) ==> EndsInNewline(content)
  {
    RebuildsContent(content);
    JoinDrop(all, |all| - |lines|);
    hide LinesOf, Join;
    SuffixExtended(Join(lines, "\n"), Join(all, "\n"), if EndsInNewline(content) then "\n" else "");
    var text := Rebuilt(lines, content);
    assert IsSuffix(text, content);
    assert text != [] ==> text[|text| - 1] == content[|content| - 1];
  }

  lemma {:induction false} ShorterSuffix(raw: string, limited: string, content: string)
    requires IsSuffix(raw, limited) && IsSuffix(limited, content)
    ensures IsSuffix(raw, content) && CountLogLines(raw) <= CountLogLines(limited)
    ensures |raw| <= |limited| <= |content|
    ensures raw != content <==> |raw| < |content|
  {
    SuffixCount(raw, limited);
    hide CountLogLines;
    assert content[|content| - |raw|..] == limited[|limited| - |raw|..];
    assert |raw| == |content| ==> content[0..] == content;
  }

  // ---------- nothing is cut that could stay ----------

  lemma {:induction false} JoinCut(lines: seq<string>, n: nat)
    requires 0 < n < |lines|
    ensures Join(lines, "\n") == Join(lines[..n], "\n") + "\n" + Join(lines[n..], "\n")
  {
    if n == 1 {
      assert lines[..1] == [lines[0]];
    } else {
      JoinCut(lines[1..], n - 1);
      assert lines[1..][..n - 1] == lines[..n][1..] && lines[1..][n - 1..] == lines[n..];
      var rest := Join(lines[n..], "\n");
      var mid := Join(lines[..n][1..], "\n");
      Regroup(lines[0] + "\n", mid + "\n", rest);
      Regroup(lines[0] + "\n", mid, "\n");
    }
  }

  /** In front of the last lines of a log stands a newline. */
  lemma {:induction false} NewlineInFront(content: string, n: nat)
    requires 0 < n < |LinesOf(content)|
    ensures IsSuffix("\n" + Rebuilt(LinesOf(content)[n..], content), content)
  {
    var lines := LinesOf(content);
    RebuildsContent(content);
    JoinCut(lines, n);
    hide LinesOf, Join;
    var end := if EndsInNewline(content) then "\n" else "";
    var kept := Join(lines[n..], "\n");
    Regroup(Join(lines[..n], "\n"), "\n", kept);
    Regroup(Join(lines[..n], "\n"), "\n" + kept, end);
    Regroup("\n", kept, end);
    var t := "\n" + kept + end;
    assert content == Join(lines[..n], "\n") + t;
    assert IsSuffix(t, t);
    SuffixOfLonger(t, t, Join(lines[..n], "\n"));
  }

  /** With the newline in front of them, that is one line more. */
  lemma {:induction false} OneLineMore(lines: seq<string>, content: string)
    requires PlainLines(lines) && lines != []
    requires EndsInNewline("\n" + Rebuilt(lines, content)) <==> EndsInNewline(content)
    ensures CountLogLines("\n" + Rebuilt(lines, content)) == |lines| + 1
  {
    var joined := Join(lines, "\n");
    JoinedNewlines(lines);
    NewlinesConcat("\n", joined);
    OneNewline();
    var text := "\n" + Rebuilt(lines, content);
    hide Join;
    if EndsInNewline(content) {
      assert text[..|text| - 1] == "\n" + joined;
    } else {
      assert text == "\n" + joined;
    }
  }

  lemma OneNewline()
    ensures Newlines("\n") == 1
  {
  }

  lemma {:induction false} NestedSuffix(u: string, t: string, s: string)
    requires IsSuffix(u, s) && IsSuffix(t, s) && |u| <= |t|
    ensures IsSuffix(u, t)
  {
    assert t[|t| - |u|..] == s[|s| - |u|..];
  }

  /** A suffix with a rune has the end of the log. */
  lemma {:induction false} SuffixEnd(t: string, s: string)
    requires IsSuffix(t, s) && t != []
    ensures EndsInNewline(t) <==> EndsInNewline(s)
  {
  }

  /** Every suffix longer than the lines kept has more lines than allowed. */
  lemma {:induction false} LongerHasMoreLines(content: string, n: nat, t: string)
    requires 0 < n < |LinesOf(content)| && IsSuffix(t, content)
    requires |t| > |Rebuilt(LinesOf(content)[n..], content)|
    ensures CountLogLines(t) > |LinesOf(content)| - n
  {
    var lines := LinesOf(content)[n..];
    forall i | 0 <= i < |lines| ensures '\n' !in lines[i] {
      assert lines[i] in Split(content, '\n');
    }
    NewlineInFront(content, n);
    hide LinesOf, Rebuilt, CountLogLines, IsSuffix, EndsInNewline;
    var u := "\n" + Rebuilt(lines, content);
    SuffixEnd(u, content);
    OneLineMore(lines, content);
    NestedSuffix(u, t, content);
    SuffixCount(u, t);
  }

  lemma {:induction false} LongestSuffix(content: string, tailLines: nat, maxBytes: nat, lines: seq<string>, limited: string,
                                         raw: string)
    requires |lines| == (if |LinesOf(content)| > tailLines then tailLines else |LinesOf(content)|) && tailLines > 0
    requires lines == LinesOf(content)[|LinesOf(content)| - |lines|..] && limited == Rebuilt(lines, content)
    requires |raw| == if |limited| > maxBytes then maxBytes else |limited|
    ensures forall t :: IsSuffix(t, content) && |t| > |raw| ==> |t| > maxBytes || CountLogLines(t) > tailLines
  {
    var n := |LinesOf(content)| - |lines|;
    assert n == 0 ==> lines == LinesOf(content);
    hide LinesOf, Rebuilt, CountLogLines;
    RebuildsContent(content);
    forall t | IsSuffix(t, content) && |t| > |raw| && |t| <= maxBytes ensures CountLogLines(t) > tailLines {
      assert n > 0 by {
        assert |t| <= |content|;
      }
      LongerHasMoreLines(content, n, t);
    }
  }
}
