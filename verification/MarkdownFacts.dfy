/** What the blocks of a parsed Markdown document promise, said of the blocks alone. */
module MarkdownFacts {
  import opened Text
  import opened MarkdownLines
  import opened MarkdownSections
  import opened MarkdownParser

  /** The headings among the blocks. */
  function HeadingsIn(blocks: seq<Block>): seq<Heading> {
    if blocks == [] then []
    else
      var last := blocks[|blocks| - 1];
      HeadingsIn(blocks[..|blocks| - 1]) + if last.kind == HeadingKind then [Heading(last.level, last.text)] else []
  }

  /** A block has its place as its number, and the headings up to and including it give its section path. */
  ghost predicate WellPlaced(blocks: seq<Block>) {
    blocks == [] ||
    (&& WellPlaced(blocks[..|blocks| - 1])
     && blocks[|blocks| - 1].order == |blocks|
     && blocks[|blocks| - 1].path == LookupPath(HeadingsIn(blocks)))
  }

  lemma {:induction false} HeadingsMatch(segments: seq<Segment>, lines: seq<string>)
    requires AllInBounds(segments, lines)
    ensures HeadingsIn(BlocksOf(segments, lines)) == Headings(segments, lines)
  {
    if segments != [] {
      var before := segments[..|segments| - 1];
      var last := segments[|segments| - 1];
      HeadingsMatch(before, lines);
      if last.Blank? {
        Regroup(Headings(before, lines), [], []);
      } else {
        LastBlock(BlocksOf(before, lines), BlockOf(last, lines, LookupPath(Headings(segments, lines)), |BlocksOf(before, lines)| + 1));
        KindOfBlock(last, lines, LookupPath(Headings(segments, lines)), |BlocksOf(before, lines)| + 1);
      }
    }
  }

  lemma {:induction false} LastBlock(blocks: seq<Block>, block: Block)
    ensures HeadingsIn(blocks + [block])
            == HeadingsIn(blocks) + if block.kind == HeadingKind then [Heading(block.level, block.text)] else []
    ensures WellPlaced(blocks + [block]) <==>
            WellPlaced(blocks) && block.order == |blocks| + 1 && block.path == LookupPath(HeadingsIn(blocks + [block]))
  {
    assert (blocks + [block])[..|blocks|] == blocks;
  }

  lemma {:induction false} KindOfBlock(segment: Segment, lines: seq<string>, path: seq<string>, order: nat)
    requires InBounds(segment, lines) && !segment.Blank?
    ensures var block := BlockOf(segment, lines, path, order);
            && HeadingOf(segment, lines) == (if block.kind == HeadingKind then [Heading(block.level, block.text)] else [])
            && block.order == order && block.path == (if segment.Unclosed? then [] else path)
  {
  }

  ghost predicate NoneUnclosed(segments: seq<Segment>) {
    segments == [] || (!segments[|segments| - 1].Unclosed? && NoneUnclosed(segments[..|segments| - 1]))
  }

  /** Without an unclosed fence every block is under the headings before it. */
  lemma {:induction false} ClosedWellPlaced(segments: seq<Segment>, lines: seq<string>)
    requires AllInBounds(segments, lines) && NoneUnclosed(segments)
    ensures WellPlaced(BlocksOf(segments, lines))
  {
    if segments != [] {
      var before := segments[..|segments| - 1];
      var last := segments[|segments| - 1];
      ClosedWellPlaced(before, lines);
      if !last.Blank? {
        var path := LookupPath(Headings(segments, lines));
        var block := BlockOf(last, lines, path, |BlocksOf(before, lines)| + 1);
        HeadingsMatch(segments, lines);
        KindOfBlock(last, lines, path, |BlocksOf(before, lines)| + 1);
        LastBlock(BlocksOf(before, lines), block);
      }
    }
  }

  /** Only the last segment can be an unclosed fence. */
  ghost predicate OnlyLastUnclosed(segments: seq<Segment>) {
    if EndsUnclosed(segments) then NoneUnclosed(segments[..|segments| - 1]) else NoneUnclosed(segments)
  }

  lemma {:induction false} OnlyLastCons(next: Segment, rest: seq<Segment>)
    requires OnlyLastUnclosed(rest) && (next.Unclosed? ==> rest == [])
    ensures OnlyLastUnclosed([next] + rest)
  {
    if rest == [] {
      assert [next] + rest == [next] && [next][..0] == [];
    } else if EndsUnclosed(rest) {
      assert ([next] + rest)[..|rest|] == [next] + rest[..|rest| - 1];
      NoneUnclosedCons(next, rest[..|rest| - 1]);
    } else {
      NoneUnclosedCons(next, rest);
    }
  }

  lemma UnclosedEnds(lines: seq<string>, i: nat)
    requires i < |lines|
    ensures Next(lines, i).Unclosed? ==> Segments(lines, End(Next(lines, i), lines)) == []
    ensures End(Next(lines, i), lines) <= |lines|
    ensures Segments(lines, i) == [Next(lines, i)] + Segments(lines, End(Next(lines, i), lines))
  {
    NextInBounds(lines, i);
  }

  lemma {:induction false} UnclosedIsLast(lines: seq<string>, i: nat)
    requires i <= |lines|
    ensures OnlyLastUnclosed(Segments(lines, i))
    decreases |lines| - i
  {
    if i < |lines| {
      NextInBounds(lines, i);
      UnclosedEnds(lines, i);
      hide Next, Segments, OnlyLastUnclosed;
      UnclosedIsLast(lines, End(Next(lines, i), lines));
      OnlyLastCons(Next(lines, i), Segments(lines, End(Next(lines, i), lines)));
    }
  }

  lemma {:induction false} NoneUnclosedCons(next: Segment, rest: seq<Segment>)
    requires NoneUnclosed(rest) && !next.Unclosed?
    ensures NoneUnclosed([next] + rest)
  {
    if rest == [] {
      assert [next] + rest == [next] && [next][..0] == [];
    } else {
      assert ([next] + rest)[..|rest|] == [next] + rest[..|rest| - 1];
      NoneUnclosedCons(next, rest[..|rest| - 1]);
    }
  }

  /** Numbered blocks under the section paths the headings give; only a fence that is never closed has no section path. */
  ghost predicate Placed(ast: Ast) {
    if !ast.unclosedFence then WellPlaced(ast.blocks)
    else
      && ast.blocks != [] && WellPlaced(ast.blocks[..|ast.blocks| - 1])
      && var last := ast.blocks[|ast.blocks| - 1];
         last.order == |ast.blocks| && last.path == [] && last.kind == CodeKind
  }

  /**
   * The promise of a successful parse: the blocks are numbered from 1, and each stands under the section path the headings
   * give; only the code block of a fence that is never closed, at the very end, has no section path.
   */
  lemma {:induction false} SectionsOfDocument(lines: seq<string>, request: Request, ast: Ast)
    requires Means(lines, request, Document(ast))
    ensures Placed(ast)
  {
    SegmentsInBounds(lines, 0);
    UnclosedIsLast(lines, 0);
    var segments := Segments(lines, 0);
    if EndsUnclosed(segments) {
      var before := segments[..|segments| - 1];
      ClosedWellPlaced(before, lines);
      assert ast.blocks[..|ast.blocks| - 1] == BlocksOf(before, lines);
    } else {
      ClosedWellPlaced(segments, lines);
    }
  }

  // ---------- the title ----------

  ghost predicate Titled(headings: seq<Heading>) {
    forall i :: 0 <= i < |headings| ==> headings[i].text != ""
  }

  /** A trimmed heading line has a text. */
  lemma {:induction false} HeadingHasText(line: string)
    requires Trimmed(line) && LineType(line).kind == HeadingKind
    ensures LineType(line).text != ""
  {
    var rest := line[HashCount(line)..];
    TrimBlank(rest);
    assert rest[|rest| - 1] == line[|line| - 1];
    assert rest[|rest| - 1] in rest;
  }

  lemma {:induction false} HeadingsTitled(segments: seq<Segment>, lines: seq<string>)
    requires AllInBounds(segments, lines)
    ensures Titled(Headings(segments, lines))
  {
    if segments != [] {
      HeadingsTitled(segments[..|segments| - 1], lines);
      var last := segments[|segments| - 1];
      if HeadingOf(last, lines) != [] {
        HeadingHasText(Trim(lines[last.at]));
      }
    }
  }

  /** Whether heading `i` is the first one that differs from the requested title. */
  ghost predicate FirstOther(headings: seq<Heading>, requested: string, i: int) {
    && 0 <= i < |headings| && headings[i].text != requested
    && forall k :: 0 <= k < i ==> headings[k].text == requested
  }

  /** A title of its own is kept; else the first heading other than the requested title becomes the title. */
  lemma {:induction false} TitleIsFirst(title: string, requested: string, headings: seq<Heading>)
    requires Titled(headings)
    ensures var r := TitleAfter(title, requested, headings);
            if title != "" && title != requested then r == title
            else if exists i :: FirstOther(headings, requested, i) then
              forall i :: FirstOther(headings, requested, i) ==> r == headings[i].text
            else r == if headings == [] then title else requested
  {
    if headings != [] && (title == "" || title == requested) {
      var n := |headings| - 1;
      var before := headings[..n];
      TitleIsFirst(title, requested, before);
      if i :| FirstOther(before, requested, i) {
        assert FirstOther(headings, requested, i);
      } else {
        AllRequested(before, requested, n);
        assert headings[n].text != requested ==> FirstOther(headings, requested, n);
      }
    } else if headings != [] {
      TitleIsFirst(title, requested, headings[..|headings| - 1]);
    }
  }

  lemma {:induction false} AllRequested(headings: seq<Heading>, requested: string, n: nat)
    requires n <= |headings| && forall i :: !FirstOther(headings, requested, i)
    ensures forall k :: 0 <= k < n ==> headings[k].text == requested
  {
    if n > 0 {
      AllRequested(headings, requested, n - 1);
      assert !FirstOther(headings, requested, n - 1);
    }
  }

  /** The title is the one of its own, or the first heading other than the requested title, or the requested title. */
  ghost predicate Entitled(ast: Ast, request: Request) {
    var headings := HeadingsIn(ast.blocks);
    if request.title != "" && request.title != request.requested then ast.title == request.title
    else if exists i :: FirstOther(headings, request.requested, i) then
      forall i :: FirstOther(headings, request.requested, i) ==> ast.title == headings[i].text
    else ast.title == if headings == [] then request.title else request.requested
  }

  lemma {:induction false} TitleOfDocument(lines: seq<string>, request: Request, ast: Ast)
    requires Means(lines, request, Document(ast))
    ensures Entitled(ast, request)
  {
    SegmentsInBounds(lines, 0);
    var segments := Segments(lines, 0);
    HeadingsMatch(segments, lines);
    HeadingsTitled(segments, lines);
    TitleIsFirst(request.title, request.requested, Headings(segments, lines));
  }
}
