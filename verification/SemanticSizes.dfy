/** How large a group of plain blocks can get. */
module SemanticSizes {
  import opened Text
  import opened BlockTree
  import opened SemanticRender
  import opened SemanticPlan

  /** The sizes of the blocks `from..to` that no warning pulled in. */
  function OwnSize(blocks: seq<Stored>, kids: Kids, config: Config, from: nat, to: nat): nat
    requires to <= |blocks|
  {
    if to <= from then 0
    else OwnSize(blocks, kids, config, from, to - 1) + if Pulled(blocks, config, to - 1) then 0 else SizeOf(blocks[to - 1], kids)
  }

  function PulledSize(blocks: seq<Stored>, kids: Kids, config: Config, from: nat, to: nat): nat
    requires to <= |blocks|
  {
    if to <= from then 0
    else PulledSize(blocks, kids, config, from, to - 1) + if Pulled(blocks, config, to - 1) then SizeOf(blocks[to - 1], kids) else 0
  }

  function Max(a: nat, b: nat): nat {
    if a < b then b else a
  }

  lemma {:induction false} RunsPast(blocks: seq<Stored>, kids: Kids, config: Config, since: nat, from: nat, i: nat)
    requires since <= from <= i <= |blocks| && forall k :: from <= k < i ==> IsPlain(blocks[k])
    ensures OwnSize(blocks, kids, config, from, i) <= RunningSize(blocks, kids, config, since, i)
    decreases i
  {
    if from < i {
      hide SizeOf, Pulled;
      RunsPast(blocks, kids, config, since, from, i - 1);
    }
  }

  /** The blocks of a group that were not pulled in fit the limit, unless its first block alone does not. */
  lemma {:induction false} OwnBound(blocks: seq<Stored>, kids: Kids, config: Config, from: nat, to: nat, since: nat, n: nat)
    requires GroupOk(blocks, kids, config, from, to, since) && since <= from < n <= to
    ensures OwnSize(blocks, kids, config, from, n) <= Max(config.maxChildChars, SizeOf(blocks[from], kids))
    decreases n
  {
    hide SizeOf, Pulled, IsPlain;
    if n - 1 == from {
      assert OwnSize(blocks, kids, config, from, from) == 0;
    } else if Pulled(blocks, config, n - 1) {
      OwnBound(blocks, kids, config, from, to, since, n - 1);
    } else {
      assert !Overflows(blocks, kids, config, since, n - 1);
      RunsPast(blocks, kids, config, since, from, n - 1);
    }
  }

  // ---------- the text of a group ----------

  function Total(parts: seq<string>): nat {
    if parts == [] then 0 else |parts[0]| + Total(parts[1..])
  }

  lemma {:induction false} JoinLength(parts: seq<string>, sep: string)
    requires parts != []
    ensures |Join(parts, sep)| + |sep| == Total(parts) + |sep| * |parts|
  {
    if |parts| > 1 {
      JoinLength(parts[1..], sep);
    } else {
      assert parts[1..] == [];
    }
  }

  lemma {:induction false} TotalNext(parts: seq<string>, more: seq<string>)
    ensures Total(parts + more) == Total(parts) + Total(more)
  {
    if parts == [] {
      assert parts + more == more;
    } else {
      assert (parts + more)[1..] == parts[1..] + more;
      TotalNext(parts[1..], more);
    }
  }

  /** A plain block is one line at most, and its size is that of the line. */
  lemma {:induction false} PlainLine(block: Stored, kids: Kids)
    requires IsPlain(block)
    ensures |LinesOf(block, kids)| <= 1 && Total(LinesOf(block, kids)) == SizeOf(block, kids)
  {
    var lines := LinesOf(block, kids);
    assert [block][..0] == [] && BlockLines([block], kids) == lines;
    if lines != [] {
      assert lines[1..] == [] && Join(lines, "\n\n") == lines[0];
      LineIsTrimmed(block, kids);
      TrimOfTrimmed(lines[0]);
    }
  }

  lemma {:induction false} LineIsTrimmed(block: Stored, kids: Kids)
    requires IsPlain(block) && LinesOf(block, kids) != []
    ensures Trimmed(LinesOf(block, kids)[0])
  {
    var text := Trim(block.row.text);
    var hashes := Hashes(if block.row.level > 1 then block.row.level else 1);
    assert hashes[0] == '#';
    var line := LinesOf(block, kids)[0];
    assert line[|line| - 1] == text[|text| - 1];
  }

  lemma {:induction false} LinesNext(blocks: seq<Stored>, kids: Kids, from: nat, end: nat)
    requires from < end <= |blocks|
    ensures BlockLines(blocks[from..end], kids) == BlockLines(blocks[from..end - 1], kids) + LinesOf(blocks[end - 1], kids)
  {
    hide LinesOf;
    assert blocks[from..end][..end - from - 1] == blocks[from..end - 1];
  }

  lemma SizesNext(blocks: seq<Stored>, kids: Kids, config: Config, from: nat, end: nat)
    requires from < end <= |blocks|
    ensures OwnSize(blocks, kids, config, from, end) + PulledSize(blocks, kids, config, from, end) ==
            OwnSize(blocks, kids, config, from, end - 1) + PulledSize(blocks, kids, config, from, end - 1)
            + SizeOf(blocks[end - 1], kids)
  {
    hide SizeOf, Pulled;
  }

  lemma NoLines(blocks: seq<Stored>, kids: Kids, config: Config, n: nat)
    requires n <= |blocks|
    ensures BlockLines(blocks[n..n], kids) == [] && Total([]) == 0
    ensures OwnSize(blocks, kids, config, n, n) == 0 && PulledSize(blocks, kids, config, n, n) == 0
  {
  }

  lemma {:induction false} LinesSize(blocks: seq<Stored>, kids: Kids, config: Config, from: nat, end: nat)
    requires from <= end <= |blocks| && forall k :: from <= k < end ==> IsPlain(blocks[k])
    ensures var lines := BlockLines(blocks[from..end], kids);
            && |lines| <= end - from
            && Total(lines) == OwnSize(blocks, kids, config, from, end) + PulledSize(blocks, kids, config, from, end)
    decreases end - from
  {
    hide *;
    if from == end {
      NoLines(blocks, kids, config, from);
    } else {
      LinesSize(blocks, kids, config, from, end - 1);
      LinesNext(blocks, kids, from, end);
      SizesNext(blocks, kids, config, from, end);
      PlainLine(blocks[end - 1], kids);
      TotalNext(BlockLines(blocks[from..end - 1], kids), LinesOf(blocks[end - 1], kids));
    }
  }

  /**
   * The chunk of a group in a plan: its own blocks fit the limit, or its first block alone is larger; on top of that come
   * only the blocks pulled in and two newlines between blocks.
   */
  lemma {:induction false} GroupSize(plan: seq<Piece>, blocks: seq<Stored>, kids: Kids, config: Config, context: Context, j: nat)
    requires PlanOk(plan, blocks, kids, config) && j < |plan| && plan[j].Group?
    ensures var from, to := plan[j].from, plan[j].to;
            && from < to <= |blocks|
            && OwnSize(blocks, kids, config, from, to) <= Max(config.maxChildChars, SizeOf(blocks[from], kids))
            && GroupChunkOf(blocks[from..to], kids, context).tokenCount
               <= OwnSize(blocks, kids, config, from, to) + PulledSize(blocks, kids, config, from, to) + 2 * (to - from - 1)
    decreases |plan|
  {
    if j < |plan| - 1 {
      GroupSize(plan[..|plan| - 1], blocks, kids, config, context, j);
    } else {
      var from, to, since := plan[j].from, plan[j].to, plan[j].since;
      SinceBound(plan[..j], blocks, kids, config);
      OwnBound(blocks, kids, config, from, to, since, to);
      TextBound(blocks, kids, config, from, to);
    }
  }

  lemma {:induction false} TextBound(blocks: seq<Stored>, kids: Kids, config: Config, from: nat, to: nat)
    requires from < to <= |blocks| && forall k :: from <= k < to ==> IsPlain(blocks[k])
    ensures |TextOf(blocks[from..to], kids)|
            <= OwnSize(blocks, kids, config, from, to) + PulledSize(blocks, kids, config, from, to) + 2 * (to - from - 1)
  {
    hide SizeOf, Pulled, IsPlain, BlockLines, Trim, Join;
    LinesSize(blocks, kids, config, from, to);
    var lines := BlockLines(blocks[from..to], kids);
    if lines != [] {
      JoinLength(lines, "\n\n");
    } else {
      JoinNothing("\n\n");
    }
  }

  lemma JoinNothing(sep: string)
    ensures Join([], sep) == []
  {
  }
}
