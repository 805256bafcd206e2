/** Document block trees: identity assignment, flattening to rows, storage of the rows, restoring the tree. */
module BlockTree {
  import opened Wrappers
  import opened Decimal
  import opened Sorting

  datatype Result<+T> = Ok(value: T) | Err(blockKey: string)

  datatype Block = Block(id: string, kind: string, level: int, text: string, page: Option<int>, path: seq<string>,
                         order: int, attributes: map<string, string>, children: seq<Block>)

  /** A block as one table row; the parent is named by its key. */
  datatype Row = Row(key: string, parentKey: Option<string>, kind: string, level: int, order: int, page: Option<int>,
                     path: seq<string>, text: string, attributes: map<string, string>)

  /** A stored row: the database gave it an id, and the parent is named by id. */
  datatype Stored = Stored(id: int, parent: Option<int>, row: Row)

  // ---------- identity assignment ----------

  function BlockId(order: nat): string {
    "block-" + Padded(order)
  }

  lemma {:induction false} BlockIdInjective(m: nat, n: nat)
    requires BlockId(m) == BlockId(n)
    ensures m == n
  {
    assert BlockId(m)[6..] == Padded(m) && BlockId(n)[6..] == Padded(n);
    ValueOfPadded(m);
    ValueOfPadded(n);
  }

  /** Number the blocks depth first from `next + 1` on; the second part is the last number used. */
  function Assigned(blocks: seq<Block>, next: nat): (seq<Block>, nat)
    decreases blocks
  {
    if blocks == [] then ([], next)
    else
      var kids := Assigned(blocks[0].children, next + 1);
      var rest := Assigned(blocks[1..], kids.1);
      ([blocks[0].(order := next + 1, id := BlockId(next + 1), children := kids.0)] + rest.0, rest.1)
  }

  /** One block numbered, with its subtree, and the last number used in it. */
  function AssignedBlock(block: Block, next: nat): (Block, nat)
    decreases block
  {
    var kids := Assigned(block.children, next + 1);
    (block.(order := next + 1, id := BlockId(next + 1), children := kids.0), kids.1)
  }

  /** The part of the numbering still to do once `index` blocks of `result` are done and `order` was used last. */
  predicate AssignInv(blocks: seq<Block>, nextOrder: nat, result: seq<Block>, index: nat, order: nat)
    requires index <= |blocks| == |result|
  {
    && result[index..] == blocks[index..]
    && Assigned(blocks, nextOrder).0 == result[..index] + Assigned(blocks[index..], order).0
    && Assigned(blocks, nextOrder).1 == Assigned(blocks[index..], order).1
  }

  lemma {:induction false} AssignStart(blocks: seq<Block>, nextOrder: nat)
    ensures AssignInv(blocks, nextOrder, blocks, 0, nextOrder)
  {
    assert blocks[0..] == blocks && blocks[..0] == [];
  }

  lemma {:induction false} AssignStep(blocks: seq<Block>, nextOrder: nat, result: seq<Block>, index: nat, order: nat)
    requires index < |blocks| == |result| && AssignInv(blocks, nextOrder, result, index, order)
    ensures result[index] == blocks[index]
    ensures var one := AssignedBlock(blocks[index], order);
            AssignInv(blocks, nextOrder, result[index := one.0], index + 1, one.1)
  {
    var one := AssignedBlock(blocks[index], order);
    assert result[index] == result[index..][0];
    AssignedFrom(blocks, index, order);
    var result' := result[index := one.0];
    assert result'[index + 1..] == result[index..][1..] == blocks[index + 1..];
    assert result'[..index + 1] == result[..index] + [one.0];
    MoveOver(result[..index], one.0, Assigned(blocks[index + 1..], one.1).0);
  }

  lemma {:induction false} MoveOver<T>(a: seq<T>, x: T, b: seq<T>)
    ensures a + ([x] + b) == (a + [x]) + b
  {
  }

  lemma {:induction false} AssignedFrom(blocks: seq<Block>, index: nat, order: nat)
    requires index < |blocks|
    ensures var one := AssignedBlock(blocks[index], order);
            var after := Assigned(blocks[index + 1..], one.1);
            Assigned(blocks[index..], order) == ([one.0] + after.0, after.1)
  {
    assert blocks[index..][0] == blocks[index] && blocks[index..][1..] == blocks[index + 1..];
  }

  lemma {:induction false} AssignEnd(blocks: seq<Block>, nextOrder: nat, result: seq<Block>, order: nat)
    requires |blocks| == |result| && AssignInv(blocks, nextOrder, result, |blocks|, order)
    ensures (result, order) == Assigned(blocks, nextOrder)
  {
    assert result[..|blocks|] + [] == result;
  }

  /** The walk that writes order and id into the blocks, with the counter passed along. */
  method AssignBlockIdentity(blocks: seq<Block>, nextOrder: nat) returns (result: seq<Block>, order: nat)
    ensures (result, order) == Assigned(blocks, nextOrder)
    decreases blocks
  {
    result, order := blocks, nextOrder;
    AssignStart(blocks, nextOrder);
    for index := 0 to |blocks|
      invariant |result| == |blocks| && AssignInv(blocks, nextOrder, result, index, order)
    {
      AssignStep(blocks, nextOrder, result, index, order);
      order := order + 1;
      var numbered := result[index].(order := order, id := BlockId(order));
      var kids;
      kids, order := AssignBlockIdentity(blocks[index].children, order);
      result := result[index := numbered.(children := kids)];
    }
    AssignEnd(blocks, nextOrder, result, order);
  }

  function Size(blocks: seq<Block>): nat
    decreases blocks
  {
    if blocks == [] then 0 else 1 + Size(blocks[0].children) + Size(blocks[1..])
  }

  method CountBlocks(blocks: seq<Block>) returns (total: nat)
    ensures total == Size(blocks)
    decreases blocks
  {
    total := 0;
    assert blocks[0..] == blocks;
    for index := 0 to |blocks|
      invariant total + Size(blocks[index..]) == Size(blocks)
    {
      assert blocks[index..][0] == blocks[index] && blocks[index..][1..] == blocks[index + 1..];
      var below := CountBlocks(blocks[index].children);
      total := total + 1 + below;
    }
  }

  /** All blocks, parents before children, in document order. */
  function Preorder(blocks: seq<Block>): (r: seq<Block>)
    ensures |r| == Size(blocks)
    decreases blocks
  {
    if blocks == [] then [] else [blocks[0]] + Preorder(blocks[0].children) + Preorder(blocks[1..])
  }

  /** The tree without its numbering. */
  function Erased(blocks: seq<Block>): seq<Block>
    decreases blocks
  {
    if blocks == [] then []
    else [blocks[0].(id := "", order := 0, children := Erased(blocks[0].children))] + Erased(blocks[1..])
  }

  /** Numbering changes nothing but order and id, and uses one number a block. */
  lemma {:induction false} AssignedShape(blocks: seq<Block>, next: nat)
    ensures Erased(Assigned(blocks, next).0) == Erased(blocks)
    ensures Assigned(blocks, next).1 == next + Size(blocks) && Size(Assigned(blocks, next).0) == Size(blocks)
    decreases blocks
  {
    if blocks != [] {
      var one := AssignedBlock(blocks[0], next);
      AssignedShape(blocks[0].children, next + 1);
      AssignedShape(blocks[1..], one.1);
      assert Assigned(blocks, next).0 == [one.0] + Assigned(blocks[1..], one.1).0;
    }
  }

  predicate NumberedFrom(list: seq<Block>, next: nat) {
    forall k :: 0 <= k < |list| ==> list[k].order == next + 1 + k && list[k].id == BlockId(next + 1 + k)
  }

  lemma {:induction false} PreorderCons(b: Block, rest: seq<Block>)
    ensures Preorder([b] + rest) == [b] + Preorder(b.children) + Preorder(rest)
  {
    assert ([b] + rest)[1..] == rest;
  }

  lemma {:induction false} NumberedConcat(a: seq<Block>, b: seq<Block>, next: nat)
    requires NumberedFrom(a, next) && NumberedFrom(b, next + |a|)
    ensures NumberedFrom(a + b, next)
  {
  }

  /** A block numbered first, then its subtree, then what follows. */
  lemma {:induction false} JoinNumbered(b: Block, rest: seq<Block>, next: nat)
    requires b.order == next + 1 && b.id == BlockId(next + 1)
    requires NumberedFrom(Preorder(b.children), next + 1)
    requires NumberedFrom(Preorder(rest), next + 1 + |Preorder(b.children)|)
    ensures NumberedFrom(Preorder([b] + rest), next)
  {
    hide Preorder;
    PreorderCons(b, rest);
    NumberedConcat([b], Preorder(b.children), next);
    NumberedConcat([b] + Preorder(b.children), Preorder(rest), next);
  }

  lemma {:induction false} AssignedSplit(blocks: seq<Block>, next: nat)
    requires blocks != []
    ensures var one := AssignedBlock(blocks[0], next);
            && Assigned(blocks, next).0 == [one.0] + Assigned(blocks[1..], one.1).0
            && one.0.order == next + 1 && one.0.id == BlockId(next + 1)
            && one.0.children == Assigned(blocks[0].children, next + 1).0
            && one.1 == next + 1 + |Preorder(one.0.children)|
  {
    AssignedShape(blocks[0].children, next + 1);
    hide Preorder, Size, Erased, BlockId;
  }

  lemma {:induction false} JoinAssigned(blocks: seq<Block>, next: nat, after: nat)
    requires blocks != [] && after == AssignedBlock(blocks[0], next).1
    requires NumberedFrom(Preorder(Assigned(blocks[0].children, next + 1).0), next + 1)
    requires NumberedFrom(Preorder(Assigned(blocks[1..], after).0), after)
    ensures NumberedFrom(Preorder(Assigned(blocks, next).0), next)
  {
    hide *;
    AssignedSplit(blocks, next);
    JoinNumbered(AssignedBlock(blocks[0], next).0, Assigned(blocks[1..], after).0, next);
  }

  /** The k-th block in document order gets the number next + 1 + k and the id made from it. */
  lemma {:induction false} AssignedNumbers(blocks: seq<Block>, next: nat)
    ensures NumberedFrom(Preorder(Assigned(blocks, next).0), next)
    decreases blocks
  {
    if blocks != [] {
      hide *;
      var after := AssignedBlock(blocks[0], next).1;
      AssignedNumbers(blocks[0].children, next + 1);
      AssignedNumbers(blocks[1..], after);
      JoinAssigned(blocks, next, after);
    }
  }

  // ---------- the two flattenings ----------

  function RowOf(b: Block, parentKey: Option<string>): Row {
    Row(b.id, parentKey, b.kind, b.level, b.order, b.page, b.path, b.text, b.attributes)
  }

  function Rows(blocks: seq<Block>, parentKey: Option<string>): (r: seq<Row>)
    ensures |r| == Size(blocks)
    decreases blocks
  {
    if blocks == [] then []
    else [RowOf(blocks[0], parentKey)] + Rows(blocks[0].children, Some(blocks[0].id)) + Rows(blocks[1..], parentKey)
  }

  function RowLeq(a: Row, b: Row): bool {
    a.order <= b.order
  }

  function BlockLeq(a: Block, b: Block): bool {
    a.order <= b.order
  }

  lemma {:induction false} RowsStep(blocks: seq<Block>, index: nat, parentKey: Option<string>, result: seq<Row>)
    requires index < |blocks|
    ensures result + [RowOf(blocks[index], parentKey)] + Rows(blocks[index].children, Some(blocks[index].id))
            + Rows(blocks[index + 1..], parentKey) == result + Rows(blocks[index..], parentKey)
  {
    assert blocks[index..][0] == blocks[index] && blocks[index..][1..] == blocks[index + 1..];
  }

  method WalkRows(blocks: seq<Block>, parentKey: Option<string>, before: seq<Row>) returns (result: seq<Row>)
    ensures result == before + Rows(blocks, parentKey)
    decreases blocks
  {
    result := before;
    assert blocks[0..] == blocks;
    for index := 0 to |blocks|
      invariant result + Rows(blocks[index..], parentKey) == before + Rows(blocks, parentKey)
    {
      RowsStep(blocks, index, parentKey, result);
      result := result + [RowOf(blocks[index], parentKey)];
      result := WalkRows(blocks[index].children, Some(blocks[index].id), result);
    }
  }

  /** The rows of a tree: a walk, then a stable sort by order. */
  method FlattenASTBlocks(blocks: seq<Block>) returns (result: seq<Row>)
    ensures result == Sort(Rows(blocks, None), RowLeq)
  {
    result := WalkRows(blocks, None, []);
    assert [] + Rows(blocks, None) == Rows(blocks, None);
    result := Sort(result, RowLeq);
  }

  /** The schema extraction's flattening sorts at every level of the recursion. */
  function FlatBlocks(blocks: seq<Block>): seq<Block>
    decreases blocks
  {
    Sort(FlatUnsorted(blocks), BlockLeq)
  }

  function FlatUnsorted(blocks: seq<Block>): seq<Block>
    decreases blocks, 0
  {
    if blocks == [] then []
    else [blocks[0]] + Sort(FlatUnsorted(blocks[0].children), BlockLeq) + FlatUnsorted(blocks[1..])
  }

  lemma {:induction false} FlatStep(blocks: seq<Block>, index: nat, result: seq<Block>)
    requires index < |blocks|
    ensures result + [blocks[index]] + FlatBlocks(blocks[index].children) + FlatUnsorted(blocks[index + 1..]) ==
            result + FlatUnsorted(blocks[index..])
  {
    assert blocks[index..][0] == blocks[index] && blocks[index..][1..] == blocks[index + 1..];
  }

  method FlattenDocumentBlocks(blocks: seq<Block>) returns (result: seq<Block>)
    ensures result == FlatBlocks(blocks)
    decreases blocks
  {
    result := [];
    assert blocks[0..] == blocks;
    for index := 0 to |blocks|
      invariant result + FlatUnsorted(blocks[index..]) == FlatUnsorted(blocks)
    {
      FlatStep(blocks, index, result);
      var below := FlattenDocumentBlocks(blocks[index].children);
      result := result + [blocks[index]] + below;
    }
    assert result + [] == result;
    result := Sort(result, BlockLeq);
  }

  predicate Rising(list: seq<Block>) {
    forall i, j :: 0 <= i < j < |list| ==> list[i].order < list[j].order
  }

  /** The orders of a tree rise in document order. */
  predicate Ordered(blocks: seq<Block>) {
    Rising(Preorder(blocks))
  }

  lemma {:induction false} AssignedOrdered(blocks: seq<Block>, next: nat)
    ensures Ordered(Assigned(blocks, next).0)
  {
    AssignedNumbers(blocks, next);
  }

  lemma {:induction false} RisingPart(a: seq<Block>, b: seq<Block>, c: seq<Block>)
    requires Rising(a + b + c)
    ensures Rising(b)
  {
    assert forall i :: 0 <= i < |b| ==> (a + b + c)[|a| + i] == b[i];
  }

  lemma {:induction false} OrderedParts(blocks: seq<Block>)
    requires blocks != [] && Ordered(blocks)
    ensures Ordered(blocks[0].children) && Ordered(blocks[1..])
  {
    var kids, rest := Preorder(blocks[0].children), Preorder(blocks[1..]);
    RisingPart([blocks[0]], kids, rest);
    assert [blocks[0]] + kids + rest + [] == [blocks[0]] + kids + rest;
    RisingPart([blocks[0]] + kids, rest, []);
  }

  /** On a numbered tree the sorts of the schema flattening change nothing. */
  lemma {:induction false} FlatIsPreorder(blocks: seq<Block>)
    requires Ordered(blocks)
    ensures FlatUnsorted(blocks) == FlatBlocks(blocks) == Preorder(blocks)
    decreases blocks
  {
    if blocks != [] {
      OrderedParts(blocks);
      FlatIsPreorder(blocks[0].children);
      FlatIsPreorder(blocks[1..]);
      assert FlatUnsorted(blocks) == Preorder(blocks);
    }
    SortOfSorted(FlatUnsorted(blocks), BlockLeq);
  }

  /** Row by row, the list shows these blocks. */
  ghost predicate Shows(rows: seq<Row>, list: seq<Block>) {
    |rows| == |list| && forall k :: 0 <= k < |rows| ==> rows[k] == RowOf(list[k], rows[k].parentKey)
  }

  lemma {:induction false} ShowsConcat(a: seq<Row>, b: seq<Row>, c: seq<Block>, d: seq<Block>)
    requires Shows(a, c) && Shows(b, d)
    ensures Shows(a + b, c + d)
  {
    hide RowOf;
  }

  lemma {:induction false} RowsShow(blocks: seq<Block>, parentKey: Option<string>)
    ensures Shows(Rows(blocks, parentKey), Preorder(blocks))
    decreases blocks
  {
    if blocks != [] {
      var b, rest := blocks[0], blocks[1..];
      RowsShow(b.children, Some(b.id));
      RowsShow(rest, parentKey);
      assert Shows([RowOf(b, parentKey)], [b]);
      hide Shows, RowOf;
      ShowsConcat([RowOf(b, parentKey)], Rows(b.children, Some(b.id)), [b], Preorder(b.children));
      ShowsConcat([RowOf(b, parentKey)] + Rows(b.children, Some(b.id)), Rows(rest, parentKey),
                  [b] + Preorder(b.children), Preorder(rest));
    }
  }

  /** The rows list the same blocks in the same order as the document. */
  lemma {:induction false} RowsArePreorder(blocks: seq<Block>, parentKey: Option<string>)
    ensures forall k :: 0 <= k < Size(blocks) ==>
              Rows(blocks, parentKey)[k] == RowOf(Preorder(blocks)[k], Rows(blocks, parentKey)[k].parentKey)
  {
    hide Rows, Preorder, RowOf;
    RowsShow(blocks, parentKey);
  }

  /** Both flattenings of a numbered tree are the document order; neither sort moves anything. */
  lemma {:induction false} FlatteningsAgree(blocks: seq<Block>)
    requires Ordered(blocks)
    ensures Sort(Rows(blocks, None), RowLeq) == Rows(blocks, None)
    ensures FlatBlocks(blocks) == Preorder(blocks)
    ensures forall k :: 0 <= k < Size(blocks) ==>
              Rows(blocks, None)[k] == RowOf(FlatBlocks(blocks)[k], Rows(blocks, None)[k].parentKey)
  {
    RowsArePreorder(blocks, None);
    FlatIsPreorder(blocks);
    var rows := Rows(blocks, None);
    forall i, j | 0 <= i < j < |rows| ensures RowLeq(rows[i], rows[j]) {
      assert rows[i].order == Preorder(blocks)[i].order && rows[j].order == Preorder(blocks)[j].order;
    }
    SortOfSorted(rows, RowLeq);
  }
}
