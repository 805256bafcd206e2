/** The two flattenings of a document list the same blocks in the same order, whatever the orders of the blocks are. */
module BlockFlattening {
  import opened Wrappers
  import opened Sorting
  import opened BlockTree

  function WithOrder(n: int): Block -> bool {
    (b: Block) => b.order == n
  }

  /** The blocks of one order keep their places among themselves. */
  ghost predicate SameTies(a: seq<Block>, b: seq<Block>) {
    forall n: int :: Filter(a, WithOrder(n)) == Filter(b, WithOrder(n))
  }

  lemma {:induction false} SortKeepsTies(list: seq<Block>)
    ensures SameTies(Sort(list, BlockLeq), list) && Sorted(Sort(list, BlockLeq), BlockLeq)
  {
    assert TotalPreorder(BlockLeq);
    SortSorts(list, BlockLeq);
    forall n: int ensures Filter(Sort(list, BlockLeq), WithOrder(n)) == Filter(list, WithOrder(n)) {
      SortStable(list, BlockLeq, WithOrder(n));
    }
  }

  lemma {:induction false} InFilter(list: seq<Block>, i: nat)
    requires i < |list|
    ensures Filter(list, WithOrder(list[i].order)) != []
  {
    if i < |list| - 1 {
      InFilter(list[..|list| - 1], i);
    }
  }

  lemma {:induction false} FilterLast(list: seq<Block>, n: int)
    requires list != []
    ensures var front, last := list[..|list| - 1], list[|list| - 1];
            Filter(list, WithOrder(n)) == Filter(front, WithOrder(n)) + if last.order == n then [last] else []
  {
  }

  /** Equal ties reach equally high. */
  lemma {:induction false} LastOrders(a: seq<Block>, b: seq<Block>)
    requires a != [] && b != [] && SameTies(a, b) && Sorted(b, BlockLeq)
    ensures a[|a| - 1].order <= b[|b| - 1].order
  {
    var n := a[|a| - 1].order;
    InFilter(a, |a| - 1);
    var f := Filter(b, WithOrder(n));
    assert f == Filter(a, WithOrder(n));
    assert WithOrder(n)(f[0]) && f[0] in b;
  }

  lemma {:induction false} NoneMissing(a: seq<Block>, b: seq<Block>)
    requires SameTies(a, b) && a != []
    ensures b != []
  {
    InFilter(a, 0);
    var f := Filter(b, WithOrder(a[0].order));
    assert f == Filter(a, WithOrder(a[0].order));
  }

  lemma {:induction false} BothOrNone(a: seq<Block>, b: seq<Block>)
    requires SameTies(a, b)
    ensures SameTies(b, a) && (a == [] <==> b == [])
  {
    hide Filter;
    if a != [] {
      NoneMissing(a, b);
    }
    if b != [] {
      NoneMissing(b, a);
    }
  }

  lemma {:induction false} OneLast(a: seq<Block>, b: seq<Block>)
    requires a != [] && b != [] && SameTies(a, b) && a[|a| - 1].order == b[|b| - 1].order
    ensures a[|a| - 1] == b[|b| - 1] && SameTies(a[..|a| - 1], b[..|b| - 1])
  {
    var x, y := a[|a| - 1], b[|b| - 1];
    var front, rear := a[..|a| - 1], b[..|b| - 1];
    hide Filter;
    FilterLast(a, x.order);
    FilterLast(b, x.order);
    assert Filter(front, WithOrder(x.order)) + [x] == Filter(rear, WithOrder(x.order)) + [y];
    forall n: int ensures Filter(front, WithOrder(n)) == Filter(rear, WithOrder(n)) {
      FilterLast(a, n);
      FilterLast(b, n);
      SameFront(Filter(front, WithOrder(n)), Filter(rear, WithOrder(n)), x, y);
    }
    SameFront(Filter(front, WithOrder(x.order)), Filter(rear, WithOrder(x.order)), x, y);
  }

  lemma SameFront(s: seq<Block>, t: seq<Block>, x: Block, y: Block)
    ensures s + [x] == t + [y] ==> s == t && x == y
    ensures s + [] == t + [] ==> s == t
  {
    assert s + [] == s && t + [] == t;
    if s + [x] == t + [y] {
      assert (s + [x])[..|s|] == s && (t + [y])[..|t|] == t;
      assert (s + [x])[|s|] == x && (t + [y])[|t|] == y;
    }
  }

  /** A sorted list is determined by its ties: there is one stable sort only. */
  lemma {:induction false} OneStableSort(a: seq<Block>, b: seq<Block>)
    requires Sorted(a, BlockLeq) && Sorted(b, BlockLeq) && SameTies(a, b)
    ensures a == b
    decreases |a|
  {
    hide *;
    BothOrNone(a, b);
    if a != [] {
      LastOrders(a, b);
      LastOrders(b, a);
      OneLast(a, b);
      FrontSorted(a);
      FrontSorted(b);
      OneStableSort(a[..|a| - 1], b[..|b| - 1]);
      assert a == a[..|a| - 1] + [a[|a| - 1]] && b == b[..|b| - 1] + [b[|b| - 1]];
    }
  }

  lemma FrontSorted(list: seq<Block>)
    requires list != [] && Sorted(list, BlockLeq)
    ensures Sorted(list[..|list| - 1], BlockLeq)
  {
  }

  lemma {:induction false} TiesConcat(a: seq<Block>, b: seq<Block>, c: seq<Block>, d: seq<Block>)
    requires SameTies(a, c) && SameTies(b, d)
    ensures SameTies(a + b, c + d)
  {
    hide Filter;
    forall n: int ensures Filter(a + b, WithOrder(n)) == Filter(c + d, WithOrder(n)) {
      FilterConcat(a, b, WithOrder(n));
      FilterConcat(c, d, WithOrder(n));
    }
  }

  /** Sorting below moves no block past another of the same order. */
  lemma {:induction false} UnsortedTies(blocks: seq<Block>)
    ensures SameTies(FlatUnsorted(blocks), Preorder(blocks))
    decreases blocks
  {
    if blocks != [] {
      var head, kids, rest := [blocks[0]], blocks[0].children, blocks[1..];
      UnsortedTies(kids);
      UnsortedTies(rest);
      SortKeepsTies(FlatUnsorted(kids));
      hide Filter;
      TiesConcat(head, FlatBlocks(kids), head, Preorder(kids));
      TiesConcat(head + FlatBlocks(kids), FlatUnsorted(rest), head + Preorder(kids), Preorder(rest));
    }
  }

  /** A row inserted into rows that show a list lands where its block lands in the list. */
  lemma {:induction false} InsertShows(rows: seq<Row>, list: seq<Block>, row: Row, block: Block)
    requires Shows(rows, list) && row == RowOf(block, row.parentKey)
    ensures Shows(Insert(rows, row, RowLeq), Insert(list, block, BlockLeq))
  {
    if rows != [] && !RowLeq(rows[|rows| - 1], row) {
      InsertShows(rows[..|rows| - 1], list[..|list| - 1], row, block);
    }
  }

  lemma {:induction false} SortShows(rows: seq<Row>, list: seq<Block>)
    requires Shows(rows, list)
    ensures Shows(Sort(rows, RowLeq), Sort(list, BlockLeq))
  {
    if rows != [] {
      var k := |rows| - 1;
      SortShows(rows[..k], list[..k]);
      InsertShows(Sort(rows[..k], RowLeq), Sort(list[..k], BlockLeq), rows[k], list[k]);
    }
  }

  /**
   * On every forest, numbered or not, sorting at each level of the recursion and sorting once at the end give the same
   * list: the document order, stably sorted.
   */
  lemma {:induction false} SortsAgree(blocks: seq<Block>)
    ensures FlatBlocks(blocks) == Sort(Preorder(blocks), BlockLeq)
    ensures Shows(Sort(Rows(blocks, None), RowLeq), FlatBlocks(blocks))
  {
    hide Filter, Shows;
    UnsortedTies(blocks);
    SortKeepsTies(FlatUnsorted(blocks));
    SortKeepsTies(Preorder(blocks));
    OneStableSort(FlatBlocks(blocks), Sort(Preorder(blocks), BlockLeq));
    RowsShow(blocks, None);
    SortShows(Rows(blocks, None), Preorder(blocks));
  }
}
