/** Storing the rows of a block tree under database ids and restoring the tree from them. */
module BlockStore {
  import opened Wrappers
  import opened BlockTree
  import opened Sorting

  // ---------- storing ----------

  /** The ids given to the first n rows, by key. */
  function IdMap(rows: seq<Row>, ids: seq<int>, n: nat): map<string, int>
    requires n <= |rows| == |ids|
  {
    if n == 0 then map[] else IdMap(rows, ids, n - 1)[rows[n - 1].key := ids[n - 1]]
  }

  function ParentId(m: map<string, int>, parentKey: Option<string>): Option<int>
    requires parentKey.Some? ==> parentKey.value in m
  {
    match parentKey case None => None case Some(k) => Some(m[k])
  }

  /** Every parent is stored before its children. */
  predicate ParentsFirst(rows: seq<Row>, ids: seq<int>, n: nat)
    requires n <= |rows| == |ids|
  {
    n > 0 ==>
      && ParentsFirst(rows, ids, n - 1)
      && (rows[n - 1].parentKey.Some? ==> rows[n - 1].parentKey.value in IdMap(rows, ids, n - 1))
  }

  function StoredPrefix(rows: seq<Row>, ids: seq<int>, n: nat): seq<Stored>
    requires n <= |rows| == |ids| && ParentsFirst(rows, ids, n)
  {
    if n == 0 then []
    else StoredPrefix(rows, ids, n - 1)
         + [Stored(ids[n - 1], ParentId(IdMap(rows, ids, n - 1), rows[n - 1].parentKey), rows[n - 1])]
  }

  lemma {:induction false} NeverFirst(rows: seq<Row>, ids: seq<int>, i: nat, n: nat)
    requires i <= n <= |rows| == |ids| && !ParentsFirst(rows, ids, i)
    ensures !ParentsFirst(rows, ids, n)
    decreases n - i
  {
    if i < n {
      NeverFirst(rows, ids, i, n - 1);
    }
  }

  /** Rows are created one by one; a parent must have been created before. `ids` are the keys the database gives out. */
  method RecordBlocks(rows: seq<Row>, ids: seq<int>) returns (r: Result<seq<Stored>>)
    requires |rows| == |ids|
    ensures r.Ok? <==> ParentsFirst(rows, ids, |rows|)
    ensures r.Ok? ==> r.value == StoredPrefix(rows, ids, |rows|)
  {
    var blockIds: map<string, int> := map[];
    var stored: seq<Stored> := [];
    for index := 0 to |rows|
      invariant blockIds == IdMap(rows, ids, index)
      invariant ParentsFirst(rows, ids, index) && stored == StoredPrefix(rows, ids, index)
    {
      var parent: Option<int> := None;
      if rows[index].parentKey.Some? {
        if rows[index].parentKey.value !in blockIds {
          NeverFirst(rows, ids, index + 1, |rows|);
          return Err(rows[index].key);
        }
        parent := Some(blockIds[rows[index].parentKey.value]);
      }
      stored := stored + [Stored(ids[index], parent, rows[index])];
      blockIds := blockIds[rows[index].key := ids[index]];
    }
    return Ok(stored);
  }

  /** Rows are listed by order, then id. */
  function ListLeq(a: Stored, b: Stored): bool {
    a.row.order < b.row.order || (a.row.order == b.row.order && a.id <= b.id)
  }

  function Listed(stored: seq<Stored>): seq<Stored> {
    Sort(stored, ListLeq)
  }

  // ---------- restoring ----------

  /** The rows under one parent, in listing order. */
  function Kids(stored: seq<Stored>, parent: Option<int>): (r: seq<Stored>)
    ensures |r| <= |stored|
  {
    if stored == [] then []
    else
      var before, last := Kids(stored[..|stored| - 1], parent), stored[|stored| - 1];
      if last.parent == parent then before + [last] else before
  }

  function BlockOf(s: Stored, children: seq<Block>): Block {
    Block(s.row.key, s.row.kind, s.row.level, s.row.text, s.row.page, s.row.path, s.row.order, s.row.attributes, children)
  }

  /** The trees above the given rows; `fuel` bounds the depth. */
  function Built(stored: seq<Stored>, list: seq<Stored>, fuel: nat): seq<Block>
    decreases fuel, |list|
  {
    if list == [] || fuel == 0 then []
    else [BlockOf(list[0], Built(stored, Kids(stored, Some(list[0].id)), fuel - 1))] + Built(stored, list[1..], fuel)
  }

  function Restored(stored: seq<Stored>): seq<Block> {
    Built(stored, Kids(stored, None), |stored|)
  }

  function Get(byParent: map<int, seq<Stored>>, id: int): seq<Stored> {
    if id in byParent then byParent[id] else []
  }

  ghost predicate IsGrouping(stored: seq<Stored>, byParent: map<int, seq<Stored>>) {
    forall id :: Get(byParent, id) == Kids(stored, Some(id))
  }

  lemma {:induction false} BuiltStep(stored: seq<Stored>, list: seq<Stored>, i: nat, fuel: nat, blocks: seq<Block>)
    requires i < |list| && fuel > 0
    ensures blocks + [BlockOf(list[i], Built(stored, Kids(stored, Some(list[i].id)), fuel - 1))] + Built(stored, list[i + 1..], fuel)
            == blocks + Built(stored, list[i..], fuel)
  {
    assert list[i..][0] == list[i] && list[i..][1..] == list[i + 1..];
  }

  lemma BuiltNothing(stored: seq<Stored>, list: seq<Stored>, fuel: nat)
    ensures Built(stored, [], fuel) == Built(stored, list, 0) == []
  {
  }

  lemma GroupIsKids(stored: seq<Stored>, byParent: map<int, seq<Stored>>, id: int)
    requires IsGrouping(stored, byParent)
    ensures Get(byParent, id) == Kids(stored, Some(id))
  {
  }

  method BuildBlocks(ghost stored: seq<Stored>, byParent: map<int, seq<Stored>>, list: seq<Stored>, fuel: nat)
    returns (blocks: seq<Block>)
    requires IsGrouping(stored, byParent)
    ensures blocks == Built(stored, list, fuel)
    decreases fuel
  {
    hide *;
    blocks := [];
    BuiltNothing(stored, list, fuel);
    if fuel == 0 {
      return;
    }
    assert list[0..] == list;
    for i := 0 to |list|
      invariant blocks + Built(stored, list[i..], fuel) == Built(stored, list, fuel)
    {
      BuiltStep(stored, list, i, fuel, blocks);
      GroupIsKids(stored, byParent, list[i].id);
      var children := BuildBlocks(stored, byParent, Get(byParent, list[i].id), fuel - 1);
      blocks := blocks + [BlockOf(list[i], children)];
    }
    assert list[|list|..] == [] && blocks + [] == blocks;
  }

  lemma {:induction false} GroupOne(stored: seq<Stored>, last: Stored, byParent: map<int, seq<Stored>>)
    requires IsGrouping(stored, byParent)
    ensures last.parent.None? ==> IsGrouping(stored + [last], byParent) && Kids(stored + [last], None) == Kids(stored, None) + [last]
    ensures last.parent.Some? ==>
              var p := last.parent.value;
              IsGrouping(stored + [last], byParent[p := Get(byParent, p) + [last]]) && Kids(stored + [last], None) == Kids(stored, None)
  {
    assert (stored + [last])[..|stored|] == stored;
  }

  /** Group the rows by parent in one pass, then rebuild from the roots. */
  method RestoreASTBlocks(rows: seq<Stored>) returns (blocks: seq<Block>)
    ensures blocks == Restored(rows)
  {
    var byParent: map<int, seq<Stored>> := map[];
    var roots: seq<Stored> := [];
    for i := 0 to |rows|
      invariant IsGrouping(rows[..i], byParent)
      invariant roots == Kids(rows[..i], None)
    {
      GroupOne(rows[..i], rows[i], byParent);
      assert rows[..i + 1] == rows[..i] + [rows[i]];
      if rows[i].parent.None? {
        roots := roots + [rows[i]];
      } else {
        var p := rows[i].parent.value;
        byParent := byParent[p := Get(byParent, p) + [rows[i]]];
      }
    }
    assert rows[..|rows|] == rows;
    blocks := BuildBlocks(rows, byParent, roots, |rows|);
  }
}
