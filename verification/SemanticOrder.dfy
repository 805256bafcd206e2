/** Roots, children, sections and keys keep the order of the list they come from. */
module SemanticOrder {
  import opened Text
  import opened Picking
  import Sorting
  import opened BlockTree
  import opened SemanticRender
  import opened SemanticSections
  import opened SemanticChunks

  function IsRoot(): Stored -> bool {
    (b: Stored) => b.parent.None?
  }

  function IsChildOf(id: int): Stored -> bool {
    (b: Stored) => b.parent.Some? && b.parent.value == id
  }

  function IsFiled(key: string): Stored -> bool {
    (b: Stored) => BlockKey(b) == key
  }

  lemma {:induction false} Snoc<T>(s: seq<T>)
    requires s != []
    ensures s == s[..|s| - 1] + [s[|s| - 1]]
  {
  }

  /** The roots are the blocks without a parent, in order. */
  lemma {:induction false} RootsPicked(blocks: seq<Stored>)
    ensures Picked(RootsOf(blocks), blocks, IsRoot())
  {
    hide Picked;
    if blocks == [] {
      PickNone(IsRoot());
    } else {
      var before, last := blocks[..|blocks| - 1], blocks[|blocks| - 1];
      RootsPicked(before);
      PickNext(RootsOf(before), before, last, IsRoot());
      Snoc(blocks);
    }
  }

  /** The children of a block are those that name it, in order. */
  lemma {:induction false} ChildrenPicked(blocks: seq<Stored>, id: int)
    ensures Picked(ChildrenWith(blocks, id), blocks, IsChildOf(id))
  {
    hide Picked;
    if blocks == [] {
      PickNone(IsChildOf(id));
    } else {
      var before, last := blocks[..|blocks| - 1], blocks[|blocks| - 1];
      ChildrenPicked(before, id);
      PickNext(ChildrenWith(before, id), before, last, IsChildOf(id));
      Snoc(blocks);
    }
  }

  lemma {:induction false} FiledPicked(roots: seq<Stored>, key: string)
    ensures Picked(WithKey(roots, key), roots, IsFiled(key))
  {
    hide Picked, BlockKey;
    if roots == [] {
      PickNone(IsFiled(key));
    } else {
      var before, last := roots[..|roots| - 1], roots[|roots| - 1];
      FiledPicked(before, key);
      PickNext(WithKey(before, key), before, last, IsFiled(key));
      Snoc(roots);
    }
  }

  lemma {:induction false} KeysPlaced(roots: seq<Stored>)
    ensures FirstPlaces(KeyOrder(roots), roots, BlockKey)
  {
    hide FirstPlaces, BlockKey;
    if roots == [] {
      FirstNone(BlockKey);
    } else {
      var before, last := roots[..|roots| - 1], roots[|roots| - 1];
      KeysPlaced(before);
      FirstNext(KeyOrder(before), before, last, BlockKey);
      Snoc(roots);
    }
  }

  /** The sections come in the order of their first blocks, and each holds the roots of its key in order. */
  lemma {:induction false} SectionsKeepOrder(sections: seq<Section>, roots: seq<Stored>)
    requires Partition(sections, roots)
    ensures |KeyOrder(roots)| == |sections| && FirstPlaces(KeyOrder(roots), roots, BlockKey)
    ensures forall j :: 0 <= j < |sections| ==>
              KeyOf(sections[j].path) == KeyOrder(roots)[j] && Picked(sections[j].blocks, roots, IsFiled(KeyOrder(roots)[j]))
  {
    KeysPlaced(roots);
    forall j | 0 <= j < |sections|
      ensures KeyOf(sections[j].path) == KeyOrder(roots)[j] && Picked(sections[j].blocks, roots, IsFiled(KeyOrder(roots)[j]))
    {
      FiledPicked(roots, KeyOrder(roots)[j]);
      assert Holds(sections[j], roots, KeyOrder(roots)[j]);
      FirstIsFiled(roots, KeyOrder(roots)[j]);
    }
  }

  lemma {:induction false} FirstIsFiled(roots: seq<Stored>, key: string)
    ensures WithKey(roots, key) != [] ==> BlockKey(WithKey(roots, key)[0]) == key
  {
    hide BlockKey;
    if roots != [] {
      FirstIsFiled(roots[..|roots| - 1], key);
    }
  }

  /** The values that are not empty. */
  function Filled(values: seq<string>): (r: seq<string>)
    ensures forall v :: v in r <==> v in values && v != ""
  {
    if values == [] then []
    else
      var last := values[|values| - 1];
      assert values == values[..|values| - 1] + [last];
      Filled(values[..|values| - 1]) + if last == "" then [] else [last]
  }

  function Same(): string -> string {
    (v: string) => v
  }

  lemma {:induction false} FilledPicked(values: seq<string>)
    ensures Picked(Filled(values), values, v => v != "")
  {
    hide Picked;
    var filled := (v: string) => v != "";
    FilledPickedBy(values, filled);
  }

  lemma {:induction false} FilledPickedBy(values: seq<string>, filled: string -> bool)
    requires forall v :: filled(v) <==> v != ""
    ensures Picked(Filled(values), values, filled)
  {
    hide Picked;
    if values == [] {
      PickNone(filled);
    } else {
      var before, last := values[..|values| - 1], values[|values| - 1];
      FilledPickedBy(before, filled);
      PickNext(Filled(before), before, last, filled);
      Snoc(values);
    }
  }

  /** Unique values stand in the order of their first places. */
  lemma {:induction false} UniquePlaced(values: seq<string>)
    ensures FirstPlaces(Unique(values), Filled(values), Same())
  {
    hide FirstPlaces;
    if values == [] {
      FirstNone(Same());
    } else {
      var before, last := values[..|values| - 1], values[|values| - 1];
      UniquePlaced(before);
      FirstNext(Unique(before), Filled(before), last, Same());
      Regroup(Filled(before), [], []);
    }
  }

  function HasOrder(order: int): Stored -> bool {
    (b: Stored) => b.row.order == order
  }

  /** The roots are taken by rising order, those of one order as they stand in the list. */
  lemma {:induction false} OrderIsStable(blocks: seq<Stored>, order: int)
    ensures forall i, j :: 0 <= i < j < |InOrder(blocks)| ==> InOrder(blocks)[i].row.order <= InOrder(blocks)[j].row.order
    ensures multiset(InOrder(blocks)) == multiset(blocks)
    ensures Sorting.Filter(InOrder(blocks), HasOrder(order)) == Sorting.Filter(blocks, HasOrder(order))
  {
    var leq := (a: Stored, b: Stored) => a.row.order <= b.row.order;
    Sorting.SortSorts(blocks, leq);
    Sorting.SortStable(blocks, leq, HasOrder(order));
  }
}
