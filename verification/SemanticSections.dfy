/** Grouping the root blocks of a document into sections by their path. */
module SemanticSections {
  import opened Text
  import opened BlockTree

  datatype Section = Section(path: seq<string>, blocks: seq<Stored>)

  const NUL: char := '\U{0}'

  /** The path a block is filed under: its own, or its text for a heading without one. */
  function PathOf(block: Stored): seq<string> {
    if block.row.path == [] && block.row.kind == "heading" && Trim(block.row.text) != "" then [Trim(block.row.text)]
    else block.row.path
  }

  function KeyOf(path: seq<string>): string {
    Join(path, [NUL])
  }

  function BlockKey(block: Stored): string {
    KeyOf(PathOf(block))
  }

  /** The blocks filed under a key, in order. */
  function WithKey(roots: seq<Stored>, key: string): seq<Stored> {
    if roots == [] then []
    else WithKey(roots[..|roots| - 1], key) + if BlockKey(roots[|roots| - 1]) == key then [roots[|roots| - 1]] else []
  }

  /** The keys in the order of their first blocks. */
  function KeyOrder(roots: seq<Stored>): seq<string> {
    if roots == [] then []
    else
      var before := KeyOrder(roots[..|roots| - 1]);
      var key := BlockKey(roots[|roots| - 1]);
      if key in before then before else before + [key]
  }

  /** Section j holds the blocks with the j-th key, all of them, in order, and is called by the path of the first. */
  ghost predicate Partition(sections: seq<Section>, roots: seq<Stored>) {
    && |sections| == |KeyOrder(roots)|
    && forall j :: 0 <= j < |sections| ==> Holds(sections[j], roots, KeyOrder(roots)[j])
  }

  ghost predicate Holds(section: Section, roots: seq<Stored>, key: string) {
    && section.blocks == WithKey(roots, key)
    && section.blocks != []
    && section.path == PathOf(section.blocks[0])
  }

  lemma {:induction false} KeyOrderFacts(roots: seq<Stored>)
    ensures forall k :: k in KeyOrder(roots) <==> exists i :: 0 <= i < |roots| && BlockKey(roots[i]) == k
    ensures forall i, j :: 0 <= i < j < |KeyOrder(roots)| ==> KeyOrder(roots)[i] != KeyOrder(roots)[j]
  {
    if roots != [] {
      var n := |roots| - 1;
      var before := roots[..n];
      KeyOrderFacts(before);
      assert forall i :: 0 <= i < n ==> before[i] == roots[i];
      forall k ensures k in KeyOrder(roots) <==> exists i :: 0 <= i < |roots| && BlockKey(roots[i]) == k {
        if k in KeyOrder(before) {
          var i :| 0 <= i < n && BlockKey(before[i]) == k;
          assert BlockKey(roots[i]) == k;
        }
      }
    }
  }

  /** Where each key met so far has its section. */
  ghost predicate Indexed(indexByKey: map<string, nat>, keys: seq<string>) {
    && (forall k :: k in indexByKey <==> k in keys)
    && (forall k :: k in indexByKey ==> indexByKey[k] < |keys| && keys[indexByKey[k]] == k)
  }

  ghost predicate Grouping(sections: seq<Section>, indexByKey: map<string, nat>, roots: seq<Stored>) {
    Partition(sections, roots) && Indexed(indexByKey, KeyOrder(roots))
  }

  lemma {:induction false} WithKeySnoc(roots: seq<Stored>, block: Stored, key: string)
    ensures WithKey(roots + [block], key) == WithKey(roots, key) + if BlockKey(block) == key then [block] else []
  {
    assert (roots + [block])[..|roots|] == roots;
  }

  lemma {:induction false} KeyOrderSnoc(roots: seq<Stored>, block: Stored)
    ensures KeyOrder(roots + [block])
            == if BlockKey(block) in KeyOrder(roots) then KeyOrder(roots) else KeyOrder(roots) + [BlockKey(block)]
  {
    assert (roots + [block])[..|roots|] == roots;
  }

  lemma {:induction false} HoldsOther(section: Section, roots: seq<Stored>, block: Stored, key: string)
    requires Holds(section, roots, key) && BlockKey(block) != key
    ensures Holds(section, roots + [block], key)
  {
    WithKeySnoc(roots, block, key);
    Regroup(WithKey(roots, key), [], []);
  }

  lemma {:induction false} HoldsOne(section: Section, roots: seq<Stored>, block: Stored, key: string)
    requires Holds(section, roots, key) && BlockKey(block) == key
    ensures Holds(section.(blocks := section.blocks + [block]), roots + [block], key)
  {
    WithKeySnoc(roots, block, key);
  }

  lemma {:induction false} NoneWithKey(roots: seq<Stored>, key: string)
    requires key !in KeyOrder(roots)
    ensures WithKey(roots, key) == []
  {
    if roots != [] {
      NoneWithKey(roots[..|roots| - 1], key);
    }
  }

  lemma {:induction false} HoldsFirst(roots: seq<Stored>, block: Stored)
    requires BlockKey(block) !in KeyOrder(roots)
    ensures Holds(Section(PathOf(block), [block]), roots + [block], BlockKey(block))
  {
    NoneWithKey(roots, BlockKey(block));
    WithKeySnoc(roots, block, BlockKey(block));
  }

  /** A block with a known key joins its section. */
  lemma {:induction false} JoinSection(sections: seq<Section>, indexByKey: map<string, nat>, roots: seq<Stored>,
                                       block: Stored)
    requires Grouping(sections, indexByKey, roots) && BlockKey(block) in indexByKey
    ensures indexByKey[BlockKey(block)] < |sections|
    ensures var i := indexByKey[BlockKey(block)];
            Grouping(sections[i := sections[i].(blocks := sections[i].blocks + [block])], indexByKey, roots + [block])
  {
    var i := indexByKey[BlockKey(block)];
    var keys := KeyOrder(roots);
    KeyOrderSnoc(roots, block);
    KeyOrderFacts(roots);
    var after := sections[i := sections[i].(blocks := sections[i].blocks + [block])];
    forall j | 0 <= j < |after| ensures Holds(after[j], roots + [block], keys[j]) {
      if j == i {
        HoldsOne(sections[i], roots, block, keys[i]);
      } else {
        assert i < j ==> keys[i] != keys[j];
        HoldsOther(sections[j], roots, block, keys[j]);
      }
    }
  }

  lemma {:induction false} IndexNew(indexByKey: map<string, nat>, keys: seq<string>, key: string)
    requires Indexed(indexByKey, keys) && key !in indexByKey
    ensures Indexed(indexByKey[key := |keys|], keys + [key])
  {
  }

  lemma {:induction false} OpenHolds(sections: seq<Section>, roots: seq<Stored>, block: Stored, j: nat)
    requires Partition(sections, roots) && BlockKey(block) !in KeyOrder(roots) && j <= |sections|
    ensures Holds((sections + [Section(PathOf(block), [block])])[j], roots + [block], (KeyOrder(roots) + [BlockKey(block)])[j])
  {
    var keys := KeyOrder(roots);
    hide Holds, BlockKey, PathOf, KeyOrder, WithKey;
    if j < |sections| {
      assert keys[j] in keys;
      HoldsOther(sections[j], roots, block, keys[j]);
    } else {
      HoldsFirst(roots, block);
    }
  }

  /** A block with a new key opens a section behind the others. */
  lemma {:induction false} OpenSection(sections: seq<Section>, indexByKey: map<string, nat>, roots: seq<Stored>,
                                       block: Stored)
    requires Grouping(sections, indexByKey, roots) && BlockKey(block) !in indexByKey
    ensures Grouping(sections + [Section(PathOf(block), [block])], indexByKey[BlockKey(block) := |sections|], roots + [block])
  {
    var key := BlockKey(block);
    var keys := KeyOrder(roots);
    assert key !in keys && |keys| == |sections|;
    KeyOrderSnoc(roots, block);
    IndexNew(indexByKey, keys, key);
    hide Holds, BlockKey, PathOf, KeyOrder, WithKey, Indexed;
    var after := sections + [Section(PathOf(block), [block])];
    forall j | 0 <= j < |after| ensures Holds(after[j], roots + [block], (keys + [key])[j]) {
      OpenHolds(sections, roots, block, j);
    }
  }

  /** `groupChunkSections`: a stable partition of the root blocks. */
  method GroupChunkSections(roots: seq<Stored>) returns (sections: seq<Section>)
    ensures Partition(sections, roots)
  {
    sections := [];
    var indexByKey: map<string, nat> := map[];
    for i := 0 to |roots|
      invariant Grouping(sections, indexByKey, roots[..i])
    {
      var block := roots[i];
      assert roots[..i + 1] == roots[..i] + [block];
      var path := PathOf(block);
      var key := KeyOf(path);
      if key !in indexByKey {
        OpenSection(sections, indexByKey, roots[..i], block);
        indexByKey := indexByKey[key := |sections|];
        sections := sections + [Section(path, [block])];
      } else {
        JoinSection(sections, indexByKey, roots[..i], block);
        var index := indexByKey[key];
        sections := sections[index := sections[index].(blocks := sections[index].blocks + [block])];
      }
    }
    assert roots[..|roots|] == roots;
  }

  // ---------- when two blocks share a section ----------

  ghost predicate NulFree(path: seq<string>) {
    forall i :: 0 <= i < |path| ==> NUL !in path[i]
  }

  lemma {:induction false} SplitFirst(head: string, rest: string)
    requires NUL !in head
    ensures Split(head, NUL) == [head]
    ensures Split(head + [NUL] + rest, NUL) == [head] + Split(rest, NUL)
  {
    if head == [] {
      assert ([NUL] + rest)[1..] == rest;
      assert [] + [NUL] + rest == [NUL] + rest;
    } else {
      SplitFirst(head[1..], rest);
      assert (head + [NUL] + rest)[1..] == head[1..] + [NUL] + rest;
      assert head == [head[0]] + head[1..];
    }
  }

  /** A path without NULs can be read back from its key, unless it is empty. */
  lemma {:induction false} SplitKey(path: seq<string>)
    requires NulFree(path) && path != []
    ensures Split(KeyOf(path), NUL) == path
  {
    if |path| == 1 {
      SplitFirst(path[0], []);
    } else {
      SplitKey(path[1..]);
      SplitFirst(path[0], KeyOf(path[1..]));
      assert path == [path[0]] + path[1..];
    }
  }

  /** Two paths share a key exactly when they are equal, or when both are the empty path or the path of one empty name. */
  lemma {:induction false} SameKey(p: seq<string>, q: seq<string>)
    requires NulFree(p) && NulFree(q)
    ensures KeyOf(p) == KeyOf(q) <==> p == q || (p in {[], [""]} && q in {[], [""]})
  {
    if p != [] {
      SplitKey(p);
    }
    if q != [] {
      SplitKey(q);
    }
  }

  /** The empty path and the path of one empty name are filed together. */
  lemma EmptyPathsCollide()
    ensures KeyOf([]) == KeyOf([""]) && [] != [""]
  {
  }
}
