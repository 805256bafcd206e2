/** A numbered tree survives flattening, storing, listing and restoring. */
module BlockRoundTrip {
  import opened Wrappers
  import opened BlockTree
  import opened BlockStore
  import opened Sorting

  // ---------- rows under a fixed assignment of ids ----------

  function Lookup(m: map<string, int>, key: string): int {
    if key in m then m[key] else 0
  }

  function ParentOf(m: map<string, int>, parentKey: Option<string>): Option<int> {
    match parentKey case None => None case Some(k) => Some(Lookup(m, k))
  }

  function Placed(row: Row, m: map<string, int>): Stored {
    Stored(Lookup(m, row.key), ParentOf(m, row.parentKey), row)
  }

  function PlacedAll(rows: seq<Row>, m: map<string, int>): (r: seq<Stored>)
    ensures |r| == |rows|
  {
    if rows == [] then [] else PlacedAll(rows[..|rows| - 1], m) + [Placed(rows[|rows| - 1], m)]
  }

  lemma {:induction false} PlacedConcat(a: seq<Row>, b: seq<Row>, m: map<string, int>)
    ensures PlacedAll(a + b, m) == PlacedAll(a, m) + PlacedAll(b, m)
  {
    if b == [] {
      assert a + b == a;
    } else {
      assert (a + b)[..|a + b| - 1] == a + b[..|b| - 1];
      PlacedConcat(a, b[..|b| - 1], m);
    }
  }

  /** The stored rows of a tree. */
  function Shelf(blocks: seq<Block>, parentKey: Option<string>, m: map<string, int>): seq<Stored> {
    PlacedAll(Rows(blocks, parentKey), m)
  }

  lemma {:induction false} ShelfParts(blocks: seq<Block>, parentKey: Option<string>, m: map<string, int>)
    requires blocks != []
    ensures Shelf(blocks, parentKey, m) ==
            [Placed(RowOf(blocks[0], parentKey), m)] + Shelf(blocks[0].children, Some(blocks[0].id), m)
            + Shelf(blocks[1..], parentKey, m)
  {
    var head := [RowOf(blocks[0], parentKey)];
    var below := Rows(blocks[0].children, Some(blocks[0].id));
    PlacedConcat(head, below, m);
    PlacedConcat(head + below, Rows(blocks[1..], parentKey), m);
    PlacedOne(head[0], m);
  }

  lemma {:induction false} PlacedOne(row: Row, m: map<string, int>)
    ensures PlacedAll([row], m) == [Placed(row, m)]
  {
    assert [row][..0] == [];
  }

  /** The rows of the top blocks only. */
  function Tops(blocks: seq<Block>, parentKey: Option<string>, m: map<string, int>): seq<Stored> {
    if blocks == [] then [] else [Placed(RowOf(blocks[0], parentKey), m)] + Tops(blocks[1..], parentKey, m)
  }

  /** All ids of a tree, in document order. */
  function Keys(blocks: seq<Block>): seq<string>
    decreases blocks
  {
    if blocks == [] then [] else [blocks[0].id] + Keys(blocks[0].children) + Keys(blocks[1..])
  }

  predicate Distinct<T(==)>(s: seq<T>) {
    forall i, j :: 0 <= i < j < |s| ==> s[i] != s[j]
  }

  // ---------- who is listed under whom ----------

  lemma {:induction false} KidsConcat(a: seq<Stored>, b: seq<Stored>, parent: Option<int>)
    ensures Kids(a + b, parent) == Kids(a, parent) + Kids(b, parent)
  {
    if b == [] {
      assert a + b == a;
    } else {
      assert (a + b)[..|a + b| - 1] == a + b[..|b| - 1];
      KidsConcat(a, b[..|b| - 1], parent);
    }
  }

  lemma {:induction false} KidsParts(blocks: seq<Block>, parentKey: Option<string>, m: map<string, int>,
                                     q: Option<int>)
    requires blocks != []
    ensures Kids(Shelf(blocks, parentKey, m), q) ==
            (if ParentOf(m, parentKey) == q then [Placed(RowOf(blocks[0], parentKey), m)] else [])
            + Kids(Shelf(blocks[0].children, Some(blocks[0].id), m), q) + Kids(Shelf(blocks[1..], parentKey, m), q)
  {
    var head := [Placed(RowOf(blocks[0], parentKey), m)];
    var below := Shelf(blocks[0].children, Some(blocks[0].id), m);
    ShelfParts(blocks, parentKey, m);
    KidsConcat(head, below, q);
    KidsConcat(head + below, Shelf(blocks[1..], parentKey, m), q);
    KidsOne(head[0], q);
  }

  lemma {:induction false} KidsOne(s: Stored, q: Option<int>)
    ensures Kids([s], q) == if s.parent == q then [s] else []
  {
    assert [s][..0] == [];
  }

  /** No id of the tree is q. */
  predicate Avoids(blocks: seq<Block>, m: map<string, int>, q: Option<int>) {
    forall i :: 0 <= i < |Keys(blocks)| ==> Some(Lookup(m, Keys(blocks)[i])) != q
  }

  lemma {:induction false} AvoidsParts(blocks: seq<Block>, m: map<string, int>, q: Option<int>)
    requires blocks != [] && Avoids(blocks, m, q)
    ensures Some(Lookup(m, blocks[0].id)) != q && Avoids(blocks[0].children, m, q) && Avoids(blocks[1..], m, q)
  {
    var below, rest, all := Keys(blocks[0].children), Keys(blocks[1..]), Keys(blocks);
    assert all[0] == blocks[0].id;
    assert forall i :: 0 <= i < |below| ==> all[1 + i] == below[i];
    assert forall i :: 0 <= i < |rest| ==> all[1 + |below| + i] == rest[i];
  }

  lemma {:induction false} NoKids(blocks: seq<Block>, parentKey: Option<string>, m: map<string, int>, q: Option<int>)
    requires ParentOf(m, parentKey) != q && Avoids(blocks, m, q)
    ensures Kids(Shelf(blocks, parentKey, m), q) == []
    decreases blocks
  {
    if blocks != [] {
      AvoidsParts(blocks, m, q);
      KidsParts(blocks, parentKey, m, q);
      NoKids(blocks[0].children, Some(blocks[0].id), m, q);
      NoKids(blocks[1..], parentKey, m, q);
    }
  }

  /** Under their own parent the rows of a tree list its top blocks, in order. */
  lemma {:induction false} TopKids(blocks: seq<Block>, parentKey: Option<string>, m: map<string, int>, q: Option<int>)
    requires q == ParentOf(m, parentKey) && Avoids(blocks, m, q)
    ensures Kids(Shelf(blocks, parentKey, m), q) == Tops(blocks, parentKey, m)
    decreases blocks
  {
    if blocks != [] {
      AvoidsParts(blocks, m, q);
      TopKids(blocks[1..], parentKey, m, q);
      TopKidsStep(blocks, parentKey, m, q);
    }
  }

  lemma {:induction false} TopKidsStep(blocks: seq<Block>, parentKey: Option<string>, m: map<string, int>,
                                       q: Option<int>)
    requires q == ParentOf(m, parentKey) && blocks != [] && Avoids(blocks, m, q)
    ensures Kids(Shelf(blocks, parentKey, m), q) ==
            [Placed(RowOf(blocks[0], parentKey), m)] + Kids(Shelf(blocks[1..], parentKey, m), q)
  {
    AvoidsParts(blocks, m, q);
    KidsParts(blocks, parentKey, m, q);
    NoKids(blocks[0].children, Some(blocks[0].id), m, q);
  }

  /** The table lists under every block of the tree exactly its children, in order. */
  predicate Consistent(stored: seq<Stored>, blocks: seq<Block>, m: map<string, int>)
    decreases blocks
  {
    blocks != [] ==>
      && Kids(stored, Some(Lookup(m, blocks[0].id))) == Tops(blocks[0].children, Some(blocks[0].id), m)
      && Consistent(stored, blocks[0].children, m)
      && Consistent(stored, blocks[1..], m)
  }

  /** The rows around a tree list nothing under its blocks. */
  predicate Clear(part: seq<Stored>, blocks: seq<Block>, m: map<string, int>) {
    forall i :: 0 <= i < |Keys(blocks)| ==> Kids(part, Some(Lookup(m, Keys(blocks)[i]))) == []
  }

  /** Distinct keys with distinct ids. */
  predicate WellKeyed(blocks: seq<Block>, m: map<string, int>) {
    Distinct(Keys(blocks)) && forall i, j :: 0 <= i < j < |Keys(blocks)| ==> Lookup(m, Keys(blocks)[i]) != Lookup(m, Keys(blocks)[j])
  }

  lemma {:induction false} WellKeyedParts(blocks: seq<Block>, m: map<string, int>)
    requires blocks != [] && WellKeyed(blocks, m)
    ensures WellKeyed(blocks[0].children, m) && WellKeyed(blocks[1..], m)
    ensures Avoids(blocks[0].children, m, Some(Lookup(m, blocks[0].id)))
    ensures Avoids(blocks[1..], m, Some(Lookup(m, blocks[0].id)))
    ensures forall k :: k in Keys(blocks[0].children) ==> Avoids(blocks[1..], m, Some(Lookup(m, k)))
    ensures forall k :: k in Keys(blocks[1..]) ==> Avoids(blocks[0].children, m, Some(Lookup(m, k)))
  {
    var below, rest, all := Keys(blocks[0].children), Keys(blocks[1..]), Keys(blocks);
    assert all[0] == blocks[0].id;
    assert forall i :: 0 <= i < |below| ==> all[1 + i] == below[i];
    assert forall i :: 0 <= i < |rest| ==> all[1 + |below| + i] == rest[i];
  }

  lemma {:induction false} ClearParts(part: seq<Stored>, blocks: seq<Block>, m: map<string, int>)
    requires blocks != [] && Clear(part, blocks, m)
    ensures Kids(part, Some(Lookup(m, blocks[0].id))) == []
    ensures Clear(part, blocks[0].children, m) && Clear(part, blocks[1..], m)
  {
    var below, rest, all := Keys(blocks[0].children), Keys(blocks[1..]), Keys(blocks);
    assert all[0] == blocks[0].id;
    assert forall i :: 0 <= i < |below| ==> all[1 + i] == below[i];
    assert forall i :: 0 <= i < |rest| ==> all[1 + |below| + i] == rest[i];
  }

  lemma {:induction false} ClearConcat(a: seq<Stored>, b: seq<Stored>, blocks: seq<Block>, m: map<string, int>)
    requires Clear(a, blocks, m) && Clear(b, blocks, m)
    ensures Clear(a + b, blocks, m)
  {
    forall i | 0 <= i < |Keys(blocks)| ensures Kids(a + b, Some(Lookup(m, Keys(blocks)[i]))) == [] {
      KidsConcat(a, b, Some(Lookup(m, Keys(blocks)[i])));
    }
  }

  /** One row lists nothing under a tree whose ids are not its parent. */
  lemma {:induction false} ClearOne(s: Stored, blocks: seq<Block>, m: map<string, int>)
    requires Avoids(blocks, m, s.parent)
    ensures Clear([s], blocks, m)
  {
    forall i | 0 <= i < |Keys(blocks)| ensures Kids([s], Some(Lookup(m, Keys(blocks)[i]))) == [] {
      KidsOne(s, Some(Lookup(m, Keys(blocks)[i])));
    }
  }

  /** One tree lists nothing under the blocks of another. */
  lemma {:induction false} ClearTree(other: seq<Block>, parentKey: Option<string>, blocks: seq<Block>,
                                     m: map<string, int>)
    requires Avoids(blocks, m, ParentOf(m, parentKey))
    requires forall k :: k in Keys(blocks) ==> Avoids(other, m, Some(Lookup(m, k)))
    ensures Clear(Shelf(other, parentKey, m), blocks, m)
  {
    forall i | 0 <= i < |Keys(blocks)| ensures Kids(Shelf(other, parentKey, m), Some(Lookup(m, Keys(blocks)[i]))) == [] {
      NoKids(other, parentKey, m, Some(Lookup(m, Keys(blocks)[i])));
    }
  }

  lemma {:induction false} HeadKids(before: seq<Stored>, blocks: seq<Block>, parentKey: Option<string>,
                                    after: seq<Stored>, m: map<string, int>)
    requires blocks != [] && WellKeyed(blocks, m) && Avoids(blocks, m, ParentOf(m, parentKey))
    requires Clear(before, blocks, m) && Clear(after, blocks, m)
    ensures Kids(before + Shelf(blocks, parentKey, m) + after, Some(Lookup(m, blocks[0].id))) ==
            Tops(blocks[0].children, Some(blocks[0].id), m)
  {
    var b, id := blocks[0], Some(Lookup(m, blocks[0].id));
    WellKeyedParts(blocks, m);
    AvoidsParts(blocks, m, ParentOf(m, parentKey));
    ClearParts(before, blocks, m);
    ClearParts(after, blocks, m);
    KidsParts(blocks, parentKey, m, id);
    TopKids(b.children, Some(b.id), m, id);
    NoKids(blocks[1..], parentKey, m, id);
    KidsConcat(before, Shelf(blocks, parentKey, m), id);
    KidsConcat(before + Shelf(blocks, parentKey, m), after, id);
  }

  lemma {:induction false} ClearAroundChildren(before: seq<Stored>, blocks: seq<Block>, parentKey: Option<string>,
                                               after: seq<Stored>, m: map<string, int>)
    requires blocks != [] && WellKeyed(blocks, m) && Avoids(blocks, m, ParentOf(m, parentKey))
    requires Clear(before, blocks, m) && Clear(after, blocks, m)
    ensures var b := blocks[0];
            && Clear(before + [Placed(RowOf(b, parentKey), m)], b.children, m)
            && Clear(Shelf(blocks[1..], parentKey, m) + after, b.children, m)
  {
    var kids := blocks[0].children;
    WellKeyedParts(blocks, m);
    AvoidsParts(blocks, m, ParentOf(m, parentKey));
    ClearParts(before, blocks, m);
    ClearParts(after, blocks, m);
    ClearOne(Placed(RowOf(blocks[0], parentKey), m), kids, m);
    ClearConcat(before, [Placed(RowOf(blocks[0], parentKey), m)], kids, m);
    ClearTree(blocks[1..], parentKey, kids, m);
    ClearConcat(Shelf(blocks[1..], parentKey, m), after, kids, m);
  }

  lemma {:induction false} ClearBeforeRest(before: seq<Stored>, blocks: seq<Block>, parentKey: Option<string>,
                                           m: map<string, int>)
    requires blocks != [] && WellKeyed(blocks, m) && Avoids(blocks, m, ParentOf(m, parentKey))
    requires Clear(before, blocks, m)
    ensures var b := blocks[0];
            Clear(before + [Placed(RowOf(b, parentKey), m)] + Shelf(b.children, Some(b.id), m), blocks[1..], m)
  {
    var b, rest := blocks[0], blocks[1..];
    WellKeyedParts(blocks, m);
    AvoidsParts(blocks, m, ParentOf(m, parentKey));
    ClearParts(before, blocks, m);
    ClearOne(Placed(RowOf(b, parentKey), m), rest, m);
    ClearConcat(before, [Placed(RowOf(b, parentKey), m)], rest, m);
    ClearTree(b.children, Some(b.id), rest, m);
    ClearConcat(before + [Placed(RowOf(b, parentKey), m)], Shelf(b.children, Some(b.id), m), rest, m);
  }

  /** In any surroundings that list nothing under its blocks, a tree's rows are consistent with it. */
  lemma {:induction false} ShelfConsistent(before: seq<Stored>, blocks: seq<Block>, parentKey: Option<string>,
                                           after: seq<Stored>, m: map<string, int>)
    requires WellKeyed(blocks, m) && Avoids(blocks, m, ParentOf(m, parentKey))
    requires Clear(before, blocks, m) && Clear(after, blocks, m)
    ensures Consistent(before + Shelf(blocks, parentKey, m) + after, blocks, m)
    decreases blocks
  {
    if blocks != [] {
      var b, rest := blocks[0], blocks[1..];
      var all := before + Shelf(blocks, parentKey, m) + after;
      assert Kids(all, Some(Lookup(m, b.id))) == Tops(b.children, Some(b.id), m) by {
        HeadKids(before, blocks, parentKey, after, m);
      }
      assert Consistent(all, b.children, m) by {
        WellKeyedParts(blocks, m);
        ClearAroundChildren(before, blocks, parentKey, after, m);
        ShelfConsistent(before + [Placed(RowOf(b, parentKey), m)], b.children, Some(b.id), Shelf(rest, parentKey, m) + after, m);
        Regroup(before, blocks, parentKey, after, m);
      }
      assert Consistent(all, rest, m) by {
        WellKeyedParts(blocks, m);
        AvoidsParts(blocks, m, ParentOf(m, parentKey));
        ClearBeforeRest(before, blocks, parentKey, m);
        ClearParts(after, blocks, m);
        ShelfConsistent(before + [Placed(RowOf(b, parentKey), m)] + Shelf(b.children, Some(b.id), m), rest, parentKey, after, m);
        Regroup(before, blocks, parentKey, after, m);
      }
    }
  }

  lemma {:induction false} Regroup(before: seq<Stored>, blocks: seq<Block>, parentKey: Option<string>,
                                   after: seq<Stored>, m: map<string, int>)
    requires blocks != []
    ensures var b, rest := blocks[0], blocks[1..];
            var head, below, behind := [Placed(RowOf(b, parentKey), m)], Shelf(b.children, Some(b.id), m), Shelf(rest, parentKey, m);
            var all := before + Shelf(blocks, parentKey, m) + after;
            && all == (before + head) + below + (behind + after)
            && all == (before + head + below) + behind + after
  {
    var b, rest := blocks[0], blocks[1..];
    ShelfParts(blocks, parentKey, m);
    RegroupFive(before, [Placed(RowOf(b, parentKey), m)], Shelf(b.children, Some(b.id), m), Shelf(rest, parentKey, m), after);
  }

  lemma {:induction false} RegroupFive<T>(a: seq<T>, b: seq<T>, c: seq<T>, d: seq<T>, e: seq<T>)
    ensures a + (b + c + d) + e == (a + b) + c + (d + e)
    ensures a + (b + c + d) + e == (a + b + c) + d + e
  {
  }

  /** Rebuilding from a consistent table gives the tree back. */
  lemma {:induction false} BuiltBack(stored: seq<Stored>, blocks: seq<Block>, parentKey: Option<string>,
                                     m: map<string, int>, fuel: nat)
    requires Consistent(stored, blocks, m) && fuel >= Size(blocks)
    ensures Built(stored, Tops(blocks, parentKey, m), fuel) == blocks
    decreases blocks
  {
    if blocks != [] {
      var b := blocks[0];
      BuiltBack(stored, b.children, Some(b.id), m, fuel - 1);
      BuiltBack(stored, blocks[1..], parentKey, m, fuel);
      var tops := Tops(blocks, parentKey, m);
      assert tops[1..] == Tops(blocks[1..], parentKey, m);
      assert BlockOf(tops[0], b.children) == b;
    }
  }

  // ---------- the repository's id map ----------

  lemma {:induction false} IdMapKeys(rows: seq<Row>, ids: seq<int>, n: nat)
    requires n <= |rows| == |ids|
    ensures forall i :: 0 <= i < n ==> rows[i].key in IdMap(rows, ids, n)
    ensures forall k :: k in IdMap(rows, ids, n) ==> exists i :: 0 <= i < n && rows[i].key == k
  {
    if n > 0 {
      IdMapKeys(rows, ids, n - 1);
    }
  }

  predicate DistinctKeys(rows: seq<Row>) {
    forall i, j :: 0 <= i < j < |rows| ==> rows[i].key != rows[j].key
  }

  /** With distinct keys an entry, once made, stays. */
  lemma {:induction false} IdMapStays(rows: seq<Row>, ids: seq<int>, i: nat, n: nat)
    requires i <= n <= |rows| == |ids| && DistinctKeys(rows)
    ensures forall k :: k in IdMap(rows, ids, i) ==> k in IdMap(rows, ids, n) && IdMap(rows, ids, n)[k] == IdMap(rows, ids, i)[k]
    decreases n - i
  {
    if i < n {
      IdMapStays(rows, ids, i, n - 1);
      IdMapKeys(rows, ids, i);
    }
  }

  lemma {:induction false} IdMapAt(rows: seq<Row>, ids: seq<int>, i: nat)
    requires i < |rows| == |ids| && DistinctKeys(rows)
    ensures Lookup(IdMap(rows, ids, |rows|), rows[i].key) == ids[i]
  {
    IdMapStays(rows, ids, i + 1, |rows|);
  }

  /** Storing row by row places every row by the final id map. */
  lemma {:induction false} StoredIsPlaced(rows: seq<Row>, ids: seq<int>, n: nat)
    requires n <= |rows| == |ids| && DistinctKeys(rows) && ParentsFirst(rows, ids, n)
    ensures StoredPrefix(rows, ids, n) == PlacedAll(rows[..n], IdMap(rows, ids, |rows|))
  {
    if n > 0 {
      StoredIsPlaced(rows, ids, n - 1);
      PlacedAt(rows, ids, n - 1);
      PlacedSnoc(rows, n, IdMap(rows, ids, |rows|));
    }
  }

  lemma {:induction false} PlacedSnoc(rows: seq<Row>, n: nat, m: map<string, int>)
    requires 0 < n <= |rows|
    ensures PlacedAll(rows[..n], m) == PlacedAll(rows[..n - 1], m) + [Placed(rows[n - 1], m)]
  {
    assert rows[..n][..n - 1] == rows[..n - 1];
  }

  lemma {:induction false} PlacedAt(rows: seq<Row>, ids: seq<int>, i: nat)
    requires i < |rows| == |ids| && DistinctKeys(rows) && ParentsFirst(rows, ids, i + 1)
    ensures Stored(ids[i], ParentId(IdMap(rows, ids, i), rows[i].parentKey), rows[i]) ==
            Placed(rows[i], IdMap(rows, ids, |rows|))
  {
    IdMapAt(rows, ids, i);
    IdMapStays(rows, ids, i, |rows|);
  }

  ghost predicate NamedBefore(rows: seq<Row>, i: int)
    requires 0 <= i < |rows|
  {
    exists j :: 0 <= j < i && rows[i].parentKey == Some(rows[j].key)
  }

  /** The rows name as parent the given one or an earlier row. */
  ghost predicate AllNamed(rows: seq<Row>, parentKey: Option<string>) {
    forall i :: 0 <= i < |rows| ==> rows[i].parentKey == parentKey || NamedBefore(rows, i)
  }

  lemma {:induction false} NamedConcat(head: Row, below: seq<Row>, rest: seq<Row>, parentKey: Option<string>)
    requires head.parentKey == parentKey && AllNamed(below, Some(head.key)) && AllNamed(rest, parentKey)
    ensures AllNamed([head] + below + rest, parentKey)
  {
    var r := [head] + below + rest;
    forall i | 0 <= i < |r| ensures r[i].parentKey == parentKey || NamedBefore(r, i) {
      if 1 <= i <= |below| {
        assert r[i] == below[i - 1];
        if NamedBefore(below, i - 1) {
          var j :| 0 <= j < i - 1 && below[i - 1].parentKey == Some(below[j].key);
          assert r[1 + j] == below[j];
        } else {
          assert r[0] == head;
        }
      } else if i > |below| && NamedBefore(rest, i - 1 - |below|) {
        var j :| 0 <= j < i - 1 - |below| && rest[i - 1 - |below|].parentKey == Some(rest[j].key);
        assert r[1 + |below| + j] == rest[j];
      }
    }
  }

  lemma {:induction false} ParentsEarlier(blocks: seq<Block>, parentKey: Option<string>)
    ensures AllNamed(Rows(blocks, parentKey), parentKey)
    decreases blocks
  {
    if blocks != [] {
      ParentsEarlier(blocks[0].children, Some(blocks[0].id));
      ParentsEarlier(blocks[1..], parentKey);
      NamedConcat(RowOf(blocks[0], parentKey), Rows(blocks[0].children, Some(blocks[0].id)), Rows(blocks[1..], parentKey), parentKey);
    }
  }

  lemma {:induction false} NamedParentsFirst(rows: seq<Row>, ids: seq<int>, n: nat)
    requires n <= |rows| == |ids| && AllNamed(rows, None)
    ensures ParentsFirst(rows, ids, n)
  {
    if n > 0 {
      NamedParentsFirst(rows, ids, n - 1);
      IdMapKeys(rows, ids, n - 1);
    }
  }

  lemma {:induction false} TreeParentsFirst(blocks: seq<Block>, ids: seq<int>)
    requires |ids| == Size(blocks)
    ensures ParentsFirst(Rows(blocks, None), ids, Size(blocks))
  {
    ParentsEarlier(blocks, None);
    NamedParentsFirst(Rows(blocks, None), ids, Size(blocks));
  }

  predicate SameKeys(rows: seq<Row>, keys: seq<string>, blocks: seq<Block>) {
    |rows| == |keys| == |blocks| && forall i :: 0 <= i < |rows| ==> rows[i].key == keys[i] == blocks[i].id
  }

  lemma SameKeysConcat(rows: seq<Row>, keys: seq<string>, blocks: seq<Block>, rows1: seq<Row>, keys1: seq<string>,
                       blocks1: seq<Block>)
    requires SameKeys(rows, keys, blocks) && SameKeys(rows1, keys1, blocks1)
    ensures SameKeys(rows + rows1, keys + keys1, blocks + blocks1)
  {
  }

  lemma {:induction false} AllSameKeys(blocks: seq<Block>, parentKey: Option<string>)
    ensures SameKeys(Rows(blocks, parentKey), Keys(blocks), Preorder(blocks))
    decreases blocks
  {
    if blocks != [] {
      var b, rest := blocks[0], blocks[1..];
      AllSameKeys(b.children, Some(b.id));
      AllSameKeys(rest, parentKey);
      assert SameKeys([RowOf(b, parentKey)], [b.id], [b]);
      hide SameKeys, RowOf;
      SameKeysConcat([RowOf(b, parentKey)], [b.id], [b], Rows(b.children, Some(b.id)), Keys(b.children), Preorder(b.children));
      SameKeysConcat([RowOf(b, parentKey)] + Rows(b.children, Some(b.id)), [b.id] + Keys(b.children),
                     [b] + Preorder(b.children), Rows(rest, parentKey), Keys(rest), Preorder(rest));
    } else {
      assert SameKeys([], [], []);
    }
  }

  lemma {:induction false} RowKeys(blocks: seq<Block>, parentKey: Option<string>)
    ensures |Keys(blocks)| == Size(blocks)
    ensures forall i :: 0 <= i < Size(blocks) ==> Rows(blocks, parentKey)[i].key == Keys(blocks)[i] == Preorder(blocks)[i].id
  {
    AllSameKeys(blocks, parentKey);
    hide Rows, Keys, Preorder;
  }

  // ---------- the round trip ----------

  /** What a parse stores and a later read restores. */
  function StoreAndRestore(blocks: seq<Block>, ids: seq<int>): seq<Block>
    requires |ids| == Size(blocks) == |Sort(Rows(blocks, None), RowLeq)|
    requires ParentsFirst(Sort(Rows(blocks, None), RowLeq), ids, Size(blocks))
  {
    Restored(Listed(StoredPrefix(Sort(Rows(blocks, None), RowLeq), ids, Size(blocks))))
  }

  lemma {:induction false} ListedUnchanged(blocks: seq<Block>, m: map<string, int>)
    requires Ordered(blocks)
    ensures Listed(Shelf(blocks, None, m)) == Shelf(blocks, None, m)
  {
    var shelf, rows := Shelf(blocks, None, m), Rows(blocks, None);
    PlacedRows(rows, m);
    RowsArePreorder(blocks, None);
    forall i, j | 0 <= i < j < |shelf| ensures ListLeq(shelf[i], shelf[j]) {
      assert rows[i].order == Preorder(blocks)[i].order && rows[j].order == Preorder(blocks)[j].order;
    }
    SortOfSorted(shelf, ListLeq);
  }

  lemma {:induction false} PlacedRows(rows: seq<Row>, m: map<string, int>)
    ensures forall i :: 0 <= i < |rows| ==> PlacedAll(rows, m)[i] == Placed(rows[i], m)
  {
    if rows != [] {
      PlacedRows(rows[..|rows| - 1], m);
    }
  }

  /** What is stored for a tree, under the repository's id map. */
  lemma {:induction false} StoredTree(blocks: seq<Block>, ids: seq<int>)
    requires Distinct(Keys(blocks)) && |ids| == Size(blocks) && Distinct(ids)
    requires ParentsFirst(Rows(blocks, None), ids, Size(blocks))
    ensures var m := IdMap(Rows(blocks, None), ids, Size(blocks));
            WellKeyed(blocks, m) && StoredPrefix(Rows(blocks, None), ids, Size(blocks)) == Shelf(blocks, None, m)
  {
    var rows := Rows(blocks, None);
    RowKeys(blocks, None);
    StoredIsPlaced(rows, ids, |rows|);
    assert rows[..|rows|] == rows;
    forall i | 0 <= i < |rows| ensures Lookup(IdMap(rows, ids, |rows|), Keys(blocks)[i]) == ids[i] {
      IdMapAt(rows, ids, i);
    }
  }

  lemma {:induction false} RestoredBack(blocks: seq<Block>, m: map<string, int>)
    requires WellKeyed(blocks, m)
    ensures Restored(Shelf(blocks, None, m)) == blocks
  {
    var stored := Shelf(blocks, None, m);
    ShelfConsistent([], blocks, None, [], m);
    assert [] + stored + [] == stored;
    TopKids(blocks, None, m, None);
    BuiltBack(stored, blocks, None, m, |stored|);
  }

  /** Any tree with rising orders and distinct ids is restored exactly, whatever distinct ids the database gives out. */
  lemma {:induction false} RoundTrip(blocks: seq<Block>, ids: seq<int>)
    requires Ordered(blocks) && Distinct(Keys(blocks))
    requires |ids| == Size(blocks) && Distinct(ids)
    ensures Sort(Rows(blocks, None), RowLeq) == Rows(blocks, None)
    ensures ParentsFirst(Rows(blocks, None), ids, Size(blocks))
    ensures StoreAndRestore(blocks, ids) == blocks
  {
    FlatteningsAgree(blocks);
    TreeParentsFirst(blocks, ids);
    var m := IdMap(Rows(blocks, None), ids, Size(blocks));
    StoredTree(blocks, ids);
    ListedUnchanged(blocks, m);
    RestoredBack(blocks, m);
  }

  lemma {:induction false} NumberedKeyAt(blocks: seq<Block>, i: nat)
    requires i < |Keys(Assigned(blocks, 0).0)|
    ensures Keys(Assigned(blocks, 0).0)[i] == BlockId(1 + i)
  {
    var numbered := Assigned(blocks, 0).0;
    AssignedNumbers(blocks, 0);
    RowKeys(numbered, None);
    hide Assigned, Keys, BlockId;
  }

  lemma {:induction false} KeysApart(blocks: seq<Block>, i: nat, j: nat)
    requires i < j < |Keys(Assigned(blocks, 0).0)|
    ensures Keys(Assigned(blocks, 0).0)[i] != Keys(Assigned(blocks, 0).0)[j]
  {
    hide *;
    NumberedKeyAt(blocks, i);
    NumberedKeyAt(blocks, j);
    if BlockId(1 + i) == BlockId(1 + j) {
      BlockIdInjective(1 + i, 1 + j);
    }
  }

  lemma {:induction false} NumberedKeys(blocks: seq<Block>)
    ensures Distinct(Keys(Assigned(blocks, 0).0))
  {
    var keys := Keys(Assigned(blocks, 0).0);
    hide Keys, Assigned;
    forall i, j | 0 <= i < j < |keys| ensures keys[i] != keys[j] {
      KeysApart(blocks, i, j);
    }
  }

  /** Numbering any forest and then storing and restoring it gives back the numbered forest. */
  lemma {:induction false} NumberedRoundTrip(blocks: seq<Block>, ids: seq<int>)
    requires |ids| == Size(blocks) && Distinct(ids)
    ensures var numbered := Assigned(blocks, 0).0;
            && Size(numbered) == Size(blocks)
            && Sort(Rows(numbered, None), RowLeq) == Rows(numbered, None)
            && ParentsFirst(Rows(numbered, None), ids, Size(numbered))
            && StoreAndRestore(numbered, ids) == numbered
            && Erased(numbered) == Erased(blocks)
  {
    AssignedShape(blocks, 0);
    AssignedOrdered(blocks, 0);
    NumberedKeys(blocks);
    RoundTrip(Assigned(blocks, 0).0, ids);
  }
}
