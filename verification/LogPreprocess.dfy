/** Log preprocessing: duplicates folded, templates clustered, and minutes counted in one pass over three maps. */
module LogPreprocess {
  import opened Wrappers
  import opened Text
  import opened Counting
  import Sorting

  /** The fields of a log item that the pass reads; `stamp` counts nanoseconds, and zero means no time stamp. */
  datatype Item = Item(stamp: int, level: string, message: string, source: string, host: string, pod: string, container: string)

  /**
   * The parts that are given: cleaning an item (with the number of redactions), the template of a message, and whether a
   * level counts as an error.
   */
  datatype Rules = Rules(normalize: Item -> (Item, nat), template: string -> string, isError: string -> bool)

  /** One item after cleaning. */
  datatype Entry = Entry(item: Item, template: string, error: bool)

  datatype Processed = Processed(item: Item, template: string, duplicates: nat)
  datatype Cluster = Cluster(template: string, count: nat, level: string, example: string)
  datatype Bucket = Bucket(start: int, count: nat, errors: nat)

  datatype Result = Result(items: seq<Processed>, clusters: seq<Cluster>, buckets: seq<Bucket>,
                           totalInput: nat, totalOutput: nat, errorCount: nat, redactions: nat)

  /** What makes two items duplicates; the digest of the fields is taken to be injective. */
  datatype Key = Key(stamp: int, level: string, message: string, template: string, source: string, host: string,
                     pod: string, container: string)

  const MINUTE := 60_000_000_000

  function EntryOf(item: Item, rules: Rules): Entry {
    var normal := rules.normalize(item).0;
    Entry(normal, rules.template(normal.message), rules.isError(normal.level))
  }

  function Entries(items: seq<Item>, rules: Rules): seq<Entry> {
    if items == [] then [] else Entries(items[..|items| - 1], rules) + [EntryOf(items[|items| - 1], rules)]
  }

  function Redactions(items: seq<Item>, rules: Rules): nat {
    if items == [] then 0 else Redactions(items[..|items| - 1], rules) + rules.normalize(items[|items| - 1]).1
  }

  function ItemKey(item: Item, template: string): Key {
    Key(item.stamp, item.level, item.message, template, item.source, item.host, item.pod, item.container)
  }

  function Minute(stamp: int): int {
    stamp - stamp % MINUTE
  }

  // ---------- the three ways to count ----------

  function ByKey(): Entry -> Option<Key> {
    (e: Entry) => Some(ItemKey(e.item, e.template))
  }

  function ByTemplate(): Entry -> Option<string> {
    (e: Entry) => Some(e.template)
  }

  function ByMinute(): Entry -> Option<int> {
    (e: Entry) => if e.item.stamp == 0 then None else Some(Minute(e.item.stamp))
  }

  function ByErrorMinute(): Entry -> Option<int> {
    (e: Entry) => if e.item.stamp == 0 || !e.error then None else Some(Minute(e.item.stamp))
  }

  function ByError(): Entry -> Option<bool> {
    (e: Entry) => if e.error then Some(true) else None
  }

  /** The keys of the entries with template t. */
  function ByKeyOf(t: string): Entry -> Option<Key> {
    (e: Entry) => if e.template == t then Some(ItemKey(e.item, e.template)) else None
  }

  // ---------- what the pass keeps ----------

  /** One output item for each key, in order, counting the entries with that key. */
  ghost predicate ItemsOk(items: seq<Processed>, seen: map<Key, nat>, entries: seq<Entry>) {
    && (forall i :: 0 <= i < |items| ==>
          var key := ItemKey(items[i].item, items[i].template);
          key in seen && seen[key] == i && items[i].duplicates == Count(entries, ByKey(), key))
    && (forall key :: key in seen ==> seen[key] < |items| && ItemKey(items[seen[key]].item, items[seen[key]].template) == key)
    && (forall key :: key in seen <==> Count(entries, ByKey(), key) > 0)
  }

  /** The first entry with template t. */
  function FirstWith(entries: seq<Entry>, t: string): Option<Entry> {
    if entries == [] then None
    else
      var before := FirstWith(entries[..|entries| - 1], t);
      if before.Some? then before
      else if entries[|entries| - 1].template == t then Some(entries[|entries| - 1])
      else None
  }

  predicate Shows(cluster: Cluster, first: Option<Entry>) {
    first.Some? && cluster.level == first.value.item.level && cluster.example == first.value.item.message
  }

  lemma {:induction false} FirstSnoc(entries: seq<Entry>, e: Entry, t: string)
    ensures FirstWith(entries + [e], t)
            == if FirstWith(entries, t).Some? then FirstWith(entries, t) else if e.template == t then Some(e) else None
  {
    assert (entries + [e])[..|entries|] == entries;
  }

  lemma {:induction false} FirstCounted(entries: seq<Entry>, t: string)
    ensures FirstWith(entries, t).Some? <==> Count(entries, ByTemplate(), t) > 0
  {
    if entries != [] {
      FirstCounted(entries[..|entries| - 1], t);
    }
  }

  ghost predicate ClustersOk(clusters: map<string, Cluster>, entries: seq<Entry>) {
    && (forall t :: t in clusters ==> && clusters[t].template == t
                                      && clusters[t].count == Count(entries, ByTemplate(), t)
                                      && Shows(clusters[t], FirstWith(entries, t)))
    && (forall t :: t in clusters <==> Count(entries, ByTemplate(), t) > 0)
  }

  ghost predicate BucketsOk(buckets: map<int, Bucket>, entries: seq<Entry>) {
    && (forall m :: m in buckets ==> && buckets[m].start == m
                                     && buckets[m].count == Count(entries, ByMinute(), m)
                                     && buckets[m].errors == Count(entries, ByErrorMinute(), m))
    && (forall m :: m in buckets <==> Count(entries, ByMinute(), m) > 0)
  }

  function NewItems(items: seq<Processed>, seen: map<Key, nat>, e: Entry): seq<Processed>
    requires forall key :: key in seen ==> seen[key] < |items|
  {
    var key := ItemKey(e.item, e.template);
    if key in seen then items[seen[key] := items[seen[key]].(duplicates := items[seen[key]].duplicates + 1)]
    else items + [Processed(e.item, e.template, 1)]
  }

  function KeysOf(items: seq<Processed>): seq<Key> {
    if items == [] then []
    else KeysOf(items[..|items| - 1]) + [ItemKey(items[|items| - 1].item, items[|items| - 1].template)]
  }

  function Duplicates(items: seq<Processed>): seq<nat> {
    if items == [] then [] else Duplicates(items[..|items| - 1]) + [items[|items| - 1].duplicates]
  }

  lemma {:induction false} ItemColumns(items: seq<Processed>)
    ensures |KeysOf(items)| == |Duplicates(items)| == |items|
    ensures forall i :: 0 <= i < |items| ==>
              KeysOf(items)[i] == ItemKey(items[i].item, items[i].template) && Duplicates(items)[i] == items[i].duplicates
  {
    if items != [] {
      ItemColumns(items[..|items| - 1]);
    }
  }

  /** The keys of the entries, each at its first place. */
  function KeyOrder(entries: seq<Entry>): seq<Key> {
    if entries == [] then []
    else
      var before := KeyOrder(entries[..|entries| - 1]);
      var key := ItemKey(entries[|entries| - 1].item, entries[|entries| - 1].template);
      if key in before then before else before + [key]
  }

  /** The keys of the items after one more entry. */
  lemma {:induction false} NewKeys(items: seq<Processed>, seen: map<Key, nat>, e: Entry)
    requires forall key :: key in seen ==> seen[key] < |items| && ItemKey(items[seen[key]].item, items[seen[key]].template) == key
    ensures var key := ItemKey(e.item, e.template);
            KeysOf(NewItems(items, seen, e)) == if key in seen then KeysOf(items) else KeysOf(items) + [key]
  {
    var after := NewItems(items, seen, e);
    ItemColumns(items);
    ItemColumns(after);
    hide ItemKey, KeysOf, Duplicates;
  }

  lemma {:induction false} SeenIsListed(items: seq<Processed>, seen: map<Key, nat>, entries: seq<Entry>, key: Key)
    requires ItemsOk(items, seen, entries)
    ensures key in seen <==> key in KeysOf(items)
  {
    ItemColumns(items);
    hide ItemKey, Count, KeysOf, Duplicates;
    if key in seen {
      assert KeysOf(items)[seen[key]] == key;
    }
  }

  lemma {:induction false} OrderNext(items: seq<Processed>, seen: map<Key, nat>, entries: seq<Entry>, e: Entry)
    requires ItemsOk(items, seen, entries) && KeysOf(items) == KeyOrder(entries)
    ensures KeysOf(NewItems(items, seen, e)) == KeyOrder(entries + [e])
  {
    assert (entries + [e])[..|entries|] == entries;
    SeenIsListed(items, seen, entries, ItemKey(e.item, e.template));
    NewKeys(items, seen, e);
    hide ItemKey, KeysOf, Count, NewItems;
  }

  lemma {:induction false} ItemsNext(items: seq<Processed>, seen: map<Key, nat>, entries: seq<Entry>, e: Entry)
    requires ItemsOk(items, seen, entries)
    ensures var key := ItemKey(e.item, e.template);
            ItemsOk(NewItems(items, seen, e), if key in seen then seen else seen[key := |items|], entries + [e])
  {
    var key := ItemKey(e.item, e.template);
    forall k: Key ensures Count(entries + [e], ByKey(), k) == Count(entries, ByKey(), k) + if k == key then 1 else 0 {
      CountSnoc(entries, e, ByKey(), k);
    }
  }

  function NewClusters(clusters: map<string, Cluster>, e: Entry): map<string, Cluster> {
    var cluster := if e.template in clusters then clusters[e.template] else Cluster(e.template, 0, e.item.level, e.item.message);
    clusters[e.template := cluster.(count := cluster.count + 1)]
  }

  lemma {:induction false} ClustersNext(clusters: map<string, Cluster>, entries: seq<Entry>, e: Entry)
    requires ClustersOk(clusters, entries)
    ensures ClustersOk(NewClusters(clusters, e), entries + [e])
  {
    hide Count, FirstWith;
    forall t: string
      ensures Count(entries + [e], ByTemplate(), t) == Count(entries, ByTemplate(), t) + if t == e.template then 1 else 0
      ensures FirstWith(entries + [e], t)
              == if FirstWith(entries, t).Some? then FirstWith(entries, t) else if e.template == t then Some(e) else None
      ensures FirstWith(entries, t).Some? <==> Count(entries, ByTemplate(), t) > 0
    {
      CountSnoc(entries, e, ByTemplate(), t);
      FirstSnoc(entries, e, t);
      FirstCounted(entries, t);
    }
  }

  function NewBuckets(buckets: map<int, Bucket>, e: Entry): map<int, Bucket> {
    if e.item.stamp == 0 then buckets
    else
      var start := Minute(e.item.stamp);
      var bucket := if start in buckets then buckets[start] else Bucket(start, 0, 0);
      buckets[start := bucket.(count := bucket.count + 1, errors := bucket.errors + if e.error then 1 else 0)]
  }

  lemma {:induction false} ErrorsWithinMinute(entries: seq<Entry>, m: int)
    ensures Count(entries, ByErrorMinute(), m) <= Count(entries, ByMinute(), m)
  {
    if entries != [] {
      ErrorsWithinMinute(entries[..|entries| - 1], m);
    }
  }

  lemma {:induction false} BucketsNext(buckets: map<int, Bucket>, entries: seq<Entry>, e: Entry)
    requires BucketsOk(buckets, entries)
    ensures BucketsOk(NewBuckets(buckets, e), entries + [e])
  {
    hide Minute;
    forall m: int
      ensures Count(entries + [e], ByMinute(), m)
              == Count(entries, ByMinute(), m) + if e.item.stamp != 0 && Minute(e.item.stamp) == m then 1 else 0
      ensures Count(entries + [e], ByErrorMinute(), m)
              == Count(entries, ByErrorMinute(), m) + if e.item.stamp != 0 && e.error && Minute(e.item.stamp) == m then 1 else 0
      ensures Count(entries, ByErrorMinute(), m) <= Count(entries, ByMinute(), m)
    {
      CountSnoc(entries, e, ByMinute(), m);
      CountSnoc(entries, e, ByErrorMinute(), m);
      ErrorsWithinMinute(entries, m);
    }
  }

  // ---------- the sorted lists ----------

  predicate ClusterLeq(a: Cluster, b: Cluster) {
    a.count > b.count || (a.count == b.count && LexLeq(a.template, b.template))
  }

  predicate BucketLeq(a: Bucket, b: Bucket) {
    a.start <= b.start
  }

  lemma {:induction false} ClusterOrder()
    ensures Sorting.TotalPreorder(ClusterLeq)
  {
    forall a, b ensures ClusterLeq(a, b) || ClusterLeq(b, a) {
      LexTotal(a.template, b.template);
    }
    forall a, b, c | ClusterLeq(a, b) && ClusterLeq(b, c) ensures ClusterLeq(a, c) {
      if a.count == b.count == c.count {
        LexTransitive(a.template, b.template, c.template);
      }
    }
  }

  lemma BucketOrder()
    ensures Sorting.TotalPreorder(BucketLeq)
  {
  }

  /** The values of a map, listed in any order. */
  method Values<K(==), V>(m: map<K, V>) returns (vs: seq<V>, ghost ks: seq<K>)
    ensures |vs| == |ks| && Distinct(ks)
    ensures forall k :: k in m <==> k in ks
    ensures forall i :: 0 <= i < |ks| ==> ks[i] in m && vs[i] == m[ks[i]]
  {
    vs, ks := [], [];
    var rest := m.Keys;
    while rest != {}
      invariant |vs| == |ks| && Distinct(ks)
      invariant forall k :: k in m <==> k in ks || k in rest
      invariant forall k :: k in ks ==> k !in rest
      invariant forall i :: 0 <= i < |ks| ==> ks[i] in m && vs[i] == m[ks[i]]
      decreases |rest|
    {
      var k :| k in rest;
      rest := rest - {k};
      vs := vs + [m[k]];
      ks := ks + [k];
    }
  }

  /** One cluster for each template, with its count and its first item, by falling count and then by template, never two alike. */
  ghost predicate ClusterList(clusters: seq<Cluster>, entries: seq<Entry>) {
    && (forall i, j :: 0 <= i < j < |clusters| ==>
          ClusterLeq(clusters[i], clusters[j]) && clusters[i].template != clusters[j].template)
    && (forall i :: 0 <= i < |clusters| ==>
          && clusters[i].count == Count(entries, ByTemplate(), clusters[i].template)
          && Shows(clusters[i], FirstWith(entries, clusters[i].template)))
    && (forall t :: Count(entries, ByTemplate(), t) > 0 ==> exists i :: 0 <= i < |clusters| && clusters[i].template == t)
  }

  /** One bucket for each minute with an item, by rising time, never two alike. */
  ghost predicate BucketList(buckets: seq<Bucket>, entries: seq<Entry>) {
    && (forall i, j :: 0 <= i < j < |buckets| ==> buckets[i].start < buckets[j].start)
    && (forall i :: 0 <= i < |buckets| ==> && buckets[i].count == Count(entries, ByMinute(), buckets[i].start)
                                           && buckets[i].errors == Count(entries, ByErrorMinute(), buckets[i].start))
    && (forall m :: Count(entries, ByMinute(), m) > 0 ==> exists i :: 0 <= i < |buckets| && buckets[i].start == m)
  }

  lemma {:induction false} SameElements<T>(a: seq<T>, b: seq<T>)
    requires multiset(a) == multiset(b)
    ensures forall x :: x in a <==> x in b
  {
    forall x ensures x in a <==> x in b {
      assert x in a <==> x in multiset(a);
      assert x in b <==> x in multiset(b);
    }
  }

  /** Sorting the values of a map, each filed under its own key, keeps every value and doubles none. */
  lemma {:induction false} SortedListing<K, V(!new)>(m: map<K, V>, values: seq<V>, keys: seq<K>,
                                                           leq: (V, V) -> bool, key: V -> K)
    requires Sorting.TotalPreorder(leq) && |values| == |keys| && Distinct(keys)
    requires forall k :: k in m <==> k in keys
    requires forall i :: 0 <= i < |keys| ==> keys[i] in m && values[i] == m[keys[i]]
    requires forall k :: k in m ==> key(m[k]) == k
    ensures var sorted := Sorting.Sort(values, leq);
            && Sorting.Sorted(sorted, leq)
            && (forall i :: 0 <= i < |sorted| ==> key(sorted[i]) in m && m[key(sorted[i])] == sorted[i])
            && (forall i, j :: 0 <= i < j < |sorted| ==> key(sorted[i]) != key(sorted[j]))
            && (forall k :: k in m ==> exists i :: 0 <= i < |sorted| && key(sorted[i]) == k)
  {
    var sorted := Sorting.Sort(values, leq);
    Sorting.SortSorts(values, leq);
    hide *;
    SameElements(values, sorted);
    Sorting.PermutedDistinct(values, sorted);
    forall i | 0 <= i < |sorted| ensures key(sorted[i]) in m && m[key(sorted[i])] == sorted[i] {
      assert sorted[i] in values;
      var j :| 0 <= j < |values| && values[j] == sorted[i];
    }
    forall k | k in m ensures exists i :: 0 <= i < |sorted| && key(sorted[i]) == k {
      var j :| 0 <= j < |keys| && keys[j] == k;
      assert values[j] in sorted;
      var i :| 0 <= i < |sorted| && sorted[i] == values[j];
      assert key(sorted[i]) == k;
    }
  }

  function TemplateOf(cluster: Cluster): string {
    cluster.template
  }

  lemma {:induction false} ClustersListed(clusters: map<string, Cluster>, entries: seq<Entry>, values: seq<Cluster>,
                                          keys: seq<string>)
    requires ClustersOk(clusters, entries) && |values| == |keys| && Distinct(keys)
    requires forall k :: k in clusters <==> k in keys
    requires forall i :: 0 <= i < |keys| ==> keys[i] in clusters && values[i] == clusters[keys[i]]
    ensures ClusterList(Sorting.Sort(values, ClusterLeq), entries)
  {
    ClusterOrder();
    hide ClusterLeq, Count, Distinct, Shows, FirstWith, Sorting.Sort, Sorting.TotalPreorder;
    SortedListing(clusters, values, keys, ClusterLeq, TemplateOf);
    var sorted := Sorting.Sort(values, ClusterLeq);
    forall i | 0 <= i < |sorted| ensures sorted[i].template in clusters && clusters[sorted[i].template] == sorted[i] {
      assert TemplateOf(sorted[i]) in clusters;
    }
    forall i, j | 0 <= i < j < |sorted| ensures sorted[i].template != sorted[j].template {
      assert TemplateOf(sorted[i]) != TemplateOf(sorted[j]);
    }
  }

  /** The values of the minute map are its buckets, each once. */
  ghost predicate BucketValues(buckets: map<int, Bucket>, values: seq<Bucket>) {
    && (forall m :: m in buckets ==> buckets[m].start == m && buckets[m] in values)
    && (forall b :: b in values ==> b.start in buckets && buckets[b.start] == b)
    && (forall i, j :: 0 <= i < j < |values| ==> values[i] != values[j])
  }

  lemma {:induction false} BucketValuesOf(buckets: map<int, Bucket>, values: seq<Bucket>, keys: seq<int>)
    requires |values| == |keys| && Distinct(keys) && forall m :: m in buckets ==> buckets[m].start == m
    requires forall k :: k in buckets <==> k in keys
    requires forall i :: 0 <= i < |keys| ==> keys[i] in buckets && values[i] == buckets[keys[i]]
    ensures BucketValues(buckets, values)
  {
    forall m | m in buckets ensures buckets[m] in values {
      var j :| 0 <= j < |keys| && keys[j] == m;
      assert values[j] == buckets[m];
    }
    forall b | b in values ensures b.start in buckets && buckets[b.start] == b {
      var j :| 0 <= j < |values| && values[j] == b;
      assert keys[j] in buckets;
    }
    forall i, j | 0 <= i < j < |values| ensures values[i] != values[j] {
      assert keys[i] in buckets && keys[j] in buckets && keys[i] != keys[j];
    }
  }

  lemma {:induction false} BucketsListed(buckets: map<int, Bucket>, entries: seq<Entry>, values: seq<Bucket>)
    requires BucketsOk(buckets, entries) && BucketValues(buckets, values)
    ensures BucketList(Sorting.Sort(values, BucketLeq), entries)
  {
    var sorted := Sorting.Sort(values, BucketLeq);
    BucketOrder();
    Sorting.SortSorts(values, BucketLeq);
    hide Sorting.TotalPreorder, Sorting.Sort, Count;
    SameElements(values, sorted);
    Sorting.PermutedDistinct(values, sorted);
    forall i | 0 <= i < |sorted| ensures sorted[i].start in buckets && buckets[sorted[i].start] == sorted[i] {
      assert sorted[i] in values;
    }
    forall i, j | 0 <= i < j < |sorted| ensures sorted[i].start <= sorted[j].start && sorted[i].start != sorted[j].start {
      assert BucketLeq(sorted[i], sorted[j]) && sorted[i] != sorted[j];
    }
    forall m | m in buckets ensures exists i :: 0 <= i < |sorted| && sorted[i].start == m {
      assert buckets[m] in sorted;
      var i :| 0 <= i < |sorted| && sorted[i] == buckets[m];
    }
  }

  method SortedClusters(clusters: map<string, Cluster>, ghost entries: seq<Entry>) returns (r: seq<Cluster>)
    requires ClustersOk(clusters, entries)
    ensures ClusterList(r, entries)
  {
    var values, keys := Values(clusters);
    ClustersListed(clusters, entries, values, keys);
    r := Sorting.Sort(values, ClusterLeq);
  }

  method SortedBuckets(buckets: map<int, Bucket>, ghost entries: seq<Entry>) returns (r: seq<Bucket>)
    requires BucketsOk(buckets, entries)
    ensures BucketList(r, entries)
  {
    var values, keys := Values(buckets);
    BucketValuesOf(buckets, values, keys);
    BucketsListed(buckets, entries, values);
    r := Sorting.Sort(values, BucketLeq);
  }

  // ---------- the pass ----------

  ghost predicate KeysDistinct(items: seq<Processed>) {
    forall i, j :: 0 <= i < j < |items| ==>
      ItemKey(items[i].item, items[i].template) != ItemKey(items[j].item, items[j].template)
  }

  /** The output items: one for each key, in the order of first entries, each counting its entries. */
  ghost predicate ItemList(items: seq<Processed>, entries: seq<Entry>) {
    && KeysOf(items) == KeyOrder(entries)
    && KeysDistinct(items)
    && (forall i :: 0 <= i < |items| ==>
          items[i].duplicates == Count(entries, ByKey(), ItemKey(items[i].item, items[i].template)))
    && (forall key :: Count(entries, ByKey(), key) > 0 ==>
          exists i :: 0 <= i < |items| && ItemKey(items[i].item, items[i].template) == key)
  }

  ghost predicate Summary(r: Result, entries: seq<Entry>, redactions: nat) {
    && ItemList(r.items, entries) && ClusterList(r.clusters, entries) && BucketList(r.buckets, entries)
    && r.totalInput == |entries| && r.totalOutput == |r.items|
    && r.errorCount == Keyed(entries, ByError()) && r.redactions == redactions
  }

  lemma {:induction false} ItemsListed(items: seq<Processed>, seen: map<Key, nat>, entries: seq<Entry>)
    requires ItemsOk(items, seen, entries) && KeysOf(items) == KeyOrder(entries)
    ensures ItemList(items, entries)
  {
    hide ItemKey;
    forall key | Count(entries, ByKey(), key) > 0
      ensures exists i :: 0 <= i < |items| && ItemKey(items[i].item, items[i].template) == key
    {
      assert key in seen && ItemKey(items[seen[key]].item, items[seen[key]].template) == key;
    }
  }

  datatype Tally = Tally(items: seq<Processed>, seen: map<Key, nat>, clusters: map<string, Cluster>, buckets: map<int, Bucket>,
                         errors: nat, redactions: nat)

  ghost predicate TallyOk(t: Tally, items: seq<Item>, rules: Rules) {
    && ItemsOk(t.items, t.seen, Entries(items, rules))
    && KeysOf(t.items) == KeyOrder(Entries(items, rules))
    && ClustersOk(t.clusters, Entries(items, rules))
    && BucketsOk(t.buckets, Entries(items, rules))
    && t.errors == Keyed(Entries(items, rules), ByError())
    && t.redactions == Redactions(items, rules)
  }

  lemma {:induction false} NothingTallied(rules: Rules)
    ensures TallyOk(Tally([], map[], map[], map[], 0, 0), [], rules)
  {
  }

  lemma {:induction false} EntriesSnoc(items: seq<Item>, item: Item, rules: Rules)
    ensures Entries(items + [item], rules) == Entries(items, rules) + [EntryOf(item, rules)]
    ensures Redactions(items + [item], rules) == Redactions(items, rules) + rules.normalize(item).1
    ensures Keyed(Entries(items + [item], rules), ByError())
            == Keyed(Entries(items, rules), ByError()) + if EntryOf(item, rules).error then 1 else 0
  {
    assert (items + [item])[..|items|] == items;
    var entries := Entries(items, rules);
    assert (entries + [EntryOf(item, rules)])[..|entries|] == entries;
  }

  /** One item: its duplicate, its cluster, its minute, and the counters. */
  method TallyItem(t: Tally, item: Item, rules: Rules, ghost before: seq<Item>) returns (t': Tally)
    requires TallyOk(t, before, rules)
    ensures TallyOk(t', before + [item], rules)
  {
    hide ItemsOk, ClustersOk, BucketsOk, KeysOf, KeyOrder, Count, Keyed, Redactions, Entries, Minute, NewItems, NewClusters, NewBuckets;
    var (normalized, redactions) := rules.normalize(item);
    var template := rules.template(normalized.message);
    var error := rules.isError(normalized.level);
    ghost var e := EntryOf(item, rules);
    assert e == Entry(normalized, template, error);
    EntriesSnoc(before, item, rules);
    ItemsNext(t.items, t.seen, Entries(before, rules), e);
    OrderNext(t.items, t.seen, Entries(before, rules), e);
    ClustersNext(t.clusters, Entries(before, rules), e);
    BucketsNext(t.buckets, Entries(before, rules), e);
    var items := AddItem(t.items, t.seen, normalized, template, error, Entries(before, rules));
    var key := ItemKey(normalized, template);
    var seen := if key in t.seen then t.seen else t.seen[key := |t.items|];
    var clusters := AddCluster(t.clusters, normalized, template, error);
    var buckets := AddBucket(t.buckets, normalized, template, error);
    t' := Tally(items, seen, clusters, buckets, t.errors + (if error then 1 else 0), t.redactions + redactions);
  }

  method AddItem(items: seq<Processed>, seen: map<Key, nat>, item: Item, template: string, ghost error: bool,
                 ghost entries: seq<Entry>)
    returns (r: seq<Processed>)
    requires ItemsOk(items, seen, entries)
    ensures r == NewItems(items, seen, Entry(item, template, error))
  {
    var key := ItemKey(item, template);
    if key in seen {
      var index := seen[key];
      r := items[index := items[index].(duplicates := items[index].duplicates + 1)];
    } else {
      r := items + [Processed(item, template, 1)];
    }
  }

  method AddCluster(clusters: map<string, Cluster>, item: Item, template: string,
                    ghost error: bool) returns (r: map<string, Cluster>)
    ensures r == NewClusters(clusters, Entry(item, template, error))
  {
    r := clusters;
    if template !in r {
      r := r[template := Cluster(template, 0, item.level, item.message)];
    }
    r := r[template := r[template].(count := r[template].count + 1)];
  }

  method AddBucket(buckets: map<int, Bucket>, item: Item, ghost template: string, error: bool)
    returns (r: map<int, Bucket>)
    ensures r == NewBuckets(buckets, Entry(item, template, error))
  {
    r := buckets;
    if item.stamp != 0 {
      var start := Minute(item.stamp);
      if start !in r {
        r := r[start := Bucket(start, 0, 0)];
      }
      r := r[start := r[start].(count := r[start].count + 1)];
      if error {
        r := r[start := r[start].(errors := r[start].errors + 1)];
      }
    }
  }

  /** `Preprocess`. */
  method Preprocess(items: seq<Item>, rules: Rules) returns (r: Result)
    ensures Summary(r, Entries(items, rules), Redactions(items, rules))
  {
    var t := Tally([], map[], map[], map[], 0, 0);
    NothingTallied(rules);
    assert items[..0] == [];
    hide TallyOk;
    for i := 0 to |items|
      invariant TallyOk(t, items[..i], rules)
    {
      assert items[..i + 1] == items[..i] + [items[i]];
      t := TallyItem(t, items[i], rules, items[..i]);
    }
    assert items[..|items|] == items;
    r := Finish(t, items, rules);
  }

  lemma {:induction false} EntryCount(items: seq<Item>, rules: Rules)
    ensures |Entries(items, rules)| == |items|
  {
    if items != [] {
      EntryCount(items[..|items| - 1], rules);
    }
  }

  method Finish(t: Tally, items: seq<Item>, rules: Rules) returns (r: Result)
    requires TallyOk(t, items, rules)
    ensures Summary(r, Entries(items, rules), Redactions(items, rules))
  {
    EntryCount(items, rules);
    ItemsListed(t.items, t.seen, Entries(items, rules));
    var clusters := SortedClusters(t.clusters, Entries(items, rules));
    var buckets := SortedBuckets(t.buckets, Entries(items, rules));
    r := Result(t.items, clusters, buckets, |items|, |t.items|, t.errors, t.redactions);
    hide ItemList, ClusterList, BucketList, ItemsOk, ClustersOk, BucketsOk;
  }

  // ---------- conservation ----------

  function TemplatesOf(clusters: seq<Cluster>): seq<string> {
    if clusters == [] then [] else TemplatesOf(clusters[..|clusters| - 1]) + [clusters[|clusters| - 1].template]
  }

  function ClusterCounts(clusters: seq<Cluster>): seq<nat> {
    if clusters == [] then [] else ClusterCounts(clusters[..|clusters| - 1]) + [clusters[|clusters| - 1].count]
  }

  function Starts(buckets: seq<Bucket>): seq<int> {
    if buckets == [] then [] else Starts(buckets[..|buckets| - 1]) + [buckets[|buckets| - 1].start]
  }

  function BucketCounts(buckets: seq<Bucket>): seq<nat> {
    if buckets == [] then [] else BucketCounts(buckets[..|buckets| - 1]) + [buckets[|buckets| - 1].count]
  }

  function BucketErrors(buckets: seq<Bucket>): seq<nat> {
    if buckets == [] then [] else BucketErrors(buckets[..|buckets| - 1]) + [buckets[|buckets| - 1].errors]
  }

  /** The output items with template t. */
  function WithTemplate(items: seq<Processed>, t: string): seq<Processed> {
    if items == [] then []
    else WithTemplate(items[..|items| - 1], t) + if items[|items| - 1].template == t then [items[|items| - 1]] else []
  }

  lemma {:induction false} ClusterColumns(clusters: seq<Cluster>)
    ensures |TemplatesOf(clusters)| == |ClusterCounts(clusters)| == |clusters|
    ensures forall i :: 0 <= i < |clusters| ==>
              TemplatesOf(clusters)[i] == clusters[i].template && ClusterCounts(clusters)[i] == clusters[i].count
  {
    if clusters != [] {
      ClusterColumns(clusters[..|clusters| - 1]);
    }
  }

  lemma {:induction false} BucketColumns(buckets: seq<Bucket>)
    ensures |Starts(buckets)| == |BucketCounts(buckets)| == |BucketErrors(buckets)| == |buckets|
    ensures forall i :: 0 <= i < |buckets| ==>
              && Starts(buckets)[i] == buckets[i].start
              && BucketCounts(buckets)[i] == buckets[i].count
              && BucketErrors(buckets)[i] == buckets[i].errors
  {
    if buckets != [] {
      BucketColumns(buckets[..|buckets| - 1]);
    }
  }

  lemma {:induction false} EveryEntryKeyed(entries: seq<Entry>)
    ensures Keyed(entries, ByKey()) == |entries| && Keyed(entries, ByTemplate()) == |entries|
  {
    if entries != [] {
      EveryEntryKeyed(entries[..|entries| - 1]);
    }
  }

  lemma {:induction false} Occurs<K>(entries: seq<Entry>, f: Entry -> Option<K>, ks: seq<K>)
    requires forall k :: Count(entries, f, k) > 0 ==> k in ks
    ensures Covers(ks, entries, f)
  {
    forall i | 0 <= i < |entries| && f(entries[i]).Some? ensures f(entries[i]).value in ks {
      var k := f(entries[i]).value;
      CountPositive(entries, f, k);
      assert f(entries[i]) == Some(k);
      assert Count(entries, f, k) > 0;
    }
  }

  /** The duplicate counts add up to the number of input items. */
  lemma {:induction false} DuplicatesAddUp(items: seq<Processed>, entries: seq<Entry>)
    requires ItemList(items, entries)
    ensures Sum(Duplicates(items)) == |entries|
  {
    var ks := KeysOf(items);
    ItemColumns(items);
    hide ItemKey, Count, ByKey;
    SumIsTotal(Duplicates(items), ks, entries, ByKey());
    forall k | Count(entries, ByKey(), k) > 0 ensures k in ks {
      var i :| 0 <= i < |items| && ItemKey(items[i].item, items[i].template) == k;
      assert ks[i] == k;
    }
    Occurs(entries, ByKey(), ks);
    TotalIsKeyed(ks, entries, ByKey());
    EveryEntryKeyed(entries);
  }

  /** The cluster counts add up to the number of input items. */
  lemma {:induction false} ClustersAddUp(clusters: seq<Cluster>, entries: seq<Entry>)
    requires ClusterList(clusters, entries)
    ensures Sum(ClusterCounts(clusters)) == |entries|
  {
    var ks := TemplatesOf(clusters);
    ClusterColumns(clusters);
    hide ClusterLeq, Count, ByTemplate;
    SumIsTotal(ClusterCounts(clusters), ks, entries, ByTemplate());
    forall k | Count(entries, ByTemplate(), k) > 0 ensures k in ks {
      var i :| 0 <= i < |clusters| && clusters[i].template == k;
      assert ks[i] == k;
    }
    Occurs(entries, ByTemplate(), ks);
    TotalIsKeyed(ks, entries, ByTemplate());
    EveryEntryKeyed(entries);
  }

  lemma {:induction false} BucketsCover(buckets: seq<Bucket>, entries: seq<Entry>)
    requires BucketList(buckets, entries)
    ensures Distinct(Starts(buckets)) && Covers(Starts(buckets), entries, ByMinute())
  {
    BucketColumns(buckets);
    hide Count;
    forall k | Count(entries, ByMinute(), k) > 0 ensures k in Starts(buckets) {
      var i :| 0 <= i < |buckets| && buckets[i].start == k;
      assert Starts(buckets)[i] == k;
    }
    Occurs(entries, ByMinute(), Starts(buckets));
  }

  lemma {:induction false} ErrorCovers(ks: seq<int>, entries: seq<Entry>)
    requires Covers(ks, entries, ByMinute())
    ensures Covers(ks, entries, ByErrorMinute())
  {
    forall i | 0 <= i < |entries| && ByErrorMinute()(entries[i]).Some? ensures ByErrorMinute()(entries[i]).value in ks {
      assert ByMinute()(entries[i]) == ByErrorMinute()(entries[i]);
    }
  }

  /** The bucket counts add up to the items with a time stamp, the bucket errors to the errors with one. */
  lemma {:induction false} BucketsAddUp(buckets: seq<Bucket>, entries: seq<Entry>)
    requires BucketList(buckets, entries)
    ensures Sum(BucketCounts(buckets)) == Keyed(entries, ByMinute())
    ensures Sum(BucketErrors(buckets)) == Keyed(entries, ByErrorMinute())
  {
    var ks := Starts(buckets);
    BucketColumns(buckets);
    BucketsCover(buckets, entries);
    hide Count, Minute;
    SumIsTotal(BucketCounts(buckets), ks, entries, ByMinute());
    TotalIsKeyed(ks, entries, ByMinute());
    ErrorCovers(ks, entries);
    SumIsTotal(BucketErrors(buckets), ks, entries, ByErrorMinute());
    TotalIsKeyed(ks, entries, ByErrorMinute());
  }

  /** Every error has a time stamp. */
  predicate ErrorsStamped(entries: seq<Entry>) {
    forall i :: 0 <= i < |entries| && entries[i].error ==> entries[i].item.stamp != 0
  }

  /** Every error is in a bucket exactly when every error has a time stamp. */
  lemma {:induction false} StampedErrors(entries: seq<Entry>)
    ensures Keyed(entries, ByErrorMinute()) <= Keyed(entries, ByError())
    ensures Keyed(entries, ByErrorMinute()) == Keyed(entries, ByError()) <==> ErrorsStamped(entries)
  {
    if entries != [] {
      var n := |entries| - 1;
      StampedErrors(entries[..n]);
      assert forall i :: 0 <= i < n ==> entries[..n][i] == entries[i];
    }
  }

  // ---------- within one template ----------

  lemma {:induction false} TemplateKeyed(entries: seq<Entry>, t: string)
    ensures Keyed(entries, ByKeyOf(t)) == Count(entries, ByTemplate(), t)
  {
    if entries != [] {
      TemplateKeyed(entries[..|entries| - 1], t);
    }
  }

  lemma {:induction false} TemplateCounts(entries: seq<Entry>, t: string, key: Key)
    ensures Count(entries, ByKeyOf(t), key) == if key.template == t then Count(entries, ByKey(), key) else 0
  {
    if entries != [] {
      TemplateCounts(entries[..|entries| - 1], t, key);
    }
  }

  lemma {:induction false} InWithTemplate(items: seq<Processed>, t: string)
    ensures forall p :: p in WithTemplate(items, t) <==> p in items && p.template == t
  {
    if items != [] {
      InWithTemplate(items[..|items| - 1], t);
      assert items == items[..|items| - 1] + [items[|items| - 1]];
    }
  }

  lemma {:induction false} WithTemplateDistinct(items: seq<Processed>, t: string)
    requires KeysDistinct(items)
    ensures KeysDistinct(WithTemplate(items, t))
  {
    hide ItemKey;
    if items != [] {
      var n := |items| - 1;
      WithTemplateDistinct(items[..n], t);
      InWithTemplate(items[..n], t);
      var before := WithTemplate(items[..n], t);
      forall i | 0 <= i < |before|
        ensures ItemKey(before[i].item, before[i].template) != ItemKey(items[n].item, items[n].template)
      {
        assert before[i] in items[..n];
        var k :| 0 <= k < n && items[..n][k] == before[i];
        assert items[k] == before[i];
      }
    }
  }

  /** The items of a template count the entries of their keys, and have all keys of its entries. */
  lemma {:induction false} TemplateDuplicates(items: seq<Processed>, entries: seq<Entry>, t: string)
    requires ItemList(items, entries)
    ensures var some := WithTemplate(items, t); var ks := KeysOf(some);
            && |Duplicates(some)| == |ks| == |some|
            && (forall i :: 0 <= i < |some| ==> Duplicates(some)[i] == Count(entries, ByKeyOf(t), ks[i]))
            && forall k :: Count(entries, ByKeyOf(t), k) > 0 ==> k in ks
  {
    var some := WithTemplate(items, t);
    var ks := KeysOf(some);
    InWithTemplate(items, t);
    ItemColumns(some);
    hide Count, ByKey, ByKeyOf, WithTemplate, Keyed, KeysOf, Duplicates, KeyOrder, KeysDistinct;
    forall i | 0 <= i < |some| ensures Duplicates(some)[i] == Count(entries, ByKeyOf(t), ks[i]) {
      assert some[i] in items;
      TemplateCounts(entries, t, ks[i]);
    }
    forall k | Count(entries, ByKeyOf(t), k) > 0 ensures k in ks {
      TemplateCounts(entries, t, k);
      var i :| 0 <= i < |items| && ItemKey(items[i].item, items[i].template) == k;
      assert items[i] in some;
      var j :| 0 <= j < |some| && some[j] == items[i];
      assert ks[j] == k;
    }
  }

  /** For every template, the duplicate counts of its items add up to the count of its cluster. */
  lemma {:induction false} TemplateAddsUp(items: seq<Processed>, entries: seq<Entry>, t: string)
    requires ItemList(items, entries)
    ensures Sum(Duplicates(WithTemplate(items, t))) == Count(entries, ByTemplate(), t)
  {
    var some := WithTemplate(items, t);
    var ks := KeysOf(some);
    TemplateDuplicates(items, entries, t);
    WithTemplateDistinct(items, t);
    TemplateKeyed(entries, t);
    ItemColumns(some);
    assert Distinct(ks);
    hide *;
    SumIsTotal(Duplicates(some), ks, entries, ByKeyOf(t));
    Occurs(entries, ByKeyOf(t), ks);
    TotalIsKeyed(ks, entries, ByKeyOf(t));
  }

  /** The three tables agree with the input and with one another. */
  lemma {:induction false} TablesAgree(r: Result, entries: seq<Entry>, redactions: nat)
    requires Summary(r, entries, redactions)
    ensures Sum(Duplicates(r.items)) == r.totalInput == Sum(ClusterCounts(r.clusters))
    ensures Sum(BucketCounts(r.buckets)) == Keyed(entries, ByMinute())
    ensures Sum(BucketErrors(r.buckets)) <= r.errorCount
    ensures Sum(BucketErrors(r.buckets)) == r.errorCount <==> ErrorsStamped(entries)
    ensures forall c :: c in r.clusters ==> Sum(Duplicates(WithTemplate(r.items, c.template))) == c.count
  {
    DuplicatesAddUp(r.items, entries);
    ClustersAddUp(r.clusters, entries);
    BucketsAddUp(r.buckets, entries);
    StampedErrors(entries);
    hide ItemList, BucketList, Count, ByTemplate, WithTemplate, Duplicates, ClusterLeq;
    forall c | c in r.clusters ensures Sum(Duplicates(WithTemplate(r.items, c.template))) == c.count {
      TemplateAddsUp(r.items, entries, c.template);
    }
  }
}
