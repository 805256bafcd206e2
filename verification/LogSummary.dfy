/** What the summary of a log counts, said of its entries one by one. */
module LogSummary {
  import opened Wrappers
  import opened Text
  import opened Counting
  import opened Picking
  import opened LogPreprocess

  /** How many entries are so. */
  ghost function Number(entries: seq<Entry>, p: Entry -> bool): nat {
    if entries == [] then 0 else Number(entries[..|entries| - 1], p) + if p(entries[|entries| - 1]) then 1 else 0
  }

  lemma {:induction false} CountIsNumber<K>(entries: seq<Entry>, f: Entry -> Option<K>, k: K, p: Entry -> bool)
    requires forall e :: f(e) == Some(k) <==> p(e)
    ensures Count(entries, f, k) == Number(entries, p)
  {
    if entries != [] {
      CountIsNumber(entries[..|entries| - 1], f, k, p);
    }
  }

  /** The entry has a time stamp, and it lies in the 60 seconds from the whole minute `start` on. */
  predicate InMinute(e: Entry, start: int) {
    e.item.stamp != 0 && start % 60_000_000_000 == 0 && start <= e.item.stamp < start + 60_000_000_000
  }

  lemma MinuteSpan(stamp: int, start: int)
    ensures Minute(stamp) == start <==> start % 60_000_000_000 == 0 && start <= stamp < start + 60_000_000_000
  {
    var d := 60_000_000_000;
    assert MINUTE == d;
    var q, r := stamp / d, stamp % d;
    assert stamp == q * d + r;
    if start % d == 0 && start <= stamp < start + d {
      var p := start / d;
      assert start == p * d;
    }
  }

  /** The entry is the item with the template, in every field. */
  function SameAs(item: Item, template: string): Entry -> bool {
    (e: Entry) => e.item == item && e.template == template
  }

  function OfTemplate(template: string): Entry -> bool {
    (e: Entry) => e.template == template
  }

  function OfMinute(start: int): Entry -> bool {
    (e: Entry) => InMinute(e, start)
  }

  function ErrorOfMinute(start: int): Entry -> bool {
    (e: Entry) => InMinute(e, start) && e.error
  }

  function OfError(): Entry -> bool {
    (e: Entry) => e.error
  }

  /** Every bucket counts the entries of its 60 seconds, and the errors among them. */
  lemma {:induction false} BucketCountsMinute(entries: seq<Entry>, start: int)
    ensures Count(entries, ByMinute(), start) == Number(entries, OfMinute(start))
    ensures Count(entries, ByErrorMinute(), start) == Number(entries, ErrorOfMinute(start))
  {
    hide Minute;
    forall e: Entry ensures ByMinute()(e) == Some(start) <==> OfMinute(start)(e) {
      MinuteSpan(e.item.stamp, start);
    }
    forall e: Entry ensures ByErrorMinute()(e) == Some(start) <==> ErrorOfMinute(start)(e) {
      MinuteSpan(e.item.stamp, start);
    }
    hide ByMinute, ByErrorMinute, OfMinute, ErrorOfMinute;
    CountIsNumber(entries, ByMinute(), start, OfMinute(start));
    CountIsNumber(entries, ByErrorMinute(), start, ErrorOfMinute(start));
  }

  /** An entry is folded into an item exactly when item and template are the same in every field. */
  lemma {:induction false} FoldsEqual(entries: seq<Entry>, item: Item, template: string)
    ensures Count(entries, ByKey(), ItemKey(item, template)) == Number(entries, SameAs(item, template))
  {
    forall e: Entry ensures ByKey()(e) == Some(ItemKey(item, template)) <==> SameAs(item, template)(e) {
    }
    hide ItemKey, ByKey, SameAs;
    CountIsNumber(entries, ByKey(), ItemKey(item, template), SameAs(item, template));
  }

  lemma {:induction false} OthersCounted(entries: seq<Entry>, template: string)
    ensures Count(entries, ByTemplate(), template) == Number(entries, OfTemplate(template))
  {
    CountIsNumber(entries, ByTemplate(), template, OfTemplate(template));
  }

  lemma {:induction false} ErrorsCounted(entries: seq<Entry>)
    ensures Keyed(entries, ByError()) == Number(entries, OfError())
  {
    if entries != [] {
      ErrorsCounted(entries[..|entries| - 1]);
    }
  }

  /** More entries, or as many and a template that sorts first. */
  predicate Before(a: Cluster, b: Cluster) {
    a.count > b.count || (a.count == b.count && a.template != b.template && LexLeq(a.template, b.template))
  }

  /** What the summary counts, said of the entries alone. */
  ghost predicate Meaning(r: Result, entries: seq<Entry>) {
    && (forall i :: 0 <= i < |r.items| ==>
          r.items[i].duplicates == Number(entries, SameAs(r.items[i].item, r.items[i].template)))
    && (forall i :: 0 <= i < |r.clusters| ==> r.clusters[i].count == Number(entries, OfTemplate(r.clusters[i].template)))
    && (forall i :: 0 <= i < |r.buckets| ==> r.buckets[i].count == Number(entries, OfMinute(r.buckets[i].start)))
    && (forall i :: 0 <= i < |r.buckets| ==>
          r.buckets[i].errors == Number(entries, ErrorOfMinute(r.buckets[i].start)))
    && r.errorCount == Number(entries, OfError())
    && (forall i, j :: 0 <= i < j < |r.clusters| ==> Before(r.clusters[i], r.clusters[j]))
    && (forall i, j :: 0 <= i < j < |r.buckets| ==> r.buckets[i].start < r.buckets[j].start)
    && forall e :: e in entries ==> Found(r, e)
  }

  /** The entry is in the item that equals it, and, if it has a time stamp, in the bucket of its minute. */
  ghost predicate Found(r: Result, e: Entry) {
    && (exists item :: item in r.items && item.item == e.item && item.template == e.template)
    && (e.item.stamp != 0 ==> exists bucket :: bucket in r.buckets && InMinute(e, bucket.start))
  }

  lemma {:induction false} EntryFound(r: Result, entries: seq<Entry>, redactions: nat, e: Entry)
    requires Summary(r, entries, redactions) && e in entries
    ensures Found(r, e)
  {
    var n: nat :| n < |entries| && entries[n] == e;
    var key := ItemKey(e.item, e.template);
    assert ByKey()(entries[n]) == Some(key);
    CountPositive(entries, ByKey(), key);
    hide ClusterList, Count, Keyed, KeyOrder, KeysOf, Minute;
    var i :| 0 <= i < |r.items| && ItemKey(r.items[i].item, r.items[i].template) == key;
    assert r.items[i] in r.items && r.items[i].item == e.item && r.items[i].template == e.template;
    if e.item.stamp != 0 {
      var m := Minute(e.item.stamp);
      assert ByMinute()(entries[n]) == Some(m);
      CountPositive(entries, ByMinute(), m);
      var j :| 0 <= j < |r.buckets| && r.buckets[j].start == m;
      MinuteSpan(e.item.stamp, m);
      assert r.buckets[j] in r.buckets && InMinute(e, r.buckets[j].start);
    }
  }

  /**
   * Items fold the entries that are the same in every field, clusters count templates, buckets count the 60 seconds from
   * their start on, and no entry is missing.
   */
  lemma {:induction false} SummaryMeans(r: Result, entries: seq<Entry>, redactions: nat)
    requires Summary(r, entries, redactions)
    ensures Meaning(r, entries)
  {
    forall e | e in entries ensures Found(r, e) {
      EntryFound(r, entries, redactions, e);
    }
    assert forall i, j :: 0 <= i < j < |r.clusters| ==> Before(r.clusters[i], r.clusters[j]);
    hide ItemKey, Count, Keyed, Number, Before, SameAs, OfTemplate, OfMinute, ErrorOfMinute, OfError, Found,
         KeyOrder, KeysOf, KeysDistinct, ClusterLeq, Shows, FirstWith;
    forall i | 0 <= i < |r.items|
      ensures r.items[i].duplicates == Number(entries, SameAs(r.items[i].item, r.items[i].template))
    {
      FoldsEqual(entries, r.items[i].item, r.items[i].template);
    }
    forall i | 0 <= i < |r.clusters|
      ensures r.clusters[i].count == Number(entries, OfTemplate(r.clusters[i].template))
    {
      OthersCounted(entries, r.clusters[i].template);
    }
    forall i | 0 <= i < |r.buckets|
      ensures r.buckets[i].count == Number(entries, OfMinute(r.buckets[i].start))
      ensures r.buckets[i].errors == Number(entries, ErrorOfMinute(r.buckets[i].start))
    {
      BucketCountsMinute(entries, r.buckets[i].start);
    }
    ErrorsCounted(entries);
  }

  /** Entry k is item k after cleaning, with the template of its cleaned message. */
  lemma {:induction false} EntryAt(items: seq<Item>, rules: Rules, k: nat)
    requires k < |items|
    ensures |Entries(items, rules)| == |items|
    ensures var e := Entries(items, rules)[k]; var cleaned := rules.normalize(items[k]).0;
            e.item == cleaned && e.template == rules.template(cleaned.message) && e.error == rules.isError(cleaned.level)
  {
    EntryCount(items, rules);
    EntryCount(items[..|items| - 1], rules);
    if k < |items| - 1 {
      EntryAt(items[..|items| - 1], rules, k);
    }
  }

  // ---------- order ----------

  function EntryKey(): Entry -> Key {
    (e: Entry) => ItemKey(e.item, e.template)
  }

  lemma {:induction false} KeysPlaced(entries: seq<Entry>)
    ensures FirstPlaces(KeyOrder(entries), entries, EntryKey())
  {
    hide FirstPlaces, ItemKey;
    if entries == [] {
      FirstNone(EntryKey());
    } else {
      var before, last := entries[..|entries| - 1], entries[|entries| - 1];
      KeysPlaced(before);
      FirstNext(KeyOrder(before), before, last, EntryKey());
      assert entries == before + [last];
    }
  }

  /** The items stand in the order of their first entries. */
  lemma {:induction false} ItemsInOrder(r: Result, entries: seq<Entry>, redactions: nat)
    requires Summary(r, entries, redactions)
    ensures |KeysOf(r.items)| == |r.items| && FirstPlaces(KeysOf(r.items), entries, EntryKey())
    ensures forall i :: 0 <= i < |r.items| ==> KeysOf(r.items)[i] == ItemKey(r.items[i].item, r.items[i].template)
  {
    KeysPlaced(entries);
    ItemColumns(r.items);
  }

  /** The first entry of a template. */
  ghost predicate FirstOf(entries: seq<Entry>, t: string, i: int) {
    0 <= i < |entries| && entries[i].template == t && forall j :: 0 <= j < i ==> entries[j].template != t
  }

  /** A cluster shows level and message of the first entry of its template. */
  lemma {:induction false} ClusterShowsFirst(entries: seq<Entry>, t: string, i: int)
    requires FirstOf(entries, t, i)
    ensures FirstWith(entries, t) == Some(entries[i])
  {
    var n := |entries| - 1;
    if i < n {
      ClusterShowsFirst(entries[..n], t, i);
    } else {
      NoneBefore(entries[..n], t);
    }
  }

  lemma {:induction false} NoneBefore(entries: seq<Entry>, t: string)
    requires forall j :: 0 <= j < |entries| ==> entries[j].template != t
    ensures FirstWith(entries, t) == None
  {
    if entries != [] {
      NoneBefore(entries[..|entries| - 1], t);
    }
  }

  lemma {:induction false} ClustersShowFirst(r: Result, entries: seq<Entry>, redactions: nat, c: nat, i: int)
    requires Summary(r, entries, redactions) && c < |r.clusters| && FirstOf(entries, r.clusters[c].template, i)
    ensures r.clusters[c].level == entries[i].item.level && r.clusters[c].example == entries[i].item.message
  {
    ClusterShowsFirst(entries, r.clusters[c].template, i);
  }
}
