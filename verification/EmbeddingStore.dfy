/** What the database holds for one embedding index, and what other callers do to it. */
module EmbeddingStore {
  import opened Writes
  import Fingerprint

  type Vector = seq<real>

  /** A content hash is a digest, which has no line break. */
  type Digest = s: string | '\n' !in s

  datatype Chunk = Chunk(id: nat, content: string, contentHash: Digest)

  /** A chunk that has no id yet. */
  datatype Text = Text(content: string, contentHash: Digest)

  /** One stored vector. */
  datatype Row = Row(chunkId: nat, contentHash: Digest, model: string, dimension: nat, vector: Vector, normalized: bool)

  datatype Status = Pending | Building | Ready | Failed | Stale

  /**
   * The index record, the chunks of its document version and strategy, the next id the chunk table gives out, and the
   * stored vectors of the index.
   */
  datatype Index = Index(chunks: seq<Chunk>, nextId: nat, fingerprint: string, chunkCount: nat, status: Status,
                         embeddedCount: nat, rows: seq<Row>)

  /**
   * What other callers do: chunks are deleted and others created (their vectors go with the deleted ones), or somebody
   * looks at the index, which refreshes it.
   */
  datatype Event = Replace(drops: set<nat>, texts: seq<Text>) | Look(write: Write)

  // ---------- fingerprints ----------

  function Entries(chunks: seq<Chunk>): (r: seq<Fingerprint.Entry>)
    ensures |r| == |chunks|
    ensures forall k :: 0 <= k < |r| ==> r[k] == Fingerprint.Entry(chunks[k].id, chunks[k].contentHash)
  {
    if chunks == [] then []
    else
      var last := chunks[|chunks| - 1];
      Entries(chunks[..|chunks| - 1]) + [Fingerprint.Entry(last.id, last.contentHash)]
  }

  /** The fingerprint of a list of chunks. */
  function Print(chunks: seq<Chunk>): string {
    Fingerprint.FingerprintText(Entries(chunks))
  }

  /** The fingerprint and count of the index differ from those of its chunks. */
  predicate Changed(i: Index) {
    i.fingerprint != Print(i.chunks) || i.chunkCount != |i.chunks|
  }

  // ---------- deleting and creating chunks ----------

  predicate HasId(chunks: seq<Chunk>, id: nat) {
    exists k :: 0 <= k < |chunks| && chunks[k].id == id
  }

  function Without(chunks: seq<Chunk>, drops: set<nat>): seq<Chunk> {
    if chunks == [] then []
    else
      var last := chunks[|chunks| - 1];
      Without(chunks[..|chunks| - 1], drops) + if last.id in drops then [] else [last]
  }

  function Given(texts: seq<Text>, next: nat): (r: seq<Chunk>)
    ensures |r| == |texts|
    ensures forall k :: 0 <= k < |r| ==> r[k] == Chunk(next + k, texts[k].content, texts[k].contentHash)
  {
    if texts == [] then []
    else
      var last := texts[|texts| - 1];
      Given(texts[..|texts| - 1], next) + [Chunk(next + |texts| - 1, last.content, last.contentHash)]
  }

  /** The rows whose chunk is not deleted. */
  function KeptRows(rows: seq<Row>, drops: set<nat>): seq<Row> {
    if rows == [] then []
    else
      var last := rows[|rows| - 1];
      KeptRows(rows[..|rows| - 1], drops) + if last.chunkId in drops then [] else [last]
  }

  function AfterLook(i: Index, write: Write): Index {
    if !Changed(i) || write == NotStored then i
    else
      i.(fingerprint := Print(i.chunks), chunkCount := |i.chunks|, status := if i.status in {Ready, Failed} then Stale else i.status)
  }

  function AfterReplace(i: Index, drops: set<nat>, texts: seq<Text>): Index {
    i.(chunks := Without(i.chunks, drops) + Given(texts, i.nextId), nextId := i.nextId + |texts|,
       rows := KeptRows(i.rows, drops))
  }

  function AfterEvent(i: Index, e: Event): Index {
    match e
    case Replace(drops, texts) => AfterReplace(i, drops, texts)
    case Look(write) => AfterLook(i, write)
  }

  function AfterEvents(i: Index, events: seq<Event>): Index {
    if events == [] then i else AfterEvent(AfterEvents(i, events[..|events| - 1]), events[|events| - 1])
  }

  lemma {:induction false} EventsConcat(i: Index, a: seq<Event>, b: seq<Event>)
    ensures AfterEvents(i, a + b) == AfterEvents(AfterEvents(i, a), b)
  {
    if b == [] {
      assert a + b == a;
    } else {
      hide AfterEvent;
      assert (a + b)[..|a + b| - 1] == a + b[..|b| - 1];
      EventsConcat(i, a, b[..|b| - 1]);
    }
  }

  // ---------- ids are given out once ----------

  /** Chunk ids differ, and the next one is new. */
  ghost predicate Sound(i: Index) {
    && (forall k :: 0 <= k < |i.chunks| ==> i.chunks[k].id < i.nextId)
    && Distinct(i.chunks)
  }

  lemma {:induction false} WithoutKeeps(chunks: seq<Chunk>, drops: set<nat>)
    ensures forall c :: c in Without(chunks, drops) ==> c in chunks && c.id !in drops
  {
    if chunks != [] {
      WithoutKeeps(chunks[..|chunks| - 1], drops);
    }
  }

  lemma HasIdNext(chunks: seq<Chunk>, last: Chunk, id: nat)
    ensures HasId(chunks + [last], id) <==> HasId(chunks, id) || last.id == id
  {
    if k :| 0 <= k < |chunks| && chunks[k].id == id {
      assert (chunks + [last])[k].id == id;
    }
    assert (chunks + [last])[|chunks|] == last;
  }

  lemma {:induction false} HasIdWithout(chunks: seq<Chunk>, drops: set<nat>, id: nat)
    ensures HasId(Without(chunks, drops), id) <==> HasId(chunks, id) && id !in drops
  {
    if chunks != [] {
      var front, last := chunks[..|chunks| - 1], chunks[|chunks| - 1];
      HasIdWithout(front, drops, id);
      HasIdNext(Without(front, drops), last, id);
      HasIdNext(front, last, id);
      assert chunks == front + [last] && Without(front, drops) + [] == Without(front, drops);
      hide HasId;
    }
  }

  predicate Distinct(chunks: seq<Chunk>) {
    forall j, k :: 0 <= j < k < |chunks| ==> chunks[j].id != chunks[k].id
  }

  lemma {:induction false} WithoutDistinct(chunks: seq<Chunk>, drops: set<nat>)
    requires Distinct(chunks)
    ensures Distinct(Without(chunks, drops))
  {
    if chunks != [] {
      var front, last := chunks[..|chunks| - 1], chunks[|chunks| - 1];
      WithoutDistinct(front, drops);
      WithoutKeeps(front, drops);
      forall c | c in Without(front, drops) ensures c.id != last.id {
        var j :| 0 <= j < |front| && front[j] == c;
      }
    }
  }

  lemma {:induction false} ReplaceSound(i: Index, drops: set<nat>, texts: seq<Text>)
    requires Sound(i)
    ensures Sound(AfterReplace(i, drops, texts))
  {
    var kept, given := Without(i.chunks, drops), Given(texts, i.nextId);
    WithoutKeeps(i.chunks, drops);
    WithoutDistinct(i.chunks, drops);
    hide Without, Given, KeptRows;
    forall k | 0 <= k < |kept| ensures kept[k].id < i.nextId {
      assert kept[k] in i.chunks;
    }
  }

  lemma EventSound(i: Index, e: Event)
    requires Sound(i)
    ensures Sound(AfterEvent(i, e)) && i.nextId <= AfterEvent(i, e).nextId
  {
    if e.Replace? {
      ReplaceSound(i, e.drops, e.texts);
    }
    hide Distinct, Fingerprint.FingerprintText, Without, KeptRows;
  }

  // ---------- the rows that are left of a build ----------

  /** The rows whose chunk is still there. */
  function Present(rows: seq<Row>, chunks: seq<Chunk>): seq<Row> {
    if rows == [] then []
    else
      var last := rows[|rows| - 1];
      Present(rows[..|rows| - 1], chunks) + if HasId(chunks, last.chunkId) then [last] else []
  }

  /** Of the rows `full` the index holds exactly those whose chunk is still there. */
  ghost predicate Left(i: Index, full: seq<Row>) {
    && Sound(i)
    && (forall k :: 0 <= k < |full| ==> full[k].chunkId < i.nextId)
    && i.rows == Present(full, i.chunks)
  }

  lemma {:induction false} ReplacedIds(i: Index, drops: set<nat>, texts: seq<Text>, id: nat)
    requires id < i.nextId
    ensures HasId(AfterReplace(i, drops, texts).chunks, id) <==> HasId(i.chunks, id) && id !in drops
  {
    var kept, given := Without(i.chunks, drops), Given(texts, i.nextId);
    HasIdWithout(i.chunks, drops, id);
    hide Without;
    if k :| 0 <= k < |kept| && kept[k].id == id {
      assert (kept + given)[k].id == id;
    }
    if k :| 0 <= k < |kept + given| && (kept + given)[k].id == id {
      assert k < |kept|;
    }
  }

  lemma KeptNext(rows: seq<Row>, last: Row, drops: set<nat>)
    ensures KeptRows(rows + [last], drops) == KeptRows(rows, drops) + if last.chunkId in drops then [] else [last]
  {
    assert (rows + [last])[..|rows|] == rows;
  }

  lemma {:induction false} PresentReplaced(full: seq<Row>, i: Index, drops: set<nat>, texts: seq<Text>)
    requires forall k :: 0 <= k < |full| ==> full[k].chunkId < i.nextId
    ensures KeptRows(Present(full, i.chunks), drops) == Present(full, AfterReplace(i, drops, texts).chunks)
  {
    if full != [] {
      var front, last := full[..|full| - 1], full[|full| - 1];
      hide AfterReplace, HasId;
      PresentReplaced(front, i, drops, texts);
      ReplacedIds(i, drops, texts, last.chunkId);
      var p := Present(front, i.chunks);
      KeptNext(p, last, drops);
      assert p + [] == p && KeptRows(p, drops) + [] == KeptRows(p, drops);
    }
  }

  lemma {:induction false} EventLeft(i: Index, e: Event, full: seq<Row>)
    requires Left(i, full)
    ensures Left(AfterEvent(i, e), full)
  {
    EventSound(i, e);
    if e.Replace? {
      PresentReplaced(full, i, e.drops, e.texts);
    }
    hide Sound, Present, KeptRows, Without, Print;
  }

  lemma {:induction false} EventsLeft(i: Index, events: seq<Event>, full: seq<Row>)
    requires Left(i, full)
    ensures Left(AfterEvents(i, events), full) && i.nextId <= AfterEvents(i, events).nextId
  {
    if events != [] {
      var before := AfterEvents(i, events[..|events| - 1]);
      hide Left, AfterEvent;
      EventsLeft(i, events[..|events| - 1], full);
      EventLeft(before, events[|events| - 1], full);
      LeftIsSound(before, full);
      EventSound(before, events[|events| - 1]);
    }
  }

  lemma LeftIsSound(i: Index, full: seq<Row>)
    requires Left(i, full)
    ensures Sound(i)
  {
  }

  /** The events leave a ready index ready only if no look among them found anything to write. */
  lemma {:induction false} EventsReady(i: Index, events: seq<Event>)
    ensures var j := AfterEvents(i, events);
            && j.embeddedCount == i.embeddedCount
            && (j.status == Ready ==> i.status == Ready && j.fingerprint == i.fingerprint && j.chunkCount == i.chunkCount)
            && (j.status == Building <==> i.status == Building)
  {
    if events != [] {
      EventsReady(i, events[..|events| - 1]);
      hide Changed, Print, AfterReplace, AfterEvents;
      OneEventReady(AfterEvents(i, events[..|events| - 1]), events[|events| - 1]);
      LastEvent(i, events);
    }
  }

  lemma LastEvent(i: Index, events: seq<Event>)
    requires events != []
    ensures AfterEvents(i, events) == AfterEvent(AfterEvents(i, events[..|events| - 1]), events[|events| - 1])
  {
  }

  lemma OneEventReady(i: Index, e: Event)
    ensures var j := AfterEvent(i, e);
            && j.embeddedCount == i.embeddedCount
            && (j.status == Ready ==> i.status == Ready && j.fingerprint == i.fingerprint && j.chunkCount == i.chunkCount)
            && (j.status == Building <==> i.status == Building)
  {
    hide Changed, Print;
  }

  // ---------- chunks and fingerprint apart from the rest ----------

  /** The two agree in all that events read and write but rows and status. */
  predicate SameTable(i: Index, j: Index) {
    i.chunks == j.chunks && i.nextId == j.nextId && i.fingerprint == j.fingerprint && i.chunkCount == j.chunkCount
  }

  lemma {:induction false} EventsSameTable(i: Index, j: Index, events: seq<Event>)
    requires SameTable(i, j)
    ensures SameTable(AfterEvents(i, events), AfterEvents(j, events))
  {
    if events != [] {
      EventsSameTable(i, j, events[..|events| - 1]);
    }
  }

  /** The fingerprint after some events: that of the chunks the last stored look among them saw. */
  function LastPrint(i: Index, events: seq<Event>): string {
    if events == [] then i.fingerprint
    else
      var before, last := events[..|events| - 1], events[|events| - 1];
      if last.Look? && last.write != NotStored then Print(AfterEvents(i, before).chunks) else LastPrint(i, before)
  }

  lemma {:induction false} EventsPrint(i: Index, events: seq<Event>)
    ensures AfterEvents(i, events).fingerprint == LastPrint(i, events)
  {
    if events != [] {
      hide Print;
      EventsPrint(i, events[..|events| - 1]);
    }
  }

  // ---------- complete ----------

  function RowEntries(rows: seq<Row>): (r: seq<Fingerprint.Entry>)
    ensures |r| == |rows|
    ensures forall k :: 0 <= k < |r| ==> r[k] == Fingerprint.Entry(rows[k].chunkId, rows[k].contentHash)
  {
    if rows == [] then []
    else
      var last := rows[|rows| - 1];
      RowEntries(rows[..|rows| - 1]) + [Fingerprint.Entry(last.chunkId, last.contentHash)]
  }

  /** Exactly one row, with the right hash, for each chunk there is, and as many as the index counts. */
  ghost predicate Complete(i: Index) {
    multiset(RowEntries(i.rows)) == multiset(Entries(i.chunks)) && |i.rows| == i.embeddedCount
  }

  lemma {:induction false} PresentAtMost(rows: seq<Row>, chunks: seq<Chunk>)
    ensures |Present(rows, chunks)| <= |rows|
    ensures |Present(rows, chunks)| == |rows| <==> forall k :: 0 <= k < |rows| ==> HasId(chunks, rows[k].chunkId)
    ensures |Present(rows, chunks)| == |rows| ==> Present(rows, chunks) == rows
  {
    if rows != [] {
      var front := rows[..|rows| - 1];
      PresentAtMost(front, chunks);
      hide HasId;
      assert rows == front + [rows[|rows| - 1]];
    }
  }

  lemma {:induction false} EntryHasId(chunks: seq<Chunk>, e: Fingerprint.Entry)
    requires e in multiset(Entries(chunks)) && e.id >= 0
    ensures HasId(chunks, e.id)
  {
    var k :| 0 <= k < |Entries(chunks)| && Entries(chunks)[k] == e;
    assert chunks[k].id == e.id;
  }
}
