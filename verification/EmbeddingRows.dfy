/** What the batch loop of an embedding build stores, and exactly when it gets to its end. */
module EmbeddingRows {
  import opened Writes
  import opened EmbeddingStore
  import opened EmbeddingBuild

  // ---------- rows and their places ----------

  lemma LaterStart(a: nat, b: nat, size: nat)
    requires a <= b
    ensures a * size <= b * size
  {
  }

  lemma NextStart(call: nat, size: nat)
    ensures (call + 1) * size == call * size + size
  {
  }

  lemma PlaceInBatch(n: nat, size: nat, call: nat)
    requires call * size <= n < call * size + size
    ensures n / size == call && n % size == n - call * size
  {
    if n / size < call {
      LaterStart(n / size + 1, call, size);
      NextStart(n / size, size);
    } else if n / size > call {
      LaterStart(call + 1, n / size, size);
      NextStart(call, size);
    }
  }

  /** The inputs of the call that embeds chunk `n`. */
  function InputsFor(list: seq<Chunk>, n: nat, size: nat): seq<string>
    requires size > 0
  {
    Contents(Part(list, n / size * size, size))
  }

  /**
   * The row of chunk `n`: its id and hash, and the vector the service returned for its text, which was input `n % size` of
   * call `n / size`.
   */
  predicate IsRow(row: Row, list: seq<Chunk>, n: nat, size: nat, shape: Shape, world: World)
    requires size > 0 && n < |list|
  {
    var inputs := InputsFor(list, n, size);
    var answer := world.embed(n / size, inputs);
    && n % size < |inputs| && inputs[n % size] == list[n].content
    && answer.Vectors? && (answer.model == "" || answer.model == shape.model)
    && |answer.vectors| == |inputs| && |answer.vectors[n % size]| == shape.dimension
    && row.chunkId == list[n].id && row.contentHash == list[n].contentHash
    && row.model == shape.model && row.dimension == shape.dimension && row.normalized == shape.normalized
    && row.vector == if shape.normalized then world.normalize(answer.vectors[n % size]) else answer.vectors[n % size]
  }

  /** The rows are those of the first chunks of the list, in order. */
  predicate Made(rows: seq<Row>, list: seq<Chunk>, size: nat, shape: Shape, world: World)
    requires size > 0
  {
    |rows| <= |list| && forall n :: 0 <= n < |rows| ==> IsRow(rows[n], list, n, size, shape, world)
  }

  lemma {:induction false} BatchMade(rows: seq<Row>, list: seq<Chunk>, call: nat, size: nat, shape: Shape, world: World)
    requires size > 0 && |rows| == call * size < |list| && Made(rows, list, size, shape, world)
    requires var part := Part(list, call * size, size); Fits(world.embed(call, Contents(part)), |part|, shape)
    ensures var part := Part(list, call * size, size);
            Made(rows + RowsFor(part, world.embed(call, Contents(part)).vectors, shape, world), list, size, shape, world)
  {
    var start := call * size;
    var part := Part(list, start, size);
    var answer := world.embed(call, Contents(part));
    var more := RowsFor(part, answer.vectors, shape, world);
    hide RowsFor, Contents;
    forall n | 0 <= n < |rows + more| ensures IsRow((rows + more)[n], list, n, size, shape, world) {
      if n >= start {
        PlaceInBatch(n, size, call);
        assert (rows + more)[n] == more[n - start] && part[n - start] == list[n];
      }
    }
  }

  // ---------- what is left of the rows of a build ----------

  lemma {:induction false} PresentConcat(a: seq<Row>, b: seq<Row>, chunks: seq<Chunk>)
    ensures Present(a + b, chunks) == Present(a, chunks) + Present(b, chunks)
  {
    if b == [] {
      assert a + b == a;
    } else {
      hide HasId;
      assert (a + b)[..|a + b| - 1] == a + b[..|b| - 1];
      PresentConcat(a, b[..|b| - 1], chunks);
    }
  }

  lemma {:induction false} NewRowsLeft(j: Index, full: seq<Row>, part: seq<Chunk>, more: seq<Row>)
    requires Left(j, full) && AllThere(part, j.chunks) && |more| == |part|
    requires forall k :: 0 <= k < |part| ==> part[k].id < j.nextId && more[k].chunkId == part[k].id
    ensures Left(j.(rows := j.rows + more), full + more)
  {
    PresentConcat(full, more, j.chunks);
    PresentAtMost(more, j.chunks);
    hide Present, HasId;
  }

  /** The ids of a list that was read earlier are not given out again. */
  predicate Old(list: seq<Chunk>, nextId: nat) {
    forall k :: 0 <= k < |list| ==> list[k].id < nextId
  }

  lemma {:induction false} BatchLeft(i: Index, full: seq<Row>, list: seq<Chunk>, call: nat, size: nat, shape: Shape, world: World)
    returns (all: seq<Row>)
    requires size > 0 && call * size < |list| && |full| == call * size
    requires Left(i, full) && Made(full, list, size, shape, world) && Old(list, i.nextId)
    ensures var p := NextBatch(i, Part(list, call * size, size), call, shape, world);
            && Left(p.index, all) && Made(all, list, size, shape, world) && Old(list, p.index.nextId)
            && (p.ok ==> |all| == Least(call * size + size, |list|))
  {
    hide Left, Made, RowsFor, Contents, AfterEvents, Fits, AllThere;
    var part := Part(list, call * size, size);
    var answer := world.embed(call, Contents(part));
    var j := AfterEvents(i, world.during(call));
    EventsLeft(i, world.during(call), full);
    all := full;
    if Fits(answer, |part|, shape) && AllThere(part, j.chunks) && world.stores(call) != NotStored {
      FitsCount(answer, |part|, shape);
      var more := RowsFor(part, answer.vectors, shape, world);
      BatchMade(full, list, call, size, shape, world);
      NewRowsLeft(j, full, part, more);
      all := full + more;
    }
  }

  lemma FitsCount(answer: Answer, n: nat, shape: Shape)
    requires Fits(answer, n, shape)
    ensures answer.Vectors? && |answer.vectors| == n
  {
  }

  /** Whatever happens, the index holds the rows of the first chunks but those of chunks deleted since. */
  lemma {:induction false} BatchesLeft(i: Index, full: seq<Row>, list: seq<Chunk>, call: nat, size: nat, shape: Shape, world: World)
    returns (all: seq<Row>)
    requires size > 0 && |full| == Least(call * size, |list|)
    requires Left(i, full) && Made(full, list, size, shape, world) && Old(list, i.nextId)
    ensures var p := Batches(i, list, call * size, call, size, shape, world);
            && Left(p.index, all) && Made(all, list, size, shape, world) && (p.ok ==> |all| == |list|)
    decreases |list| - call * size
  {
    hide Left, Made, NextBatch, Part, Old;
    if call * size >= |list| {
      all := full;
    } else {
      var p := NextBatch(i, Part(list, call * size, size), call, shape, world);
      all := BatchLeft(i, full, list, call, size, shape, world);
      NextStart(call, size);
      if p.ok {
        all := BatchesLeft(p.index, all, list, call + 1, size, shape, world);
      }
    }
  }

  // ---------- when the loop gets to its end ----------

  /** What others do before the first `n` batches are stored. */
  function EventsUpTo(world: World, n: nat): seq<Event> {
    if n == 0 then [] else EventsUpTo(world, n - 1) + world.during(n - 1)
  }

  /** The answer to call `call` fits its batch, the batch is stored, and none of its chunks was deleted before. */
  predicate BatchGood(i: Index, list: seq<Chunk>, call: nat, size: nat, shape: Shape, world: World) {
    call * size < |list| ==>
      var part := Part(list, call * size, size);
      && Fits(world.embed(call, Contents(part)), |part|, shape)
      && AllThere(part, AfterEvents(i, EventsUpTo(world, call + 1)).chunks)
      && world.stores(call) == Stored
  }

  ghost predicate GoodFrom(i: Index, list: seq<Chunk>, call: nat, size: nat, shape: Shape, world: World) {
    forall k: nat :: k >= call ==> BatchGood(i, list, k, size, shape, world)
  }

  /** How many calls a loop that ends has made. */
  function Calls(list: seq<Chunk>, start: nat, call: nat, size: nat): nat
    requires size > 0
    decreases |list| - start
  {
    if start >= |list| then call else Calls(list, start + size, call + 1, size)
  }

  lemma {:induction false} OneBatchGood(first: Index, i: Index, list: seq<Chunk>, call: nat, size: nat, shape: Shape, world: World)
    requires call * size < |list| && SameTable(i, AfterEvents(first, EventsUpTo(world, call)))
    ensures var p := NextBatch(i, Part(list, call * size, size), call, shape, world);
            && (p.ok <==> BatchGood(first, list, call, size, shape, world))
            && SameTable(p.index, AfterEvents(first, EventsUpTo(world, call + 1)))
  {
    hide AfterEvents, Fits, AllThere, Contents, RowsFor, Part;
    EventsSameTable(i, AfterEvents(first, EventsUpTo(world, call)), world.during(call));
    EventsConcat(first, EventsUpTo(world, call), world.during(call));
    assert EventsUpTo(world, call + 1) == EventsUpTo(world, call) + world.during(call);
  }

  lemma {:induction false} NothingToDo(first: Index, list: seq<Chunk>, call: nat, size: nat, shape: Shape, world: World)
    requires call * size >= |list|
    ensures GoodFrom(first, list, call, size, shape, world)
  {
    forall k: nat | k >= call ensures BatchGood(first, list, k, size, shape, world) {
      LaterStart(call, k, size);
    }
  }

  lemma GoodNext(first: Index, list: seq<Chunk>, call: nat, size: nat, shape: Shape, world: World)
    ensures GoodFrom(first, list, call, size, shape, world) <==>
            BatchGood(first, list, call, size, shape, world) && GoodFrom(first, list, call + 1, size, shape, world)
  {
    hide BatchGood;
  }

  /** The loop gets to its end exactly when every batch is good. */
  lemma {:induction false} BatchesGood(first: Index, i: Index, list: seq<Chunk>, call: nat, size: nat, shape: Shape, world: World)
    requires size > 0 && SameTable(i, AfterEvents(first, EventsUpTo(world, call)))
    ensures var p := Batches(i, list, call * size, call, size, shape, world);
            && (p.ok <==> GoodFrom(first, list, call, size, shape, world))
            && (p.ok ==> SameTable(p.index, AfterEvents(first, EventsUpTo(world, Calls(list, call * size, call, size)))))
    decreases |list| - call * size
  {
    hide GoodFrom, BatchGood, NextBatch, Part, AfterEvents, EventsUpTo, SameTable;
    if call * size >= |list| {
      NothingToDo(first, list, call, size, shape, world);
    } else {
      OneBatchGood(first, i, list, call, size, shape, world);
      GoodNext(first, list, call, size, shape, world);
      NextStart(call, size);
      var p := NextBatch(i, Part(list, call * size, size), call, shape, world);
      if p.ok {
        BatchesGood(first, p.index, list, call + 1, size, shape, world);
      }
    }
  }

  /** A claimed build embeds and stores every chunk exactly when every batch is good. */
  lemma {:induction false} EmbeddedMeansGood(i: Index, c: Call, shape: Shape)
    ensures Embedded(i, c, shape) <==>
            && c.world.claim == Stored && c.world.credential
            && GoodFrom(Waited(i, c), List(i, c), 0, NormalizeBatchSize(c.batchSize), shape, c.world)
  {
    hide GoodFrom, Waited, List;
    var w := Waited(i, c);
    GoodTable(Begun(w), w, List(i, c), NormalizeBatchSize(c.batchSize), shape, c.world);
    BatchesGood(Begun(w), Begun(w), List(i, c), 0, NormalizeBatchSize(c.batchSize), shape, c.world);
  }

  lemma {:induction false} GoodTable(i: Index, j: Index, list: seq<Chunk>, size: nat, shape: Shape, world: World)
    requires SameTable(i, j)
    ensures GoodFrom(i, list, 0, size, shape, world) <==> GoodFrom(j, list, 0, size, shape, world)
  {
    hide AllThere, Fits, AfterEvents, EventsUpTo, Part;
    forall k: nat ensures BatchGood(i, list, k, size, shape, world) <==> BatchGood(j, list, k, size, shape, world) {
      EventsSameTable(i, j, EventsUpTo(world, k + 1));
    }
  }

  lemma MissingIsBad(i: Index, list: seq<Chunk>, call: nat, n: nat, size: nat, shape: Shape, world: World)
    requires call * size <= n < call * size + size && n < |list|
    requires !HasId(AfterEvents(i, EventsUpTo(world, call + 1)).chunks, list[n].id)
    ensures !BatchGood(i, list, call, size, shape, world)
  {
    hide HasId, AfterEvents, EventsUpTo, Fits, Contents;
    assert Part(list, call * size, size)[n - call * size] == list[n];
  }

  lemma PlaceOf(n: nat, size: nat)
    requires size > 0
    ensures n / size * size <= n < n / size * size + size
  {
  }

  /** A build that lists a chunk which is deleted before its batch is stored does not end well. */
  lemma {:induction false} DeletedFails(i: Index, c: Call, shape: Shape, n: nat)
    requires n < |List(i, c)|
    requires var size := NormalizeBatchSize(c.batchSize);
             !HasId(AfterEvents(Waited(i, c), EventsUpTo(c.world, n / size + 1)).chunks, List(i, c)[n].id)
    ensures !Embedded(i, c, shape)
  {
    hide HasId, AfterEvents, EventsUpTo, BatchGood, Embedded, Waited, List;
    var size, list := NormalizeBatchSize(c.batchSize), List(i, c);
    PlaceOf(n, size);
    MissingIsBad(Waited(i, c), list, n / size, n, size, shape, c.world);
    EmbeddedMeansGood(i, c, shape);
  }
}
