/** An embedding index over any sequence of calls and events: what ready means, and how a build gets stuck. */
module EmbeddingRuns {
  import opened Writes
  import Fingerprint
  import opened EmbeddingStore
  import opened EmbeddingBuild
  import opened EmbeddingRows

  // ---------- runs ----------

  /** Between calls of the service other callers act. */
  datatype Move = Served(call: Call) | Happened(event: Event)

  function Next(i: Index, m: Move, shape: Shape): Index {
    match m
    case Served(call) => After(i, call, shape)
    case Happened(event) => AfterEvent(i, event)
  }

  /** The index after some moves. */
  function Along(i: Index, moves: seq<Move>, shape: Shape): Index {
    if moves == [] then i else Next(Along(i, moves[..|moves| - 1], shape), moves[|moves| - 1], shape)
  }

  /** `Create`: a pending index over chunks with different ids. */
  ghost predicate Created(i: Index) {
    && Sound(i) && i.status == Pending && i.embeddedCount == 0 && i.rows == []
    && i.fingerprint == Print(i.chunks) && i.chunkCount == |i.chunks|
  }

  // ---------- stuck builds ----------

  /** Exactly the ways in which a call leaves an index in the building state that was not in it. */
  lemma {:induction false} EndsBuilding(i: Index, c: Call, shape: Shape)
    requires i.status != Building
    ensures After(i, c, shape).status == Building <==>
            && Begins(i, c)
            && (|| c.world.claim == StoredUnread
                || (c.world.claim == Stored && !Embedded(i, c, shape) && !c.world.failing)
                || (Embedded(i, c, shape) && c.world.finish == NotStored))
  {
    NotBuildingYet(i, c);
    BuiltStatus(i, c, shape);
    hide AfterEvents, Batches, Changed, Lists, Matches, Built, Embedded, Waited, Opened, Prepared;
    BuiltAfter(i, c, shape);
  }

  lemma NotBuildingYet(i: Index, c: Call)
    ensures Prepared(i, c).status == Building <==> i.status == Building
    ensures Opened(i, c).status == Building <==> i.status == Building
    ensures Waited(i, c).status == Building <==> i.status == Building
  {
    EventsReady(Prepared(i, c), c.world.opening);
    EventsReady(Opened(i, c), c.world.waiting);
    hide AfterEvents, Changed;
  }

  lemma BuiltStatus(i: Index, c: Call, shape: Shape)
    ensures c.world.claim == Stored ==>
              (Built(i, c, shape).status == Building <==>
               if Embedded(i, c, shape) then c.world.finish == NotStored else !c.world.failing)
    ensures Built(i, c, shape).status == Ready && c.world.claim == Stored ==> Embedded(i, c, shape)
  {
    hide AfterEvents, Batches, Waited, List;
    var b := Begun(Waited(i, c));
    EventsReady(b, c.world.closing);
    BatchesKeepBuilding(b, List(i, c), 0, 0, NormalizeBatchSize(c.batchSize), shape, c.world);
    EventsReady(BatchesOf(i, c, shape).index, c.world.closing);
  }

  /** No call begins on a building index, changes its rows or gets it out of that state. */
  lemma {:induction false} BuildingStays(i: Index, c: Call, shape: Shape)
    requires i.status == Building
    ensures !Begins(i, c)
    ensures var j := After(i, c, shape); j.status == Building && j.rows == i.rows && j.embeddedCount == i.embeddedCount
  {
    NotBuildingYet(i, c);
    hide AfterEvents, Changed;
  }

  /** The move is a call that claims the index and leaves no final mark on it. */
  predicate Stuck(i: Index, m: Move, shape: Shape) {
    && m.Served? && Begins(i, m.call)
    && var c := m.call;
       || c.world.claim == StoredUnread
       || (c.world.claim == Stored && !Embedded(i, c, shape) && !c.world.failing)
       || (Embedded(i, c, shape) && c.world.finish == NotStored)
  }

  lemma {:induction false} NextStuck(i: Index, m: Move, shape: Shape)
    ensures Next(i, m, shape).status == Building <==> i.status == Building || Stuck(i, m, shape)
  {
    hide After, Begins, Embedded, AfterEvent;
    match m {
      case Happened(event) => OneEventReady(i, event);
      case Served(c) =>
        if i.status == Building {
          BuildingStays(i, c, shape);
        } else {
          EndsBuilding(i, c, shape);
        }
    }
  }

  /** Move k of the run gets the index stuck. */
  predicate StuckAt(i: Index, moves: seq<Move>, k: nat, shape: Shape)
    requires k < |moves|
  {
    Stuck(Along(i, moves[..k], shape), moves[k], shape)
  }

  lemma StuckBefore(i: Index, moves: seq<Move>, k: nat, n: nat, shape: Shape)
    requires k < n <= |moves|
    ensures StuckAt(i, moves[..n], k, shape) <==> StuckAt(i, moves, k, shape)
  {
    hide Stuck, Along;
    assert moves[..n][..k] == moves[..k];
  }

  lemma AlongNext(i: Index, moves: seq<Move>, shape: Shape)
    requires moves != []
    ensures var n := |moves| - 1; Along(i, moves, shape) == Next(Along(i, moves[..n], shape), moves[n], shape)
  {
  }

  lemma StuckLast(i: Index, moves: seq<Move>, shape: Shape)
    requires moves != []
    ensures var n := |moves| - 1;
            Along(i, moves, shape).status == Building <==>
            Along(i, moves[..n], shape).status == Building || StuckAt(i, moves, n, shape)
  {
    hide Stuck, Along, Next;
    AlongNext(i, moves, shape);
    NextStuck(Along(i, moves[..|moves| - 1], shape), moves[|moves| - 1], shape);
  }

  ghost predicate SomeStuck(i: Index, moves: seq<Move>, shape: Shape) {
    exists k :: 0 <= k < |moves| && StuckAt(i, moves, k, shape)
  }

  lemma SomeStuckNext(i: Index, moves: seq<Move>, shape: Shape)
    requires moves != []
    ensures var n := |moves| - 1; SomeStuck(i, moves, shape) <==> SomeStuck(i, moves[..n], shape) || StuckAt(i, moves, n, shape)
  {
    hide StuckAt;
    var n := |moves| - 1;
    forall k | 0 <= k < n ensures StuckAt(i, moves[..n], k, shape) <==> StuckAt(i, moves, k, shape) {
      StuckBefore(i, moves, k, n, shape);
    }
  }

  /** Along any moves the index is in the building state exactly when an earlier build got stuck; nothing gets it out. */
  lemma {:induction false} BuildingMeansStuck(i: Index, moves: seq<Move>, shape: Shape)
    requires i.status != Building
    ensures Along(i, moves, shape).status == Building <==> SomeStuck(i, moves, shape)
  {
    hide StuckAt, Next;
    if moves != [] {
      hide *;
      BuildingMeansStuck(i, moves[..|moves| - 1], shape);
      StuckLast(i, moves, shape);
      SomeStuckNext(i, moves, shape);
    }
  }

  // ---------- ready indexes ----------

  /**
   * The ready index `now` is what the call left when it started from `before`: it has made a row of every chunk of its
   * list, `full`, each with its own vector, and holds those of them whose chunk was not deleted since; it counts all of
   * them, and its fingerprint is still the one the call left.
   */
  ghost predicate BuiltBy(now: Index, before: Index, c: Call, shape: Shape, full: seq<Row>) {
    && Claims(before, c) && Embedded(before, c, shape)
    && Made(full, List(before, c), NormalizeBatchSize(c.batchSize), shape, c.world)
    && |full| == |List(before, c)| == now.embeddedCount > 0
    && Left(now, full)
    && now.fingerprint == After(before, c, shape).fingerprint
  }

  lemma MarkSound(i: Index, c: Call)
    requires Sound(i)
    ensures Sound(Prepared(i, c)) && Prepared(i, c).nextId == i.nextId
  {
    hide Changed, Distinct;
  }

  lemma {:induction false} EventsSound(i: Index, events: seq<Event>)
    requires Sound(i)
    ensures Sound(AfterEvents(i, events)) && i.nextId <= AfterEvents(i, events).nextId
  {
    if events != [] {
      hide Sound, AfterEvent;
      EventsSound(i, events[..|events| - 1]);
      EventSound(AfterEvents(i, events[..|events| - 1]), events[|events| - 1]);
    }
  }

  lemma {:induction false} WaitedSound(i: Index, c: Call)
    requires Sound(i)
    ensures Sound(Opened(i, c)) && Sound(Waited(i, c))
    ensures Old(List(i, c), Waited(i, c).nextId) && Distinct(List(i, c))
  {
    MarkSound(i, c);
    EventsSound(Prepared(i, c), c.world.opening);
    EventsSound(Opened(i, c), c.world.waiting);
    hide AfterEvents, Prepared, Distinct;
  }

  lemma BegunLeft(i: Index)
    requires Sound(i)
    ensures Left(Begun(i), [])
  {
    hide Distinct;
  }

  /** Whatever becomes of a claimed build, its index holds the rows of the first chunks but those of deleted ones. */
  lemma {:induction false} BuiltLeft(i: Index, c: Call, shape: Shape) returns (full: seq<Row>)
    requires Sound(i)
    ensures Left(Built(i, c, shape), full)
    ensures Made(full, List(i, c), NormalizeBatchSize(c.batchSize), shape, c.world)
    ensures Embedded(i, c, shape) ==> |full| == |List(i, c)|
  {
    var b, size := Begun(Waited(i, c)), NormalizeBatchSize(c.batchSize);
    WaitedSound(i, c);
    BegunLeft(Waited(i, c));
    hide Left, AfterEvents, Waited, List, Batches, Made, Old;
    MadeNothing(List(i, c), size, shape, c.world);
    if !c.world.credential {
      full := [];
      EventsLeft(b, c.world.closing, full);
      MarkedLeft(AfterEvents(b, c.world.closing), Built(i, c, shape), full);
    } else {
      full := BatchesLeft(b, [], List(i, c), 0, size, shape, c.world);
      var p := BatchesOf(i, c, shape).index;
      EventsLeft(p, c.world.closing, full);
      MarkedLeft(AfterEvents(p, c.world.closing), Built(i, c, shape), full);
    }
  }

  lemma MadeNothing(list: seq<Chunk>, size: nat, shape: Shape, world: World)
    requires size > 0
    ensures Made([], list, size, shape, world)
  {
  }

  /** Status, count and fingerprint make no difference to the rows left. */
  lemma MarkedLeft(i: Index, j: Index, full: seq<Row>)
    requires Left(i, full) && j.chunks == i.chunks && j.nextId == i.nextId && j.rows == i.rows
    ensures Left(j, full)
  {
    hide Present, Distinct;
  }

  lemma {:induction false} ReadyBuilt(i: Index, c: Call, shape: Shape) returns (full: seq<Row>)
    requires Sound(i) && Claims(i, c) && After(i, c, shape).status == Ready
    ensures BuiltBy(After(i, c, shape), i, c, shape, full)
  {
    full := BuiltLeft(i, c, shape);
    ReadyStatus(i, c, shape);
    BuiltAfter(i, c, shape);
    hide Left, Made, Built, Embedded, After, Waited, Begins, Sound, AfterEvents, Opened;
    ReadyCount(i, c, shape);
  }

  lemma ReadyStatus(i: Index, c: Call, shape: Shape)
    requires Claims(i, c) && After(i, c, shape).status == Ready
    ensures c.world.claim == Stored && Embedded(i, c, shape) && List(i, c) != []
  {
    BuiltStatus(i, c, shape);
    hide AfterEvents, Lists, Built, Embedded, Waited, Opened;
  }

  lemma ReadyCount(i: Index, c: Call, shape: Shape)
    requires Embedded(i, c, shape) && Built(i, c, shape).status == Ready
    ensures Built(i, c, shape).embeddedCount == |List(i, c)|
  {
    var b := Begun(Waited(i, c));
    BatchesKeepBuilding(b, List(i, c), 0, 0, NormalizeBatchSize(c.batchSize), shape, c.world);
    EventsReady(BatchesOf(i, c, shape).index, c.world.closing);
    hide AfterEvents, Batches, Waited, List;
  }

  lemma {:induction false} EventKeepsBuilt(now: Index, e: Event, before: Index, c: Call, shape: Shape, full: seq<Row>)
    requires BuiltBy(now, before, c, shape, full) && AfterEvent(now, e).status == Ready
    ensures BuiltBy(AfterEvent(now, e), before, c, shape, full)
  {
    hide Claims, Embedded, Made, Left, After, AfterEvent;
    EventLeft(now, e, full);
    OneEventReady(now, e);
  }

  /** No entry starts on an index that it finds ready. */
  lemma AllowedNotReady(i: Index, d: Call)
    requires Lists(i, d)
    ensures Prepared(i, d).status != Ready && Opened(i, d).status != Ready && Waited(i, d).status != Ready
  {
    EventsReady(Prepared(i, d), d.world.opening);
    EventsReady(Opened(i, d), d.world.waiting);
    hide AfterEvents, Prepared;
  }

  lemma PreparedReady(i: Index, d: Call)
    ensures Prepared(i, d).status == Ready ==> Prepared(i, d) == i
  {
    hide Changed;
  }

  lemma {:induction false} CallReady(i: Index, d: Call, shape: Shape)
    requires After(i, d, shape).status == Ready
    ensures Claims(i, d) || After(i, d, shape) == i
  {
    PreparedReady(i, d);
    if Lists(i, d) {
      AllowedNotReady(i, d);
    }
    hide AfterEvents, Lists, Matches, Prepared, Opened, Waited, Built;
  }

  lemma {:induction false} NextSound(i: Index, m: Move, shape: Shape)
    requires Sound(i)
    ensures Sound(Next(i, m, shape))
  {
    match m {
      case Happened(event) => EventSound(i, event);
      case Served(c) =>
        MarkSound(i, c);
        WaitedSound(i, c);
        var full := BuiltLeft(i, c, shape);
        LeftIsSound(Built(i, c, shape), full);
        BegunLeft(Waited(i, c));
        LeftIsSound(Begun(Waited(i, c)), []);
        hide Sound, Left, Built, Prepared, Opened, Waited, Lists, Matches, Claims, Begun;
    }
  }

  /**
   * Along any moves from creation on, whatever fails and whatever happens to the chunks, a ready index is the work of one
   * earlier call: it holds the rows that call made, but those whose chunk was deleted since.
   */
  lemma {:induction false} ReadyIsBuilt(i: Index, moves: seq<Move>, shape: Shape)
    requires Created(i)
    ensures Sound(Along(i, moves, shape))
    ensures Along(i, moves, shape).status == Ready ==>
              exists k, full :: 0 <= k < |moves| && moves[k].Served?
                                && BuiltBy(Along(i, moves, shape), Along(i, moves[..k], shape), moves[k].call, shape, full)
  {
    if moves != [] {
      var n := |moves| - 1;
      var before := Along(i, moves[..n], shape);
      hide Created, Sound, BuiltBy, Next;
      ReadyIsBuilt(i, moves[..n], shape);
      NextSound(before, moves[n], shape);
      assert forall k :: 0 <= k < n ==> moves[..n][..k] == moves[..k] && moves[..n][k] == moves[k];
      if Along(i, moves, shape).status == Ready {
        if Starts(before, moves[n]) {
          var full := MoveBuilds(before, moves[n], shape);
          assert BuiltBy(Along(i, moves, shape), Along(i, moves[..n], shape), moves[n].call, shape, full);
        } else {
          MoveReady(before, moves[n], shape);
          var k, full :| 0 <= k < n && moves[k].Served?
            && BuiltBy(before, Along(i, moves[..k], shape), moves[k].call, shape, full);
          MoveKeeps(before, moves[n], Along(i, moves[..k], shape), moves[k].call, shape, full);
          assert BuiltBy(Along(i, moves, shape), Along(i, moves[..k], shape), moves[k].call, shape, full);
        }
      }
    }
  }

  predicate Starts(i: Index, m: Move) {
    m.Served? && Claims(i, m.call)
  }

  lemma MoveBuilds(i: Index, m: Move, shape: Shape) returns (full: seq<Row>)
    requires Sound(i) && Starts(i, m) && Next(i, m, shape).status == Ready
    ensures BuiltBy(Next(i, m, shape), i, m.call, shape, full)
  {
    hide Sound, Claims, After, BuiltBy;
    full := ReadyBuilt(i, m.call, shape);
  }

  lemma MoveReady(i: Index, m: Move, shape: Shape)
    requires !Starts(i, m) && Next(i, m, shape).status == Ready
    ensures i.status == Ready
  {
    hide Claims, After, AfterEvent;
    match m {
      case Happened(event) => OneEventReady(i, event);
      case Served(d) => CallReady(i, d, shape);
    }
  }

  lemma MoveKeeps(now: Index, m: Move, before: Index, c: Call, shape: Shape, full: seq<Row>)
    requires BuiltBy(now, before, c, shape, full) && !Starts(now, m) && Next(now, m, shape).status == Ready
    ensures BuiltBy(Next(now, m, shape), before, c, shape, full)
  {
    hide Claims, After, AfterEvent, BuiltBy;
    match m {
      case Happened(event) => EventKeepsBuilt(now, event, before, c, shape, full);
      case Served(d) => CallReady(now, d, shape);
    }
  }

  // ---------- when a ready index is complete ----------

  /** Exactly when all rows of the build are still there: no chunk of its list was deleted since. */
  lemma {:induction false} AllRowsLeft(now: Index, before: Index, c: Call, shape: Shape, full: seq<Row>)
    requires BuiltBy(now, before, c, shape, full)
    ensures |now.rows| <= now.embeddedCount
    ensures |now.rows| == now.embeddedCount <==> AllThere(List(before, c), now.chunks)
    ensures |now.rows| == now.embeddedCount ==> now.rows == full
  {
    hide Claims, Embedded, After, RowOf, InputsFor, Present, HasId;
    PresentAtMost(full, now.chunks);
    forall n | 0 <= n < |full| ensures full[n].chunkId == List(before, c)[n].id {
      RowsId(full, List(before, c), NormalizeBatchSize(c.batchSize), shape, c.world, n);
    }
  }

  lemma RowsId(full: seq<Row>, list: seq<Chunk>, size: nat, shape: Shape, world: World, n: nat)
    requires size > 0 && Made(full, list, size, shape, world) && n < |full|
    ensures full[n].chunkId == list[n].id && full[n].contentHash == list[n].contentHash
  {
    hide InputsFor;
    assert IsRow(full[n], list, n, size, shape, world);
  }

  /** What others do between the listing of the chunks and the last update of a build that embeds all of them. */
  function Meanwhile(i: Index, c: Call): seq<Event> {
    c.world.waiting + EventsUpTo(c.world, Calls(List(i, c), 0, 0, NormalizeBatchSize(c.batchSize))) + c.world.closing
  }

  /** The last look stored while the index is built, if any, sees chunks of the fingerprint of those built. */
  predicate Undisturbed(i: Index, c: Call) {
    LastPrint(Opened(i, c), Meanwhile(i, c)) == Print(List(i, c))
  }

  /** The fingerprint a build leaves is that of the chunks the last look stored meanwhile saw. */
  lemma {:induction false} BuiltPrint(i: Index, c: Call, shape: Shape)
    requires Claims(i, c) && Embedded(i, c, shape)
    ensures After(i, c, shape).fingerprint == LastPrint(Opened(i, c), Meanwhile(i, c))
  {
    hide AfterEvents, LastPrint, EventsUpTo, List, Opened, Calls, Batches, GoodFrom;
    var w, size := Waited(i, c), NormalizeBatchSize(c.batchSize);
    var done := EventsUpTo(c.world, Calls(List(i, c), 0, 0, size));
    NothingYet(Begun(w), c.world);
    BatchesGood(Begun(w), Begun(w), List(i, c), 0, size, shape, c.world);
    EventsSameTable(Begun(w), w, done);
    EventsSameTable(BatchesOf(i, c, shape).index, AfterEvents(w, done), c.world.closing);
    EventsConcat(Opened(i, c), c.world.waiting, done);
    EventsConcat(Opened(i, c), c.world.waiting + done, c.world.closing);
    EventsPrint(Opened(i, c), Meanwhile(i, c));
    BuiltAfter(i, c, shape);
    hide After;
  }

  lemma NothingYet(i: Index, world: World)
    ensures AfterEvents(i, EventsUpTo(world, 0)) == i
  {
  }

  lemma DistinctEntries(chunks: seq<Chunk>)
    requires Distinct(chunks)
    ensures Fingerprint.DistinctIds(Entries(chunks)) && Fingerprint.PlainHashes(Entries(chunks))
  {
  }

  lemma {:induction false} SamePrint(a: seq<Chunk>, b: seq<Chunk>)
    requires Distinct(a) && Distinct(b)
    ensures Print(a) == Print(b) <==> multiset(Entries(a)) == multiset(Entries(b))
  {
    DistinctEntries(a);
    DistinctEntries(b);
    hide Entries, Fingerprint.FingerprintText;
    Fingerprint.SameTextSameChunks(Entries(a), Entries(b));
  }

  lemma {:induction false} SameEntriesThere(a: seq<Chunk>, b: seq<Chunk>)
    requires multiset(Entries(a)) == multiset(Entries(b))
    ensures AllThere(a, b)
  {
    forall k | 0 <= k < |a| ensures HasId(b, a[k].id) {
      assert Entries(a)[k] in multiset(Entries(b));
      EntryHasId(b, Entries(a)[k]);
    }
  }

  lemma {:induction false} FullEntries(full: seq<Row>, list: seq<Chunk>, size: nat, shape: Shape, world: World)
    requires size > 0 && Made(full, list, size, shape, world) && |full| == |list|
    ensures RowEntries(full) == Entries(list)
  {
    forall n | 0 <= n < |full| ensures RowEntries(full)[n] == Entries(list)[n] {
      RowsId(full, list, size, shape, world, n);
    }
    hide Made;
  }

  /**
   * A ready index on which a look finds nothing to write is complete, with one row of its own for each chunk there is,
   * exactly when its build was undisturbed.
   */
  lemma {:induction false} CompleteMeansUndisturbed(now: Index, before: Index, c: Call, shape: Shape, full: seq<Row>)
    requires Sound(before) && BuiltBy(now, before, c, shape, full) && !Changed(now)
    ensures Complete(now) <==> Undisturbed(before, c)
    ensures Complete(now) ==> now.rows == full
  {
    var list := List(before, c);
    WaitedSound(before, c);
    LeftIsSound(now, full);
    BuiltPrint(before, c, shape);
    AllRowsLeft(now, before, c, shape, full);
    FullEntries(full, list, NormalizeBatchSize(c.batchSize), shape, c.world);
    SamePrint(list, now.chunks);
    hide Claims, Embedded, After, Made, Left, List, LastPrint, Meanwhile, Opened, Fingerprint.FingerprintText;
    if multiset(Entries(list)) == multiset(Entries(now.chunks)) {
      SameEntriesThere(list, now.chunks);
    }
    hide Entries, RowEntries, AllThere, Distinct;
  }

  /**
   * Along any moves from creation on, a ready index on which a look finds nothing to write is the work of one earlier
   * call, and complete exactly when that call was undisturbed.
   */
  lemma {:induction false} ReadyIsComplete(i: Index, moves: seq<Move>, shape: Shape)
    requires Created(i) && Along(i, moves, shape).status == Ready && !Changed(Along(i, moves, shape))
    ensures exists k, full :: 0 <= k < |moves| && moves[k].Served?
              && BuiltBy(Along(i, moves, shape), Along(i, moves[..k], shape), moves[k].call, shape, full)
              && (Complete(Along(i, moves, shape)) <==> Undisturbed(Along(i, moves[..k], shape), moves[k].call))
  {
    var now := Along(i, moves, shape);
    ReadyIsBuilt(i, moves, shape);
    var k, full :| 0 <= k < |moves| && moves[k].Served?
      && BuiltBy(now, Along(i, moves[..k], shape), moves[k].call, shape, full);
    ReadyIsBuilt(i, moves[..k], shape);
    hide Created, Sound, Changed, Complete, Undisturbed, BuiltBy, List;
    CompleteMeansUndisturbed(now, Along(i, moves[..k], shape), moves[k].call, shape, full);
  }
}
