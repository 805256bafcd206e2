/** The queue-driven search for the best topology path, against a declarative maximum over walks. */
module TopologySearch {
  import opened Wrappers
  import opened Text
  import opened Topology

  /** A start node and the oriented edges followed from it. */
  datatype Walk = Walk(start: string, steps: seq<Edge>)

  /** One entry of the search queue. */
  datatype State = State(node: string, nodes: seq<string>, edgeTypes: seq<string>, semantics: seq<Semantics>,
                         confidence: real)

  // ---------- walks and what the search promises about them ----------

  /** An edge may be followed in either direction. */
  predicate InGraph(edges: seq<Edge>, e: Edge) {
    e in edges || Reverse(e) in edges
  }

  /** The nodes of a walk, from its start to its end. */
  function Nodes(w: Walk): (ns: seq<string>)
    ensures |ns| == |w.steps| + 1
    decreases |w.steps|
  {
    if w.steps == [] then [w.start]
    else Nodes(Walk(w.start, w.steps[..|w.steps| - 1])) + [w.steps[|w.steps| - 1].to]
  }

  function Last(w: Walk): string {
    Nodes(w)[|w.steps|]
  }

  function Kinds(steps: seq<Edge>): (ks: seq<string>)
    ensures |ks| == |steps|
  {
    if steps == [] then [] else Kinds(steps[..|steps| - 1]) + [steps[|steps| - 1].kind]
  }

  function Meanings(steps: seq<Edge>): (ms: seq<Semantics>)
    ensures |ms| == |steps|
  {
    if steps == [] then [] else Meanings(steps[..|steps| - 1]) + [RelationSemantics(steps[|steps| - 1].kind)]
  }

  /** The product of the edge confidences. */
  function Confidence(steps: seq<Edge>): (c: real)
    ensures 0.0 <= c <= 1.0
  {
    if steps == [] then 1.0
    else
      var before := Confidence(steps[..|steps| - 1]);
      ProductBound(before, EdgeConfidence(steps[|steps| - 1]));
      before * EdgeConfidence(steps[|steps| - 1])
  }

  function PathOf(w: Walk): Path {
    Path(Nodes(w), Kinds(w.steps), Confidence(w.steps), Meanings(w.steps))
  }

  function StateOf(w: Walk): State {
    State(Last(w), Nodes(w), Kinds(w.steps), Meanings(w.steps), Confidence(w.steps))
  }

  /** Consecutive edges of the graph. */
  predicate Connected(edges: seq<Edge>, w: Walk) {
    forall i :: 0 <= i < |w.steps| ==> InGraph(edges, w.steps[i]) && w.steps[i].from == Nodes(w)[i]
  }

  /** The service's `stringSet`: values are trimmed and blanks dropped. */
  function StringSet(values: seq<string>): set<string> {
    set v | v in values && Trim(v) != [] :: Trim(v)
  }

  /** No node is one the search has marked as visited before it. */
  predicate Fresh(w: Walk) {
    forall j :: 1 <= j <= |w.steps| ==> Nodes(w)[j] !in StringSet(Nodes(w)[..j])
  }

  predicate Simple(w: Walk) {
    forall i, j :: 0 <= i < j <= |w.steps| ==> Nodes(w)[i] != Nodes(w)[j]
  }

  /** Strictly between its ends the walk stays out of `to`. */
  predicate InteriorAvoids(to: set<string>, w: Walk) {
    forall i :: 1 <= i < |w.steps| ==> Nodes(w)[i] !in to
  }

  /** What is searched for: a path from `from` to `to` of at most `maxDepth` edges. */
  datatype Problem = Problem(from: set<string>, to: set<string>, edges: seq<Edge>, maxDepth: int)

  predicate Live(q: Problem, w: Walk) {
    w.start in q.from && Connected(q.edges, w) && Fresh(w) && InteriorAvoids(q.to, w)
  }

  /** A walk the search may return. */
  predicate Candidate(q: Problem, w: Walk) {
    Live(q, w) && 1 <= |w.steps| <= q.maxDepth && Last(w) in q.to
  }

  // ---------- bookkeeping of the search loop ----------

  predicate Extends(w: Walk, t: Walk) {
    w.start == t.start && t.steps <= w.steps
  }

  ghost predicate Covered(traces: seq<Walk>, w: Walk) {
    exists i :: 0 <= i < |traces| && Extends(w, traces[i])
  }

  function Grow(t: Walk, e: Edge): Walk {
    Walk(t.start, t.steps + [e])
  }

  /** The queue entry made from an entry and one more edge. */
  function Push(s: State, e: Edge): State {
    State(e.to, s.nodes + [e.to], s.edgeTypes + [e.kind], s.semantics + [RelationSemantics(e.kind)],
          s.confidence * EdgeConfidence(e))
  }

  lemma {:induction false} PushIsGrow(t: Walk, e: Edge)
    ensures Push(StateOf(t), e) == StateOf(Grow(t, e))
    ensures Nodes(Grow(t, e)) == Nodes(t) + [e.to]
  {
    assert Grow(t, e).steps[..|t.steps|] == t.steps;
  }

  /** A prefix of a walk visits a prefix of its nodes. */
  lemma {:induction false} NodesPrefix(w: Walk, n: nat)
    requires n <= |w.steps|
    ensures Nodes(Walk(w.start, w.steps[..n])) == Nodes(w)[..n + 1]
    decreases |w.steps|
  {
    if n < |w.steps| {
      var shorter := Walk(w.start, w.steps[..|w.steps| - 1]);
      NodesPrefix(shorter, n);
      assert shorter.steps[..n] == w.steps[..n];
    } else {
      assert w.steps[..n] == w.steps;
    }
  }

  /** Following an edge to an unvisited node keeps a queue entry live. */
  lemma {:induction false} GrowLive(q: Problem, t: Walk, e: Edge)
    requires Live(q, t)
    requires InGraph(q.edges, e) && e.from == Last(t) && e.to !in StringSet(Nodes(t))
    requires Last(t) !in q.to || t.steps == []
    ensures Live(q, Grow(t, e))
  {
    var g := Grow(t, e);
    PushIsGrow(t, e);
    forall j | 1 <= j <= |g.steps| ensures Nodes(g)[j] !in StringSet(Nodes(g)[..j]) {
      if j <= |t.steps| {
        assert Nodes(g)[..j] == Nodes(t)[..j];
      } else {
        assert Nodes(g)[..j] == Nodes(t);
      }
    }
  }

  /** The next step of a longer live walk is one the search takes. */
  lemma {:induction false} NextStep(q: Problem, t: Walk, w: Walk) returns (e: Edge)
    requires Live(q, w) && Extends(w, t) && |t.steps| < |w.steps|
    ensures e == w.steps[|t.steps|] && InGraph(q.edges, e) && e.from == Last(t)
    ensures e.to !in StringSet(Nodes(t))
    ensures Extends(w, Grow(t, e))
    ensures t.steps != [] ==> Last(t) !in q.to
  {
    var n := |t.steps|;
    e := w.steps[n];
    assert w.steps[..n] == t.steps && w.steps[..n + 1] == t.steps + [e];
    NodesPrefix(w, n);
    NodesPrefix(w, n + 1);
    PushIsGrow(t, e);
    assert Nodes(w)[n + 1] == Nodes(Grow(t, e))[n + 1] == e.to;
    assert Last(t) == Nodes(w)[n];
  }

  function Pow(base: nat, exponent: nat): (p: nat)
    ensures base >= 1 ==> p >= 1
  {
    if exponent == 0 then 1 else base * Pow(base, exponent - 1)
  }

  function Remaining(maxDepth: int, t: Walk): nat {
    if |t.steps| <= maxDepth then maxDepth - |t.steps| else 0
  }

  /** The termination measure: an entry outweighs everything it can be replaced by. */
  function Weight(base: nat, maxDepth: int, traces: seq<Walk>): nat {
    if traces == [] then 0
    else Pow(base, Remaining(maxDepth, traces[0])) + Weight(base, maxDepth, traces[1..])
  }

  function Measure(q: Problem, traces: seq<Walk>): nat {
    Weight(2 * |q.edges| + 1, q.maxDepth, traces)
  }

  lemma {:induction false} WeightConcat(base: nat, maxDepth: int, a: seq<Walk>, b: seq<Walk>)
    ensures Weight(base, maxDepth, a + b) == Weight(base, maxDepth, a) + Weight(base, maxDepth, b)
  {
    if a == [] {
      assert a + b == b;
    } else {
      assert (a + b)[1..] == a[1..] + b;
      WeightConcat(base, maxDepth, a[1..], b);
    }
  }

  /** Fewer than `base` entries one level deeper weigh less than the entry they replace. */
  lemma {:induction false} WeightOfLevel(base: nat, maxDepth: int, depth: nat, level: seq<Walk>)
    requires depth <= maxDepth
    requires forall i :: 0 <= i < |level| ==> |level[i].steps| == depth
    ensures Weight(base, maxDepth, level) == |level| * Pow(base, maxDepth - depth)
  {
    if level != [] {
      WeightOfLevel(base, maxDepth, depth, level[1..]);
    }
  }

  lemma {:induction false} ExpansionShrinks(base: nat, maxDepth: int, traces: seq<Walk>, level: seq<Walk>)
    requires traces != [] && |traces[0].steps| < maxDepth && |level| < base
    requires forall i :: 0 <= i < |level| ==> |level[i].steps| == |traces[0].steps| + 1
    ensures Weight(base, maxDepth, traces[1..] + level) < Weight(base, maxDepth, traces)
  {
    var t := traces[0];
    var p := Pow(base, maxDepth - |t.steps| - 1);
    WeightOfLevel(base, maxDepth, |t.steps| + 1, level);
    WeightConcat(base, maxDepth, traces[1..], level);
    assert |level| * p < base * p by { MulLess(|level|, base, p); }
  }

  lemma {:induction false} MulLess(a: nat, b: nat, p: nat)
    requires a < b && p >= 1
    ensures a * p < b * p
  {
  }

  // ---------- the search ----------

  function Get(adjacency: map<string, seq<Edge>>, node: string): seq<Edge> {
    if node in adjacency then adjacency[node] else []
  }

  /** The map lists under each node exactly the edges that can be followed from it. */
  ghost predicate IsAdjacency(edges: seq<Edge>, adjacency: map<string, seq<Edge>>) {
    forall n :: IsNeighbourhood(edges, n, Get(adjacency, n))
  }

  ghost predicate IsNeighbourhood(edges: seq<Edge>, node: string, adjacent: seq<Edge>) {
    (forall e :: e in adjacent <==> e.from == node && InGraph(edges, e)) && |adjacent| <= 2 * |edges|
  }

  /** Each edge is entered under both of its ends, reversed under the second. */
  method BuildAdjacency(edges: seq<Edge>) returns (adjacency: map<string, seq<Edge>>)
    ensures IsAdjacency(edges, adjacency)
  {
    adjacency := map[];
    for k := 0 to |edges|
      invariant IsAdjacency(edges[..k], adjacency)
    {
      var edge := edges[k];
      ghost var before := adjacency;
      adjacency := adjacency[edge.from := Get(adjacency, edge.from) + [edge]];
      adjacency := adjacency[edge.to := Get(adjacency, edge.to) + [Reverse(edge)]];
      assert edges[..k + 1] == edges[..k] + [edge];
      forall n ensures IsNeighbourhood(edges[..k + 1], n, Get(adjacency, n)) {
        assert IsNeighbourhood(edges[..k], n, Get(before, n));
        forall e ensures e in Get(adjacency, n) <==> e.from == n && InGraph(edges[..k + 1], e) {
          assert e in Get(adjacency, n) <==> e in Get(before, n) || (n == edge.from && e == edge) || (n == edge.to && e == Reverse(edge));
        }
      }
    }
    assert edges[..|edges|] == edges;
  }

  ghost predicate GrownFrom(t: Walk, adjacent: seq<Edge>, g: Walk) {
    exists j :: 0 <= j < |adjacent| && adjacent[j].to !in StringSet(Nodes(t)) && g == Grow(t, adjacent[j])
  }

  /** Queue entries and the walks they stand for. */
  predicate Mirrors(entries: seq<State>, traces: seq<Walk>) {
    |entries| == |traces| && forall i :: 0 <= i < |traces| ==> entries[i] == StateOf(traces[i])
  }

  /** The entries made from the first k neighbours. */
  ghost predicate IsExpansion(t: Walk, adjacent: seq<Edge>, k: nat, entries: seq<State>, level: seq<Walk>)
    requires k <= |adjacent|
  {
    && Mirrors(entries, level) && |level| <= k
    && (forall i :: 0 <= i < |level| ==> GrownFrom(t, adjacent, level[i]))
    && (forall j :: 0 <= j < k && adjacent[j].to !in StringSet(Nodes(t)) ==> Grow(t, adjacent[j]) in level)
  }

  lemma {:induction false} ExpansionStep(t: Walk, adjacent: seq<Edge>, k: nat, entries: seq<State>, level: seq<Walk>)
    requires k < |adjacent| && adjacent[k].to !in StringSet(Nodes(t))
    requires IsExpansion(t, adjacent, k, entries, level)
    ensures IsExpansion(t, adjacent, k + 1, entries + [Push(StateOf(t), adjacent[k])], level + [Grow(t, adjacent[k])])
  {
    PushIsGrow(t, adjacent[k]);
    assert GrownFrom(t, adjacent, Grow(t, adjacent[k]));
  }

  /** The entries for the unvisited neighbours of one entry, appended to the queue. */
  method Expand(current: State, adjacent: seq<Edge>, queue: seq<State>, ghost t: Walk)
    returns (queue': seq<State>, ghost entries: seq<State>, ghost level: seq<Walk>)
    requires current == StateOf(t)
    ensures queue' == queue + entries && IsExpansion(t, adjacent, |adjacent|, entries, level)
  {
    queue', entries, level := queue, [], [];
    var visited := StringSet(current.nodes);
    for k := 0 to |adjacent|
      invariant queue' == queue + entries && IsExpansion(t, adjacent, k, entries, level)
    {
      if adjacent[k].to in visited {
        continue;
      }
      ExpansionStep(t, adjacent, k, entries, level);
      queue' := queue' + [Push(current, adjacent[k])];
      entries := entries + [Push(current, adjacent[k])];
      level := level + [Grow(t, adjacent[k])];
    }
  }

  /** The best path so far is a candidate, or there is none yet. */
  ghost predicate IsBest(q: Problem, best: Path, bestScore: real) {
    if bestScore >= 0.0
    then (exists w :: Candidate(q, w) && best == PathOf(w)) && bestScore == Score(best)
    else bestScore == -1.0 && best == EMPTY_PATH
  }

  /** Every better candidate can still be reached from the queue. */
  ghost predicate NothingMissed(q: Problem, traces: seq<Walk>, bestScore: real) {
    forall w :: Candidate(q, w) && bestScore < Score(PathOf(w)) ==> Covered(traces, w)
  }

  ghost predicate QueueMatches(q: Problem, queue: seq<State>, traces: seq<Walk>) {
    Mirrors(queue, traces) && forall i :: 0 <= i < |traces| ==> Live(q, traces[i])
  }

  ghost predicate SearchInv(q: Problem, queue: seq<State>, traces: seq<Walk>, best: Path, bestScore: real) {
    QueueMatches(q, queue, traces) && NothingMissed(q, traces, bestScore) && IsBest(q, best, bestScore)
  }

  /** A candidate covered by the queue is covered by its tail or extends its head. */
  lemma {:induction false} CoveredSplit(traces: seq<Walk>, w: Walk)
    requires Covered(traces, w) && traces != []
    ensures Extends(w, traces[0]) || Covered(traces[1..], w)
  {
    var i :| 0 <= i < |traces| && Extends(w, traces[i]);
    if i > 0 {
      assert traces[1..][i - 1] == traces[i];
    }
  }

  lemma {:induction false} CoveredMore(a: seq<Walk>, b: seq<Walk>, w: Walk)
    requires Covered(a, w) || Covered(b, w)
    ensures Covered(a + b, w)
  {
    if Covered(a, w) {
      var i :| 0 <= i < |a| && Extends(w, a[i]);
      assert (a + b)[i] == a[i];
    } else {
      var i :| 0 <= i < |b| && Extends(w, b[i]);
      assert (a + b)[|a| + i] == b[i];
    }
  }

  /** An entry at its end or at full depth is extended by no candidate but itself. */
  predicate Finished(q: Problem, t: Walk) {
    (t.steps != [] && Last(t) in q.to) || |t.steps| >= q.maxDepth
  }

  lemma {:induction false} FinishedIsAlone(q: Problem, t: Walk, w: Walk)
    requires Finished(q, t) && Candidate(q, w) && Extends(w, t)
    ensures w == t
  {
    if |t.steps| < |w.steps| {
      var e := NextStep(q, t, w);
    }
  }

  lemma {:induction false} TailMatches(q: Problem, queue: seq<State>, traces: seq<Walk>)
    requires queue != [] && QueueMatches(q, queue, traces)
    ensures QueueMatches(q, queue[1..], traces[1..])
    ensures Measure(q, traces[1..]) < Measure(q, traces)
  {
  }

  /** Taking a finished entry off the queue. */
  lemma {:induction false} RetireHead(q: Problem, traces: seq<Walk>, bestScore: real, bestScore': real)
    requires traces != [] && NothingMissed(q, traces, bestScore) && bestScore <= bestScore'
    requires Finished(q, traces[0])
    requires Candidate(q, traces[0]) ==> Score(PathOf(traces[0])) <= bestScore'
    ensures NothingMissed(q, traces[1..], bestScore')
  {
    forall w | Candidate(q, w) && bestScore' < Score(PathOf(w))
      ensures Covered(traces[1..], w)
    {
      CoveredSplit(traces, w);
      if Extends(w, traces[0]) {
        FinishedIsAlone(q, traces[0], w);
      }
    }
  }

  /** Replacing an entry by its expansion loses no candidate. */
  lemma {:induction false} ReplaceHead(q: Problem, traces: seq<Walk>, bestScore: real, level: seq<Walk>)
    requires traces != [] && NothingMissed(q, traces, bestScore)
    requires traces[0].steps == [] || Last(traces[0]) !in q.to
    requires forall e :: InGraph(q.edges, e) && e.from == Last(traces[0]) && e.to !in StringSet(Nodes(traces[0])) ==>
               Grow(traces[0], e) in level
    ensures NothingMissed(q, traces[1..] + level, bestScore)
  {
    var t := traces[0];
    forall w | Candidate(q, w) && bestScore < Score(PathOf(w))
      ensures Covered(traces[1..] + level, w)
    {
      CoveredSplit(traces, w);
      if Extends(w, t) {
        if |t.steps| == |w.steps| {
          assert false;
        }
        var e := NextStep(q, t, w);
        var i :| 0 <= i < |level| && level[i] == Grow(t, e);
        assert Covered(level, w);
      }
      CoveredMore(traces[1..], level, w);
    }
  }

  lemma {:induction false} GrownLive(q: Problem, t: Walk, adjacent: seq<Edge>, g: Walk)
    requires Live(q, t) && (Last(t) !in q.to || t.steps == [])
    requires forall e :: e in adjacent ==> e.from == Last(t) && InGraph(q.edges, e)
    requires GrownFrom(t, adjacent, g)
    ensures Live(q, g) && |g.steps| == |t.steps| + 1
  {
    var j :| 0 <= j < |adjacent| && adjacent[j].to !in StringSet(Nodes(t)) && g == Grow(t, adjacent[j]);
    GrowLive(q, t, adjacent[j]);
  }

  /** The queue after an expansion again matches its trace. */
  lemma {:induction false} MatchesExpanded(q: Problem, queue: seq<State>, traces: seq<Walk>, adjacent: seq<Edge>,
                                           entries: seq<State>, level: seq<Walk>)
    requires queue != [] && QueueMatches(q, queue, traces)
    requires Last(traces[0]) !in q.to || traces[0].steps == []
    requires forall e :: e in adjacent ==> e.from == Last(traces[0]) && InGraph(q.edges, e)
    requires Mirrors(entries, level)
    requires forall i :: 0 <= i < |level| ==> GrownFrom(traces[0], adjacent, level[i])
    ensures QueueMatches(q, queue[1..] + entries, traces[1..] + level)
    ensures forall i :: 0 <= i < |level| ==> |level[i].steps| == |traces[0].steps| + 1
  {
    forall i | 0 <= i < |level|
      ensures Live(q, level[i]) && |level[i].steps| == |traces[0].steps| + 1
    {
      GrownLive(q, traces[0], adjacent, level[i]);
    }
  }

  /** The entries the search starts with cover every candidate. */
  lemma {:induction false} StartCovers(q: Problem, traces: seq<Walk>)
    requires forall k :: k in q.from ==> Walk(k, []) in traces
    ensures NothingMissed(q, traces, -1.0)
  {
    forall w | Candidate(q, w) ensures Covered(traces, w) {
      var i :| 0 <= i < |traces| && traces[i] == Walk(w.start, []);
      assert Extends(w, traces[i]);
    }
  }

  /** The queue starts with one entry per start node, in no particular order. */
  method StartQueue(ghost q: Problem, from: set<string>) returns (queue: seq<State>, ghost traces: seq<Walk>)
    requires from == q.from
    ensures QueueMatches(q, queue, traces) && NothingMissed(q, traces, -1.0)
  {
    queue, traces := [], [];
    var rest := from;
    while rest != {}
      invariant rest <= from
      invariant QueueMatches(q, queue, traces)
      invariant forall k :: k in from - rest ==> Walk(k, []) in traces
    {
      var key :| key in rest;
      queue := queue + [State(key, [key], [], [], 1.0)];
      traces := traces + [Walk(key, [])];
      rest := rest - {key};
    }
    StartCovers(q, traces);
  }

  lemma {:induction false} ScoreNotNegative(w: Walk)
    ensures Score(PathOf(w)) >= 0.0
  {
    ScoreRange(PathOf(w));
  }

  ghost predicate Solvable(q: Problem) {
    exists w :: Candidate(q, w)
  }

  /** The path of a candidate that no candidate outscores. */
  ghost predicate IsMaximal(q: Problem, best: Path) {
    && (exists w :: Candidate(q, w) && best == PathOf(w))
    && forall w :: Candidate(q, w) ==> Score(PathOf(w)) <= Score(best)
  }

  /** An empty queue has seen every candidate. */
  lemma {:induction false} NothingLeft(q: Problem, best: Path, bestScore: real)
    requires IsBest(q, best, bestScore) && NothingMissed(q, [], bestScore)
    ensures bestScore >= 0.0 <==> Solvable(q)
    ensures bestScore >= 0.0 ==> IsMaximal(q, best)
    ensures bestScore < 0.0 ==> best == EMPTY_PATH
  {
    forall w | Candidate(q, w) ensures bestScore >= 0.0 && Score(PathOf(w)) <= bestScore {
      ScoreNotNegative(w);
      assert !Covered([], w);
    }
  }

  /** One finished entry at its end: is it the new best? */
  method Judge(ghost q: Problem, current: State, best: Path, bestScore: real, ghost t: Walk)
    returns (best': Path, bestScore': real)
    requires current == StateOf(t) && Candidate(q, t)
    requires IsBest(q, best, bestScore)
    ensures IsBest(q, best', bestScore') && bestScore <= bestScore' && Score(PathOf(t)) <= bestScore'
  {
    best', bestScore' := best, bestScore;
    var path := Path(current.nodes, current.edgeTypes, current.confidence, current.semantics);
    assert path == PathOf(t);
    var score := PathScore(path);
    ScoreNotNegative(t);
    if score > bestScore {
      best', bestScore' := path, score;
    }
  }

  /** The three ways an entry leaves the queue without growing; `done` tells whether one applied. */
  method TryRetire(ghost q: Problem, to: set<string>, maxDepth: int, queue: seq<State>, ghost traces: seq<Walk>,
                   best: Path, bestScore: real)
    returns (done: bool, best': Path, bestScore': real)
    requires to == q.to && maxDepth == q.maxDepth
    requires queue != [] && SearchInv(q, queue, traces, best, bestScore)
    ensures done ==> SearchInv(q, queue[1..], traces[1..], best', bestScore') && Measure(q, traces[1..]) < Measure(q, traces)
    ensures !done ==> (best', bestScore') == (best, bestScore) && !Finished(q, traces[0])
  {
    var current := queue[0];
    done, best', bestScore' := false, best, bestScore;
    if |current.edgeTypes| > maxDepth {
      done := true;
    } else if current.node in to && |current.edgeTypes| > 0 {
      best', bestScore' := Judge(q, current, best, bestScore, traces[0]);
      done := true;
    } else if |current.edgeTypes| == maxDepth {
      done := true;
    }
    if done {
      RetireHead(q, traces, bestScore, bestScore');
      TailMatches(q, queue, traces);
    }
  }

  /** What the first entry stands for. */
  lemma HeadState(q: Problem, queue: seq<State>, traces: seq<Walk>, best: Path, bestScore: real)
    requires queue != [] && SearchInv(q, queue, traces, best, bestScore)
    ensures traces != [] && queue[0] == StateOf(traces[0]) && queue[0].node == Last(traces[0])
    ensures QueueMatches(q, queue, traces) && NothingMissed(q, traces, bestScore) && IsBest(q, best, bestScore)
  {
    hide NothingMissed, IsBest, Live;
  }

  lemma {:induction false} ExpandedMatches(q: Problem, queue: seq<State>, traces: seq<Walk>, adjacent: seq<Edge>,
                                           entries: seq<State>, level: seq<Walk>)
    requires queue != [] && QueueMatches(q, queue, traces) && traces != [] && !Finished(q, traces[0])
    requires IsNeighbourhood(q.edges, Last(traces[0]), adjacent) && IsExpansion(traces[0], adjacent, |adjacent|, entries, level)
    ensures QueueMatches(q, queue[1..] + entries, traces[1..] + level)
    ensures forall i :: 0 <= i < |level| ==> |level[i].steps| == |traces[0].steps| + 1
  {
    hide QueueMatches, Mirrors, GrownFrom, InGraph, Last, StateOf;
    MatchesExpanded(q, queue, traces, adjacent, entries, level);
  }

  lemma {:induction false} ExpandedMisses(q: Problem, traces: seq<Walk>, bestScore: real, adjacent: seq<Edge>,
                                          entries: seq<State>, level: seq<Walk>)
    requires traces != [] && NothingMissed(q, traces, bestScore) && !Finished(q, traces[0])
    requires IsNeighbourhood(q.edges, Last(traces[0]), adjacent) && IsExpansion(traces[0], adjacent, |adjacent|, entries, level)
    ensures NothingMissed(q, traces[1..] + level, bestScore)
  {
    hide NothingMissed, Mirrors, GrownFrom, InGraph, Last, Grow, Nodes, StringSet;
    ReplaceHead(q, traces, bestScore, level);
  }

  lemma {:induction false} ExpandedShrinks(q: Problem, traces: seq<Walk>, adjacent: seq<Edge>, entries: seq<State>,
                                           level: seq<Walk>)
    requires traces != [] && !Finished(q, traces[0]) && IsNeighbourhood(q.edges, Last(traces[0]), adjacent)
    requires IsExpansion(traces[0], adjacent, |adjacent|, entries, level)
    requires forall i :: 0 <= i < |level| ==> |level[i].steps| == |traces[0].steps| + 1
    ensures Measure(q, traces[1..] + level) < Measure(q, traces)
  {
    hide Weight, Mirrors, GrownFrom, InGraph, Last, Grow;
    ExpansionShrinks(2 * |q.edges| + 1, q.maxDepth, traces, level);
  }

  /** An entry that is not finished gives way to its expansion. */
  method ExpandHead(ghost q: Problem, queue: seq<State>, ghost traces: seq<Walk>, adjacent: seq<Edge>,
                    ghost best: Path, ghost bestScore: real)
    returns (queue': seq<State>, ghost traces': seq<Walk>)
    requires queue != [] && SearchInv(q, queue, traces, best, bestScore)
    requires !Finished(q, traces[0])
    requires IsNeighbourhood(q.edges, queue[0].node, adjacent)
    ensures SearchInv(q, queue', traces', best, bestScore) && Measure(q, traces') < Measure(q, traces)
  {
    HeadState(q, queue, traces, best, bestScore);
    hide QueueMatches, NothingMissed, IsBest, Finished, IsNeighbourhood, IsExpansion, Measure, StateOf, Last;
    ghost var entries, level;
    queue', entries, level := Expand(queue[0], adjacent, queue[1..], traces[0]);
    traces' := traces[1..] + level;
    ExpandedMatches(q, queue, traces, adjacent, entries, level);
    ExpandedMisses(q, traces, bestScore, adjacent, entries, level);
    ExpandedShrinks(q, traces, adjacent, entries, level);
  }

  // ---------- what the returned path is ----------

  /** The path follows these edges from node to node. */
  predicate Follows(p: Path, steps: seq<Edge>) {
    && |p.nodeKeys| == |steps| + 1 && |p.edgeTypes| == |p.semantics| == |steps|
    && forall i :: 0 <= i < |steps| ==>
         && steps[i].from == p.nodeKeys[i] && steps[i].to == p.nodeKeys[i + 1]
         && p.edgeTypes[i] == steps[i].kind && p.semantics[i] == RelationSemantics(steps[i].kind)
  }

  /** The path is a real one: edges of the graph, in either direction, from a start node to an end node. */
  ghost predicate RealPath(q: Problem, p: Path) {
    exists steps :: RealSteps(q, p, steps)
  }

  predicate RealSteps(q: Problem, p: Path, steps: seq<Edge>) {
    && Follows(p, steps) && 1 <= |steps| <= q.maxDepth
    && (forall i :: 0 <= i < |steps| ==> steps[i] in q.edges || Reverse(steps[i]) in q.edges)
    && p.nodeKeys[0] in q.from && p.nodeKeys[|steps|] in q.to
    && (forall i :: 1 <= i < |steps| ==> p.nodeKeys[i] !in q.to)
    && p.confidence == Confidence(steps)
  }

  lemma OneEdge(e: Edge)
    ensures Confidence([]) == 1.0 && Confidence([e]) == EdgeConfidence(e)
  {
    hide EdgeConfidence;
    assert [e][..0] == [];
  }

  lemma MoreEdges(steps: seq<Edge>, e: Edge)
    ensures Confidence(steps + [e]) == Confidence(steps) * EdgeConfidence(e)
  {
    hide EdgeConfidence;
    assert (steps + [e])[..|steps|] == steps;
  }

  lemma TimesAgain(x: real, y: real, z: real)
    ensures x * y * z == x * (y * z)
  {
  }

  /** The confidence of a path is the product of those of its parts. */
  lemma {:induction false} ConfidenceProduct(a: seq<Edge>, b: seq<Edge>)
    ensures Confidence(a + b) == Confidence(a) * Confidence(b)
  {
    hide Confidence, EdgeConfidence;
    if b == [] {
      assert a + b == a;
      OneEdge(Edge("", "", "", None, None));
    } else {
      var front, e := b[..|b| - 1], b[|b| - 1];
      assert front + [e] == b && a + b == a + front + [e];
      ConfidenceProduct(a, front);
      MoreEdges(a + front, e);
      MoreEdges(front, e);
      TimesAgain(Confidence(a), Confidence(front), EdgeConfidence(e));
    }
  }

  lemma {:induction false} PathFollows(w: Walk)
    ensures |PathOf(w).nodeKeys| == |w.steps| + 1 && PathOf(w).nodeKeys[0] == w.start
    ensures forall i :: 0 <= i < |w.steps| ==>
              && PathOf(w).nodeKeys[i + 1] == w.steps[i].to
              && PathOf(w).edgeTypes[i] == w.steps[i].kind && PathOf(w).semantics[i] == RelationSemantics(w.steps[i].kind)
    decreases |w.steps|
  {
    if w.steps != [] {
      PathFollows(Walk(w.start, w.steps[..|w.steps| - 1]));
    }
  }

  lemma {:induction false} CandidateIsReal(q: Problem, w: Walk)
    requires Candidate(q, w)
    ensures RealSteps(q, PathOf(w), w.steps)
  {
    PathFollows(w);
    hide Fresh, Confidence, Kinds, Meanings;
  }

  /** The path the search returns is a real one. */
  lemma {:induction false} BestIsReal(q: Problem, best: Path)
    requires IsMaximal(q, best)
    ensures RealPath(q, best)
  {
    var w :| Candidate(q, w) && best == PathOf(w);
    CandidateIsReal(q, w);
  }

  /**
   * The search returns a path of maximal score among all walks from `from` to `to` that use real
   * edges in either direction, revisit no marked node, stay out of `to` in between and take at most
   * `maxDepth` edges; it fails exactly when there is no such walk.  It ends on every graph.
   */
  method BestTopologyPath(from: set<string>, to: set<string>, edges: seq<Edge>, maxDepth: int)
    returns (best: Path, ok: bool)
    ensures ok <==> Solvable(Problem(from, to, edges, maxDepth))
    ensures ok ==> IsMaximal(Problem(from, to, edges, maxDepth), best) && RealPath(Problem(from, to, edges, maxDepth), best)
    ensures !ok ==> best == EMPTY_PATH
  {
    ghost var q := Problem(from, to, edges, maxDepth);
    var adjacency := BuildAdjacency(edges);
    ghost var traces;
    var queue;
    queue, traces := StartQueue(q, from);
    best := EMPTY_PATH;
    var bestScore := -1.0;
    while queue != []
      invariant SearchInv(q, queue, traces, best, bestScore)
      decreases Measure(q, traces)
    {
      var done;
      done, best, bestScore := TryRetire(q, to, maxDepth, queue, traces, best, bestScore);
      if done {
        queue, traces := queue[1..], traces[1..];
      } else {
        queue, traces := ExpandHead(q, queue, traces, Get(adjacency, queue[0].node), best, bestScore);
      }
    }
    ok := bestScore >= 0.0;
    assert traces == [];
    NothingLeft(q, best, bestScore);
    if ok {
      BestIsReal(q, best);
    }
  }
}
