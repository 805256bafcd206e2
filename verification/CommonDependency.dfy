/** The signal of a dependency that two sets of nodes share. */
module CommonDependency {
  import opened Wrappers
  import opened Topology

  // ---------- the dependencies of a set of nodes ----------

  /** The confidence of an edge as a dependency of the nodes on n; 0 when it is none. */
  function Depends(e: Edge, nodes: set<string>, n: string): (c: real)
    ensures 0.0 <= c <= 1.0
  {
    if Propagates(e.kind) && e.from in nodes && e.to == n then EdgeConfidence(e) else 0.0
  }

  /** The best confidence with which the nodes depend on n. */
  function Best(edges: seq<Edge>, nodes: set<string>, n: string): (c: real)
    ensures 0.0 <= c <= 1.0
  {
    if edges == [] then 0.0
    else
      var before, last := Best(edges[..|edges| - 1], nodes, n), Depends(edges[|edges| - 1], nodes, n);
      if last > before then last else before
  }

  /** Best is attained, and nothing passes it. */
  lemma {:induction false} BestIsBest(edges: seq<Edge>, nodes: set<string>, n: string)
    ensures forall i :: 0 <= i < |edges| ==> Depends(edges[i], nodes, n) <= Best(edges, nodes, n)
    ensures Best(edges, nodes, n) > 0.0 ==> exists i :: 0 <= i < |edges| && Depends(edges[i], nodes, n) == Best(edges, nodes, n)
  {
    if edges != [] {
      var k := |edges| - 1;
      BestIsBest(edges[..k], nodes, n);
      assert forall i :: 0 <= i < k ==> edges[..k][i] == edges[i];
    }
  }

  ghost predicate IsTargets(deps: map<string, real>, edges: seq<Edge>, nodes: set<string>) {
    && (forall n :: n in deps <==> Best(edges, nodes, n) > 0.0)
    && forall n :: n in deps ==> deps[n] == Best(edges, nodes, n)
  }

  lemma {:induction false} TargetsNext(deps: map<string, real>, edges: seq<Edge>, nodes: set<string>, e: Edge)
    requires IsTargets(deps, edges, nodes)
    ensures var c := Depends(e, nodes, e.to);
            var prev := if e.to in deps then deps[e.to] else 0.0;
            IsTargets(if c > prev then deps[e.to := c] else deps, edges + [e], nodes)
  {
    assert (edges + [e])[..|edges|] == edges;
    forall n: string
      ensures Best(edges + [e], nodes, n)
              == if Depends(e, nodes, n) > Best(edges, nodes, n) then Depends(e, nodes, n) else Best(edges, nodes, n)
    {
    }
  }

  /** `dependencyTargets`. */
  method DependencyTargets(nodes: set<string>, edges: seq<Edge>) returns (deps: map<string, real>)
    ensures IsTargets(deps, edges, nodes)
  {
    deps := map[];
    for i := 0 to |edges|
      invariant IsTargets(deps, edges[..i], nodes)
    {
      var e := edges[i];
      assert edges[..i + 1] == edges[..i] + [e];
      TargetsNext(deps, edges[..i], nodes, e);
      if Propagates(e.kind) {
        if e.from in nodes {
          var confidence := EdgeConfidence(e);
          if confidence > (if e.to in deps then deps[e.to] else 0.0) {
            deps := deps[e.to := confidence];
          }
        }
      }
    }
    assert edges[..|edges|] == edges;
  }

  // ---------- the shared one ----------

  function Min(a: real, b: real): real {
    if a < b then a else b
  }

  /** How well both sets depend on n. */
  function Shared(edges: seq<Edge>, left: set<string>, right: set<string>, n: string): (c: real)
    ensures 0.0 <= c <= 1.0
  {
    Min(Best(edges, left, n), Best(edges, right, n))
  }

  /** m is the best that any shared dependency reaches, 0 without one. */
  ghost predicate IsMax(m: real, edges: seq<Edge>, left: set<string>, right: set<string>) {
    && (forall n :: Shared(edges, left, right, n) <= m)
    && (m > 0.0 ==> exists n :: Shared(edges, left, right, n) == m)
    && m >= 0.0
  }

  function Signal(m: real): real {
    RoundScore(0.65 * m)
  }

  /** The best node a scan has met, and how well both sets depend on it. */
  datatype Found = Found(node: string, confidence: real)

  /** The scan over some nodes in this order: the first node that reaches the best so far is kept. */
  function Scan(order: seq<string>, edges: seq<Edge>, left: set<string>, right: set<string>): Found {
    if order == [] then Found("", 0.0)
    else
      var before, node := Scan(order[..|order| - 1], edges, left, right), order[|order| - 1];
      var confidence := Shared(edges, left, right, node);
      if confidence > before.confidence then Found(node, confidence) else before
  }

  predicate Distinct(order: seq<string>) {
    forall i, j :: 0 <= i < j < |order| ==> order[i] != order[j]
  }

  lemma DistinctNext(order: seq<string>, node: string)
    requires Distinct(order) && node !in order
    ensures Distinct(order + [node])
  {
  }

  /** The order lists each node the set depends on once: the map iteration of the source. */
  ghost predicate Lists(order: seq<string>, edges: seq<Edge>, nodes: set<string>) {
    Distinct(order) && forall n :: n in order <==> Best(edges, nodes, n) > 0.0
  }

  /** A node of empty name counts as none. */
  function ScoreOf(found: Found): real {
    if found.node == "" then 0.0 else Signal(found.confidence)
  }

  /** What a scan may end on, whatever its order. */
  predicate Outcome(m: real, edges: seq<Edge>, left: set<string>, right: set<string>, bestNode: string) {
    (m > 0.0 ==> Shared(edges, left, right, bestNode) == m) && (m == 0.0 ==> bestNode == "")
  }

  lemma {:induction false} Scanned(order: seq<string>, edges: seq<Edge>, left: set<string>, right: set<string>)
    ensures var found := Scan(order, edges, left, right);
            && found.confidence >= 0.0 && Outcome(found.confidence, edges, left, right, found.node)
            && forall n :: n in order ==> Shared(edges, left, right, n) <= found.confidence
  {
    hide Shared;
    if order != [] {
      var rest := order[..|order| - 1];
      Scanned(rest, edges, left, right);
      assert forall n :: n in order ==> n in rest || n == order[|order| - 1];
    }
  }

  /** Whatever the order, a scan ends on a node that reaches the best, or on none when there is none. */
  lemma {:induction false} ScanFinds(order: seq<string>, edges: seq<Edge>, left: set<string>, right: set<string>)
    requires Lists(order, edges, left)
    ensures var found := Scan(order, edges, left, right);
            IsMax(found.confidence, edges, left, right) && Outcome(found.confidence, edges, left, right, found.node)
  {
    hide Best;
    Scanned(order, edges, left, right);
  }

  /** The nodes a set depends on, in the order in which the edges first name them. */
  function Targets(edges: seq<Edge>, nodes: set<string>): seq<string> {
    if edges == [] then []
    else
      var before, e := Targets(edges[..|edges| - 1], nodes), edges[|edges| - 1];
      if Depends(e, nodes, e.to) > 0.0 && e.to !in before then before + [e.to] else before
  }

  lemma {:induction false} TargetsList(edges: seq<Edge>, nodes: set<string>)
    ensures Lists(Targets(edges, nodes), edges, nodes)
  {
    if edges != [] {
      TargetsList(edges[..|edges| - 1], nodes);
    }
  }

  lemma {:induction false} FirstBestStays(order: seq<string>, edges: seq<Edge>, left: set<string>, right: set<string>, m: real)
    requires order != [] && IsMax(m, edges, left, right) && m > 0.0 && Shared(edges, left, right, order[0]) == m
    ensures Scan(order, edges, left, right) == Found(order[0], m)
  {
    hide Shared;
    if |order| > 1 {
      FirstBestStays(order[..|order| - 1], edges, left, right, m);
    } else {
      assert order[..0] == [];
    }
  }

  /** The order with entry k moved to the front. */
  function Moved(order: seq<string>, k: nat): seq<string>
    requires k < |order|
  {
    [order[k]] + order[..k] + order[k + 1..]
  }

  lemma {:induction false} MovedFirst(order: seq<string>, k: nat)
    requires k < |order| && Distinct(order)
    ensures Distinct(Moved(order, k)) && forall n :: n in Moved(order, k) <==> n in order
  {
    var moved := Moved(order, k);
    assert forall i :: 0 < i < |moved| ==> moved[i] == if i <= k then order[i - 1] else order[i];
    forall n ensures n in moved <==> n in order {
      if n in order {
        var i :| 0 <= i < |order| && order[i] == n;
        assert moved[if i < k then i + 1 else if i == k then 0 else i] == n;
      }
    }
  }

  /** Every such node is what the scan of some order ends on. */
  lemma {:induction false} EveryOutcomeIsReached(m: real, edges: seq<Edge>, left: set<string>, right: set<string>,
                                                 node: string)
    requires IsMax(m, edges, left, right) && Outcome(m, edges, left, right, node)
    ensures exists order :: Lists(order, edges, left) && Scan(order, edges, left, right) == Found(node, m)
  {
    hide Best;
    TargetsList(edges, left);
    var order := Targets(edges, left);
    if m > 0.0 {
      var k :| 0 <= k < |order| && order[k] == node;
      MovedFirst(order, k);
      var moved := Moved(order, k);
      FirstBestStays(moved, edges, left, right, m);
    } else {
      ScanFinds(order, edges, left, right);
    }
  }

  lemma {:induction false} NotShared(leftDeps: map<string, real>, rightDeps: map<string, real>, edges: seq<Edge>,
                                     left: set<string>, right: set<string>, n: string)
    requires IsTargets(leftDeps, edges, left) && IsTargets(rightDeps, edges, right)
    ensures Shared(edges, left, right, n) > 0.0 <==> n in leftDeps && n in rightDeps
    ensures n in leftDeps && n in rightDeps ==> Shared(edges, left, right, n) == Min(leftDeps[n], rightDeps[n])
  {
  }

  /** `commonDependencySignal`: the score of what the scan finds, in the order in which the map happens to be listed. */
  method CommonDependencySignal(left: set<string>, right: set<string>, edges: seq<Edge>)
    returns (score: real, bestNode: string, ghost order: seq<string>)
    ensures Lists(order, edges, left)
    ensures score == ScoreOf(Scan(order, edges, left, right)) && bestNode == Scan(order, edges, left, right).node
    ensures 0.0 <= score <= 0.65
  {
    var leftDeps := DependencyTargets(left, edges);
    var rightDeps := DependencyTargets(right, edges);
    var bestConfidence := 0.0;
    bestNode := "";
    var keys := leftDeps.Keys;
    order := [];
    hide Shared, IsTargets, Best;
    while keys != {}
      invariant keys <= leftDeps.Keys && Distinct(order) && forall n :: n in order <==> n in leftDeps.Keys - keys
      invariant Found(bestNode, bestConfidence) == Scan(order, edges, left, right)
      decreases |keys|
    {
      var node :| node in keys;
      DistinctNext(order, node);
      keys := keys - {node};
      NotShared(leftDeps, rightDeps, edges, left, right, node);
      Scanned(order, edges, left, right);
      assert (order + [node])[..|order|] == order;
      order := order + [node];
      if node in rightDeps {
        var confidence := Min(leftDeps[node], rightDeps[node]);
        if confidence > bestConfidence {
          bestNode, bestConfidence := node, confidence;
        }
      }
    }
    AllListed(leftDeps, order, edges, left);
    ScanFinds(order, edges, left, right);
    SignalRange(bestConfidence, edges, left, right);
    score := if bestNode == "" then 0.0 else Signal(bestConfidence);
  }

  lemma AllListed(deps: map<string, real>, order: seq<string>, edges: seq<Edge>, nodes: set<string>)
    requires IsTargets(deps, edges, nodes) && Distinct(order) && forall n :: n in order <==> n in deps
    ensures Lists(order, edges, nodes)
  {
    hide Best;
  }

  // ---------- the best, edge by edge ----------

  /** The edge makes one of the nodes depend on its end, by a relation that carries a failure on. */
  predicate LeadsFrom(e: Edge, nodes: set<string>) {
    e.from in nodes && e.kind !in {"observed_with", "selects", "member_of", "exposes"}
  }

  /** Edges d and e lead to one node, the weaker of the two with confidence c. */
  predicate Meeting(d: Edge, e: Edge, left: set<string>, right: set<string>, c: real) {
    && LeadsFrom(d, left) && LeadsFrom(e, right) && d.to == e.to
    && c == if EdgeConfidence(d) < EdgeConfidence(e) then EdgeConfidence(d) else EdgeConfidence(e)
  }

  lemma DependsMeans(e: Edge, nodes: set<string>, n: string)
    ensures Depends(e, nodes, n) == if LeadsFrom(e, nodes) && e.to == n then EdgeConfidence(e) else 0.0
  {
    RelationTable(e.kind);
    hide EdgeConfidence, RelationSemantics;
  }

  /** No two edges meet with more than the best, and if it counts two meet with just that; the signal is 65 % of it. */
  lemma {:induction false} BestMeeting(m: real, edges: seq<Edge>, left: set<string>, right: set<string>)
    requires IsMax(m, edges, left, right)
    ensures forall d, e, c :: d in edges && e in edges && Meeting(d, e, left, right, c) ==> c <= m
    ensures m > 0.0 ==> exists d, e :: d in edges && e in edges && Meeting(d, e, left, right, m)
    ensures Signal(m) == RoundScore(0.65 * m)
  {
    hide Depends, Best, EdgeConfidence, RoundScore, LeadsFrom;
    forall d, e, c | d in edges && e in edges && Meeting(d, e, left, right, c) ensures c <= m {
      AtLeast(edges, d, left, d.to);
      AtLeast(edges, e, right, d.to);
      assert Shared(edges, left, right, d.to) <= m;
    }
    if m > 0.0 {
      var n :| Shared(edges, left, right, n) == m;
      var d := Attained(edges, left, n);
      var e := Attained(edges, right, n);
      assert Meeting(d, e, left, right, m);
    }
  }

  lemma {:induction false} AtLeast(edges: seq<Edge>, e: Edge, nodes: set<string>, n: string)
    requires e in edges && LeadsFrom(e, nodes) && e.to == n
    ensures EdgeConfidence(e) <= Best(edges, nodes, n)
  {
    hide EdgeConfidence;
    BestIsBest(edges, nodes, n);
    DependsMeans(e, nodes, n);
    var i :| 0 <= i < |edges| && edges[i] == e;
    assert Depends(edges[i], nodes, n) <= Best(edges, nodes, n);
  }

  lemma {:induction false} Attained(edges: seq<Edge>, nodes: set<string>, n: string) returns (e: Edge)
    requires Best(edges, nodes, n) > 0.0
    ensures e in edges && LeadsFrom(e, nodes) && e.to == n && EdgeConfidence(e) == Best(edges, nodes, n)
  {
    hide EdgeConfidence;
    BestIsBest(edges, nodes, n);
    var i :| 0 <= i < |edges| && Depends(edges[i], nodes, n) == Best(edges, nodes, n);
    e := edges[i];
    DependsMeans(e, nodes, n);
  }

  /** Whether a node of empty name reaches the best. */
  predicate EmptyNameIsBest(m: real, edges: seq<Edge>, left: set<string>, right: set<string>) {
    m > 0.0 && Shared(edges, left, right, "") == m
  }

  /**
   * Every order of the scan gives the rounded 65 % of the best exactly when no node of empty name reaches a best that
   * counts.
   */
  lemma {:induction false} SignalKept(m: real, edges: seq<Edge>, left: set<string>, right: set<string>)
    requires IsMax(m, edges, left, right)
    ensures (forall order :: Lists(order, edges, left) ==> ScoreOf(Scan(order, edges, left, right)) == Signal(m)) <==>
            !EmptyNameIsBest(m, edges, left, right) || Signal(m) == 0.0
  {
    if m == 0.0 {
      RoundFixesMilli(0);
    }
    hide Shared, Lists, Scan;
    forall order | Lists(order, edges, left)
      ensures var found := Scan(order, edges, left, right);
              found.confidence == m && Outcome(m, edges, left, right, found.node)
    {
      ScoreOfScan(order, m, edges, left, right);
    }
    if EmptyNameIsBest(m, edges, left, right) {
      EveryOutcomeIsReached(m, edges, left, right, "");
    }
  }

  lemma MaxUnique(m: real, k: real, edges: seq<Edge>, left: set<string>, right: set<string>)
    requires IsMax(m, edges, left, right) && IsMax(k, edges, left, right)
    ensures m == k
  {
    hide Shared;
  }

  /** A node with a name does not reach the best. */
  predicate NoTie(m: real, edges: seq<Edge>, left: set<string>, right: set<string>, node: string) {
    node != "" ==> Shared(edges, left, right, node) != m
  }

  /** No node of empty name ties with another for a best that counts. */
  ghost predicate OrderFree(m: real, edges: seq<Edge>, left: set<string>, right: set<string>) {
    || !EmptyNameIsBest(m, edges, left, right) || Signal(m) == 0.0
    || forall node :: NoTie(m, edges, left, right, node)
  }

  lemma {:induction false} ScoreOfScan(order: seq<string>, m: real, edges: seq<Edge>, left: set<string>, right: set<string>)
    requires Lists(order, edges, left) && IsMax(m, edges, left, right)
    ensures var found := Scan(order, edges, left, right);
            && found.confidence == m && Outcome(m, edges, left, right, found.node)
            && ScoreOf(found) == if found.node == "" then 0.0 else Signal(m)
  {
    hide Shared, Lists, Scan, Signal;
    ScanFinds(order, edges, left, right);
    MaxUnique(m, Scan(order, edges, left, right).confidence, edges, left, right);
  }

  /** With a tie two orders give different scores. */
  lemma {:induction false} TieDiffers(m: real, edges: seq<Edge>, left: set<string>, right: set<string>)
    returns (empty: seq<string>, named: seq<string>)
    requires IsMax(m, edges, left, right) && !OrderFree(m, edges, left, right)
    ensures Lists(empty, edges, left) && ScoreOf(Scan(empty, edges, left, right)) == 0.0
    ensures Lists(named, edges, left) && ScoreOf(Scan(named, edges, left, right)) == Signal(m) != 0.0
  {
    hide Shared, Lists, Scan, Signal, IsMax;
    var node :| !NoTie(m, edges, left, right, node);
    EveryOutcomeIsReached(m, edges, left, right, "");
    EveryOutcomeIsReached(m, edges, left, right, node);
    empty :| Lists(empty, edges, left) && Scan(empty, edges, left, right) == Found("", m);
    named :| Lists(named, edges, left) && Scan(named, edges, left, right) == Found(node, m);
  }

  lemma {:induction false} SameScore(o: seq<string>, p: seq<string>, m: real, edges: seq<Edge>, left: set<string>,
                                     right: set<string>)
    requires IsMax(m, edges, left, right) && OrderFree(m, edges, left, right)
    requires Lists(o, edges, left) && Lists(p, edges, left)
    ensures ScoreOf(Scan(o, edges, left, right)) == ScoreOf(Scan(p, edges, left, right))
  {
    hide Shared, Lists, Scan, IsMax, ScoreOf, Signal;
    ScoreOfScan(o, m, edges, left, right);
    ScoreOfScan(p, m, edges, left, right);
    var n, k := Scan(o, edges, left, right).node, Scan(p, edges, left, right).node;
    assert (forall node :: NoTie(m, edges, left, right, node)) ==>
        NoTie(m, edges, left, right, n) && NoTie(m, edges, left, right, k);
    MaxNotNegative(m, edges, left, right);
  }

  lemma MaxNotNegative(m: real, edges: seq<Edge>, left: set<string>, right: set<string>)
    requires IsMax(m, edges, left, right)
    ensures m >= 0.0
  {
  }

  /** The score is the same in every order exactly when no node of empty name ties with another for a best that counts. */
  lemma {:induction false} OrderIsNothing(m: real, edges: seq<Edge>, left: set<string>, right: set<string>)
    requires IsMax(m, edges, left, right)
    ensures (forall o, p :: Lists(o, edges, left) && Lists(p, edges, left) ==>
               ScoreOf(Scan(o, edges, left, right)) == ScoreOf(Scan(p, edges, left, right)))
            <==> OrderFree(m, edges, left, right)
  {
    if OrderFree(m, edges, left, right) {
      forall o, p | Lists(o, edges, left) && Lists(p, edges, left)
        ensures ScoreOf(Scan(o, edges, left, right)) == ScoreOf(Scan(p, edges, left, right))
      {
        SameScore(o, p, m, edges, left, right);
      }
    } else {
      hide *;
      var empty, named := TieDiffers(m, edges, left, right);
    }
  }

  /** A graph with a tie: two services that depend on a node without a name and on one with a name. */
  lemma TiedDependencies()
    ensures var edges := [Edge("a", "", "calls", None, None), Edge("b", "", "calls", None, None),
                          Edge("a", "x", "calls", None, None), Edge("b", "x", "calls", None, None)];
            && IsMax(1.0, edges, {"a"}, {"b"}) && !OrderFree(1.0, edges, {"a"}, {"b"})
            && Lists(["", "x"], edges, {"a"}) && ScoreOf(Scan(["", "x"], edges, {"a"}, {"b"})) == 0.0
            && Lists(["x", ""], edges, {"a"}) && ScoreOf(Scan(["x", ""], edges, {"a"}, {"b"})) == Signal(1.0) > 0.0
  {
    var edges := [Edge("a", "", "calls", None, None), Edge("b", "", "calls", None, None),
                  Edge("a", "x", "calls", None, None), Edge("b", "x", "calls", None, None)];
    forall n ensures Best(edges, {"a"}, n) == if n in {"", "x"} then 1.0 else 0.0 {
      TiedBest(n, "a");
    }
    forall n ensures Best(edges, {"b"}, n) == if n in {"", "x"} then 1.0 else 0.0 {
      TiedBest(n, "b");
    }
    hide Best;
    assert Shared(edges, {"a"}, {"b"}, "") == 1.0 && Shared(edges, {"a"}, {"b"}, "x") == 1.0;
    assert !NoTie(1.0, edges, {"a"}, {"b"}, "x");
    assert ["", "x"][..1] == [""] && ["x", ""][..1] == ["x"] && [""][..0] == [] && ["x"][..0] == [];
    assert Scan([""], edges, {"a"}, {"b"}) == Found("", 1.0) && Scan(["x"], edges, {"a"}, {"b"}) == Found("x", 1.0);
  }

  lemma TiedBest(n: string, service: string)
    requires service == "a" || service == "b"
    ensures var edges := [Edge("a", "", "calls", None, None), Edge("b", "", "calls", None, None),
                          Edge("a", "x", "calls", None, None), Edge("b", "x", "calls", None, None)];
            Best(edges, {service}, n) == if n in {"", "x"} then 1.0 else 0.0
  {
    var edges := [Edge("a", "", "calls", None, None), Edge("b", "", "calls", None, None),
                  Edge("a", "x", "calls", None, None), Edge("b", "x", "calls", None, None)];
    assert Propagates("calls");
    assert edges[..3][..2] == edges[..2] && edges[..2][..1] == edges[..1] && edges[..1][..0] == [];
    assert Best(edges[..1], {service}, n) == if service == "a" && n == "" then 1.0 else 0.0;
    assert Best(edges[..2], {service}, n) == if n == "" then 1.0 else 0.0;
    assert Best(edges[..3], {service}, n) == if n == "" || (service == "a" && n == "x") then 1.0 else 0.0;
  }

  /** Such a graph exists: of two services that depend on a node without a name the signal is lost in every order. */
  lemma NamelessDependency(order: seq<string>)
    requires Lists(order, [Edge("a", "", "calls", None, None), Edge("b", "", "calls", None, None)], {"a"})
    ensures var edges := [Edge("a", "", "calls", None, None), Edge("b", "", "calls", None, None)];
            && IsMax(1.0, edges, {"a"}, {"b"}) && Signal(1.0) > 0.0
            && ScoreOf(Scan(order, edges, {"a"}, {"b"})) == 0.0
  {
    var e, f := Edge("a", "", "calls", None, None), Edge("b", "", "calls", None, None);
    var edges := [e, f];
    assert Propagates("calls");
    assert edges[..1] == [e] && edges[..1][..0] == [];
    assert Best(edges[..1], {"a"}, "") == 1.0;
    assert Best(edges, {"a"}, "") == 1.0;
    assert Best(edges, {"b"}, "") == 1.0;
    assert Shared(edges, {"a"}, {"b"}, "") == 1.0;
    forall n | n != "" ensures Best(edges, {"a"}, n) == 0.0 {
      assert Best(edges[..1], {"a"}, n) == 0.0;
    }
    assert forall n :: Shared(edges, {"a"}, {"b"}, n) <= 1.0;
    ScanFinds(order, edges, {"a"}, {"b"});
  }

  lemma {:induction false} SharedSymmetric(edges: seq<Edge>, left: set<string>, right: set<string>, n: string)
    ensures Shared(edges, left, right, n) == Shared(edges, right, left, n)
  {
  }

  /** The best, and with it the score, is the same for the two sets exchanged, and unique. */
  lemma {:induction false} MaxSymmetric(m: real, edges: seq<Edge>, left: set<string>, right: set<string>)
    requires IsMax(m, edges, left, right)
    ensures IsMax(m, edges, right, left)
    ensures forall k: real :: IsMax(k, edges, right, left) ==> k == m
  {
    forall n ensures Shared(edges, left, right, n) == Shared(edges, right, left, n) {
      SharedSymmetric(edges, left, right, n);
    }
    hide Shared;
    assert m > 0.0 ==> exists n :: Shared(edges, right, left, n) == m by {
      if m > 0.0 {
        var n :| Shared(edges, left, right, n) == m;
        assert Shared(edges, right, left, n) == m;
      }
    }
    forall k: real | IsMax(k, edges, right, left) ensures k == m {
    }
  }

  /** The score lies in [0, 0.65]. */
  lemma {:induction false} SignalRange(m: real, edges: seq<Edge>, left: set<string>, right: set<string>)
    requires IsMax(m, edges, left, right)
    ensures 0.0 <= Signal(m) <= 0.65
  {
    if m > 0.0 {
      var n :| Shared(edges, left, right, n) == m;
    }
    RoundBetween(0.65 * m, 0, 650);
  }
}
