/** The topology component of a score: the best path of at most three edges, or a shared dependency if that is stronger. */
module TopologyComponent {
  import opened Topology
  import opened TopologySearch
  import opened CommonDependency
  import opened Ranking

  const MAX_DEPTH := 3

  /** The signal of the best path between the node sets: its score, or nothing. */
  ghost predicate IsPathSignal(signal: real, q: Problem) {
    if Solvable(q) then exists best :: IsMaximal(q, best) && signal == Score(best) else signal == 0.0
  }

  /** The signal of the shared dependencies. */
  ghost predicate IsSharedSignal(signal: real, edges: seq<Edge>, left: set<string>, right: set<string>) {
    exists order :: Lists(order, edges, left) && signal == ScoreOf(Scan(order, edges, left, right))
  }

  ghost predicate IsFinding(finding: TopologyFinding, targets: set<string>, candidates: set<string>,
                            edges: seq<Edge>) {
    if targets == {} || candidates == {} then finding == NoTopology
    else if targets * candidates != {} then finding == SameNode
    else
      && finding.Signals?
      && IsPathSignal(finding.path, Problem(targets, candidates, edges, MAX_DEPTH))
      && IsSharedSignal(finding.shared, edges, targets, candidates)
  }

  /** `topologyScoreAndPaths`, up to the explanation texts. */
  method FindTopology(used: bool, targets: set<string>, candidates: set<string>,
                      edges: seq<Edge>) returns (finding: TopologyFinding)
    ensures !used ==> finding == NoTopology
    ensures used ==> IsFinding(finding, targets, candidates, edges)
  {
    if !used || targets == {} || candidates == {} {
      return NoTopology;
    }
    if targets * candidates != {} {
      return SameNode;
    }
    var path := PathSignal(targets, candidates, edges);
    var shared, node, order := CommonDependencySignal(targets, candidates, edges);
    assert IsSharedSignal(shared, edges, targets, candidates);
    finding := Signals(path, shared);
  }

  /** `bestPathSignal`. */
  method PathSignal(targets: set<string>, candidates: set<string>, edges: seq<Edge>) returns (signal: real)
    ensures IsPathSignal(signal, Problem(targets, candidates, edges, MAX_DEPTH))
  {
    var best, ok := BestTopologyPath(targets, candidates, edges, MAX_DEPTH);
    signal := 0.0;
    if ok {
      signal := PathScore(best);
    }
  }

  /** Both signals stay well inside [0, 1], so the topology component does. */
  lemma {:induction false} FindingIsSane(finding: TopologyFinding, targets: set<string>, candidates: set<string>,
                                         edges: seq<Edge>)
    requires IsFinding(finding, targets, candidates, edges)
    ensures finding.Signals? ==> 0.0 <= finding.path <= 0.95 && 0.0 <= finding.shared <= 0.65
    ensures 0.0 <= TopologyScore(finding) <= 1.0
  {
    if finding.Signals? {
      var q := Problem(targets, candidates, edges, MAX_DEPTH);
      var order :| Lists(order, edges, targets) && finding.shared == ScoreOf(Scan(order, edges, targets, candidates));
      ScanFinds(order, edges, targets, candidates);
      SignalRange(Scan(order, edges, targets, candidates).confidence, edges, targets, candidates);
      if Solvable(q) {
        var best :| IsMaximal(q, best) && finding.path == Score(best);
        var w: Walk :| TopologySearch.Candidate(q, w) && best == PathOf(w);
        PathInRange(w);
      }
    }
  }

  lemma {:induction false} PathInRange(w: Walk)
    ensures 0.0 <= Score(PathOf(w)) <= 0.95
  {
    ScoreRange(PathOf(w));
  }
}
