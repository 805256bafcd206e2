/** The score of one candidate event against the target, from the two events to the total. */
module EventScore {
  import opened Topology
  import opened TopologySearch
  import opened CommonDependency
  import opened Ranking
  import opened TopologyComponent

  datatype Identifiers = Identifiers(environment: string, system: string, component: string, namespace: string,
                                     resource: string, trace: string)

  /** An event as far as the score looks at it: its nodes are the topology nodes that match it, its time is in minutes. */
  datatype Event = Event(identifiers: Identifiers, time: real, nodes: set<string>, tokens: set<string>, evidence: seq<string>)

  function Pairs(a: Identifiers, b: Identifiers): seq<(string, string)> {
    [(a.environment, b.environment), (a.system, b.system), (a.component, b.component), (a.namespace, b.namespace),
     (a.resource, b.resource), (a.trace, b.trace)]
  }

  function Between(a: real, b: real): real {
    if a < b then b - a else a - b
  }

  predicate ShareEvidence(a: seq<string>, b: seq<string>) {
    exists key :: key in a && key in b
  }

  function EvidenceOf(target: Event, candidate: Event): Evidence {
    if candidate.evidence == [] then NoEvidence
    else if ShareEvidence(target.evidence, candidate.evidence) then SharedEvidence
    else OwnEvidence
  }

  /** What comparing the events may find: the topology part depends on the order in which a map is listed. */
  ghost predicate Compared(f: Findings, target: Event, candidate: Event, used: bool, edges: seq<Edge>,
                           same: (string, string) -> bool)
  {
    var pairs := Pairs(target.identifiers, candidate.identifiers);
    && f.comparable == Comparable(pairs) && f.matches == Matching(pairs, same)
    && f.minutes == Between(target.time, candidate.time)
    && (if used then IsFinding(f.topology, target.nodes, candidate.nodes, edges) else f.topology == NoTopology)
    && f.leftTokens == target.tokens && f.rightTokens == candidate.tokens
    && f.evidence == EvidenceOf(target, candidate)
  }

  lemma {:induction false} ComparedIsSane(f: Findings, target: Event, candidate: Event, used: bool, edges: seq<Edge>,
                                          same: (string, string) -> bool)
    requires Compared(f, target, candidate, used, edges, same)
    ensures Sane(f)
  {
    hide IsFinding;
    if used {
      FindingIsSane(f.topology, target.nodes, candidate.nodes, edges);
    }
  }

  // ---------- what raises the score ----------

  function Given(a: string, b: string): nat {
    if a != "" && b != "" then 1 else 0
  }

  function Agreeing(a: string, b: string, same: (string, string) -> bool): nat {
    if a != "" && b != "" && same(a, b) then 1 else 0
  }

  /** How many of the six identifiers both events have. */
  function GivenFields(a: Identifiers, b: Identifiers): nat {
    Given(a.environment, b.environment) + Given(a.system, b.system) + Given(a.component, b.component)
    + Given(a.namespace, b.namespace) + Given(a.resource, b.resource) + Given(a.trace, b.trace)
  }

  /** In how many of them they agree. */
  function SameFields(a: Identifiers, b: Identifiers, same: (string, string) -> bool): nat {
    Agreeing(a.environment, b.environment, same) + Agreeing(a.system, b.system, same) + Agreeing(a.component, b.component, same)
    + Agreeing(a.namespace, b.namespace, same) + Agreeing(a.resource, b.resource, same) + Agreeing(a.trace, b.trace, same)
  }

  lemma {:induction false} FieldsCounted(a: Identifiers, b: Identifiers, same: (string, string) -> bool)
    ensures Comparable(Pairs(a, b)) == GivenFields(a, b) && Matching(Pairs(a, b), same) == SameFields(a, b, same)
  {
    var pairs := Pairs(a, b);
    hide Given, Agreeing;
    PairCounted(pairs, 1, same);
    PairCounted(pairs, 2, same);
    PairCounted(pairs, 3, same);
    PairCounted(pairs, 4, same);
    PairCounted(pairs, 5, same);
    PairCounted(pairs, 6, same);
    assert pairs[..6] == pairs && pairs[..0] == [];
  }

  lemma PairCounted(pairs: seq<(string, string)>, n: nat, same: (string, string) -> bool)
    requires 0 < n <= |pairs|
    ensures Comparable(pairs[..n]) == Comparable(pairs[..n - 1]) + Given(pairs[n - 1].0, pairs[n - 1].1)
    ensures Matching(pairs[..n], same) == Matching(pairs[..n - 1], same) + Agreeing(pairs[n - 1].0, pairs[n - 1].1, same)
  {
    assert pairs[..n][..n - 1] == pairs[..n - 1];
  }

  /** A component: the rounded score, and the rounded product with its weight. */
  ghost predicate Weighs(d: Detail, score: real, weight: real) {
    d.score == RoundScore(score) && d.weight == weight && d.weighted == RoundScore(d.score * weight)
  }

  /** The time score of two times in minutes, by the steps of 5, 15, 60 and 180 minutes apart, either way. */
  function TimeSteps(a: real, b: real): real {
    if -5.0 <= a - b <= 5.0 then 1.0
    else if -15.0 <= a - b <= 15.0 then 0.8
    else if -60.0 <= a - b <= 60.0 then 0.55
    else if -180.0 <= a - b <= 180.0 then 0.25
    else 0.05
  }

  /** The components of a score, said of the two events. */
  ghost predicate Components(d: seq<Detail>, target: Event, candidate: Event, topology: real, same: (string, string) -> bool) {
    var a, b := target.identifiers, candidate.identifiers;
    var common, all := |target.tokens * candidate.tokens|, |target.tokens + candidate.tokens|;
    && |d| == 5
    && Weighs(d[0], if GivenFields(a, b) == 0 then 0.0 else SameFields(a, b, same) as real / GivenFields(a, b) as real, 0.35)
    && Weighs(d[1], TimeSteps(target.time, candidate.time), 0.25)
    && Weighs(d[2], topology, 0.20)
    && Weighs(d[3], if target.tokens == {} || candidate.tokens == {} || all == 0 then 0.0 else common as real / all as real, 0.15)
    && (candidate.evidence == [] ==> Weighs(d[4], 0.0, 0.05))
    && (candidate.evidence != [] && (exists key :: key in target.evidence && key in candidate.evidence) ==> Weighs(d[4], 1.0, 0.05))
    && (candidate.evidence != [] && (forall key :: key in candidate.evidence ==> key !in target.evidence) ==> Weighs(d[4], 0.6, 0.05))
  }

  /** Which identifiers, times, tokens and evidence make up the score. */
  lemma {:induction false} ComponentsOfEvents(f: Findings, target: Event, candidate: Event, used: bool, edges: seq<Edge>,
                                              same: (string, string) -> bool)
    requires Compared(f, target, candidate, used, edges, same)
    ensures Components(Details(f), target, candidate, TopologyScore(f.topology), same)
  {
    FieldsCounted(target.identifiers, candidate.identifiers, same);
    SemanticIsJaccard(target.tokens, candidate.tokens);
    UnionSize(target.tokens, candidate.tokens);
    hide IsFinding, RoundScore, Comparable, Matching, GivenFields, SameFields, SemanticScore, TopologyScore;
    assert TemporalScore(f.minutes) == TimeSteps(target.time, candidate.time);
    NoTokens(target.tokens, candidate.tokens);
  }

  lemma NoTokens(a: set<string>, b: set<string>)
    ensures a == {} || b == {} ==> SemanticScore(a, b) == 0.0
    ensures a != {} ==> |a + b| > 0
  {
    if a != {} {
      SubsetSize(a, a + b);
    }
  }

  /** `scoreCandidate`. */
  method ScoreCandidate(target: Event, candidate: Event, used: bool, edges: seq<Edge>, same: (string, string) -> bool)
    returns (score: real, details: seq<Detail>, confidence: Confidence, ghost f: Findings)
    ensures Compared(f, target, candidate, used, edges, same) && details == Details(f) && score == Total(f)
    ensures (confidence == High <==> score >= 0.8) && (confidence == Low <==> score < 0.5)
    ensures 0.0 <= score <= 1.0
    ensures Components(details, target, candidate, TopologyScore(f.topology), same)
    ensures candidate.evidence == [] ==> score < 0.7 && confidence != High
    ensures candidate.evidence != [] || Sum(details) < 0.7 ==> score == Sum(details)
  {
    hide Comparable, Matching, IsFinding, Details, Total, Sum;
    var topology := FindTopology(used, target.nodes, candidate.nodes, edges);
    var _, matches, comparable := CompareIdentifiers(Pairs(target.identifiers, candidate.identifiers), same);
    var findings := Findings(matches, comparable, Between(target.time, candidate.time), topology, target.tokens,
                             candidate.tokens, EvidenceOf(target, candidate));
    f := findings;
    ComparedIsSane(f, target, candidate, used, edges, same);
    EvidenceGate(f);
    ComponentsOfEvents(f, target, candidate, used, edges, same);
    hide Components, TopologyScore;
    score, details := ScoreTotal(findings);
    confidence := ConfidenceOf(score);
  }

  lemma OneMaximum(q: Problem, a: Path, b: Path)
    requires IsMaximal(q, a) && IsMaximal(q, b)
    ensures Score(a) == Score(b)
  {
    hide Score;
    var v :| TopologySearch.Candidate(q, v) && a == PathOf(v);
    var w :| TopologySearch.Candidate(q, w) && b == PathOf(w);
  }

  lemma {:induction false} OnePathSignal(a: real, b: real, q: Problem)
    requires IsPathSignal(a, q) && IsPathSignal(b, q)
    ensures a == b
  {
    hide Solvable;
    if Solvable(q) {
      var p :| IsMaximal(q, p) && a == Score(p);
      var r :| IsMaximal(q, r) && b == Score(r);
      OneMaximum(q, p, r);
    }
  }

  /** The order of the dependencies makes no difference to the topology score, given the best of them and the path signal. */
  ghost predicate SharedIsSettled(f: Findings, m: real, edges: seq<Edge>, targets: set<string>, candidates: set<string>) {
    || !f.topology.Signals? || OrderFree(m, edges, targets, candidates)
    || Signal(m) <= f.topology.path || (f.topology.path == 0.0 && Signal(m) == 0.05)
  }

  /** The finding with another signal of the shared dependencies. */
  function WithShared(f: Findings, shared: real): Findings
    requires f.topology.Signals?
  {
    f.(topology := f.topology.(shared := shared))
  }

  /** Two orders of the map give the two extreme findings. */
  lemma {:induction false} SharedExtremes(f: Findings, target: Event, candidate: Event, used: bool, edges: seq<Edge>,
                                          same: (string, string) -> bool, m: real)
    requires Compared(f, target, candidate, used, edges, same) && IsMax(m, edges, target.nodes, candidate.nodes)
    requires f.topology.Signals? && !OrderFree(m, edges, target.nodes, candidate.nodes)
    ensures Compared(WithShared(f, 0.0), target, candidate, used, edges, same)
    ensures Compared(WithShared(f, Signal(m)), target, candidate, used, edges, same) && Signal(m) != 0.0
  {
    hide IsPathSignal, Lists, Scan, Signal, OrderFree, IsMax, Comparable, Matching, EvidenceOf;
    var empty, named := TieDiffers(m, edges, target.nodes, candidate.nodes);
    assert IsSharedSignal(0.0, edges, target.nodes, candidate.nodes);
    assert IsSharedSignal(Signal(m), edges, target.nodes, candidate.nodes);
  }

  lemma {:induction false} OneFinding(f: Findings, g: Findings, target: Event, candidate: Event, used: bool, edges: seq<Edge>,
                                      same: (string, string) -> bool, m: real)
    requires Compared(f, target, candidate, used, edges, same) && Compared(g, target, candidate, used, edges, same)
    requires IsMax(m, edges, target.nodes, candidate.nodes) && SharedIsSettled(f, m, edges, target.nodes, candidate.nodes)
    ensures TopologyScore(f.topology) == TopologyScore(g.topology)
  {
    if f.topology.Signals? {
      var left, right := target.nodes, candidate.nodes;
      hide Comparable, Matching, EvidenceOf, Lists, Scan, Signal, IsMax, OrderFree, ScoreOf;
      OnePathSignal(f.topology.path, g.topology.path, Problem(left, right, edges, MAX_DEPTH));
      FindingIsSane(f.topology, left, right, edges);
      FindingIsSane(g.topology, left, right, edges);
      var o :| Lists(o, edges, left) && f.topology.shared == ScoreOf(Scan(o, edges, left, right));
      var p :| Lists(p, edges, left) && g.topology.shared == ScoreOf(Scan(p, edges, left, right));
      ScoreOfScan(o, m, edges, left, right);
      ScoreOfScan(p, m, edges, left, right);
      if OrderFree(m, edges, left, right) {
        SameScore(o, p, m, edges, left, right);
      }
    }
  }

  /** Findings that differ in the topology at most have the same score if they agree on the topology component. */
  lemma {:induction false} SameTotal(f: Findings, g: Findings)
    requires TopologyScore(f.topology) == TopologyScore(g.topology) && f.(topology := g.topology) == g
    ensures Details(f) == Details(g) && Total(f) == Total(g)
  {
    hide WeightedDetail, Sum;
  }

  /**
   * The topology component is the same whatever order a map is listed in exactly when no nameless dependency ties with
   * another for a best that counts, or the best path is at least as strong, or the tie is worth the 0.05 that having no
   * signal at all is; and then the components and the score are the same too.
   */
  lemma {:induction false} MapOrderIsNothing(f: Findings, target: Event, candidate: Event, used: bool, edges: seq<Edge>,
                                             same: (string, string) -> bool, m: real)
    requires Compared(f, target, candidate, used, edges, same) && IsMax(m, edges, target.nodes, candidate.nodes)
    ensures (forall g :: Compared(g, target, candidate, used, edges, same) ==>
               TopologyScore(g.topology) == TopologyScore(f.topology))
            <==> SharedIsSettled(f, m, edges, target.nodes, candidate.nodes)
    ensures SharedIsSettled(f, m, edges, target.nodes, candidate.nodes) ==>
              forall g :: Compared(g, target, candidate, used, edges, same) ==> Details(g) == Details(f) && Total(g) == Total(f)
  {
    var left, right := target.nodes, candidate.nodes;
    if SharedIsSettled(f, m, edges, left, right) {
      hide IsFinding, Comparable, Matching, EvidenceOf, Details, Total, TopologyScore, SharedIsSettled;
      forall g | Compared(g, target, candidate, used, edges, same)
        ensures TopologyScore(g.topology) == TopologyScore(f.topology) && Details(g) == Details(f) && Total(g) == Total(f)
      {
        OneFinding(f, g, target, candidate, used, edges, same, m);
        SameTotal(g, f);
      }
    } else {
      SharedExtremes(f, target, candidate, used, edges, same, m);
      SignalRange(m, edges, left, right);
      SomePath(f, target, candidate, used, edges, same);
      hide Compared, Signal, OrderFree, IsMax;
      assert TopologyScore(WithShared(f, 0.0).topology) != TopologyScore(WithShared(f, Signal(m)).topology);
    }
  }

  lemma SomePath(f: Findings, target: Event, candidate: Event, used: bool, edges: seq<Edge>, same: (string, string) -> bool)
    requires Compared(f, target, candidate, used, edges, same) && f.topology.Signals?
    ensures f.topology.path >= 0.0
  {
    hide IsFinding, Comparable, Matching, EvidenceOf;
    FindingIsSane(f.topology, target.nodes, candidate.nodes, edges);
  }
}
