/** Scoring and ranking the candidate events of a correlation. */
module Ranking {
  import opened Topology
  import Sorting

  // ---------- the five components ----------

  datatype Detail = Detail(score: real, weight: real, weighted: real)

  /** `weightedDetail`. */
  function WeightedDetail(score: real, weight: real): Detail {
    var rounded := RoundScore(score);
    Detail(rounded, weight, RoundScore(rounded * weight))
  }

  /** Comparable identifiers, and those of them that match; `same` ignores case. */
  method CompareIdentifiers(pairs: seq<(string, string)>, same: (string, string) -> bool) returns (score: real,
                            matches: nat, total: nat)
    ensures total == Comparable(pairs) && matches == Matching(pairs, same)
    ensures score == Ratio(matches, total)
  {
    matches, total := 0, 0;
    for i := 0 to |pairs|
      invariant total == Comparable(pairs[..i]) && matches == Matching(pairs[..i], same)
    {
      assert pairs[..i + 1][..i] == pairs[..i];
      var (left, right) := pairs[i];
      if left == "" || right == "" {
        continue;
      }
      total := total + 1;
      if same(left, right) {
        matches := matches + 1;
      }
    }
    assert pairs[..|pairs|] == pairs;
    score := if total > 0 then matches as real / total as real else 0.0;
  }

  function Comparable(pairs: seq<(string, string)>): nat {
    if pairs == [] then 0
    else Comparable(pairs[..|pairs| - 1]) + if pairs[|pairs| - 1].0 != "" && pairs[|pairs| - 1].1 != "" then 1 else 0
  }

  function Matching(pairs: seq<(string, string)>, same: (string, string) -> bool): (n: nat)
    ensures n <= Comparable(pairs)
  {
    if pairs == [] then 0
    else
      var (left, right) := pairs[|pairs| - 1];
      Matching(pairs[..|pairs| - 1], same) + if left != "" && right != "" && same(left, right) then 1 else 0
  }

  function Ratio(part: nat, whole: nat): real {
    if whole == 0 then 0.0 else part as real / whole as real
  }

  /** How close in time, by the minutes between the events. */
  function TemporalScore(minutes: real): real {
    if minutes <= 5.0 then 1.0
    else if minutes <= 15.0 then 0.8
    else if minutes <= 60.0 then 0.55
    else if minutes <= 180.0 then 0.25
    else 0.05
  }

  /** What the topology says: not used or no nodes, the same node, or the stronger of the two signals. */
  datatype TopologyFinding = NoTopology | SameNode | Signals(path: real, shared: real)

  function TopologyScore(t: TopologyFinding): real {
    match t
    case NoTopology => 0.0
    case SameNode => 1.0
    case Signals(path, shared) =>
      var best := if shared > path then shared else path;
      if best > 0.0 then best else 0.05
  }

  /** The topology component: 1 for the same node, else the stronger signal, and 0.05 for none; 0 without a topology. */
  lemma TopologyComponentIs(t: TopologyFinding)
    ensures t == NoTopology ==> TopologyScore(t) == 0.0
    ensures t == SameNode ==> TopologyScore(t) == 1.0
    ensures t.Signals? && (t.path > 0.0 || t.shared > 0.0) ==>
              TopologyScore(t) >= t.path && TopologyScore(t) >= t.shared && TopologyScore(t) in {t.path, t.shared}
    ensures t.Signals? && t.path <= 0.0 && t.shared <= 0.0 ==> TopologyScore(t) == 0.05
  {
  }

  /** The share of the tokens that both have. */
  function SemanticScore(left: set<string>, right: set<string>): real {
    if left == {} || right == {} then 0.0
    else
      var common := |left * right|;
      var union := |left| + |right| - common;
      if union > 0 then common as real / union as real else 0.0
  }

  datatype Evidence = NoEvidence | OwnEvidence | SharedEvidence

  function EvidenceScore(e: Evidence): real {
    match e case NoEvidence => 0.0 case OwnEvidence => 0.6 case SharedEvidence => 1.0
  }

  // ---------- the total ----------

  /** What the comparison of two events finds. */
  datatype Findings = Findings(matches: nat, comparable: nat, minutes: real, topology: TopologyFinding,
                               leftTokens: set<string>, rightTokens: set<string>, evidence: Evidence)

  ghost predicate Sane(f: Findings) {
    && f.matches <= f.comparable && f.minutes >= 0.0
    && (f.topology.Signals? ==> 0.0 <= f.topology.path <= 1.0 && 0.0 <= f.topology.shared <= 1.0)
  }

  function Details(f: Findings): seq<Detail> {
    [WeightedDetail(Ratio(f.matches, f.comparable), 0.35),
     WeightedDetail(TemporalScore(f.minutes), 0.25),
     WeightedDetail(TopologyScore(f.topology), 0.20),
     WeightedDetail(SemanticScore(f.leftTokens, f.rightTokens), 0.15),
     WeightedDetail(EvidenceScore(f.evidence), 0.05)]
  }

  function Sum(details: seq<Detail>): real {
    if details == [] then 0.0 else Sum(details[..|details| - 1]) + details[|details| - 1].weighted
  }

  /** The total: without evidence it is held below 0.7. */
  function Total(f: Findings): real {
    var total := Sum(Details(f));
    RoundScore(if f.evidence == NoEvidence && total >= 0.7 then 0.69 else total)
  }

  datatype Confidence = High | Medium | Low

  function ConfidenceOf(score: real): Confidence {
    if score >= 0.8 then High else if score >= 0.5 then Medium else Low
  }

  method ScoreTotal(f: Findings) returns (total: real, details: seq<Detail>)
    ensures details == Details(f) && total == Total(f)
  {
    details := Details(f);
    total := 0.0;
    for i := 0 to |details|
      invariant total == Sum(details[..i])
    {
      assert details[..i + 1][..i] == details[..i];
      total := total + details[i].weighted;
    }
    assert details[..|details|] == details;
    if f.evidence == NoEvidence && total >= 0.7 {
      total := 0.69;
    }
    total := RoundScore(total);
  }

  // ---------- ranges ----------

  lemma RatioRange(part: nat, whole: nat)
    requires part <= whole
    ensures 0.0 <= Ratio(part, whole) <= 1.0
    ensures Ratio(part, whole) == 1.0 <==> part == whole && whole > 0
  {
    if part < whole {
      assert part as real / whole as real < 1.0;
    }
  }

  /** The tokens of both, and the token union as the source counts it. */
  lemma {:induction false} UnionSize(left: set<string>, right: set<string>)
    ensures |left| + |right| - |left * right| == |left + right|
    ensures |left * right| <= |left + right|
  {
    SubsetSize(left * right, left + right);
  }

  lemma {:induction false} SameUnion(left: set<string>, right: set<string>)
    ensures left == right <==> |left * right| == |left + right|
  {
    SubsetSize(left * right, left + right);
    if left == right {
      assert left * right == left && left + right == left;
    } else {
      assert left * right != left + right;
    }
  }

  /** The semantic score is the share of common tokens among all tokens. */
  lemma {:induction false} SemanticIsJaccard(left: set<string>, right: set<string>)
    ensures 0.0 <= SemanticScore(left, right) <= 1.0
    ensures left != {} && right != {} ==> SemanticScore(left, right) == |left * right| as real / |left + right| as real
    ensures SemanticScore(left, right) == 1.0 <==> left == right && left != {}
  {
    UnionSize(left, right);
    if left != {} && right != {} {
      var common, all := |left * right|, |left + right|;
      assert all > 0 by {
        assert left <= left + right;
        SubsetSize(left, left + right);
      }
      SubsetSize(left * right, left + right);
      RatioRange(common, all);
      SameUnion(left, right);
      assert SemanticScore(left, right) == Ratio(common, all);
    }
  }

  lemma {:induction false} SubsetSize<T>(a: set<T>, b: set<T>)
    requires a <= b
    ensures |a| <= |b| && (a < b ==> |a| < |b|)
  {
    assert b == a + (b - a);
    if a < b {
      var x :| x in b && x !in a;
      assert x in b - a;
    }
  }

  lemma WeighedRange(score: real, weight: real)
    requires 0.0 <= score <= 1.0 && 0.0 <= weight
    ensures 0.0 <= score * weight <= weight
  {
    ProductBound(weight, score);
  }

  lemma RoundedUpTo(v: real, limit: real, w: nat)
    requires 0.0 <= v <= limit && limit == w as real / 1000.0
    ensures 0.0 <= RoundScore(v) <= limit && Milli(RoundScore(v))
  {
    RoundBetween(v, 0, w);
    RoundMilli(v);
  }

  /** A weighted component lies between 0 and its weight, in thousandths. */
  lemma {:induction false} DetailRange(score: real, weight: real, w: nat)
    requires 0.0 <= score <= 1.0 && weight == w as real / 1000.0
    ensures var d := WeightedDetail(score, weight);
            0.0 <= d.score <= 1.0 && 0.0 <= d.weighted <= weight && Milli(d.weighted)
  {
    hide RoundScore, Milli;
    RoundedUpTo(score, 1.0, 1000);
    WeighedRange(RoundScore(score), weight);
    RoundedUpTo(RoundScore(score) * weight, weight, w);
  }

  lemma {:induction false} ComponentScores(f: Findings)
    requires Sane(f)
    ensures 0.0 <= Ratio(f.matches, f.comparable) <= 1.0 && 0.0 <= TemporalScore(f.minutes) <= 1.0
    ensures 0.0 <= TopologyScore(f.topology) <= 1.0
    ensures 0.0 <= SemanticScore(f.leftTokens, f.rightTokens) <= 1.0 && 0.0 <= EvidenceScore(f.evidence) <= 1.0
  {
    RatioRange(f.matches, f.comparable);
    SemanticIsJaccard(f.leftTokens, f.rightTokens);
  }

  lemma {:induction false} SumOfFive(a: Detail, b: Detail, c: Detail, d: Detail, e: Detail)
    ensures Sum([a, b, c, d, e]) == a.weighted + b.weighted + c.weighted + d.weighted + e.weighted
  {
    assert [a, b, c, d, e][..4] == [a, b, c, d] && [a, b, c, d][..3] == [a, b, c] && [a, b, c][..2] == [a, b] && [a, b][..1] == [a];
    assert [a][..0] == [];
    assert Sum([a]) == a.weighted;
    assert Sum([a, b]) == a.weighted + b.weighted;
    assert Sum([a, b, c]) == a.weighted + b.weighted + c.weighted;
  }

  lemma {:induction false} MilliSum(a: real, b: real)
    requires Milli(a) && Milli(b)
    ensures Milli(a + b)
  {
    var m: int :| IsMilli(a, m);
    var n: int :| IsMilli(b, n);
    assert IsMilli(a + b, m + n);
  }

  /** Every component lies in [0, 1] and weighs at most its weight; the weights add up to 1. */
  lemma {:induction false} DetailsInRange(f: Findings)
    requires Sane(f)
    ensures forall i :: 0 <= i < |Details(f)| ==>
              0.0 <= Details(f)[i].score <= 1.0 && 0.0 <= Details(f)[i].weighted <= Details(f)[i].weight
    ensures 0.0 <= Sum(Details(f)) <= 1.0 && Milli(Sum(Details(f)))
  {
    ComponentScores(f);
    DetailRange(Ratio(f.matches, f.comparable), 0.35, 350);
    DetailRange(TemporalScore(f.minutes), 0.25, 250);
    DetailRange(TopologyScore(f.topology), 0.20, 200);
    DetailRange(SemanticScore(f.leftTokens, f.rightTokens), 0.15, 150);
    DetailRange(EvidenceScore(f.evidence), 0.05, 50);
    var d := Details(f);
    hide WeightedDetail, RoundScore, Ratio, TemporalScore, TopologyScore, SemanticScore, EvidenceScore, Milli, Sum;
    SumOfFive(d[0], d[1], d[2], d[3], d[4]);
    MilliSum(d[0].weighted, d[1].weighted);
    MilliSum(d[0].weighted + d[1].weighted, d[2].weighted);
    MilliSum(d[0].weighted + d[1].weighted + d[2].weighted, d[3].weighted);
    MilliSum(d[0].weighted + d[1].weighted + d[2].weighted + d[3].weighted, d[4].weighted);
  }

  /** A score lies in [0, 1]; without evidence it stays below 0.7 and is never of high confidence. */
  lemma {:induction false} EvidenceGate(f: Findings)
    requires Sane(f)
    ensures 0.0 <= Total(f) <= 1.0
    ensures f.evidence == NoEvidence ==> Total(f) < 0.7 && ConfidenceOf(Total(f)) != High
    ensures f.evidence != NoEvidence || Sum(Details(f)) < 0.7 ==> Total(f) == Sum(Details(f))
  {
    DetailsInRange(f);
    var total := Sum(Details(f));
    hide Sum, Details;
    var n: int :| IsMilli(total, n);
    RoundFixesMilli(n);
    RoundFixesMilli(690);
    RoundBetween(total, 0, 1000);
  }

  // ---------- stronger findings ----------

  /** Each finding about f is no stronger than that about g. */
  ghost predicate Weaker(f: Findings, g: Findings) {
    && Ratio(f.matches, f.comparable) <= Ratio(g.matches, g.comparable)
    && TemporalScore(f.minutes) <= TemporalScore(g.minutes)
    && TopologyScore(f.topology) <= TopologyScore(g.topology)
    && SemanticScore(f.leftTokens, f.rightTokens) <= SemanticScore(g.leftTokens, g.rightTokens)
    && EvidenceScore(f.evidence) <= EvidenceScore(g.evidence)
  }

  lemma WeightedAt(score: real, weight: real, product: real)
    requires product == RoundScore(score) * weight
    ensures WeightedDetail(score, weight).weighted == RoundScore(product)
  {
    hide RoundScore;
  }

  lemma WeightedMonotone(a: real, b: real, weight: real)
    requires a <= b && weight >= 0.0
    ensures WeightedDetail(a, weight).weighted <= WeightedDetail(b, weight).weighted
  {
    hide *;
    var p, q := RoundScore(a) * weight, RoundScore(b) * weight;
    RoundMonotone(a, b);
    ProductMonotone(RoundScore(a), RoundScore(b), weight);
    RoundMonotone(p, q);
    WeightedAt(a, weight, p);
    WeightedAt(b, weight, q);
  }

  lemma ProductMonotone(x: real, y: real, w: real)
    requires x <= y && w >= 0.0
    ensures x * w <= y * w
  {
    assert (y - x) * w >= 0.0;
  }

  lemma {:induction false} SumMonotone(f: Findings, g: Findings)
    requires Weaker(f, g)
    ensures Sum(Details(f)) <= Sum(Details(g))
  {
    WeightedMonotone(Ratio(f.matches, f.comparable), Ratio(g.matches, g.comparable), 0.35);
    WeightedMonotone(TemporalScore(f.minutes), TemporalScore(g.minutes), 0.25);
    WeightedMonotone(TopologyScore(f.topology), TopologyScore(g.topology), 0.20);
    WeightedMonotone(SemanticScore(f.leftTokens, f.rightTokens), SemanticScore(g.leftTokens, g.rightTokens), 0.15);
    WeightedMonotone(EvidenceScore(f.evidence), EvidenceScore(g.evidence), 0.05);
    var d, e := Details(f), Details(g);
    hide WeightedDetail, RoundScore, Ratio, TemporalScore, TopologyScore, SemanticScore, EvidenceScore, Sum;
    SumOfFive(d[0], d[1], d[2], d[3], d[4]);
    SumOfFive(e[0], e[1], e[2], e[3], e[4]);
  }

  /** The total in terms of the sum: the gate lets it through or puts 0.69 in its place. */
  lemma {:induction false} TotalIs(f: Findings)
    requires Sane(f)
    ensures Total(f) == if f.evidence == NoEvidence && Sum(Details(f)) >= 0.7 then 0.69 else Sum(Details(f))
  {
    DetailsInRange(f);
    var total := Sum(Details(f));
    hide Sum, Details;
    var n: int :| IsMilli(total, n);
    RoundFixesMilli(n);
    RoundFixesMilli(690);
  }

  /**
   * Stronger findings score at least as much, except where the gate cuts in: without evidence, a sum above 0.69 that stays
   * below 0.7 beats every larger sum.
   */
  lemma {:induction false} StrongerScoresMore(f: Findings, g: Findings)
    requires Sane(f) && Sane(g) && Weaker(f, g)
    ensures Total(f) <= Total(g)
            <==> !(g.evidence == NoEvidence && 0.69 < Sum(Details(f)) < 0.7 <= Sum(Details(g)))
  {
    SumMonotone(f, g);
    TotalIs(f);
    TotalIs(g);
    assert f.evidence != NoEvidence ==> g.evidence != NoEvidence;
    hide Sum, Details, Total;
  }

  /** A stronger path can lower the score: the sum goes from 0.692 to 0.7, and the score from 0.692 to 0.69. */
  lemma {:induction false} StrongerPathScoresLess() returns (f: Findings, g: Findings)
    ensures Sane(f) && Sane(g) && Weaker(f, g) && f == g.(topology := f.topology)
    ensures f.topology.Signals? && g.topology.Signals? && f.topology.path < g.topology.path
    ensures Total(f) == 0.692 && Total(g) == 0.69
  {
    f := Findings(1, 1, 0.0, Signals(0.46, 0.0), {}, {}, NoEvidence);
    g := f.(topology := Signals(0.5, 0.0));
    WitnessSum(f, 460, 92);
    WitnessSum(g, 500, 100);
    TotalIs(f);
    TotalIs(g);
    hide Sum, Details, Total;
  }

  lemma {:induction false} WitnessSum(f: Findings, path: nat, weighed: nat)
    requires f == Findings(1, 1, 0.0, Signals(path as real / 1000.0, 0.0), {}, {}, NoEvidence) && path > 0
    requires weighed as real / 1000.0 == path as real / 1000.0 * 0.2
    ensures Sum(Details(f)) == 0.6 + weighed as real / 1000.0
  {
    var d := Details(f);
    RoundFixesMilli(1000);
    RoundFixesMilli(350);
    RoundFixesMilli(250);
    RoundFixesMilli(path);
    RoundFixesMilli(weighed);
    RoundFixesMilli(0);
    hide RoundScore;
    assert d[0].weighted == 0.35 && d[1].weighted == 0.25;
    assert d[2].weighted == weighed as real / 1000.0;
    assert d[3].weighted == 0.0 && d[4].weighted == 0.0;
    hide Sum;
    SumOfFive(d[0], d[1], d[2], d[3], d[4]);
  }

  // ---------- the ranked list ----------

  datatype Candidate = Candidate(id: int, time: int, score: real)

  /** Higher scores first, then earlier events, then smaller ids. */
  predicate RankLeq(a: Candidate, b: Candidate) {
    || a.score > b.score
    || (a.score == b.score && (a.time < b.time || (a.time == b.time && a.id <= b.id)))
  }

  /** The candidates among the events: all but the target itself. */
  function Others(events: seq<Candidate>, target: int): seq<Candidate> {
    if events == [] then []
    else Others(events[..|events| - 1], target) + if events[|events| - 1].id == target then [] else [events[|events| - 1]]
  }

  function Ranked(events: seq<Candidate>, target: int, limit: nat): seq<Candidate> {
    var sorted := Sorting.Sort(Others(events, target), RankLeq);
    if |sorted| > limit then sorted[..limit] else sorted
  }

  method Rank(events: seq<Candidate>, target: int, limit: nat) returns (candidates: seq<Candidate>)
    ensures candidates == Ranked(events, target, limit)
  {
    candidates := [];
    for i := 0 to |events|
      invariant candidates == Others(events[..i], target)
    {
      assert events[..i + 1][..i] == events[..i];
      if events[i].id == target {
        continue;
      }
      candidates := candidates + [events[i]];
    }
    assert events[..|events|] == events;
    candidates := Sorting.Sort(candidates, RankLeq);
    if |candidates| > limit {
      candidates := candidates[..limit];
    }
  }

  lemma RankOrder()
    ensures Sorting.TotalPreorder(RankLeq)
  {
  }

  lemma {:induction false} OthersCount(events: seq<Candidate>, target: int, c: Candidate)
    ensures multiset(Others(events, target))[c] == if c.id == target then 0 else multiset(events)[c]
  {
    if events != [] {
      OthersCount(events[..|events| - 1], target, c);
      assert events == events[..|events| - 1] + [events[|events| - 1]];
    }
  }

  ghost predicate DistinctIds(events: seq<Candidate>) {
    forall a, b :: a in events && b in events && a.id == b.id ==> a == b
  }

  /** A better score, or the same and no later, and at the same time no greater id. */
  predicate Ahead(a: Candidate, b: Candidate) {
    a.score >= b.score && (a.score == b.score ==> a.time <= b.time) && (a.score == b.score && a.time == b.time ==> a.id <= b.id)
  }

  /** The list is ranked, and what is cut off ranks behind what is kept. */
  lemma {:induction false} RankedIsBest(events: seq<Candidate>, target: int, limit: nat)
    ensures Sorting.Sorted(Ranked(events, target, limit), RankLeq)
    ensures forall i, j :: 0 <= i < j < |Ranked(events, target, limit)| ==>
              Ahead(Ranked(events, target, limit)[i], Ranked(events, target, limit)[j])
    ensures |Ranked(events, target, limit)| <= limit
    ensures multiset(Sorting.Sort(Others(events, target), RankLeq)) == multiset(Others(events, target))
    ensures forall i, j :: 0 <= i < |Ranked(events, target, limit)| <= j < |Sorting.Sort(Others(events, target), RankLeq)| ==>
              RankLeq(Ranked(events, target, limit)[i], Sorting.Sort(Others(events, target), RankLeq)[j])
  {
    RankOrder();
    Sorting.SortSorts(Others(events, target), RankLeq);
  }

  /** Whatever is listed is one of the events, and not the target; and what is not cut off is every other event. */
  lemma {:induction false} RankedAreEvents(events: seq<Candidate>, target: int, limit: nat, c: Candidate)
    ensures c in Ranked(events, target, limit) ==> c in events && c.id != target
    ensures |Others(events, target)| <= limit && c in events && c.id != target ==> c in Ranked(events, target, limit)
  {
    RankOrder();
    Sorting.SortSorts(Others(events, target), RankLeq);
    OthersCount(events, target, c);
    hide Others, RankLeq, Sorting.Sorted;
    var sorted := Sorting.Sort(Others(events, target), RankLeq);
    assert c in sorted <==> c in multiset(sorted);
    assert |multiset(sorted)| == |multiset(Others(events, target))|;
    assert c in events <==> c in multiset(events);
  }

  lemma {:induction false} SameOthers(a: seq<Candidate>, b: seq<Candidate>, target: int)
    requires multiset(a) == multiset(b)
    ensures multiset(Others(a, target)) == multiset(Others(b, target))
  {
    forall c ensures multiset(Others(a, target))[c] == multiset(Others(b, target))[c] {
      OthersCount(a, target, c);
      OthersCount(b, target, c);
    }
  }

  lemma {:induction false} DistinctRanks(events: seq<Candidate>, target: int, sorted: seq<Candidate>)
    requires DistinctIds(events) && multiset(sorted) == multiset(Others(events, target))
    ensures Sorting.NoTies(sorted, RankLeq)
  {
    hide Others;
    forall x, y | x in sorted && y in sorted && RankLeq(x, y) && RankLeq(y, x) ensures x == y {
      OthersCount(events, target, x);
      OthersCount(events, target, y);
      assert x in multiset(sorted) && y in multiset(sorted);
      assert x in multiset(events) && y in multiset(events);
    }
  }

  /** The order in which the events arrive makes no difference. */
  lemma {:induction false} ArrivalOrderIsNothing(a: seq<Candidate>, b: seq<Candidate>, target: int, limit: nat)
    requires multiset(a) == multiset(b) && DistinctIds(a)
    ensures Ranked(a, target, limit) == Ranked(b, target, limit)
  {
    hide Others, DistinctIds, RankLeq;
    SameOthers(a, b, target);
    RankOrder();
    Sorting.SortSorts(Others(a, target), RankLeq);
    Sorting.SortSorts(Others(b, target), RankLeq);
    DistinctRanks(a, target, Sorting.Sort(Others(a, target), RankLeq));
    hide Sorting.Sort, Sorting.Sorted, Sorting.NoTies;
    Sorting.OneSorted(Sorting.Sort(Others(a, target), RankLeq), Sorting.Sort(Others(b, target), RankLeq), RankLeq);
  }
}
