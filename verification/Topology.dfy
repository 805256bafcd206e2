/** Topology edges, relation semantics and path scores of the correlation service. */
module Topology {
  import opened Wrappers

  /** An edge of the topology graph; confidence is the stored value, resolved the reviewed one. */
  datatype Edge = Edge(from: string, to: string, kind: string, confidence: Option<real>, resolved: Option<real>)

  datatype Semantics =
    | HardDependency | RuntimeDependency | Traffic | Ownership | Containment
    | Configuration | Annotation | Observation

  datatype Path = Path(nodeKeys: seq<string>, edgeTypes: seq<string>, confidence: real, semantics: seq<Semantics>)

  const EMPTY_PATH := Path([], [], 0.0, [])

  function RelationSemantics(kind: string): Semantics {
    if kind == "observed_with" then Observation
    else if kind == "owns" then Ownership
    else if kind in {"selects", "member_of", "exposes"} then Annotation
    else if kind == "runs_on" then Containment
    else if kind in {"depends_on", "stores_in", "replicates_to", "connects_to"} then RuntimeDependency
    else if kind in {"calls", "routes_to", "registered_in"} then Traffic
    else RuntimeDependency
  }

  function RelationBase(kind: string): (b: real)
    ensures 0.0 < b <= 0.95
  {
    match RelationSemantics(kind)
    case Observation => 0.2
    case HardDependency => 0.95
    case RuntimeDependency => 0.9
    case Traffic => 0.9
    case Ownership => 0.8
    case Containment => 0.8
    case Configuration => 0.65
    case Annotation => 0.35
  }

  predicate Propagates(kind: string) {
    RelationSemantics(kind) !in {Observation, Annotation}
  }

  /** The reviewed confidence if there is one, else the stored one, else 1; clamped to [0, 1]. */
  function EdgeConfidence(e: Edge): (c: real)
    ensures 0.0 <= c <= 1.0
  {
    var c := if e.resolved.Some? then e.resolved.value
             else if e.confidence.Some? then e.confidence.value else 1.0;
    if c < 0.0 then 0.0 else if c > 1.0 then 1.0 else c
  }

  function Reverse(e: Edge): Edge {
    e.(from := e.to, to := e.from)
  }

  /** 1000 v rounded to the nearest integer, halves up: Go's `math.Round` for v >= 0. */
  function Thousandths(v: real): (n: int)
    ensures n as real <= v * 1000.0 + 0.5 < n as real + 1.0
  {
    (v * 1000.0 + 0.5).Floor
  }

  /** `math.Round(1000 v) / 1000`. */
  function RoundScore(v: real): real {
    Thousandths(v) as real / 1000.0
  }

  /** A whole number of thousandths: what rounding produces and leaves alone. */
  ghost predicate Milli(v: real) {
    exists n: int :: IsMilli(v, n)
  }

  predicate IsMilli(v: real, n: int) {
    v == n as real / 1000.0
  }

  lemma RoundMonotone(a: real, b: real)
    requires a <= b
    ensures RoundScore(a) <= RoundScore(b)
  {
    var m, n := Thousandths(a), Thousandths(b);
    assert m as real < n as real + 1.0;
    assert m <= n;
  }

  lemma RoundMilli(v: real)
    ensures Milli(RoundScore(v))
  {
    assert IsMilli(RoundScore(v), Thousandths(v));
  }

  lemma RoundFixesMilli(n: int)
    ensures RoundScore(n as real / 1000.0) == n as real / 1000.0
  {
    var m := Thousandths(n as real / 1000.0);
    assert m as real <= n as real + 0.5 < m as real + 1.0;
    assert m == n;
  }

  function HopFactor(hops: nat): real {
    if hops == 2 then 0.72 else if hops >= 3 then 0.55 else 1.0
  }

  /** The strongest relation base of the path, 0 on the empty path. */
  function BestBase(kinds: seq<string>): (b: real)
    ensures 0.0 <= b <= 0.95
  {
    if kinds == [] then 0.0
    else
      var before, last := BestBase(kinds[..|kinds| - 1]), RelationBase(kinds[|kinds| - 1]);
      if last > before then last else before
  }

  predicate ObservationOnly(kinds: seq<string>) {
    forall i :: 0 <= i < |kinds| ==> RelationSemantics(kinds[i]) == Observation
  }

  function Product(base: real, confidence: real, hop: real): real {
    base * confidence * hop
  }

  /** The score of a path as a value. */
  function Score(p: Path): real {
    if p.edgeTypes == [] then 0.0
    else
      var raw := Product(BestBase(p.edgeTypes), p.confidence, HopFactor(|p.edgeTypes|));
      RoundScore(if ObservationOnly(p.edgeTypes) && raw > 0.2 then 0.2 else raw)
  }

  /** The scan over the edge types: strongest base, and whether all of them only observe. */
  method ScanKinds(kinds: seq<string>) returns (base: real, observationOnly: bool)
    ensures base == BestBase(kinds)
    ensures observationOnly == ObservationOnly(kinds)
  {
    base, observationOnly := 0.0, true;
    for i := 0 to |kinds|
      invariant base == BestBase(kinds[..i])
      invariant observationOnly == ObservationOnly(kinds[..i])
    {
      assert kinds[..i + 1][..i] == kinds[..i];
      var edgeBase := RelationBase(kinds[i]);
      if edgeBase > base {
        base := edgeBase;
      }
      if RelationSemantics(kinds[i]) != Observation {
        observationOnly := false;
      }
    }
    assert kinds[..|kinds|] == kinds;
  }

  /** The relation is one of the path, and as strong as any of it. */
  ghost predicate Strongest(kinds: seq<string>, kind: string) {
    kind in kinds && forall k :: k in kinds ==> RelationBase(k) <= RelationBase(kind)
  }

  /** A path seen by observation only never counts for more than 0.2. */
  ghost function Capped(kinds: seq<string>, raw: real): real {
    if (forall k :: k in kinds ==> k == "observed_with") && raw > 0.2 then 0.2 else raw
  }

  /** The score of a path whose strongest relation has this base. */
  ghost predicate ScoresWith(score: real, base: real, p: Path) {
    var hop := if |p.edgeTypes| == 1 then 1.0 else if |p.edgeTypes| == 2 then 0.72 else 0.55;
    score == RoundScore(Capped(p.edgeTypes, base * p.confidence * hop))
  }

  lemma {:induction false} BestBaseIsStrongest(kinds: seq<string>)
    requires kinds != []
    ensures exists kind :: Strongest(kinds, kind) && BestBase(kinds) == RelationBase(kind)
  {
    var before, last := kinds[..|kinds| - 1], kinds[|kinds| - 1];
    assert kinds == before + [last];
    hide RelationBase;
    if before == [] {
      assert BestBase(before) == 0.0;
      assert Strongest(kinds, last);
    } else {
      BestBaseIsStrongest(before);
      var kind :| Strongest(before, kind) && BestBase(before) == RelationBase(kind);
      assert Strongest(kinds, if RelationBase(last) > RelationBase(kind) then last else kind);
    }
  }

  lemma {:induction false} OnlyObserved(kinds: seq<string>)
    ensures ObservationOnly(kinds) <==> forall k :: k in kinds ==> k == "observed_with"
  {
    forall k ensures RelationSemantics(k) == Observation <==> k == "observed_with" {
    }
    hide RelationSemantics;
    if !ObservationOnly(kinds) {
      var i :| 0 <= i < |kinds| && RelationSemantics(kinds[i]) != Observation;
      assert kinds[i] in kinds;
    }
  }

  /** The weight of every relation, and which of them carry a failure on. */
  lemma RelationTable(kind: string)
    ensures RelationBase(kind) ==
            if kind == "observed_with" then 0.2
            else if kind in {"selects", "member_of", "exposes"} then 0.35
            else if kind in {"owns", "runs_on"} then 0.8
            else 0.9
    ensures Propagates(kind) <==> kind !in {"observed_with", "selects", "member_of", "exposes"}
  {
  }

  lemma ProductIs(base: real, confidence: real, hop: real)
    ensures Product(base, confidence, hop) == base * confidence * hop
  {
  }

  lemma ScoreIs(p: Path, raw: real)
    requires p.edgeTypes != [] && raw == Product(BestBase(p.edgeTypes), p.confidence, HopFactor(|p.edgeTypes|))
    ensures Score(p) == RoundScore(Capped(p.edgeTypes, raw))
  {
    OnlyObserved(p.edgeTypes);
    hide RoundScore, BestBase, ObservationOnly, Product, HopFactor;
  }

  /** A score is that of the strongest relation of the path, times its confidence, less for two and for more edges. */
  lemma {:induction false} ScoreMeaning(p: Path)
    requires p.edgeTypes != []
    ensures exists kind :: Strongest(p.edgeTypes, kind) && ScoresWith(Score(p), RelationBase(kind), p)
  {
    BestBaseIsStrongest(p.edgeTypes);
    var kind :| Strongest(p.edgeTypes, kind) && BestBase(p.edgeTypes) == RelationBase(kind);
    hide RoundScore, RelationBase, Strongest, BestBase, Score, Capped, Product;
    ProductIs(RelationBase(kind), p.confidence, HopFactor(|p.edgeTypes|));
    ScoreIs(p, Product(RelationBase(kind), p.confidence, HopFactor(|p.edgeTypes|)));
    assert ScoresWith(Score(p), RelationBase(kind), p);
  }

  /** Rounding moves a value by half a thousandth at most. */
  lemma RoundNearest(v: real)
    ensures v - 0.0005 <= RoundScore(v) <= v + 0.0005
  {
    var n := Thousandths(v);
    assert n as real <= v * 1000.0 + 0.5 < n as real + 1.0;
  }

  /** A confidence in range is taken as it is, the reviewed one before the stored one; without any the edge is certain. */
  lemma ConfidenceChoice(e: Edge)
    ensures e.resolved.Some? && 0.0 <= e.resolved.value <= 1.0 ==> EdgeConfidence(e) == e.resolved.value
    ensures e.resolved.None? && e.confidence.Some? && 0.0 <= e.confidence.value <= 1.0 ==> EdgeConfidence(e) == e.confidence.value
    ensures e.resolved.None? && e.confidence.None? ==> EdgeConfidence(e) == 1.0
    ensures e.resolved.Some? && e.resolved.value < 0.0 ==> EdgeConfidence(e) == 0.0
    ensures e.resolved.Some? && e.resolved.value > 1.0 ==> EdgeConfidence(e) == 1.0
  {
  }

  method PathScore(p: Path) returns (score: real)
    ensures score == Score(p)
    ensures p.edgeTypes == [] ==> score == 0.0
    ensures p.edgeTypes != [] ==>
              exists kind :: Strongest(p.edgeTypes, kind) && ScoresWith(score, RelationBase(kind), p)
  {
    if p.edgeTypes == [] {
      return 0.0;
    }
    ScoreMeaning(p);
    hide Strongest, ScoresWith, RelationBase;
    var base, observationOnly := ScanKinds(p.edgeTypes);
    score := Product(base, p.confidence, HopFactor(|p.edgeTypes|));
    if observationOnly && score > 0.2 {
      score := 0.2;
    }
    score := RoundScore(score);
  }

  /** A path score lies in [0, 0.95], and a path seen only by observation never passes 0.2. */
  lemma ScoreRange(p: Path)
    requires 0.0 <= p.confidence <= 1.0
    ensures 0.0 <= Score(p) <= 0.95
    ensures ObservationOnly(p.edgeTypes) ==> Score(p) <= 0.2
  {
    if p.edgeTypes != [] {
      var raw := Product(BestBase(p.edgeTypes), p.confidence, HopFactor(|p.edgeTypes|));
      ProductRange(BestBase(p.edgeTypes), p.confidence, HopFactor(|p.edgeTypes|));
      RoundBetween(if ObservationOnly(p.edgeTypes) && raw > 0.2 then 0.2 else raw, 0, 950);
      if ObservationOnly(p.edgeTypes) {
        RoundBetween(if raw > 0.2 then 0.2 else raw, 0, 200);
      }
    }
  }

  /** Rounding stays within thousandth bounds. */
  lemma RoundBetween(v: real, lo: int, hi: int)
    requires lo as real / 1000.0 <= v <= hi as real / 1000.0
    ensures lo as real / 1000.0 <= RoundScore(v) <= hi as real / 1000.0
  {
    var n := Thousandths(v);
    assert lo as real < n as real + 1.0;
    assert n as real <= hi as real + 0.5;
    assert lo <= n <= hi;
  }

  lemma ProductRange(base: real, confidence: real, hop: real)
    requires 0.0 <= base <= 0.95 && 0.0 <= confidence <= 1.0 && 0.0 <= hop <= 1.0
    ensures 0.0 <= Product(base, confidence, hop) <= 0.95
  {
    ProductBound(base, confidence);
    ProductBound(base * confidence, hop);
  }

  lemma ProductBound(a: real, b: real)
    requires 0.0 <= a && 0.0 <= b <= 1.0
    ensures 0.0 <= a * b <= a
  {
    assert a * b <= a * 1.0;
  }
}
