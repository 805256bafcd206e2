/** When the path search succeeds: reachability, the one- and two-hop checks, and the trimmed keys. */
module TopologyReach {
  import opened Wrappers
  import opened Text
  import opened Topology
  import opened TopologySearch

  // ---------- nodes by position ----------

  lemma {:induction false} NodesFrom(w: Walk)
    ensures Nodes(w)[0] == w.start
    ensures forall i :: 0 <= i < |w.steps| ==> Nodes(w)[i + 1] == w.steps[i].to
    decreases |w.steps|
  {
    if w.steps != [] {
      var shorter := Walk(w.start, w.steps[..|w.steps| - 1]);
      NodesFrom(shorter);
      forall i | 0 <= i < |w.steps| ensures Nodes(w)[i + 1] == w.steps[i].to {
        if i < |shorter.steps| {
          assert Nodes(w)[i + 1] == Nodes(shorter)[i + 1] && shorter.steps[i] == w.steps[i];
        }
      }
    }
  }

  // ---------- reachability ----------

  /** A walk of exactly n edges links the two sets; nothing is asked of its inner nodes. */
  ghost predicate LinkedBy(from: set<string>, to: set<string>, edges: seq<Edge>, n: nat) {
    exists w :: IsLink(from, to, edges, n, w)
  }

  predicate IsLink(from: set<string>, to: set<string>, edges: seq<Edge>, n: nat, w: Walk) {
    w.start in from && Connected(edges, w) && |w.steps| == n && Last(w) in to
  }

  predicate IsKey(q: Problem, v: string) {
    v in q.from || exists i :: 0 <= i < |q.edges| && (v == q.edges[i].from || v == q.edges[i].to)
  }

  /** No key is another key with white space around it. */
  ghost predicate NoTrimClash(q: Problem) {
    forall u, v :: IsKey(q, u) && IsKey(q, v) && u != v && Trim(u) != [] ==> Trim(u) != v
  }

  lemma {:induction false} NodesAreKeys(q: Problem, w: Walk)
    requires w.start in q.from && Connected(q.edges, w)
    ensures forall i :: 0 <= i <= |w.steps| ==> IsKey(q, Nodes(w)[i])
  {
    NodesFrom(w);
    forall i | 0 <= i <= |w.steps| ensures IsKey(q, Nodes(w)[i]) {
      if i > 0 {
        var e := w.steps[i - 1];
        assert InGraph(q.edges, e) && Nodes(w)[i] == e.to;
        if e in q.edges {
          var k :| 0 <= k < |q.edges| && q.edges[k] == e;
        } else {
          var k :| 0 <= k < |q.edges| && q.edges[k] == Reverse(e);
        }
      }
    }
  }

  lemma {:induction false} SimpleIsFresh(q: Problem, w: Walk)
    requires w.start in q.from && Connected(q.edges, w) && Simple(w) && NoTrimClash(q)
    ensures Fresh(w)
  {
    NodesAreKeys(q, w);
    forall j | 1 <= j <= |w.steps| ensures Nodes(w)[j] !in StringSet(Nodes(w)[..j]) {
      forall v | v in Nodes(w)[..j] ensures IsKey(q, v) && v != Nodes(w)[j] {
        var i :| 0 <= i < j && Nodes(w)[i] == v;
      }
    }
  }

  /** Cutting out a loop. */
  lemma {:induction false} CutLoop(edges: seq<Edge>, w: Walk, i: nat, j: nat) returns (c: Walk)
    requires Connected(edges, w) && i < j <= |w.steps| && Nodes(w)[i] == Nodes(w)[j]
    ensures Connected(edges, c) && c.start == w.start && Last(c) == Last(w)
    ensures |c.steps| == |w.steps| - (j - i)
  {
    c := Walk(w.start, w.steps[..i] + w.steps[j..]);
    CutNodes(w, c, i, j);
    NodesFrom(c);
    hide Nodes, InGraph;
    forall k | 0 <= k < |c.steps|
      ensures InGraph(edges, c.steps[k]) && c.steps[k].from == Nodes(c)[k]
    {
      assert c.steps[k] == w.steps[if k < i then k else k - i + j];
    }
  }

  /** The nodes of a walk whose loop is cut out. */
  lemma {:induction false} CutNodes(w: Walk, c: Walk, i: nat, j: nat)
    requires i < j <= |w.steps| && Nodes(w)[i] == Nodes(w)[j]
    requires c == Walk(w.start, w.steps[..i] + w.steps[j..])
    ensures |c.steps| == |w.steps| - (j - i)
    ensures forall k :: 0 <= k <= |c.steps| ==> Nodes(c)[k] == Nodes(w)[if k <= i then k else k - i + j]
    ensures Last(c) == Last(w)
  {
    NodesFrom(w);
    NodesFrom(c);
    forall k | 0 <= k <= |c.steps| ensures Nodes(c)[k] == Nodes(w)[if k <= i then k else k - i + j] {
      if k > 0 {
        assert c.steps[k - 1] == w.steps[if k <= i then k - 1 else k - 1 - i + j];
      }
    }
  }

  lemma {:induction false} Truncate(edges: seq<Edge>, w: Walk, n: nat) returns (c: Walk)
    requires Connected(edges, w) && n <= |w.steps|
    ensures Connected(edges, c) && c.start == w.start && Last(c) == Nodes(w)[n] && |c.steps| == n
  {
    c := Walk(w.start, w.steps[..n]);
    NodesPrefix(w, n);
  }

  /** Any link between disjoint sets shortens to a walk the search accepts. */
  lemma {:induction false} Shorten(q: Problem, w: Walk) returns (c: Walk)
    requires q.from !! q.to && NoTrimClash(q)
    requires |w.steps| <= q.maxDepth && IsLink(q.from, q.to, q.edges, |w.steps|, w)
    ensures Candidate(q, c)
    decreases |w.steps|
  {
    NodesFrom(w);
    if i, j :| 0 <= i < j <= |w.steps| && Nodes(w)[i] == Nodes(w)[j] {
      c := CutLoop(q.edges, w, i, j);
      c := Shorten(q, c);
    } else if i :| 1 <= i < |w.steps| && Nodes(w)[i] in q.to {
      c := Truncate(q.edges, w, i);
      c := Shorten(q, c);
    } else {
      c := w;
      SimpleIsFresh(q, w);
    }
  }

  /** For disjoint sets the search succeeds exactly when some walk of at most `maxDepth` edges links them. */
  lemma {:induction false} SolvableIffLinked(q: Problem)
    requires q.from !! q.to && NoTrimClash(q)
    ensures Solvable(q) <==> exists n: nat :: 1 <= n <= q.maxDepth && LinkedBy(q.from, q.to, q.edges, n)
  {
    if Solvable(q) {
      var w :| Candidate(q, w);
      assert IsLink(q.from, q.to, q.edges, |w.steps|, w);
      assert LinkedBy(q.from, q.to, q.edges, |w.steps|);
    }
    if n: nat :| 1 <= n <= q.maxDepth && LinkedBy(q.from, q.to, q.edges, n) {
      var w :| IsLink(q.from, q.to, q.edges, n, w);
      var c := Shorten(q, w);
    }
  }

  // ---------- the one- and two-hop checks ----------

  predicate Joins(e: Edge, left: set<string>, right: set<string>) {
    (e.from in left && e.to in right) || (e.from in right && e.to in left)
  }

  lemma {:induction false} OneStep(left: set<string>, right: set<string>, edges: seq<Edge>)
    ensures LinkedBy(left, right, edges, 1) <==> exists i :: 0 <= i < |edges| && Joins(edges[i], left, right)
  {
    if LinkedBy(left, right, edges, 1) {
      var w :| IsLink(left, right, edges, 1, w);
      NodesFrom(w);
      var e := w.steps[0];
      assert InGraph(edges, e) && e.from == Nodes(w)[0] && e.to == Nodes(w)[1];
      assert e.from in left && e.to in right;
      assert Joins(e, left, right) && Joins(Reverse(e), left, right);
      var i :| 0 <= i < |edges| && (edges[i] == e || edges[i] == Reverse(e));
      assert Joins(edges[i], left, right);
    }
    if i :| 0 <= i < |edges| && Joins(edges[i], left, right) {
      var e := if edges[i].from in left && edges[i].to in right then edges[i] else Reverse(edges[i]);
      var w := Walk(e.from, [e]);
      NodesFrom(w);
      assert Reverse(Reverse(edges[i])) == edges[i];
      assert IsLink(left, right, edges, 1, w);
    }
  }

  /** Some edge joins the two sets: exactly a link of one edge. */
  method DirectlyConnected(left: set<string>, right: set<string>, edges: seq<Edge>) returns (connected: bool)
    ensures connected <==> LinkedBy(left, right, edges, 1)
  {
    OneStep(left, right, edges);
    for k := 0 to |edges|
      invariant forall i :: 0 <= i < k ==> !Joins(edges[i], left, right)
    {
      if edges[k].from in left && edges[k].to in right {
        return true;
      }
      if edges[k].from in right && edges[k].to in left {
        return true;
      }
    }
    return false;
  }

  lemma {:induction false} SplitLink(left: set<string>, right: set<string>, edges: seq<Edge>, w: Walk)
    returns (m: string)
    requires IsLink(left, right, edges, 2, w)
    ensures LinkedBy(left, {m}, edges, 1) && LinkedBy({m}, right, edges, 1)
  {
    m := Nodes(w)[1];
    var a, b := Walk(w.start, [w.steps[0]]), Walk(m, [w.steps[1]]);
    NodesFrom(w);
    NodesFrom(a);
    NodesFrom(b);
    assert IsLink(left, {m}, edges, 1, a);
    assert IsLink({m}, right, edges, 1, b);
  }

  lemma {:induction false} JoinLinks(left: set<string>, right: set<string>, edges: seq<Edge>, a: Walk, b: Walk)
    requires IsLink(left, {b.start}, edges, 1, a) && IsLink({b.start}, right, edges, 1, b)
    ensures LinkedBy(left, right, edges, 2)
  {
    var w := Walk(a.start, [a.steps[0], b.steps[0]]);
    NodesFrom(a);
    NodesFrom(b);
    NodesFrom(w);
    assert IsLink(left, right, edges, 2, w);
  }

  lemma {:induction false} TwoSteps(left: set<string>, right: set<string>, edges: seq<Edge>)
    ensures LinkedBy(left, right, edges, 2) <==>
            exists m :: LinkedBy(left, {m}, edges, 1) && LinkedBy({m}, right, edges, 1)
  {
    if LinkedBy(left, right, edges, 2) {
      var w :| IsLink(left, right, edges, 2, w);
      var m := SplitLink(left, right, edges, w);
    }
    if m :| LinkedBy(left, {m}, edges, 1) && LinkedBy({m}, right, edges, 1) {
      var a :| IsLink(left, {m}, edges, 1, a);
      var b :| IsLink({m}, right, edges, 1, b);
      JoinLinks(left, right, edges, a, b);
    }
  }

  lemma {:induction false} MidpointOfEdge(side: set<string>, edges: seq<Edge>, m: string)
    ensures LinkedBy(side, {m}, edges, 1) <==>
            exists i :: 0 <= i < |edges| && Joins(edges[i], side, {m})
    ensures LinkedBy({m}, side, edges, 1) <==>
            exists i :: 0 <= i < |edges| && Joins(edges[i], {m}, side)
  {
    OneStep(side, {m}, edges);
    OneStep({m}, side, edges);
  }

  /** A shared neighbour joins the two sets: exactly a link of two edges. */
  method TwoHopConnected(left: set<string>, right: set<string>, edges: seq<Edge>) returns (connected: bool)
    ensures connected <==> LinkedBy(left, right, edges, 2)
  {
    TwoSteps(left, right, edges);
    var midpoints: set<string> := {};
    for k := 0 to |edges|
      invariant forall m :: m in midpoints <==> exists i :: 0 <= i < k && Joins(edges[i], left, {m})
    {
      ghost var before := midpoints;
      if edges[k].from in left {
        midpoints := midpoints + {edges[k].to};
      }
      if edges[k].to in left {
        midpoints := midpoints + {edges[k].from};
      }
      forall m ensures m in midpoints <==> m in before || Joins(edges[k], left, {m}) {
      }
    }
    forall m ensures m in midpoints <==> LinkedBy(left, {m}, edges, 1) {
      MidpointOfEdge(left, edges, m);
    }
    for k := 0 to |edges|
      invariant forall m, i :: 0 <= i < k && m in midpoints ==> !Joins(edges[i], {m}, right)
    {
      if edges[k].from in midpoints && edges[k].to in right {
        MidpointOfEdge(right, edges, edges[k].from);
        assert Joins(edges[k], {edges[k].from}, right);
        return true;
      }
      if edges[k].to in midpoints && edges[k].from in right {
        MidpointOfEdge(right, edges, edges[k].to);
        assert Joins(edges[k], {edges[k].to}, right);
        return true;
      }
    }
    forall m | m in midpoints ensures !LinkedBy({m}, right, edges, 1) {
      MidpointOfEdge(right, edges, m);
    }
    return false;
  }

  /** At depth one the search agrees with the direct check, at depth two with direct-or-two-hop. */
  lemma {:induction false} ShallowDepths(from: set<string>, to: set<string>, edges: seq<Edge>)
    requires from !! to && NoTrimClash(Problem(from, to, edges, 2))
    ensures Solvable(Problem(from, to, edges, 1)) <==> LinkedBy(from, to, edges, 1)
    ensures Solvable(Problem(from, to, edges, 2)) <==> LinkedBy(from, to, edges, 1) || LinkedBy(from, to, edges, 2)
  {
    var one, two := Problem(from, to, edges, 1), Problem(from, to, edges, 2);
    forall v ensures IsKey(one, v) == IsKey(two, v) {
    }
    SolvableIffLinked(one);
    SolvableIffLinked(two);
  }

  // ---------- keys with white space around them ----------

  /** A key the visited set stores unchanged. */
  predicate CleanKey(v: string) {
    v != [] && Trim(v) == v
  }

  /** The search revisits a node only if that node's key is blank or has white space around it. */
  lemma {:induction false} RevisitIsUnclean(w: Walk, i: nat, j: nat)
    requires Fresh(w) && i < j <= |w.steps| && Nodes(w)[i] == Nodes(w)[j]
    ensures !CleanKey(Nodes(w)[j])
  {
    assert Nodes(w)[..j][i] == Nodes(w)[j];
  }

  lemma {:induction false} CleanIsMarked(before: seq<string>, v: string)
    requires v in before
    ensures CleanKey(v) ==> v in StringSet(before)
  {
  }

  lemma {:induction false} CleanNodesDiffer(w: Walk, i: nat, j: nat)
    requires Fresh(w) && i < j <= |w.steps| && CleanKey(Nodes(w)[j])
    ensures Nodes(w)[i] != Nodes(w)[j]
  {
    var before := Nodes(w)[..j];
    assert before[i] == Nodes(w)[i];
    CleanIsMarked(before, before[i]);
  }

  /** Clean keys: the walks the search considers are exactly the simple ones. */
  lemma {:induction false} CleanMeansSimple(w: Walk)
    requires forall i :: 0 <= i <= |w.steps| ==> CleanKey(Nodes(w)[i])
    ensures Fresh(w) <==> Simple(w)
  {
    if Fresh(w) {
      forall i, j | 0 <= i < j <= |w.steps| ensures Nodes(w)[i] != Nodes(w)[j] {
        CleanNodesDiffer(w, i, j);
      }
    }
    if Simple(w) {
      forall j | 1 <= j <= |w.steps| ensures Nodes(w)[j] !in StringSet(Nodes(w)[..j]) {
        forall v | v in Nodes(w)[..j] ensures Trim(v) == v && v != Nodes(w)[j] {
          var i :| 0 <= i < j && Nodes(w)[i] == v;
        }
      }
    }
  }

  lemma {:induction false} NodesOfThree(v: string, e: Edge, f: Edge, g: Edge)
    ensures Nodes(Walk(v, [e, f, g])) == [v, e.to, f.to, g.to]
  {
    assert [e, f, g][..2] == [e, f] && [e, f][..1] == [e] && [e][..0] == [];
    assert Nodes(Walk(v, [e])) == [v, e.to];
    assert Nodes(Walk(v, [e, f])) == [v, e.to, f.to];
  }

  lemma {:induction false} MarksAreClean(before: seq<string>, v: string)
    requires v in StringSet(before)
    ensures CleanKey(v) && exists u :: u in before && Trim(u) == v
  {
    var u :| u in before && Trim(u) != [] && Trim(u) == v;
    TrimOfTrimmed(v);
  }

  lemma {:induction false} RevisitIsFresh(v: string, x: string, b: string, w: Walk)
    requires !CleanKey(v) && CleanKey(x) && CleanKey(b) && x != b && Trim(v) !in {x, b}
    requires |w.steps| == 3 && Nodes(w) == [v, x, v, b]
    ensures Fresh(w)
  {
    forall j | 1 <= j <= 3 ensures Nodes(w)[j] !in StringSet(Nodes(w)[..j]) {
      var key, before := Nodes(w)[j], Nodes(w)[..j];
      assert forall u :: u in before ==> u == v || u == x;
      if key in StringSet(before) {
        MarksAreClean(before, key);
      }
    }
  }

  /**
   * Any unclean key v can be revisited: on the edges v-x and v-b the walk v, x, v, b is one the search considers.
   */
  lemma {:induction false} UncleanIsRevisited(v: string, x: string, b: string) returns (q: Problem, w: Walk)
    requires !CleanKey(v) && CleanKey(x) && CleanKey(b)
    requires x != b && Trim(v) !in {x, b} && v !in {x, b}
    ensures q.from == {v} && q.to == {b} && q.maxDepth == 3
    ensures Candidate(q, w) && !Simple(w)
  {
    var out, home := Edge(v, x, "calls", None, None), Edge(v, b, "observed_with", None, None);
    q := Problem({v}, {b}, [out, home], 3);
    w := Walk(v, [out, Reverse(out), home]);
    NodesOfThree(v, out, Reverse(out), home);
    assert Reverse(Reverse(out)) == out;
    assert Nodes(w) == [v, x, v, b];
    RevisitIsFresh(v, x, b, w);
    hide Fresh, CleanKey, Trim;
    assert Nodes(w)[0] == Nodes(w)[2];
  }

  lemma {:induction false} FirstStepBlocked(u: string, v: string, e: Edge, w: Walk)
    requires Trim(u) == v && v != [] && u != v && e.from == u && e.to == v
    requires w.start == u && w.steps != [] && Connected([e], w)
    ensures !Fresh(w)
  {
    NodesFrom(w);
    assert InGraph([e], w.steps[0]);
    assert Nodes(w)[..1] == [u];
    assert Nodes(w)[1] in StringSet(Nodes(w)[..1]);
  }

  /** One edge from u to v, searched from u to v. */
  function TrimmedNeighbour(u: string, v: string): Problem {
    Problem({u}, {v}, [Edge(u, v, "calls", None, None)], 1)
  }

  /** A key that is another key with white space removed is never reached from it, though an edge joins them. */
  lemma {:induction false} TrimmedNeighbourIsMissed(u: string, v: string, depth: int)
    requires Trim(u) == v && v != [] && u != v && depth >= 1
    ensures var q := TrimmedNeighbour(u, v).(maxDepth := depth);
            LinkedBy(q.from, q.to, q.edges, 1) && !Solvable(q)
  {
    var q := TrimmedNeighbour(u, v).(maxDepth := depth);
    var e := q.edges[0];
    OneStep(q.from, q.to, q.edges);
    assert Joins(q.edges[0], {u}, {v});
    forall w ensures !Candidate(q, w) {
      if w.start == u && w.steps != [] && Connected([e], w) {
        FirstStepBlocked(u, v, e, w);
      }
    }
  }
}
