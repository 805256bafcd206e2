/** Exactly which node keys the trimming of the visited set does no harm to. */
module TopologyKeys {
  import opened Wrappers
  import opened Text
  import opened Topology
  import opened TopologySearch
  import opened TopologyReach

  /** All node keys of the problem are among these. */
  ghost predicate Over(q: Problem, keys: set<string>) {
    forall v :: IsKey(q, v) ==> v in keys
  }

  /** The search succeeds exactly when a walk of at most `maxDepth` edges links the sets. */
  ghost predicate Exact(q: Problem) {
    Solvable(q) <==> exists n: nat :: 1 <= n <= q.maxDepth && LinkedBy(q.from, q.to, q.edges, n)
  }

  /** No key is another key with white space around it. */
  predicate NoClash(keys: set<string>) {
    forall u, v :: u in keys && v in keys && u != v && Trim(u) != [] ==> Trim(u) != v
  }

  /** One edge from a key to its own trimmed form: linked, yet not found. */
  lemma {:induction false} ClashFails(u: string, v: string, keys: set<string>) returns (q: Problem)
    requires u in keys && v in keys && u != v && Trim(u) == v && v != []
    ensures Over(q, keys) && q.from !! q.to && !Exact(q)
  {
    q := TrimmedNeighbour(u, v);
    TrimmedNeighbourIsMissed(u, v, 1);
    forall k | IsKey(q, k) ensures k in keys {
      if k !in q.from {
        var i :| 0 <= i < |q.edges| && (k == q.edges[i].from || k == q.edges[i].to);
      }
    }
  }

  /**
   * On graphs over a set of keys, disjoint ends given, the search is exact precisely when no key of the set is another
   * one with white space around it.
   */
  lemma {:induction false} ExactKeys(keys: set<string>)
    ensures (forall q :: Over(q, keys) && q.from !! q.to ==> Exact(q)) <==> NoClash(keys)
  {
    if NoClash(keys) {
      forall q | Over(q, keys) && q.from !! q.to ensures Exact(q) {
        SolvableIffLinked(q);
      }
    } else {
      var u, v :| u in keys && v in keys && u != v && Trim(u) != [] && Trim(u) == v;
      var q := ClashFails(u, v, keys);
    }
  }

  ghost predicate WalkOver(w: Walk, keys: set<string>) {
    forall i :: 0 <= i <= |w.steps| ==> Nodes(w)[i] in keys
  }

  /** A loop at an unclean key is not noticed. */
  lemma {:induction false} LoopUnnoticed(v: string) returns (w: Walk)
    requires !CleanKey(v)
    ensures Fresh(w) && !Simple(w) && WalkOver(w, {v})
  {
    w := Walk(v, [Edge(v, v, "calls", None, None)]);
    NodesFrom(w);
    assert Nodes(w)[..1] == [v];
    if v in StringSet([v]) {
      MarksAreClean([v], v);
    }
    assert Nodes(w)[0] == Nodes(w)[1];
  }

  /** The visited set keeps walks over a set of keys from repeating a node precisely when every key is clean. */
  lemma {:induction false} NoRepeatKeys(keys: set<string>)
    ensures (forall w :: WalkOver(w, keys) && Fresh(w) ==> Simple(w)) <==> forall v :: v in keys ==> CleanKey(v)
  {
    if forall v :: v in keys ==> CleanKey(v) {
      forall w | WalkOver(w, keys) && Fresh(w) ensures Simple(w) {
        CleanMeansSimple(w);
      }
    } else {
      var v :| v in keys && !CleanKey(v);
      var w := LoopUnnoticed(v);
      assert WalkOver(w, keys);
    }
  }
}
