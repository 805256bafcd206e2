/** Counting by key: the counts of distinct keys that cover a list add up to its length. */
module Counting {
  import opened Wrappers

  /** How many elements have the key k. */
  ghost function Count<X, K>(xs: seq<X>, f: X -> Option<K>, k: K): nat {
    if xs == [] then 0 else Count(xs[..|xs| - 1], f, k) + if f(xs[|xs| - 1]) == Some(k) then 1 else 0
  }

  /** How many elements have a key at all. */
  function Keyed<X, K>(xs: seq<X>, f: X -> Option<K>): nat {
    if xs == [] then 0 else Keyed(xs[..|xs| - 1], f) + if f(xs[|xs| - 1]).Some? then 1 else 0
  }

  ghost function Total<X, K>(ks: seq<K>, xs: seq<X>, f: X -> Option<K>): nat {
    if ks == [] then 0 else Total(ks[..|ks| - 1], xs, f) + Count(xs, f, ks[|ks| - 1])
  }

  ghost predicate Distinct<K>(ks: seq<K>) {
    forall i, j :: 0 <= i < j < |ks| ==> ks[i] != ks[j]
  }

  /** Every key that occurs is listed. */
  ghost predicate Covers<X, K>(ks: seq<K>, xs: seq<X>, f: X -> Option<K>) {
    forall i :: 0 <= i < |xs| && f(xs[i]).Some? ==> f(xs[i]).value in ks
  }

  lemma {:induction false} CountSnoc<X, K>(xs: seq<X>, x: X, f: X -> Option<K>, k: K)
    ensures Count(xs + [x], f, k) == Count(xs, f, k) + if f(x) == Some(k) then 1 else 0
  {
    assert (xs + [x])[..|xs|] == xs;
  }

  lemma {:induction false} CountPositive<X, K>(xs: seq<X>, f: X -> Option<K>, k: K)
    ensures Count(xs, f, k) > 0 <==> exists i :: 0 <= i < |xs| && f(xs[i]) == Some(k)
  {
    if xs != [] {
      var n := |xs| - 1;
      CountPositive(xs[..n], f, k);
      if i :| 0 <= i < n && f(xs[..n][i]) == Some(k) {
        assert f(xs[i]) == Some(k);
      }
      if i :| 0 <= i < |xs| && f(xs[i]) == Some(k) {
        assert i < n ==> f(xs[..n][i]) == Some(k);
      }
    }
  }

  lemma {:induction false} TotalEmpty<X, K>(ks: seq<K>, f: X -> Option<K>)
    ensures Total(ks, [], f) == 0
  {
    if ks != [] {
      TotalEmpty(ks[..|ks| - 1], f);
    }
  }

  /** One more element counts once, if its key is listed. */
  lemma {:induction false} TotalSnoc<X, K>(ks: seq<K>, xs: seq<X>, x: X, f: X -> Option<K>)
    requires Distinct(ks)
    ensures Total(ks, xs + [x], f) == Total(ks, xs, f) + if f(x).Some? && f(x).value in ks then 1 else 0
  {
    if ks != [] {
      var n := |ks| - 1;
      TotalSnoc(ks[..n], xs, x, f);
      CountSnoc(xs, x, f, ks[n]);
      assert ks == ks[..n] + [ks[n]];
      if f(x) == Some(ks[n]) {
        assert ks[n] !in ks[..n];
      }
    }
  }

  /** The counts of distinct keys that cover the list add up to the number of elements with a key. */
  lemma {:induction false} TotalIsKeyed<X, K>(ks: seq<K>, xs: seq<X>, f: X -> Option<K>)
    requires Distinct(ks) && Covers(ks, xs, f)
    ensures Total(ks, xs, f) == Keyed(xs, f)
  {
    if xs == [] {
      TotalEmpty(ks, f);
    } else {
      var n := |xs| - 1;
      forall i | 0 <= i < n && f(xs[..n][i]).Some? ensures f(xs[..n][i]).value in ks {
        assert xs[..n][i] == xs[i];
      }
      TotalIsKeyed(ks, xs[..n], f);
      TotalSnoc(ks, xs[..n], xs[n], f);
      assert xs == xs[..n] + [xs[n]];
    }
  }

  /** The sum of the numbers of a list of records. */
  function Sum(ns: seq<nat>): nat {
    if ns == [] then 0 else Sum(ns[..|ns| - 1]) + ns[|ns| - 1]
  }

  lemma {:induction false} SumIsTotal<X, K>(ns: seq<nat>, ks: seq<K>, xs: seq<X>, f: X -> Option<K>)
    requires |ns| == |ks| && forall i :: 0 <= i < |ns| ==> ns[i] == Count(xs, f, ks[i])
    ensures Sum(ns) == Total(ks, xs, f)
  {
    if ns != [] {
      SumIsTotal(ns[..|ns| - 1], ks[..|ks| - 1], xs, f);
    }
  }
}
