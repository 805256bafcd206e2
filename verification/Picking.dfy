/** Picking elements of a list in order. */
module Picking {

  predicate Rising(places: seq<int>, n: nat) {
    && (forall i :: 0 <= i < |places| ==> 0 <= places[i] < n)
    && forall i, j :: 0 <= i < j < |places| ==> places[i] < places[j]
  }

  ghost predicate PickedAt<T>(r: seq<T>, s: seq<T>, p: T -> bool, places: seq<int>) {
    && Rising(places, |s|) && |r| == |places|
    && (forall i :: 0 <= i < |places| ==> r[i] == s[places[i]] && p(r[i]))
    && forall k :: 0 <= k < |s| && p(s[k]) ==> k in places
  }

  /** r holds the elements of s that are so: all of them, in their order, each once. */
  ghost predicate Picked<T>(r: seq<T>, s: seq<T>, p: T -> bool) {
    exists places :: PickedAt(r, s, p, places)
  }

  lemma PickNone<T>(p: T -> bool)
    ensures Picked([], [], p)
  {
    assert PickedAt([], [], p, []);
  }

  lemma PickNext<T>(r: seq<T>, s: seq<T>, x: T, p: T -> bool)
    requires Picked(r, s, p)
    ensures Picked(r + if p(x) then [x] else [], s + [x], p)
  {
    var places: seq<int> :| PickedAt(r, s, p, places);
    if p(x) {
      PickMore(r, s, x, p, places);
    } else {
      assert r + [] == r;
      assert PickedAt(r, s + [x], p, places);
    }
  }

  lemma PickMore<T>(r: seq<T>, s: seq<T>, x: T, p: T -> bool, places: seq<int>)
    requires PickedAt(r, s, p, places) && p(x)
    ensures PickedAt(r + [x], s + [x], p, places + [|s|])
  {
    var all, more := s + [x], places + [|s|];
    forall k | 0 <= k < |all| && p(all[k]) ensures k in more {
      assert k < |s| ==> k in places;
      assert more[|places|] == |s|;
    }
  }

  /** Keys[j] is the key of element places[j], where it occurs first. */
  ghost predicate FirstAt<T, K>(keys: seq<K>, s: seq<T>, key: T -> K, places: seq<int>) {
    && Rising(places, |s|) && |keys| == |places|
    && (forall j :: 0 <= j < |places| ==> key(s[places[j]]) == keys[j])
    && (forall j, k :: 0 <= j < |places| && 0 <= k < places[j] ==> key(s[k]) != keys[j])
    && forall k :: 0 <= k < |s| ==> key(s[k]) in keys
  }

  /** The keys that occur, in the order in which they occur first. */
  ghost predicate FirstPlaces<T, K>(keys: seq<K>, s: seq<T>, key: T -> K) {
    exists places :: FirstAt(keys, s, key, places)
  }

  lemma FirstNone<T, K>(key: T -> K)
    ensures FirstPlaces([], [], key)
  {
    assert FirstAt([], [], key, []);
  }

  lemma FirstNext<T, K>(keys: seq<K>, s: seq<T>, x: T, key: T -> K)
    requires FirstPlaces(keys, s, key)
    ensures FirstPlaces(if key(x) in keys then keys else keys + [key(x)], s + [x], key)
  {
    var places: seq<int> :| FirstAt(keys, s, key, places);
    var all := s + [x];
    assert forall k :: 0 <= k < |s| ==> all[k] == s[k];
    if key(x) in keys {
      assert FirstAt(keys, all, key, places);
    } else {
      FirstMore(keys, s, x, key, places);
      assert FirstAt(keys + [key(x)], all, key, places + [|s|]);
    }
  }

  lemma FirstMore<T, K>(keys: seq<K>, s: seq<T>, x: T, key: T -> K, places: seq<int>)
    requires FirstAt(keys, s, key, places) && key(x) !in keys
    ensures FirstAt(keys + [key(x)], s + [x], key, places + [|s|])
  {
    var all, more, grown := s + [x], places + [|s|], keys + [key(x)];
    forall j, k | 0 <= j < |more| && 0 <= k < more[j] ensures key(all[k]) != grown[j] {
      assert all[k] == s[k];
    }
    forall k | 0 <= k < |all| ensures key(all[k]) in grown {
      assert k < |s| ==> key(s[k]) in keys;
    }
  }
}
