/** The section stack of the Markdown parser, against the list of headings read so far. */
module MarkdownSections {

  datatype Heading = Heading(level: nat, text: string)

  /** What section level `k` is called: the last heading of level `k` or above names it, if it is of level `k` itself. */
  function Entry(headings: seq<Heading>, k: nat): string {
    if headings == [] then ""
    else
      var last := headings[|headings| - 1];
      if last.level > k then Entry(headings[..|headings| - 1], k)
      else if last.level == k then last.text
      else ""
  }

  function Entries(headings: seq<Heading>, n: nat): (path: seq<string>)
    ensures |path| == n
    ensures forall k :: 0 <= k < n ==> path[k] == Entry(headings, k + 1)
  {
    if n == 0 then [] else Entries(headings, n - 1) + [Entry(headings, n)]
  }

  /** The section path under the headings: as long as the level of the last one. */
  function LookupPath(headings: seq<Heading>): seq<string> {
    if headings == [] then [] else Entries(headings, headings[|headings| - 1].level)
  }

  /** The path after one more heading, entry by entry. */
  ghost predicate Replaces(r: seq<string>, section: seq<string>, title: string, level: nat) {
    && |r| == level >= 1
    && r[level - 1] == title
    && forall k :: 0 <= k < level - 1 ==> r[k] == if k < |section| then section[k] else ""
  }

  method UpdateSection(section: seq<string>, title: string, level: int) returns (r: seq<string>)
    ensures level <= 0 ==> r == [title]
    ensures level >= 1 ==> Replaces(r, section, title, level)
  {
    if level <= 0 {
      return [title];
    }
    r := section;
    if |r| >= level {
      r := r[..level - 1];
    }
    while |r| < level - 1
      invariant |r| <= level - 1
      invariant forall k :: 0 <= k < |r| ==> r[k] == if k < |section| then section[k] else ""
      invariant |r| >= |section| || |r| == level - 1
    {
      r := r + [""];
    }
    r := r + [title];
  }

  /** The stack kept heading by heading is the lookup over all headings. */
  lemma {:induction false} StackIsLookup(headings: seq<Heading>, level: nat, text: string, r: seq<string>)
    requires Replaces(r, LookupPath(headings), text, level)
    ensures r == LookupPath(headings + [Heading(level, text)])
  {
    var all := headings + [Heading(level, text)];
    assert all[..|headings|] == headings;
    forall k | 0 <= k < level ensures r[k] == Entry(all, k + 1) {
      if k < level - 1 {
        assert Entry(all, k + 1) == Entry(headings, k + 1);
        if k >= |LookupPath(headings)| {
          PastTheEnd(headings, k + 1);
        }
      }
    }
    assert LookupPath(all) == Entries(all, level);
  }

  lemma {:induction false} PastTheEnd(headings: seq<Heading>, k: nat)
    requires k > |LookupPath(headings)|
    ensures Entry(headings, k) == ""
  {
  }

  /** Heading i is the last one that is no deeper than level k. */
  ghost predicate LastWithin(headings: seq<Heading>, k: nat, i: int) {
    0 <= i < |headings| && headings[i].level <= k && forall j :: i < j < |headings| ==> headings[j].level > k
  }

  /** A section level is called by the last heading no deeper than it, if that heading is of just this level. */
  lemma {:induction false} LevelIsCalled(headings: seq<Heading>, k: nat)
    ensures forall i :: LastWithin(headings, k, i) ==>
              Entry(headings, k) == if headings[i].level == k then headings[i].text else ""
    ensures (forall i :: !LastWithin(headings, k, i)) ==> Entry(headings, k) == ""
  {
    if headings != [] {
      var n := |headings| - 1;
      var before := headings[..n];
      LevelIsCalled(before, k);
      if headings[n].level > k {
        forall i ensures LastWithin(headings, k, i) <==> LastWithin(before, k, i) {
          assert forall j :: 0 <= j < n ==> before[j] == headings[j];
        }
      } else {
        assert LastWithin(headings, k, n);
      }
    }
  }

  /** The path is as long as the level of the last heading, and calls each level so; its last entry is that heading. */
  lemma {:induction false} PathMeans(headings: seq<Heading>)
    requires headings != [] && headings[|headings| - 1].level >= 1
    ensures var last := headings[|headings| - 1]; var path := LookupPath(headings);
            |path| == last.level && path[|path| - 1] == last.text
    ensures forall k, i :: 0 <= k < |LookupPath(headings)| && LastWithin(headings, k + 1, i) ==>
              LookupPath(headings)[k] == if headings[i].level == k + 1 then headings[i].text else ""
  {
    forall k, i | 0 <= k < |LookupPath(headings)| && LastWithin(headings, k + 1, i)
      ensures LookupPath(headings)[k] == if headings[i].level == k + 1 then headings[i].text else ""
    {
      LevelIsCalled(headings, k + 1);
    }
  }
}
