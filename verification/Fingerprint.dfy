/** The text a chunk set is fingerprinted by. */
module Fingerprint {
  import opened Text
  import opened Decimal
  import Sorting

  datatype Entry = Entry(id: int, hash: string)

  predicate IdLeq(a: Entry, b: Entry) {
    a.id <= b.id
  }

  function Line(e: Entry): string {
    Signed(e.id) + ":" + e.hash + "\n"
  }

  function Lines(es: seq<Entry>): string {
    if es == [] then "" else Line(es[0]) + Lines(es[1..])
  }

  /** The text that is hashed: a line for each chunk, by rising id; the hash itself is taken to be injective. */
  function FingerprintText(es: seq<Entry>): string {
    Lines(Sorting.Sort(es, IdLeq))
  }

  /** `chunkFingerprint`, the hash fed line by line. */
  method ChunkFingerprint(es: seq<Entry>) returns (text: string)
    ensures text == FingerprintText(es)
  {
    var values := Sorting.Sort(es, IdLeq);
    text := "";
    assert values[0..] == values;
    Regroup(text, Lines(values), []);
    for i := 0 to |values|
      invariant text + Lines(values[i..]) == Lines(values)
    {
      assert values[i..][1..] == values[i + 1..];
      Regroup(text, Line(values[i]), Lines(values[i + 1..]));
      text := text + Line(values[i]);
    }
    assert values[|values|..] == [];
    Regroup(text, [], []);
  }

  ghost predicate DistinctIds(es: seq<Entry>) {
    forall i, j :: 0 <= i < j < |es| ==> es[i].id != es[j].id
  }

  lemma ByIdOrder()
    ensures Sorting.TotalPreorder(IdLeq)
  {
  }

  /** The order of the input makes no difference. */
  lemma {:induction false} OrderIndependent(a: seq<Entry>, b: seq<Entry>)
    requires DistinctIds(a) && multiset(a) == multiset(b)
    ensures FingerprintText(a) == FingerprintText(b)
  {
    var sa, sb := Sorting.Sort(a, IdLeq), Sorting.Sort(b, IdLeq);
    ByIdOrder();
    Sorting.SortSorts(a, IdLeq);
    Sorting.SortSorts(b, IdLeq);
    forall x, y | x in sa && y in sa && IdLeq(x, y) && IdLeq(y, x) ensures x == y {
      assert x in multiset(a) && y in multiset(a);
      var i :| 0 <= i < |a| && a[i] == x;
      var j :| 0 <= j < |a| && a[j] == y;
    }
    Sorting.OneSorted(sa, sb, IdLeq);
  }

  // ---------- the text determines the set ----------

  /** What comes before the first c. */
  function UpTo(s: string, c: char): string {
    if s == [] || s[0] == c then [] else [s[0]] + UpTo(s[1..], c)
  }

  lemma {:induction false} UpToFirst(a: string, c: char, s: string)
    requires c !in a
    ensures UpTo(a + [c] + s, c) == a
  {
    if a != [] {
      assert (a + [c] + s)[1..] == a[1..] + [c] + s;
      UpToFirst(a[1..], c, s);
    }
  }

  lemma {:induction false} FirstAt(s: string, t: string, a: string, b: string, c: char)
    requires c !in a && c !in b && a + [c] + s == b + [c] + t
    ensures a == b && s == t
  {
    UpToFirst(a, c, s);
    UpToFirst(b, c, t);
    assert s == (a + [c] + s)[|a| + 1..] && t == (b + [c] + t)[|b| + 1..];
  }

  lemma {:induction false} NoColon(n: int)
    ensures ':' !in Signed(n)
  {
    var digits := Dec(if n < 0 then -n else n);
    forall i | 0 <= i < |Signed(n)| ensures Signed(n)[i] != ':' {
      var k := if n < 0 then i - 1 else i;
      assert k >= 0 ==> IsDigit(digits[k]) && Signed(n)[i] == digits[k];
    }
  }

  lemma LineParts(e: Entry, s: string)
    ensures Line(e) + s == Signed(e.id) + [':'] + (e.hash + ['\n'] + s)
  {
    var id := Signed(e.id);
    hide Signed;
    assert ":" == [':'] && "\n" == ['\n'];
    Regroup(id + ":" + e.hash, "\n", s);
    Regroup(id + ":", e.hash, "\n" + s);
    Regroup(e.hash, "\n", s);
  }

  /** A line can be read back, with what follows it. */
  lemma {:induction false} LineInjective(d: Entry, e: Entry, s: string, t: string)
    requires '\n' !in d.hash && '\n' !in e.hash && Line(d) + s == Line(e) + t
    ensures d == e && s == t
  {
    hide Line, Signed;
    NoColon(d.id);
    NoColon(e.id);
    LineParts(d, s);
    LineParts(e, t);
    FirstAt(d.hash + ['\n'] + s, e.hash + ['\n'] + t, Signed(d.id), Signed(e.id), ':');
    SignedInjective(d.id, e.id);
    FirstAt(s, t, d.hash, e.hash, '\n');
  }

  ghost predicate PlainHashes(es: seq<Entry>) {
    forall i :: 0 <= i < |es| ==> '\n' !in es[i].hash
  }

  lemma {:induction false} LinesEmpty(es: seq<Entry>)
    ensures Lines(es) == "" <==> es == []
  {
    if es != [] {
      assert |Line(es[0])| > 0;
    }
  }

  lemma {:induction false} LinesInjective(a: seq<Entry>, b: seq<Entry>)
    requires PlainHashes(a) && PlainHashes(b) && Lines(a) == Lines(b)
    ensures a == b
  {
    LinesEmpty(a);
    LinesEmpty(b);
    if a != [] {
      LineInjective(a[0], b[0], Lines(a[1..]), Lines(b[1..]));
      LinesInjective(a[1..], b[1..]);
      assert a == [a[0]] + a[1..] && b == [b[0]] + b[1..];
    }
  }

  lemma {:induction false} PermutedPlain(a: seq<Entry>, b: seq<Entry>)
    requires PlainHashes(a) && multiset(a) == multiset(b)
    ensures PlainHashes(b)
  {
    forall i | 0 <= i < |b| ensures '\n' !in b[i].hash {
      assert b[i] in multiset(a);
    }
  }

  /** Equal texts come from the same chunks with the same hashes. */
  lemma {:induction false} FingerprintDetermines(a: seq<Entry>, b: seq<Entry>)
    requires PlainHashes(a) && PlainHashes(b) && FingerprintText(a) == FingerprintText(b)
    ensures multiset(a) == multiset(b)
  {
    ByIdOrder();
    Sorting.SortSorts(a, IdLeq);
    Sorting.SortSorts(b, IdLeq);
    PermutedPlain(a, Sorting.Sort(a, IdLeq));
    PermutedPlain(b, Sorting.Sort(b, IdLeq));
    LinesInjective(Sorting.Sort(a, IdLeq), Sorting.Sort(b, IdLeq));
  }

  /** For distinct ids the text stands for the set of chunks exactly. */
  lemma {:induction false} SameTextSameChunks(a: seq<Entry>, b: seq<Entry>)
    requires PlainHashes(a) && PlainHashes(b) && DistinctIds(a) && DistinctIds(b)
    ensures FingerprintText(a) == FingerprintText(b) <==> multiset(a) == multiset(b)
  {
    if multiset(a) == multiset(b) {
      OrderIndependent(a, b);
    } else if FingerprintText(a) == FingerprintText(b) {
      FingerprintDetermines(a, b);
    }
  }
}
