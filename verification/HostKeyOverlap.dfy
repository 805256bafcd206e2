/** Host key calls that overlap: a verification reads the host, and what it notes is written later, unconditionally. */
module HostKeyOverlap {
  import opened Wrappers
  import opened Writes
  import opened HostKey

  /**
   * A call that is over before the next one acts, or a verification that read the host after the first `read` steps and
   * writes now. A verification that writes nothing counts as a whole call where it reads, and a confirmation where its
   * conditional update runs.
   */
  datatype Step =
    | Whole(call: Call)
    | Late(read: nat, operation: Operation, observed: Option<Key>, write: Write)

  /** How many steps a late step at place n had behind it when it read. */
  function ReadAt(read: nat, n: nat): nat {
    if read < n then read else n
  }

  function Steps(h: Host, steps: seq<Step>): Host
    decreases |steps|
  {
    if steps == [] then h
    else
      var n := |steps| - 1;
      var now := Steps(h, steps[..n]);
      match steps[n]
      case Whole(call) => Next(now, call)
      case Late(read, operation, observed, write) =>
        LateNext(Steps(h, steps[..ReadAt(read, n)]), now, operation, observed, write)
  }

  /** The first use of a key: the host that was read has none, and the write is the candidate. */
  predicate FirstUse(seen: Host, operation: Operation, observed: Option<Key>) {
    Listens(seen, operation, observed) && Blank(seen) && operation != Collect
  }

  predicate Differs(seen: Host, operation: Operation, observed: Option<Key>) {
    Listens(seen, operation, observed) && seen.status != Mismatch && !Blank(seen) && Current(seen) != observed
  }

  /** The decision is taken on what was read, the write goes to what the host is now. */
  function LateNext(seen: Host, now: Host, operation: Operation, observed: Option<Key>, write: Write): Host {
    if write == NotStored then now
    else if FirstUse(seen, operation, observed) then WithCandidate(now, observed.value)
    else if Differs(seen, operation, observed) then WithMismatch(now, observed.value)
    else now
  }

  /** Without a gap between reading and writing it is the verification of the serial calls. */
  lemma {:induction false} NoGapIsSerial(h: Host, operation: Operation, observed: Option<Key>, write: Write)
    ensures LateNext(h, h, operation, observed, write) == VerifyNext(h, operation, observed, write)
  {
  }

  /** What the late step n read. */
  function Seen(h: Host, steps: seq<Step>, n: nat): Host
    requires n < |steps| && steps[n].Late?
  {
    Steps(h, steps[..ReadAt(steps[n].read, n)])
  }

  predicate Allows(h: Host, steps: seq<Step>, n: nat, key: Key)
    requires n < |steps|
  {
    match steps[n]
    case Whole(VerifyCall(operation, observed, write)) =>
      VerifyReply(Steps(h, steps[..n]), operation, observed, write).Allowed? && observed == Some(key)
    case Whole(ConfirmCall(_, _, _)) => false
    case Late(_, operation, observed, write) =>
      FirstUse(Seen(h, steps, n), operation, observed) && write == Stored && observed == Some(key)
  }

  predicate ConfirmsIn(h: Host, steps: seq<Step>, n: nat)
    requires n < |steps|
  {
    steps[n].Whole? && steps[n].call.ConfirmCall?
    && Confirms(Steps(h, steps[..n]), steps[n].call.admin, steps[n].call.input, steps[n].call.stored)
  }

  // ---------- what overlap breaks ----------

  /** Two first uses of different keys that both read the host before either writes are both allowed. */
  lemma {:induction false} TwoFirstUses(h: Host, k: Key, l: Key)
    requires h.enabled && Supported(h.policy) && Blank(h)
    ensures var steps := [Late(0, TestConnection, Some(k), Stored), Late(0, TestConnection, Some(l), Stored)];
            Allows(h, steps, 0, k) && Allows(h, steps, 1, l) && Current(Steps(h, steps)) == Some(l)
  {
    var steps := [Late(0, TestConnection, Some(k), Stored), Late(0, TestConnection, Some(l), Stored)];
    assert steps[..1][..0] == [] && steps[..0] == [];
  }

  /** A first use that writes after a confirmation takes the confirmed key off the host. */
  lemma {:induction false} LateFirstUse(h: Host, k: Key, l: Key)
    requires h.enabled && Supported(h.policy) && Blank(h) && k != l
    ensures var steps := [Whole(VerifyCall(TestConnection, Some(k), Stored)), Whole(ConfirmCall(true, Some(k), true)),
                          Late(0, TestConnection, Some(l), Stored)];
            && ConfirmsIn(h, steps, 1) && Current(Steps(h, steps[..2])) == Some(k)
            && Steps(h, steps).status == Pending && Current(Steps(h, steps)) == Some(l)
  {
    var steps := [Whole(VerifyCall(TestConnection, Some(k), Stored)), Whole(ConfirmCall(true, Some(k), true)),
                  Late(0, TestConnection, Some(l), Stored)];
    assert steps[..2][..1] == steps[..1] && steps[..1][..0] == [] && steps[..0] == [];
    assert Steps(h, steps[..1]) == WithCandidate(h, k);
    assert Steps(h, steps[..2]) == WithConfirmed(WithCandidate(h, k), k);
  }

  /** A late first use lifts the block of a mismatch: another key is allowed, with no confirmation. */
  lemma {:induction false} LateFirstUseUnblocks(h: Host, k: Key, m: Key, l: Key)
    requires h.enabled && Supported(h.policy) && Blank(h) && k != m
    ensures var steps := [Whole(VerifyCall(TestConnection, Some(k), Stored)), Whole(VerifyCall(TestConnection, Some(m), Stored)),
                          Late(0, TestConnection, Some(l), Stored)];
            && Blocked(Steps(h, steps[..2]), m) && Allows(h, steps, 2, l)
            && Steps(h, steps).status == Pending && Current(Steps(h, steps)) == Some(l)
  {
    var steps := [Whole(VerifyCall(TestConnection, Some(k), Stored)), Whole(VerifyCall(TestConnection, Some(m), Stored)),
                  Late(0, TestConnection, Some(l), Stored)];
    assert steps[..2][..1] == steps[..1] && steps[..1][..0] == [] && steps[..0] == [];
    assert Steps(h, steps[..1]) == WithCandidate(h, k);
    assert Steps(h, steps[..2]) == WithMismatch(WithCandidate(h, k), m);
  }

  /** A late mismatch replaces the pair that an earlier one has noted, and with it the only pair that can be confirmed. */
  lemma {:induction false} LateMismatchReplaces(h: Host, k: Key, m: Key, l: Key)
    requires h.enabled && Supported(h.policy) && TrustedConfigured(h) && Current(h) == Some(k) && k != m && k != l && l != m
    ensures var steps := [Whole(VerifyCall(TestConnection, Some(m), Stored)), Late(0, TestConnection, Some(l), Stored)];
            Blocked(Steps(h, steps[..1]), m) && Blocked(Steps(h, steps), l) && !PendingIs(Steps(h, steps), m)
  {
    var steps := [Whole(VerifyCall(TestConnection, Some(m), Stored)), Late(0, TestConnection, Some(l), Stored)];
    assert steps[..1][..0] == [] && steps[..0] == [];
    assert Steps(h, steps[..1]) == WithMismatch(h, m);
  }

  // ---------- what keeps the promise ----------

  /** The host can take the key as its candidate without letting go of another. */
  predicate Free(now: Host, key: Key) {
    now.status != Mismatch && (Current(now).None? || Current(now) == Some(key))
  }

  /** A late first use leaves every settled host settled exactly when it finds the host free for its key. */
  lemma {:induction false} FreeKeepsSettled(now: Host, key: Key)
    ensures Free(now, key) <==> forall other :: Settled(now, other) ==> Settled(WithCandidate(now, key), other)
  {
    if !Free(now, key) {
      if now.status == Mismatch {
        var other := Key(key.algorithm + "x", key.fingerprint);
        assert |other.algorithm| != |key.algorithm|;
        assert Settled(now, other) && !Settled(WithCandidate(now, key), other);
      } else {
        assert Settled(now, Current(now).value) && !Settled(WithCandidate(now, key), Current(now).value);
      }
    }
  }

  /** A verification for collecting that writes nothing, which the host would be asked just before step n. */
  function Probed(steps: seq<Step>, n: nat, key: Key): seq<Step>
    requires n < |steps|
  {
    steps[..n] + [Whole(VerifyCall(Collect, Some(key), NotStored)), steps[n]]
  }

  lemma {:induction false} StepsKeepPolicy(h: Host, steps: seq<Step>)
    ensures Steps(h, steps).enabled == h.enabled && Steps(h, steps).policy == h.policy
    decreases |steps|
  {
    if steps != [] {
      StepsKeepPolicy(h, steps[..|steps| - 1]);
    }
  }

  lemma {:induction false} ProbeAllows(h: Host, steps: seq<Step>, n: nat, other: Key)
    requires n < |steps|
    ensures var now := Steps(h, steps[..n]);
            && (Allows(h, Probed(steps, n, other), n, other) <==> Listens(now, Collect, Some(other)) && Current(now) == Some(other))
            && Steps(h, Probed(steps, n, other)[..n + 1]) == now
  {
    var probed := Probed(steps, n, other);
    assert probed[..n] == steps[..n] && probed[..n + 1][..n] == steps[..n];
  }

  /**
   * A late first use finds the host free for its key exactly when it breaks no promise then and there: the host is not
   * blocked, and no other key would be allowed just before it. Its own key is allowed in any case.
   */
  lemma {:induction false} FreeIsSafe(h: Host, steps: seq<Step>, n: nat, key: Key)
    requires n < |steps| && steps[n].Late? && Allows(h, steps, n, key)
    ensures Free(Steps(h, steps[..n]), key) <==>
            && Steps(h, steps[..n]).status != Mismatch
            && forall other :: Allows(h, Probed(steps, n, other), n, other) ==> other == key
    ensures forall other :: Steps(h, Probed(steps, n, other)[..n + 1]) == Steps(h, steps[..n])
  {
    var now := Steps(h, steps[..n]);
    forall other
      ensures Allows(h, Probed(steps, n, other), n, other) <==> Listens(now, Collect, Some(other)) && Current(now) == Some(other)
      ensures Steps(h, Probed(steps, n, other)[..n + 1]) == now
    {
      ProbeAllows(h, steps, n, other);
    }
    StepsKeepPolicy(h, steps[..n]);
    StepsKeepPolicy(h, steps[..ReadAt(steps[n].read, n)]);
    hide Probed, Steps, Allows;
    if now.status != Mismatch && !Free(now, key) {
      var other := Current(now).value;
      assert Allows(h, Probed(steps, n, other), n, other);
    }
  }

  /** Every first use that writes late still finds the host free for its key. */
  predicate Orderly(h: Host, steps: seq<Step>) {
    forall n :: 0 <= n < |steps| && steps[n].Late? && steps[n].write != NotStored
                && FirstUse(Seen(h, steps, n), steps[n].operation, steps[n].observed) ==>
      Free(Steps(h, steps[..n]), steps[n].observed.value)
  }

  lemma {:induction false} StepSettled(h: Host, steps: seq<Step>, n: nat, key: Key)
    requires Orderly(h, steps) && n < |steps| && !ConfirmsIn(h, steps, n)
    requires Settled(Steps(h, steps[..n]), key)
    ensures Settled(Steps(h, steps[..n + 1]), key)
  {
    assert steps[..n + 1][..n] == steps[..n];
    var now := Steps(h, steps[..n]);
    match steps[n] {
      case Whole(call) => StaysSettled(now, call, key);
      case Late(read, operation, observed, write) =>
        assert steps[..n + 1][..ReadAt(read, n)] == steps[..ReadAt(read, n)];
        if write != NotStored && FirstUse(Seen(h, steps, n), operation, observed) {
          FreeKeepsSettled(now, observed.value);
        }
    }
  }

  lemma {:induction false} SettledAlong(h: Host, steps: seq<Step>, i: nat, j: nat, key: Key)
    requires Orderly(h, steps) && i <= j <= |steps| && Settled(Steps(h, steps[..i]), key)
    requires forall m :: i <= m < j ==> !ConfirmsIn(h, steps, m)
    ensures Settled(Steps(h, steps[..j]), key)
    decreases j - i
  {
    hide Orderly, Settled, Steps, ConfirmsIn;
    if i < j {
      SettledAlong(h, steps, i, j - 1, key);
      StepSettled(h, steps, j - 1, key);
    }
  }

  /** What an allowed key leaves, and what it finds. */
  lemma {:induction false} AllowedHere(h: Host, steps: seq<Step>, n: nat, key: Key)
    requires Orderly(h, steps) && n < |steps| && Allows(h, steps, n, key)
    ensures Settled(Steps(h, steps[..n + 1]), key)
    ensures forall other :: Settled(Steps(h, steps[..n]), other) ==> other == key
  {
    assert steps[..n + 1][..n] == steps[..n];
    var now := Steps(h, steps[..n]);
    match steps[n] {
      case Whole(call) => AllowedSettles(now, call.operation, call.observed, call.write);
      case Late(read, operation, observed, write) =>
        assert steps[..n + 1][..ReadAt(read, n)] == steps[..ReadAt(read, n)];
        assert Free(now, key);
    }
  }

  /** With calls that overlap in an orderly way, all keys allowed between two confirmations are still one and the same. */
  lemma {:induction false} OneKeyDespiteOverlap(h: Host, steps: seq<Step>, i: nat, j: nat, k: Key, l: Key)
    requires Orderly(h, steps) && i < j < |steps| && Allows(h, steps, i, k) && Allows(h, steps, j, l)
    requires forall m :: i < m < j ==> !ConfirmsIn(h, steps, m)
    ensures k == l
  {
    hide Orderly, Settled, Steps, ConfirmsIn, Allows;
    AllowedHere(h, steps, i, k);
    SettledAlong(h, steps, i + 1, j, k);
    AllowedHere(h, steps, j, l);
  }

  lemma ConfirmSettles(h: Host, steps: seq<Step>, n: nat)
    requires n < |steps| && ConfirmsIn(h, steps, n)
    ensures steps[n].call.input.Some? && Settled(Steps(h, steps[..n + 1]), steps[n].call.input.value)
  {
    assert steps[..n + 1][..n] == steps[..n];
  }

  /** And after a confirmation only the confirmed key is allowed, until the next one. */
  lemma {:induction false} ConfirmedDespiteOverlap(h: Host, steps: seq<Step>, i: nat, j: nat, key: Key)
    requires Orderly(h, steps) && i < j < |steps| && ConfirmsIn(h, steps, i) && Allows(h, steps, j, key)
    requires forall m :: i < m < j ==> !ConfirmsIn(h, steps, m)
    ensures steps[i].call.input == Some(key)
  {
    ConfirmSettles(h, steps, i);
    hide Orderly, Settled, Steps, Allows, Confirms;
    SettledAlong(h, steps, i + 1, j, steps[i].call.input.value);
    AllowedHere(h, steps, j, key);
  }

  // ---------- after a mismatch ----------

  /** In orderly runs no late first use is written to a mismatched host. */
  lemma NoFirstUse(h: Host, steps: seq<Step>, n: nat)
    requires Orderly(h, steps) && n < |steps| && steps[n].Late?
    ensures Steps(h, steps[..n]).status == Mismatch && FirstUse(Seen(h, steps, n), steps[n].operation, steps[n].observed) ==>
              steps[n].write == NotStored
  {
    hide Steps, FirstUse;
  }

  lemma {:induction false} StepBlocked(h: Host, steps: seq<Step>, n: nat)
    requires Orderly(h, steps) && n < |steps| && !ConfirmsIn(h, steps, n)
    requires Steps(h, steps[..n]).status == Mismatch
    ensures Steps(h, steps[..n + 1]).status == Mismatch && forall key :: !Allows(h, steps, n, key)
  {
    assert steps[..n + 1][..n] == steps[..n];
    var now := Steps(h, steps[..n]);
    if steps[n].Late? {
      assert steps[..n + 1][..ReadAt(steps[n].read, n)] == steps[..ReadAt(steps[n].read, n)];
      NoFirstUse(h, steps, n);
    }
  }

  lemma {:induction false} BlockedAlong(h: Host, steps: seq<Step>, i: nat, j: nat)
    requires Orderly(h, steps) && i <= j <= |steps| && Steps(h, steps[..i]).status == Mismatch
    requires forall m :: i <= m < j ==> !ConfirmsIn(h, steps, m)
    ensures Steps(h, steps[..j]).status == Mismatch
    decreases j - i
  {
    hide Orderly, Steps, ConfirmsIn, Allows;
    if i < j {
      BlockedAlong(h, steps, i, j - 1);
      StepBlocked(h, steps, j - 1);
    }
  }

  /** With calls that overlap in an orderly way nothing is allowed on a mismatched host until a confirmation. */
  lemma {:induction false} BlockedDespiteOverlap(h: Host, steps: seq<Step>, i: nat, j: nat, key: Key)
    requires Orderly(h, steps) && i <= j < |steps| && Steps(h, steps[..i]).status == Mismatch
    requires forall m :: i <= m <= j ==> !ConfirmsIn(h, steps, m)
    ensures !Allows(h, steps, j, key)
  {
    hide Orderly, Steps, ConfirmsIn, Allows;
    BlockedAlong(h, steps, i, j);
    StepBlocked(h, steps, j);
  }

  /** Step n is a late mismatch that notes another pair. */
  predicate NotesOther(h: Host, steps: seq<Step>, n: nat, seen: Key)
    requires n < |steps|
  {
    && steps[n].Late? && steps[n].write != NotStored && steps[n].observed != Some(seen)
    && Differs(Seen(h, steps, n), steps[n].operation, steps[n].observed)
  }

  lemma {:induction false} PairStays(h: Host, steps: seq<Step>, i: nat, j: nat, seen: Key)
    requires Orderly(h, steps) && i <= j <= |steps| && Blocked(Steps(h, steps[..i]), seen)
    requires forall m :: i <= m < j ==> !ConfirmsIn(h, steps, m) && !NotesOther(h, steps, m, seen)
    ensures Blocked(Steps(h, steps[..j]), seen)
    decreases j - i
  {
    if i < j {
      PairStays(h, steps, i, j - 1, seen);
      var n := j - 1;
      StepBlocked(h, steps, n);
      assert steps[..j][..n] == steps[..n];
      if steps[n].Late? {
        assert steps[..j][..ReadAt(steps[n].read, n)] == steps[..ReadAt(steps[n].read, n)];
        NoFirstUse(h, steps, n);
      }
    }
  }

  /** Until a late mismatch notes another pair, only the pair seen at the mismatch can be confirmed. */
  lemma {:induction false} OnlyTheNotedPair(h: Host, steps: seq<Step>, i: nat, j: nat, seen: Key)
    requires Orderly(h, steps) && i <= j < |steps| && Blocked(Steps(h, steps[..i]), seen)
    requires forall m :: i <= m < j ==> !ConfirmsIn(h, steps, m) && !NotesOther(h, steps, m, seen)
    requires ConfirmsIn(h, steps, j)
    ensures steps[j].call.input == Some(seen) && Current(Steps(h, steps[..j + 1])) == Some(seen)
  {
    PairStays(h, steps, i, j, seen);
    assert steps[..j + 1][..j] == steps[..j];
  }
}
