/** The SSH host key of one host: first use, mismatch and confirmation. */
module HostKey {
  import opened Wrappers
  import opened Writes
  import opened Text

  datatype Policy = Strict | TrustOnFirstUse | Insecure | OtherPolicy
  datatype KeyStatus = Unverified | Pending | Trusted | Mismatch

  datatype Key = Key(algorithm: string, fingerprint: string)

  /** The stored host, as far as its key is concerned. */
  datatype Host = Host(enabled: bool, policy: Policy, status: KeyStatus,
                       algorithm: Option<string>, fingerprint: Option<string>,
                       pendingAlgorithm: Option<string>, pendingFingerprint: Option<string>)

  datatype Operation = TestConnection | Collect | OtherOperation

  datatype Error = InvalidHostKey | InvalidInput | InsecureDisabled | MismatchError | ConfirmationRequired | StoreError
                 | Forbidden | AuditError

  datatype Verdict = Allowed(key: Key, status: KeyStatus) | Refused(error: Error)
  datatype ConfirmReply = Confirmed | ConfirmRefused(error: Error)

  // ---------- checking what was observed ----------

  predicate AlgorithmRune(c: char) {
    'a' <= c <= 'z' || 'A' <= c <= 'Z' || '0' <= c <= '9' || c in {'-', '_', '@', '.'}
  }

  function NormalizeAlgorithm(value: string): Option<string> {
    var trimmed := Trim(value);
    if trimmed == "" || |trimmed| > 100 || exists i :: 0 <= i < |trimmed| && !AlgorithmRune(trimmed[i]) then None
    else Some(trimmed)
  }

  /** `digest` says which texts are the unpadded base-64 of 32 bytes. */
  function NormalizeFingerprint(value: string, digest: string -> bool): Option<string> {
    var trimmed := Trim(value);
    if HasPrefix(trimmed, "SHA256:") && digest(trimmed[7..]) then Some(trimmed) else None
  }

  function NormalizeKey(algorithm: string, fingerprint: string, digest: string -> bool): Option<Key> {
    var a, f := NormalizeAlgorithm(algorithm), NormalizeFingerprint(fingerprint, digest);
    if a.Some? && f.Some? then Some(Key(a.value, f.value)) else None
  }

  /** One to a hundred letters, digits, and marks. */
  predicate AlgorithmText(text: string) {
    && 1 <= |text| <= 100
    && forall k :: 0 <= k < |text| ==>
         || 'a' <= text[k] <= 'z' || 'A' <= text[k] <= 'Z' || '0' <= text[k] <= '9'
         || text[k] == '-' || text[k] == '_' || text[k] == '@' || text[k] == '.'
  }

  predicate FingerprintText(text: string, digest: string -> bool) {
    |text| >= 7 && text[..7] == "SHA256:" && digest(text[7..])
  }

  /** A key is accepted exactly when both texts are in order once trimmed, and then it is these two texts, whole. */
  lemma {:induction false} KeyIsTrimmedPair(algorithm: string, fingerprint: string, digest: string -> bool, key: Key)
    ensures NormalizeKey(algorithm, fingerprint, digest) == Some(key)
            <==> && key == Key(Trim(algorithm), Trim(fingerprint))
                 && AlgorithmText(Trim(algorithm)) && FingerprintText(Trim(fingerprint), digest)
  {
    hide Trim;
    AlgorithmIsTrimmed(algorithm);
    FingerprintIsTrimmed(fingerprint, digest);
    hide NormalizeAlgorithm, NormalizeFingerprint, AlgorithmText, FingerprintText;
  }

  lemma {:induction false} AlgorithmIsTrimmed(value: string)
    ensures NormalizeAlgorithm(value) == if AlgorithmText(Trim(value)) then Some(Trim(value)) else None
  {
    var text := Trim(value);
    hide Trim;
    if i :| 0 <= i < |text| && !AlgorithmRune(text[i]) {
      assert !AlgorithmText(text);
    } else {
      assert forall k :: 0 <= k < |text| ==> AlgorithmRune(text[k]);
    }
  }

  lemma FingerprintIsTrimmed(value: string, digest: string -> bool)
    ensures NormalizeFingerprint(value, digest) == if FingerprintText(Trim(value), digest) then Some(Trim(value)) else None
  {
    var text := Trim(value);
    hide Trim;
    assert HasPrefix(text, "SHA256:") <==> |text| >= 7 && text[..7] == "SHA256:";
  }

  // ---------- the stored key ----------

  predicate TrustedConfigured(h: Host) {
    h.status == Trusted && h.algorithm.Some? && h.fingerprint.Some?
  }

  predicate UsableConfigured(h: Host) {
    TrustedConfigured(h) || (h.status == Pending && h.pendingAlgorithm.Some? && h.pendingFingerprint.Some?)
  }

  predicate HasPending(h: Host) {
    h.pendingAlgorithm.Some? || h.pendingFingerprint.Some?
  }

  predicate PendingIs(h: Host, key: Key) {
    h.pendingAlgorithm == Some(key.algorithm) && h.pendingFingerprint == Some(key.fingerprint)
  }

  function WithCandidate(h: Host, key: Key): Host {
    h.(status := Pending, pendingAlgorithm := Some(key.algorithm), pendingFingerprint := Some(key.fingerprint))
  }

  function WithMismatch(h: Host, key: Key): Host {
    h.(status := Mismatch, pendingAlgorithm := Some(key.algorithm), pendingFingerprint := Some(key.fingerprint))
  }

  function WithConfirmed(h: Host, key: Key): Host {
    h.(status := Trusted, algorithm := Some(key.algorithm), fingerprint := Some(key.fingerprint),
       pendingAlgorithm := None, pendingFingerprint := None)
  }

  predicate Supported(policy: Policy) {
    policy == Strict || policy == TrustOnFirstUse
  }

  /** The host record, whose fields the calls update. */
  class HostRecord {
    var enabled: bool
    var policy: Policy
    var status: KeyStatus
    var algorithm: Option<string>
    var fingerprint: Option<string>
    var pendingAlgorithm: Option<string>
    var pendingFingerprint: Option<string>

    constructor (host: Host)
      ensures Value() == host
    {
      enabled, policy, status := host.enabled, host.policy, host.status;
      algorithm, fingerprint := host.algorithm, host.fingerprint;
      pendingAlgorithm, pendingFingerprint := host.pendingAlgorithm, host.pendingFingerprint;
    }

    function Value(): Host
      reads this
    {
      Host(enabled, policy, status, algorithm, fingerprint, pendingAlgorithm, pendingFingerprint)
    }

    method RecordCandidate(key: Key, write: Write) returns (ok: bool)
      modifies this
      ensures ok <==> write == Stored
      ensures Value() == if write == NotStored then old(Value()) else WithCandidate(old(Value()), key)
    {
      if write != NotStored {
        status, pendingAlgorithm, pendingFingerprint := Pending, Some(key.algorithm), Some(key.fingerprint);
      }
      ok := write == Stored;
    }

    /** Whatever becomes of the write, the caller is told of the mismatch. */
    method RecordMismatch(key: Key, write: Write)
      modifies this
      ensures Value() == if write == NotStored then old(Value()) else WithMismatch(old(Value()), key)
    {
      if write != NotStored {
        status, pendingAlgorithm, pendingFingerprint := Mismatch, Some(key.algorithm), Some(key.fingerprint);
      }
    }

    /** `VerifyObservedHostKey`. */
    method Verify(operation: Operation, observedAlgorithm: string, observedFingerprint: string,
                  digest: string -> bool, write: Write)
      returns (r: Verdict)
      modifies this
      ensures r == VerifyReply(old(Value()), operation, NormalizeKey(observedAlgorithm, observedFingerprint, digest), write)
      ensures Value() == VerifyNext(old(Value()), operation, NormalizeKey(observedAlgorithm, observedFingerprint, digest), write)
    {
      if operation == OtherOperation {
        return Refused(InvalidHostKey);
      }
      var observed := NormalizeKey(observedAlgorithm, observedFingerprint, digest);
      if observed.None? {
        return Refused(InvalidHostKey);
      }
      var key := observed.value;
      if !enabled {
        return Refused(InvalidInput);
      }
      if policy == Insecure {
        return Refused(InsecureDisabled);
      }
      if policy != Strict && policy != TrustOnFirstUse {
        return Refused(InvalidHostKey);
      }
      if status == Mismatch {
        return Refused(MismatchError);
      }
      if TrustedConfigured(Value()) {
        if algorithm.value != key.algorithm || fingerprint.value != key.fingerprint {
          RecordMismatch(key, write);
          return Refused(MismatchError);
        }
        return Allowed(key, Trusted);
      }
      if pendingFingerprint.Some? || pendingAlgorithm.Some? {
        if pendingFingerprint.None? || pendingAlgorithm.None? || pendingAlgorithm.value != key.algorithm
          || pendingFingerprint.value != key.fingerprint
        {
          RecordMismatch(key, write);
          return Refused(MismatchError);
        }
        return Allowed(key, Pending);
      }
      if operation == Collect {
        return Refused(ConfirmationRequired);
      }
      var ok := RecordCandidate(key, write);
      if !ok {
        return Refused(StoreError);
      }
      r := Allowed(key, status);
    }

    /** `ConfirmHostKey`; the audit entry is written after the confirmation is stored. */
    method Confirm(admin: bool, inputAlgorithm: string, inputFingerprint: string, digest: string -> bool,
                   write: bool, audited: bool)
      returns (r: ConfirmReply)
      modifies this
      ensures Value() == ConfirmNext(old(Value()), admin, NormalizeKey(inputAlgorithm, inputFingerprint, digest), write)
      ensures r == ConfirmReplyOf(old(Value()), admin, NormalizeKey(inputAlgorithm, inputFingerprint, digest), write, audited)
    {
      if !admin {
        return ConfirmRefused(Forbidden);
      }
      var input := NormalizeKey(inputAlgorithm, inputFingerprint, digest);
      if input.None? {
        return ConfirmRefused(InvalidHostKey);
      }
      var key := input.value;
      if pendingAlgorithm.None? || pendingFingerprint.None? || pendingAlgorithm.value != key.algorithm
        || pendingFingerprint.value != key.fingerprint || (status != Pending && status != Mismatch)
      {
        return ConfirmRefused(ConfirmationRequired);
      }
      if !write {
        return ConfirmRefused(StoreError);
      }
      algorithm, fingerprint, status := Some(key.algorithm), Some(key.fingerprint), Trusted;
      pendingAlgorithm, pendingFingerprint := None, None;
      r := if audited then Confirmed else ConfirmRefused(AuditError);
    }

    /** `PreflightHostKey`. */
    method Preflight(operation: Operation) returns (r: Option<Error>)
      ensures r == PreflightError(Value(), operation)
    {
      if operation == OtherOperation {
        return Some(InvalidHostKey);
      }
      if policy == Insecure {
        return Some(InsecureDisabled);
      }
      if policy != Strict && policy != TrustOnFirstUse {
        return Some(InvalidHostKey);
      }
      if status == Mismatch {
        return Some(MismatchError);
      }
      if operation == Collect && !UsableConfigured(Value()) {
        return Some(ConfirmationRequired);
      }
      r := None;
    }
  }

  // ---------- the calls as steps ----------

  /** The one key the host accepts, if there is one. */
  function Current(h: Host): Option<Key> {
    if h.status == Mismatch then None
    else if TrustedConfigured(h) then Some(Key(h.algorithm.value, h.fingerprint.value))
    else if h.pendingAlgorithm.Some? && h.pendingFingerprint.Some? then Some(Key(h.pendingAlgorithm.value, h.pendingFingerprint.value))
    else None
  }

  /** No key was ever trusted or noted. */
  predicate Blank(h: Host) {
    h.status != Mismatch && !TrustedConfigured(h) && !HasPending(h)
  }

  predicate Listens(h: Host, operation: Operation, observed: Option<Key>) {
    operation != OtherOperation && observed.Some? && h.enabled && Supported(h.policy)
  }

  function VerifyReply(h: Host, operation: Operation, observed: Option<Key>, write: Write): Verdict {
    if operation == OtherOperation || observed.None? then Refused(InvalidHostKey)
    else if !h.enabled then Refused(InvalidInput)
    else if h.policy == Insecure then Refused(InsecureDisabled)
    else if !Supported(h.policy) then Refused(InvalidHostKey)
    else if h.status == Mismatch then Refused(MismatchError)
    else if Blank(h) then
      if operation == Collect then Refused(ConfirmationRequired)
      else if write == Stored then Allowed(observed.value, Pending)
      else Refused(StoreError)
    else if Current(h) == observed then Allowed(observed.value, if TrustedConfigured(h) then Trusted else Pending)
    else Refused(MismatchError)
  }

  function VerifyNext(h: Host, operation: Operation, observed: Option<Key>, write: Write): Host {
    if !Listens(h, operation, observed) || h.status == Mismatch || write == NotStored then h
    else if Blank(h) then if operation == Collect then h else WithCandidate(h, observed.value)
    else if Current(h) == observed then h
    else WithMismatch(h, observed.value)
  }

  /** The pair the host has as its trusted, or else as its noted key, is this one. */
  predicate Knows(h: Host, key: Key) {
    if h.status == Trusted && h.algorithm.Some? && h.fingerprint.Some? then
      h.algorithm.value == key.algorithm && h.fingerprint.value == key.fingerprint
    else h.pendingAlgorithm == Some(key.algorithm) && h.pendingFingerprint == Some(key.fingerprint)
  }

  /** Neither a trusted pair nor any part of a noted one. */
  predicate KnowsNone(h: Host) {
    !(h.status == Trusted && h.algorithm.Some? && h.fingerprint.Some?) && h.pendingAlgorithm.None? && h.pendingFingerprint.None?
  }

  /** When a verification lets the connection through: a known key, or a first one that is noted; never while mismatched. */
  lemma {:induction false} AllowedExactly(h: Host, operation: Operation, observed: Key, write: Write)
    ensures VerifyReply(h, operation, Some(observed), write).Allowed?
            <==> && operation in {TestConnection, Collect} && h.enabled && h.policy in {Strict, TrustOnFirstUse}
                 && h.status != Mismatch
                 && (Knows(h, observed) || (KnowsNone(h) && operation == TestConnection && write == Stored))
    ensures VerifyReply(h, operation, Some(observed), write).Allowed? ==> VerifyReply(h, operation, Some(observed), write).key == observed
  {
  }

  /** When it leaves a mismatch, and what it may change: the status and the noted pair, never the trusted one. */
  lemma {:induction false} MismatchExactly(h: Host, operation: Operation, observed: Key, write: Write)
    ensures var next := VerifyNext(h, operation, Some(observed), write);
            next.status == Mismatch
            <==> || h.status == Mismatch
                 || (&& operation in {TestConnection, Collect} && h.enabled && h.policy in {Strict, TrustOnFirstUse}
                     && write != NotStored && !Knows(h, observed) && !KnowsNone(h))
    ensures var next := VerifyNext(h, operation, Some(observed), write);
            && (next == h || (next.pendingAlgorithm == Some(observed.algorithm) && next.pendingFingerprint == Some(observed.fingerprint)))
            && (next.enabled, next.policy, next.algorithm, next.fingerprint) == (h.enabled, h.policy, h.algorithm, h.fingerprint)
  {
  }

  /** Whether the call stores a confirmation. */
  predicate Confirms(h: Host, admin: bool, input: Option<Key>, write: bool) {
    && admin && input.Some? && write
    && PendingIs(h, input.value) && (h.status == Pending || h.status == Mismatch)
  }

  function ConfirmNext(h: Host, admin: bool, input: Option<Key>, write: bool): Host {
    if Confirms(h, admin, input, write) then WithConfirmed(h, input.value) else h
  }

  function ConfirmReplyOf(h: Host, admin: bool, input: Option<Key>, write: bool, audited: bool): ConfirmReply {
    if !admin then ConfirmRefused(Forbidden)
    else if input.None? then ConfirmRefused(InvalidHostKey)
    else if !Confirms(h, admin, input, true) then ConfirmRefused(ConfirmationRequired)
    else if !write then ConfirmRefused(StoreError)
    else if !audited then ConfirmRefused(AuditError)
    else Confirmed
  }

  /** A confirmation that succeeds is stored; one that is stored may still be reported as failed, by its audit entry only. */
  lemma {:induction false} ConfirmedIsStored(h: Host, admin: bool, input: Option<Key>, write: bool, audited: bool)
    ensures ConfirmReplyOf(h, admin, input, write, audited) == Confirmed <==> audited && Confirms(h, admin, input, write)
    ensures Confirms(h, admin, input, write) && !audited ==>
              ConfirmReplyOf(h, admin, input, write, audited) == ConfirmRefused(AuditError)
  {
  }

  function PreflightError(h: Host, operation: Operation): Option<Error> {
    if operation == OtherOperation then Some(InvalidHostKey)
    else if h.policy == Insecure then Some(InsecureDisabled)
    else if !Supported(h.policy) then Some(InvalidHostKey)
    else if h.status == Mismatch then Some(MismatchError)
    else if operation == Collect && !UsableConfigured(h) then Some(ConfirmationRequired)
    else None
  }

  // ---------- runs ----------

  datatype Call =
    | VerifyCall(operation: Operation, observed: Option<Key>, write: Write)
    | ConfirmCall(admin: bool, input: Option<Key>, stored: bool)

  function Next(h: Host, call: Call): Host {
    match call
    case VerifyCall(operation, observed, write) => VerifyNext(h, operation, observed, write)
    case ConfirmCall(admin, input, stored) => ConfirmNext(h, admin, input, stored)
  }

  /** The host after the calls. */
  function After(h: Host, calls: seq<Call>): Host {
    if calls == [] then h else Next(After(h, calls[..|calls| - 1]), calls[|calls| - 1])
  }

  /** Call i of the run is a verification that allows the key. */
  predicate AllowsAt(h: Host, calls: seq<Call>, i: nat, key: Key)
    requires i < |calls|
  {
    calls[i].VerifyCall? &&
    var reply := VerifyReply(After(h, calls[..i]), calls[i].operation, calls[i].observed, calls[i].write);
    reply.Allowed? && reply.key == key
  }

  predicate ConfirmsAt(h: Host, calls: seq<Call>, i: nat)
    requires i < |calls|
  {
    calls[i].ConfirmCall? && Confirms(After(h, calls[..i]), calls[i].admin, calls[i].input, calls[i].stored)
  }

  /** From here on only this key can be allowed, until a confirmation. */
  predicate Settled(h: Host, key: Key) {
    h.status == Mismatch || Current(h) == Some(key)
  }

  lemma {:induction false} AllowedSettles(h: Host, operation: Operation, observed: Option<Key>, write: Write)
    requires VerifyReply(h, operation, observed, write).Allowed?
    ensures observed == Some(VerifyReply(h, operation, observed, write).key)
    ensures Settled(VerifyNext(h, operation, observed, write), observed.value)
    ensures forall key :: Settled(h, key) ==> key == observed.value
  {
  }

  lemma {:induction false} StaysSettled(h: Host, call: Call, key: Key)
    requires Settled(h, key)
    requires call.ConfirmCall? ==> !Confirms(h, call.admin, call.input, call.stored)
    ensures Settled(Next(h, call), key)
  {
  }

  lemma {:induction false} SettledUntil(h: Host, calls: seq<Call>, i: nat, j: nat, key: Key)
    requires i <= j <= |calls| && Settled(After(h, calls[..i]), key)
    requires forall m :: i <= m < j ==> !ConfirmsAt(h, calls, m)
    ensures Settled(After(h, calls[..j]), key)
    decreases j - i
  {
    if i < j {
      SettledUntil(h, calls, i, j - 1, key);
      assert !ConfirmsAt(h, calls, j - 1);
      StaysSettled(After(h, calls[..j - 1]), calls[j - 1], key);
      assert calls[..j][..j - 1] == calls[..j - 1];
    }
  }

  /** All verifications allowed between two confirmations are of one and the same key. */
  lemma {:induction false} OneKeyBetweenConfirmations(h: Host, calls: seq<Call>, i: nat, j: nat, k: Key, l: Key)
    requires i < j < |calls| && AllowsAt(h, calls, i, k) && AllowsAt(h, calls, j, l)
    requires forall m :: i < m < j ==> !ConfirmsAt(h, calls, m)
    ensures k == l
  {
    AllowedSettles(After(h, calls[..i]), calls[i].operation, calls[i].observed, calls[i].write);
    assert calls[..i + 1][..i] == calls[..i];
    SettledUntil(h, calls, i + 1, j, k);
    AllowedSettles(After(h, calls[..j]), calls[j].operation, calls[j].observed, calls[j].write);
  }

  /** What a mismatch leaves: nothing is allowed, and only the pair seen then can be confirmed. */
  predicate Blocked(h: Host, key: Key) {
    h.status == Mismatch && PendingIs(h, key)
  }

  lemma {:induction false} BlockedUntil(h: Host, calls: seq<Call>, i: nat, j: nat, key: Key)
    requires i <= j <= |calls| && Blocked(After(h, calls[..i]), key)
    requires forall m :: i <= m < j ==> !ConfirmsAt(h, calls, m)
    ensures Blocked(After(h, calls[..j]), key)
    decreases j - i
  {
    if i < j {
      BlockedUntil(h, calls, i, j - 1, key);
      assert !ConfirmsAt(h, calls, j - 1);
      assert calls[..j][..j - 1] == calls[..j - 1];
    }
  }

  /** After a mismatch nothing is allowed until the pair seen then is confirmed, and no other pair can be. */
  lemma {:induction false} MismatchBlocks(h: Host, calls: seq<Call>, i: nat, j: nat, seen: Key)
    requires i <= j < |calls| && Blocked(After(h, calls[..i]), seen)
    requires forall m :: i <= m < j ==> !ConfirmsAt(h, calls, m)
    ensures forall key :: !AllowsAt(h, calls, j, key)
    ensures ConfirmsAt(h, calls, j) ==> calls[j].input == Some(seen) && Current(After(h, calls[..j + 1])) == Some(seen)
  {
    BlockedUntil(h, calls, i, j, seen);
    assert calls[..j + 1][..j] == calls[..j];
  }

  /** After a confirmation only the confirmed key is allowed, until the next one. */
  lemma {:induction false} OnlyTheConfirmedKey(h: Host, calls: seq<Call>, i: nat, j: nat, key: Key)
    requires i < j < |calls| && ConfirmsAt(h, calls, i) && AllowsAt(h, calls, j, key)
    requires forall m :: i < m < j ==> !ConfirmsAt(h, calls, m)
    ensures calls[i].input == Some(key) && PendingIs(After(h, calls[..i]), key)
  {
    var confirmed := calls[i].input.value;
    assert calls[..i + 1][..i] == calls[..i];
    SettledUntil(h, calls, i + 1, j, confirmed);
    AllowedSettles(After(h, calls[..j]), calls[j].operation, calls[j].observed, calls[j].write);
  }

  /** Collecting is never allowed on a host that has neither a trusted nor a pending key. */
  lemma {:induction false} CollectNeedsAKey(h: Host, observed: Option<Key>, write: Write)
    requires VerifyReply(h, Collect, observed, write).Allowed?
    ensures TrustedConfigured(h) || (h.pendingAlgorithm.Some? && h.pendingFingerprint.Some?)
    ensures Current(h) == observed && VerifyNext(h, Collect, observed, write) == h
  {
  }

  /** A preflight that passes for collecting means that exactly one key would be allowed, on an enabled host. */
  lemma {:induction false} PreflightFindsTheKey(h: Host, observed: Key, write: Write)
    requires PreflightError(h, Collect).None? && h.enabled
    ensures Current(h).Some?
    ensures VerifyReply(h, Collect, Some(observed), write).Allowed? <==> Current(h) == Some(observed)
  {
  }

  /** Exactly when a verification would be allowed that the preflight refuses: collecting, with a pair noted in another state. */
  lemma {:induction false} PreflightRefusals(h: Host, operation: Operation)
    requires PreflightError(h, operation).Some?
    ensures (exists observed, write :: VerifyReply(h, operation, observed, write).Allowed?) <==>
            && operation == Collect && h.enabled && Supported(h.policy)
            && h.status in {Unverified, Trusted} && !TrustedConfigured(h)
            && h.pendingAlgorithm.Some? && h.pendingFingerprint.Some?
  {
    if h.pendingAlgorithm.Some? && h.pendingFingerprint.Some? {
      var noted := Some(Key(h.pendingAlgorithm.value, h.pendingFingerprint.value));
      assert operation == Collect && h.enabled && Supported(h.policy) && h.status in {Unverified, Trusted} && !TrustedConfigured(h) ==>
          VerifyReply(h, operation, noted, NotStored).Allowed?;
    }
  }

  /** A pair is noted only on a pending or mismatched host. */
  predicate NotedInState(h: Host) {
    HasPending(h) ==> h.status == Pending || h.status == Mismatch
  }

  lemma {:induction false} AlwaysNotedInState(h: Host, calls: seq<Call>)
    requires NotedInState(h)
    ensures NotedInState(After(h, calls))
  {
    if calls != [] {
      AlwaysNotedInState(h, calls[..|calls| - 1]);
    }
  }

  /** On a host that starts without a noted pair the calls never get there: what the preflight refuses is refused. */
  lemma {:induction false} PreflightIsRight(h: Host, calls: seq<Call>, operation: Operation, observed: Option<Key>, write: Write)
    requires !HasPending(h) && PreflightError(After(h, calls), operation).Some?
    ensures VerifyReply(After(h, calls), operation, observed, write).Refused?
  {
    AlwaysNotedInState(h, calls);
    PreflightRefusals(After(h, calls), operation);
  }
}
