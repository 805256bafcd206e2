/** The store of import previews: a preview is confirmed at most once, in time, and only without errors. */
module ImportStore {
  import opened Wrappers
  import opened ImportRows

  /** A stored preview; `serial` tells the previews of a run apart, whatever their tokens. */
  datatype StoredPreview = StoredPreview(serial: nat, expires: int, strategy: Strategy, rows: seq<Row>, invalid: nat)

  datatype State = State(previews: map<string, StoredPreview>, next: nat)

  /** How long previews live, and how letters are folded. */
  datatype Setting = Setting(ttl: int, lower: string -> string)

  const MAX_ROWS := 5000

  datatype PreviewReply = Previewed(preview: StoredPreview, valid: nat, duplicates: nat) | PreviewDenied | TooManyRows

  datatype Reply = Ran(preview: StoredPreview, result: Result) | AdminRequired | Expired | HasErrors

  /** The previews that have not expired. */
  function Fresh(previews: map<string, StoredPreview>, now: int): map<string, StoredPreview> {
    map t | t in previews && now < previews[t].expires :: previews[t]
  }

  class BatchImporter {
    const setting: Setting
    var previews: map<string, StoredPreview>
    var next: nat

    constructor (setting: Setting)
      ensures this.setting == setting && Value() == State(map[], 0)
    {
      this.setting, previews, next := setting, map[], 0;
    }

    function Value(): State
      reads this
    {
      State(previews, next)
    }

    /**
     * The second half of `Preview`, after the cleanup and the reading of the file: the rows are built, counted and stored
     * under the token. It looks at the clock again, and other calls may come between the halves.
     */
    method Preview(admin: bool, token: string, now: int, records: seq<Record>, hosts: seq<Known>, strategy: Strategy)
      returns (r: PreviewReply)
      modifies this
      ensures r == PreviewDenied <==> !admin
      ensures r == TooManyRows <==> admin && |records| > MAX_ROWS
      ensures r.Previewed? ==>
                && r.preview.rows == RowsOf(records, ByKey(hosts, setting.lower), strategy, setting.lower)
                && r.preview == StoredPreview(old(next), now + setting.ttl, strategy, r.preview.rows, Invalid(r.preview.rows))
                && r.valid + r.preview.invalid == |records| && r.duplicates == Duplicates(r.preview.rows)
      ensures Value() == Next(old(Value()), setting, PreviewCall(admin, token, now, records, hosts, strategy))
    {
      hide RowsOf, Invalid, Duplicates, ByKey, Fresh;
      if !admin {
        return PreviewDenied;
      }
      if |records| > MAX_ROWS {
        return TooManyRows;
      }
      var rows := BuildImportRows(records, hosts, strategy, setting.lower);
      var valid, invalid, duplicates := CountRows(rows);
      var preview := StoredPreview(next, now + setting.ttl, strategy, rows, invalid);
      previews := previews[token := preview];
      next := next + 1;
      r := Previewed(preview, valid, duplicates);
    }

    /** `Confirm`: the preview is taken out of the store before anything else is asked of it. */
    method Confirm(admin: bool, token: string, now: int, saves: nat -> bool) returns (r: Reply)
      modifies this
      ensures Value() == Next(old(Value()), setting, ConfirmCall(admin, token, now))
      ensures r.Ran? <==> Runs(old(Value()), ConfirmCall(admin, token, now)).Some?
      ensures r == AdminRequired <==> !admin
      ensures r == Expired <==> admin && (token !in old(previews) || old(previews)[token].expires <= now)
      ensures r.Ran? ==> && Runs(old(Value()), ConfirmCall(admin, token, now)) == Some(r.preview)
                         && RanAll(r.result, r.preview.rows, r.preview.strategy, saves)
    {
      if !admin {
        return AdminRequired;
      }
      if token !in previews {
        return Expired;
      }
      var preview := previews[token];
      previews := previews - {token};
      if !(now < preview.expires) {
        return Expired;
      }
      if preview.invalid > 0 {
        return HasErrors;
      }
      var result := RunRows(preview.rows, preview.strategy, saves);
      r := Ran(preview, result);
    }

    /** `CleanupExpired`. */
    method CleanupExpired(now: int)
      modifies this`previews
      ensures previews == Fresh(old(previews), now)
    {
      var before := previews;
      var keys := before.Keys;
      while keys != {}
        invariant keys <= before.Keys
        invariant forall t :: t in previews <==> t in before && (t in keys || now < before[t].expires)
        invariant forall t :: t in previews ==> previews[t] == before[t]
        decreases |keys|
      {
        var key :| key in keys;
        keys := keys - {key};
        if !(now < before[key].expires) {
          previews := previews - {key};
        }
      }
    }
  }

  // ---------- runs ----------

  /** A preview is a cleanup and, some time later, the storing half. */
  datatype Call =
    | PreviewCall(admin: bool, token: string, now: int, records: seq<Record>, hosts: seq<Known>, strategy: Strategy)
    | ConfirmCall(admin: bool, token: string, now: int)
    | CleanupCall(now: int)

  /** The rows a preview call stores. */
  function RowsAt(setting: Setting, call: Call): seq<Row>
    requires call.PreviewCall?
  {
    RowsOf(call.records, ByKey(call.hosts, setting.lower), call.strategy, setting.lower)
  }

  function Next(s: State, setting: Setting, call: Call): State {
    match call
    case PreviewCall(admin, token, now, records, _, strategy) =>
      if !admin || |records| > MAX_ROWS then s
      else
        var rows := RowsAt(setting, call);
        State(s.previews[token := StoredPreview(s.next, now + setting.ttl, strategy, rows, Invalid(rows))], s.next + 1)
    case ConfirmCall(admin, token, now) => if admin then s.(previews := s.previews - {token}) else s
    case CleanupCall(now) => s.(previews := Fresh(s.previews, now))
  }

  /** The preview whose rows the call runs, if any. */
  function Runs(s: State, call: Call): Option<StoredPreview> {
    match call
    case PreviewCall(_, _, _, _, _, _) => None
    case CleanupCall(_) => None
    case ConfirmCall(admin, token, now) =>
      if admin && token in s.previews && now < s.previews[token].expires && s.previews[token].invalid == 0 then
        Some(s.previews[token])
      else None
  }

  function After(setting: Setting, calls: seq<Call>): State {
    if calls == [] then State(map[], 0) else Next(After(setting, calls[..|calls| - 1]), setting, calls[|calls| - 1])
  }

  lemma {:induction false} AfterNext(setting: Setting, calls: seq<Call>, n: nat)
    requires n < |calls|
    ensures After(setting, calls[..n + 1]) == Next(After(setting, calls[..n]), setting, calls[n])
  {
    assert calls[..n + 1][..n] == calls[..n];
  }

  /** What call i of the run runs. */
  function RunAt(setting: Setting, calls: seq<Call>, i: nat): Option<StoredPreview>
    requires i < |calls|
  {
    Runs(After(setting, calls[..i]), calls[i])
  }

  /** The preview is in the store. */
  ghost predicate Holds(s: State, p: StoredPreview) {
    exists t :: t in s.previews && s.previews[t] == p
  }

  /** Every stored preview came from a preview call that has been made, and no two have the same serial. */
  ghost predicate StoreOk(s: State) {
    && (forall t :: t in s.previews ==> s.previews[t].serial < s.next && s.previews[t].invalid == Invalid(s.previews[t].rows))
    && (forall t, u :: t in s.previews && u in s.previews && t != u ==> s.previews[t].serial != s.previews[u].serial)
  }

  lemma {:induction false} NextOk(s: State, setting: Setting, call: Call)
    requires StoreOk(s)
    ensures StoreOk(Next(s, setting, call))
  {
    hide Invalid;
  }

  lemma {:induction false} AlwaysOk(setting: Setting, calls: seq<Call>)
    ensures StoreOk(After(setting, calls))
  {
    if calls != [] {
      AlwaysOk(setting, calls[..|calls| - 1]);
      NextOk(After(setting, calls[..|calls| - 1]), setting, calls[|calls| - 1]);
    }
  }

  /** The serial is no longer in the store, and will not be given out again. */
  ghost predicate Spent(s: State, serial: nat) {
    serial < s.next && forall t :: t in s.previews ==> s.previews[t].serial != serial
  }

  lemma {:induction false} SpentOnceRun(s: State, setting: Setting, call: Call)
    requires StoreOk(s) && Runs(s, call).Some?
    ensures Spent(Next(s, setting, call), Runs(s, call).value.serial)
  {
  }

  lemma {:induction false} StaysSpent(s: State, setting: Setting, call: Call, serial: nat)
    requires Spent(s, serial)
    ensures Spent(Next(s, setting, call), serial)
    ensures Runs(s, call).Some? ==> Runs(s, call).value.serial != serial
  {
    hide Invalid;
  }

  lemma {:induction false} SpentFrom(setting: Setting, calls: seq<Call>, i: nat, j: nat, serial: nat)
    requires i <= j <= |calls| && Spent(After(setting, calls[..i]), serial)
    ensures Spent(After(setting, calls[..j]), serial)
    decreases j - i
  {
    hide *;
    if i < j {
      SpentFrom(setting, calls, i, j - 1, serial);
      AfterNext(setting, calls, j - 1);
      StaysSpent(After(setting, calls[..j - 1]), setting, calls[j - 1], serial);
    }
  }

  /** However previews, confirmations and cleanups follow one another, no preview is run twice. */
  lemma {:induction false} RunAtMostOnce(setting: Setting, calls: seq<Call>, i: nat, j: nat)
    requires i < j < |calls| && RunAt(setting, calls, i).Some? && RunAt(setting, calls, j).Some?
    ensures RunAt(setting, calls, i).value.serial != RunAt(setting, calls, j).value.serial
  {
    hide Spent, Next, StoreOk, Runs, After;
    var serial := RunAt(setting, calls, i).value.serial;
    AfterNext(setting, calls, i);
    AlwaysOk(setting, calls[..i]);
    SpentOnceRun(After(setting, calls[..i]), setting, calls[i]);
    SpentFrom(setting, calls, i + 1, j, serial);
    StaysSpent(After(setting, calls[..j]), setting, calls[j], serial);
  }

  /** Where a stored preview comes from. */
  ghost predicate MadeBy(p: StoredPreview, setting: Setting, calls: seq<Call>, k: nat)
    requires k < |calls|
  {
    && calls[k].PreviewCall? && calls[k].admin && |calls[k].records| <= MAX_ROWS
    && p.serial == After(setting, calls[..k]).next
    && p.rows == RowsAt(setting, calls[k])
    && p == StoredPreview(p.serial, calls[k].now + setting.ttl, calls[k].strategy, p.rows, Invalid(p.rows))
  }

  lemma {:induction false} HasOrigin(setting: Setting, calls: seq<Call>, token: string)
    requires token in After(setting, calls).previews
    ensures exists k :: 0 <= k < |calls| && MadeBy(After(setting, calls).previews[token], setting, calls, k)
  {
    hide Invalid;
    var n := |calls| - 1;
    var before := After(setting, calls[..n]);
    var p := After(setting, calls).previews[token];
    if token in before.previews && before.previews[token] == p {
      HasOrigin(setting, calls[..n], token);
      var k :| 0 <= k < n && MadeBy(p, setting, calls[..n], k);
      assert calls[..n][..k] == calls[..k];
      assert MadeBy(p, setting, calls, k);
    } else {
      assert MadeBy(p, setting, calls, n);
    }
  }

  lemma {:induction false} CleanRowsSound(p: StoredPreview, setting: Setting, calls: seq<Call>, k: nat)
    requires k < |calls| && MadeBy(p, setting, calls, k)
    ensures forall r :: 0 <= r < |p.rows| && p.rows[r].issues == [] ==>
              p.rows[r].name != "" && p.rows[r].host != "" && 1 <= p.rows[r].port <= 65535
  {
    var call := calls[k];
    hide After, Invalid, RowsOf, ByKey;
    forall r | 0 <= r < |p.rows| && p.rows[r].issues == []
      ensures p.rows[r].name != "" && p.rows[r].host != "" && 1 <= p.rows[r].port <= 65535
    {
      CleanMeans(call.records, ByKey(call.hosts, setting.lower), call.strategy, setting.lower, r);
    }
  }

  /** The rows that are run are those of an earlier preview, before it expires, and none of them has an issue. */
  lemma {:induction false} RunsAreTimelyAndClean(setting: Setting, calls: seq<Call>, j: nat)
    requires j < |calls| && RunAt(setting, calls, j).Some?
    ensures var p := RunAt(setting, calls, j).value;
            && (exists k :: 0 <= k < j && MadeBy(p, setting, calls, k) && calls[j].now < calls[k].now + setting.ttl)
            && forall r :: 0 <= r < |p.rows| ==>
                 p.rows[r].issues == [] && p.rows[r].name != "" && p.rows[r].host != "" && 1 <= p.rows[r].port <= 65535
  {
    var p := RunAt(setting, calls, j).value;
    AlwaysOk(setting, calls[..j]);
    HasOrigin(setting, calls[..j], calls[j].token);
    var k :| 0 <= k < j && MadeBy(p, setting, calls[..j], k);
    assert calls[..j][..k] == calls[..k];
    assert MadeBy(p, setting, calls, k);
    NoneInvalid(p.rows);
    CleanRowsSound(p, setting, calls, k);
  }

  /** Whatever the calls, no two rows of a preview that is run name the same environment, host and port. */
  lemma {:induction false} RunRowsDiffer(setting: Setting, calls: seq<Call>, c: nat, i: nat, j: nat)
    requires c < |calls| && RunAt(setting, calls, c).Some? && i < j < |RunAt(setting, calls, c).value.rows|
    ensures var rows := RunAt(setting, calls, c).value.rows;
            RowKey(rows[i], setting.lower) != RowKey(rows[j], setting.lower)
  {
    hide RowOf, Key;
    RunsAreTimelyAndClean(setting, calls, c);
    var p := RunAt(setting, calls, c).value;
    var k :| 0 <= k < c && MadeBy(p, setting, calls, k);
    CleanRowsDiffer(calls[k].records, ByKey(calls[k].hosts, setting.lower), calls[k].strategy, setting.lower, i, j);
  }
}
