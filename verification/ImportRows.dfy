/** The rows of a host import: what the preview finds wrong with them, and what confirming does with each. */
module ImportRows {
  import opened Wrappers
  import opened Text
  import opened Decimal

  datatype Strategy = Skip | UpdateMetadata | ReplaceConnection | CreateAsDisabled

  datatype Issue = GroupNotFound | InvalidRow | InvalidCredential | DuplicateInFile

  /** One record of the file, read by column; whether its group and its credential are in order is given. */
  datatype Record = Record(name: string, host: string, port: int, environment: string, groupFound: bool, credentialComplete: bool)

  /** What is to be done with a row: create the host, or what the strategy says for one that exists. */
  datatype Action = Create | Existing(strategy: Strategy)

  datatype Row = Row(number: nat, name: string, host: string, port: int, environment: string, action: Action,
                     existingId: Option<int>, issues: seq<Issue>)

  datatype Known = Known(id: int, environment: string, host: string, port: int)

  function Key(environment: string, host: string, port: int, lower: string -> string): string {
    lower(Trim(environment)) + ['\U{0}'] + lower(Trim(host)) + ['\U{0}'] + Signed(port)
  }

  function Port(port: int): int {
    if port == 0 then 22 else port
  }

  function RecordKey(record: Record, lower: string -> string): string {
    Key(record.environment, record.host, Port(record.port), lower)
  }

  function RowKey(row: Row, lower: string -> string): string {
    Key(row.environment, row.host, row.port, lower)
  }

  /** The known host under each key; the last one listed wins. */
  function ByKey(hosts: seq<Known>, lower: string -> string): map<string, int> {
    if hosts == [] then map[]
    else
      var last := hosts[|hosts| - 1];
      ByKey(hosts[..|hosts| - 1], lower)[Key(last.environment, last.host, last.port, lower) := last.id]
  }

  function IssuesOf(record: Record, repeated: bool): seq<Issue> {
    (if record.groupFound then [] else [GroupNotFound])
    + (if record.name == "" || record.host == "" || Port(record.port) < 1 || Port(record.port) > 65535 then [InvalidRow] else [])
    + (if record.credentialComplete then [] else [InvalidCredential])
    + (if repeated then [DuplicateInFile] else [])
  }

  function RowOf(records: seq<Record>, i: nat, known: map<string, int>, strategy: Strategy,
                 lower: string -> string): Row
    requires i < |records|
  {
    var record := records[i];
    var key := RecordKey(record, lower);
    Row(i + 2, record.name, record.host, Port(record.port), record.environment,
        if key in known then Existing(strategy) else Create,
        if key in known then Some(known[key]) else None,
        IssuesOf(record, Repeated(records, i, lower)))
  }

  /** An earlier record of the file has the same key. */
  predicate Repeated(records: seq<Record>, i: nat, lower: string -> string)
    requires i < |records|
  {
    exists k :: 0 <= k < i && RecordKey(records[k], lower) == RecordKey(records[i], lower)
  }

  /** All rows of a file. */
  function RowsOf(records: seq<Record>, known: map<string, int>, strategy: Strategy, lower: string -> string): (rows: seq<Row>)
    ensures |rows| == |records|
  {
    seq(|records|, i requires 0 <= i < |records| => RowOf(records, i, known, strategy, lower))
  }

  /** `buildImportRows`, from records already read by column. */
  method BuildImportRows(records: seq<Record>, hosts: seq<Known>, strategy: Strategy, lower: string -> string)
    returns (rows: seq<Row>)
    ensures rows == RowsOf(records, ByKey(hosts, lower), strategy, lower)
  {
    var existing: map<string, int> := map[];
    for i := 0 to |hosts|
      invariant existing == ByKey(hosts[..i], lower)
    {
      assert hosts[..i + 1][..i] == hosts[..i];
      existing := existing[Key(hosts[i].environment, hosts[i].host, hosts[i].port, lower) := hosts[i].id];
    }
    assert hosts[..|hosts|] == hosts;
    rows := ReadRecords(records, existing, strategy, lower);
  }

  method ReadRecords(records: seq<Record>, existing: map<string, int>, strategy: Strategy, lower: string -> string)
    returns (rows: seq<Row>)
    ensures rows == RowsOf(records, existing, strategy, lower)
  {
    var seen: set<string> := {};
    rows := [];
    hide Key, IssuesOf;
    for index := 0 to |records|
      invariant |rows| == index
      invariant forall i :: 0 <= i < index ==> rows[i] == RowOf(records, i, existing, strategy, lower)
      invariant forall key :: key in seen <==> exists k :: 0 <= k < index && RecordKey(records[k], lower) == key
    {
      var record := records[index];
      var key := RecordKey(record, lower);
      assert key in seen <==> Repeated(records, index, lower);
      var issues := IssuesOf(record, key in seen);
      seen := seen + {key};
      var row := Row(index + 2, record.name, record.host, Port(record.port), record.environment, Create, None, issues);
      if key in existing {
        row := row.(existingId := Some(existing[key]), action := Existing(strategy));
      }
      rows := rows + [row];
    }
  }

  /** Of two rows of one file with the same environment, host and port, the second has an issue. */
  lemma {:induction false} CleanRowsDiffer(records: seq<Record>, known: map<string, int>, strategy: Strategy,
                                           lower: string -> string, i: nat, j: nat)
    requires i < j < |records|
    ensures var rows := RowsOf(records, known, strategy, lower);
            rows[j].issues == [] ==> RowKey(rows[i], lower) != RowKey(rows[j], lower)
  {
    hide Key, IssuesOf;
    RepeatedIsNoted(records[j], Repeated(records, j, lower));
    assert RecordKey(records[i], lower) == RecordKey(records[j], lower) ==> Repeated(records, j, lower);
  }

  lemma RepeatedIsNoted(record: Record, repeated: bool)
    ensures repeated ==> IssuesOf(record, repeated) != []
  {
  }

  // ---------- what the rows mean ----------

  const NUL: char := '\U{0}'

  lemma {:induction false} CutFirst(x: string, r: string, y: string, s: string)
    requires NUL !in x && NUL !in y && x + [NUL] + r == y + [NUL] + s
    ensures x == y && r == s
  {
    var a, b := x + [NUL] + r, y + [NUL] + s;
    assert a[0] == b[0];
    if x != "" && y != "" {
      assert a[1..] == x[1..] + [NUL] + r && b[1..] == y[1..] + [NUL] + s;
      CutFirst(x[1..], r, y[1..], s);
      assert x == [x[0]] + x[1..] && y == [y[0]] + y[1..];
    } else {
      assert x == y;
      assert a[1..] == r && b[1..] == s;
    }
  }

  lemma {:induction false} CutLast(x: string, r: string, y: string, s: string)
    requires NUL !in r && NUL !in s && x + [NUL] + r == y + [NUL] + s
    ensures x == y && r == s
  {
    var a, b := x + [NUL] + r, y + [NUL] + s;
    var n := |a| - 1;
    assert a[n] == b[n];
    if r != "" && s != "" {
      assert a[..n] == x + [NUL] + r[..|r| - 1] && b[..n] == y + [NUL] + s[..|s| - 1];
      CutLast(x, r[..|r| - 1], y, s[..|s| - 1]);
      assert r == r[..|r| - 1] + [r[|r| - 1]] && s == s[..|s| - 1] + [s[|s| - 1]];
    } else {
      assert r == s;
      assert a[..n] == x && b[..n] == y;
    }
  }

  lemma NoNulInPort(port: int)
    ensures NUL !in Signed(port)
  {
    var s := Dec(if port < 0 then -port else port);
    assert forall i :: 0 <= i < |s| ==> IsDigit(s[i]);
  }

  /** Environment, host and port, without white space around them and with letters folded. */
  predicate SameHost(a: Row, b: Row, lower: string -> string) {
    lower(Trim(a.environment)) == lower(Trim(b.environment)) && lower(Trim(a.host)) == lower(Trim(b.host)) && a.port == b.port
  }

  /** The key tells hosts apart, as long as no environment holds a NUL. */
  lemma {:induction false} KeyTellsApart(a: Row, b: Row, lower: string -> string)
    requires NUL !in lower(Trim(a.environment)) && NUL !in lower(Trim(b.environment))
    ensures RowKey(a, lower) == RowKey(b, lower) <==> SameHost(a, b, lower)
  {
    var e, h, p := lower(Trim(a.environment)), lower(Trim(a.host)), Signed(a.port);
    var f, i, q := lower(Trim(b.environment)), lower(Trim(b.host)), Signed(b.port);
    NoNulInPort(a.port);
    NoNulInPort(b.port);
    hide Trim, Signed;
    if RowKey(a, lower) == RowKey(b, lower) {
      Regroup(e + [NUL], h + [NUL], p);
      Regroup(e + [NUL], h, [NUL]);
      Regroup(f + [NUL], i + [NUL], q);
      Regroup(f + [NUL], i, [NUL]);
      CutFirst(e, h + [NUL] + p, f, i + [NUL] + q);
      CutLast(h, p, i, q);
      SignedInjective(a.port, b.port);
    }
  }

  lemma NulOverlap(x: string, y: string, z: string)
    requires x != "" && y != "" && z != "" && Trimmed(x) && Trimmed(y) && Trimmed(z)
    ensures x + [NUL] + y + [NUL] + z == x + [NUL] + (y + [NUL] + z)
    ensures Trimmed(x + [NUL] + y) && Trimmed(y + [NUL] + z) && x + [NUL] + y != x
  {
    hide IsSpace;
    var e, h := x + [NUL] + y, y + [NUL] + z;
    assert e[0] == x[0] && e[|e| - 1] == y[|y| - 1] && h[0] == y[0] && h[|h| - 1] == z[|z| - 1];
    assert |e| > |x|;
  }

  /** With a NUL in an environment it does not. */
  lemma NulKeysCollide(a: Row, b: Row, x: string, y: string, z: string, lower: string -> string)
    requires x != "" && y != "" && z != "" && Trimmed(x) && Trimmed(y) && Trimmed(z) && forall s :: lower(s) == s
    requires a.environment == x + [NUL] + y && a.host == z && b.environment == x && b.host == y + [NUL] + z
    requires a.port == b.port
    ensures RowKey(a, lower) == RowKey(b, lower) && !SameHost(a, b, lower)
  {
    NulOverlap(x, y, z);
    TrimOfTrimmed(a.environment);
    TrimOfTrimmed(a.host);
    TrimOfTrimmed(b.environment);
    TrimOfTrimmed(b.host);
    hide Trim, Signed, Trimmed;
  }

  /** A row without issues has a name, a host, a port, a group and a credential in order, and no twin before it; and conversely. */
  lemma {:induction false} CleanMeans(records: seq<Record>, known: map<string, int>, strategy: Strategy, lower: string -> string,
                                      i: nat)
    requires i < |records|
    ensures var row := RowsOf(records, known, strategy, lower)[i];
            row.issues == [] <==> && row.name != "" && row.host != "" && 1 <= row.port <= 65535
                                  && records[i].groupFound && records[i].credentialComplete
                                  && forall k :: 0 <= k < i ==> RecordKey(records[k], lower) != RecordKey(records[i], lower)
  {
    hide Key;
  }

  /** A row carries its record, with port 22 for none, and the number of its line in the file. */
  lemma RowCarries(records: seq<Record>, known: map<string, int>, strategy: Strategy, lower: string -> string, i: nat)
    requires i < |records|
    ensures var row := RowsOf(records, known, strategy, lower)[i]; var record := records[i];
            && row.name == record.name && row.host == record.host && row.environment == record.environment
            && row.number == i + 2 && (record.port != 0 ==> row.port == record.port) && (record.port == 0 ==> row.port == 22)
  {
    hide Key, IssuesOf;
  }

  /** The last known host with a key is the one found under it. */
  lemma {:induction false} LastKnownWins(hosts: seq<Known>, lower: string -> string, key: string)
    ensures key in ByKey(hosts, lower)
            <==> exists i :: 0 <= i < |hosts| && Key(hosts[i].environment, hosts[i].host, hosts[i].port, lower) == key
    ensures forall i :: 0 <= i < |hosts| && Key(hosts[i].environment, hosts[i].host, hosts[i].port, lower) == key
                        && (forall j :: i < j < |hosts| ==> Key(hosts[j].environment, hosts[j].host, hosts[j].port, lower) != key)
                        ==> key in ByKey(hosts, lower) && ByKey(hosts, lower)[key] == hosts[i].id
  {
    hide Key;
    if hosts != [] {
      var n := |hosts| - 1;
      LastKnownWins(hosts[..n], lower, key);
      assert forall i :: 0 <= i < n ==> hosts[..n][i] == hosts[i];
      if key in ByKey(hosts[..n], lower) {
        var i :| 0 <= i < n && Key(hosts[..n][i].environment, hosts[..n][i].host, hosts[..n][i].port, lower) == key;
        assert Key(hosts[i].environment, hosts[i].host, hosts[i].port, lower) == key;
      }
    }
  }

  /** What is asked of the host service for a row: a new host, or what the strategy says for the known one. */
  lemma {:induction false} RowAsks(records: seq<Record>, hosts: seq<Known>, strategy: Strategy, lower: string -> string, i: nat)
    requires i < |records|
    ensures var known := ByKey(hosts, lower); var key := RecordKey(records[i], lower);
            var effect := EffectOf(RowsOf(records, known, strategy, lower)[i], strategy);
            && (key !in known ==> effect == CreateHost(true))
            && (key in known && strategy == Skip ==> effect == Nothing)
            && (key in known && strategy == CreateAsDisabled ==> effect == CreateHost(false))
            && (key in known && strategy in {UpdateMetadata, ReplaceConnection} && known[key] != 0 ==>
                  effect == UpdateHost(known[key], strategy == ReplaceConnection))
            && (key in known && strategy in {UpdateMetadata, ReplaceConnection} && known[key] == 0 ==> effect == CreateHost(true))
  {
    hide Key, IssuesOf, ByKey;
  }

  // ---------- counting a preview ----------

  function Invalid(rows: seq<Row>): nat {
    if rows == [] then 0 else Invalid(rows[..|rows| - 1]) + if rows[|rows| - 1].issues != [] then 1 else 0
  }

  function Duplicates(rows: seq<Row>): nat {
    if rows == [] then 0
    else Duplicates(rows[..|rows| - 1]) + match rows[|rows| - 1].existingId case Some(id) => (if id > 0 then 1 else 0) case None => 0
  }

  method CountRows(rows: seq<Row>) returns (valid: nat, invalid: nat, duplicates: nat)
    ensures invalid == Invalid(rows) && duplicates == Duplicates(rows) && valid + invalid == |rows|
  {
    valid, invalid, duplicates := 0, 0, 0;
    for i := 0 to |rows|
      invariant invalid == Invalid(rows[..i]) && duplicates == Duplicates(rows[..i]) && valid + invalid == i
    {
      assert rows[..i + 1][..i] == rows[..i];
      if |rows[i].issues| > 0 {
        invalid := invalid + 1;
      } else {
        valid := valid + 1;
      }
      if rows[i].existingId.Some? && rows[i].existingId.value > 0 {
        duplicates := duplicates + 1;
      }
    }
    assert rows[..|rows|] == rows;
  }

  lemma {:induction false} NoneInvalid(rows: seq<Row>)
    ensures Invalid(rows) == 0 <==> forall i :: 0 <= i < |rows| ==> rows[i].issues == []
  {
    if rows != [] {
      var n := |rows| - 1;
      NoneInvalid(rows[..n]);
      assert forall i :: 0 <= i < n ==> rows[..n][i] == rows[i];
    }
  }

  // ---------- running the rows ----------

  /** What running one row asks of the host service. */
  datatype Effect = Nothing | CreateHost(enabled: bool) | UpdateHost(id: int, replaceConnection: bool)

  datatype Status = Skipped | Success | Failed

  datatype Item = Item(row: nat, status: Status, effect: Effect)

  datatype Result = Result(total: nat, created: nat, updated: nat, skipped: nat, failed: nat, items: seq<Item>)

  function EffectOf(row: Row, strategy: Strategy): Effect {
    if row.action == Existing(Skip) then Nothing
    else if row.existingId in {None, Some(0)} || row.action == Existing(CreateAsDisabled) then
      CreateHost(row.action != Existing(CreateAsDisabled))
    else UpdateHost(row.existingId.value, strategy == ReplaceConnection)
  }

  /** `saves` says whether the service stores the i-th row. */
  function ItemOf(row: Row, strategy: Strategy, saved: bool): Item {
    var effect := EffectOf(row, strategy);
    Item(row.number, if effect.Nothing? then Skipped else if saved then Success else Failed, effect)
  }

  datatype Counts = Counts(created: nat, updated: nat, skipped: nat, failed: nat)

  /** How many items ended in which way. */
  function Tally(items: seq<Item>): Counts {
    if items == [] then Counts(0, 0, 0, 0)
    else
      var c := Tally(items[..|items| - 1]);
      var last := items[|items| - 1];
      match last.status
      case Skipped => c.(skipped := c.skipped + 1)
      case Failed => c.(failed := c.failed + 1)
      case Success => if last.effect.CreateHost? then c.(created := c.created + 1) else c.(updated := c.updated + 1)
  }

  ghost predicate RanAll(r: Result, rows: seq<Row>, strategy: Strategy, saves: nat -> bool) {
    && r.total == |rows| == |r.items|
    && (forall i :: 0 <= i < |rows| ==> r.items[i] == ItemOf(rows[i], strategy, saves(i)))
    && Tally(r.items) == Counts(r.created, r.updated, r.skipped, r.failed)
  }

  /** The items of the rows run so far, and their counts. */
  ghost predicate Running(r: Result, rows: seq<Row>, strategy: Strategy, saves: nat -> bool, n: nat) {
    && r.total == |rows| && |r.items| == n <= |rows|
    && (forall i :: 0 <= i < n ==> r.items[i] == ItemOf(rows[i], strategy, saves(i)))
    && Tally(r.items) == Counts(r.created, r.updated, r.skipped, r.failed)
  }

  function WithItem(r: Result, item: Item): Result {
    var next := r.(items := r.items + [item]);
    match item.status
    case Skipped => next.(skipped := r.skipped + 1)
    case Failed => next.(failed := r.failed + 1)
    case Success => if item.effect.CreateHost? then next.(created := r.created + 1) else next.(updated := r.updated + 1)
  }

  lemma {:induction false} RunsOn(r: Result, rows: seq<Row>, strategy: Strategy, saves: nat -> bool, n: nat)
    requires n < |rows| && Running(r, rows, strategy, saves, n)
    ensures Running(WithItem(r, ItemOf(rows[n], strategy, saves(n))), rows, strategy, saves, n + 1)
  {
    hide ItemOf, Tally;
    TallyNext(r.items, ItemOf(rows[n], strategy, saves(n)));
  }

  lemma {:induction false} NothingRun(rows: seq<Row>, strategy: Strategy, saves: nat -> bool)
    ensures Running(Result(|rows|, 0, 0, 0, 0, []), rows, strategy, saves, 0)
  {
  }

  lemma {:induction false} AllRun(r: Result, rows: seq<Row>, strategy: Strategy, saves: nat -> bool)
    requires Running(r, rows, strategy, saves, |rows|)
    ensures RanAll(r, rows, strategy, saves)
  {
    hide ItemOf, Tally;
  }

  /** The row loop of `Confirm`: a row that fails does not stop the others. */
  method RunRows(rows: seq<Row>, strategy: Strategy, saves: nat -> bool) returns (r: Result)
    ensures RanAll(r, rows, strategy, saves)
  {
    hide *;
    r := Result(|rows|, 0, 0, 0, 0, []);
    NothingRun(rows, strategy, saves);
    for i := 0 to |rows|
      invariant Running(r, rows, strategy, saves, i)
    {
      var item := RunRow(rows[i], strategy, saves(i));
      RunsOn(r, rows, strategy, saves, i);
      r := WithItem(r, item);
    }
    AllRun(r, rows, strategy, saves);
  }

  method RunRow(row: Row, strategy: Strategy, saved: bool) returns (item: Item)
    ensures item == ItemOf(row, strategy, saved)
  {
    if row.action == Existing(Skip) {
      return Item(row.number, Skipped, Nothing);
    }
    var effect;
    if row.existingId.None? || row.existingId.value == 0 || row.action == Existing(CreateAsDisabled) {
      effect := CreateHost(row.action != Existing(CreateAsDisabled));
    } else {
      effect := UpdateHost(row.existingId.value, strategy == ReplaceConnection);
    }
    item := Item(row.number, if saved then Success else Failed, effect);
  }

  lemma {:induction false} TallyNext(items: seq<Item>, item: Item)
    ensures var c := Tally(items);
            Tally(items + [item]) ==
            match item.status
            case Skipped => c.(skipped := c.skipped + 1)
            case Failed => c.(failed := c.failed + 1)
            case Success => if item.effect.CreateHost? then c.(created := c.created + 1) else c.(updated := c.updated + 1)
  {
    assert (items + [item])[..|items|] == items;
  }

  lemma {:induction false} TallySum(items: seq<Item>)
    ensures var c := Tally(items); c.created + c.updated + c.skipped + c.failed == |items|
  {
    if items != [] {
      TallySum(items[..|items| - 1]);
    }
  }

  /** Every row is accounted for, exactly once. */
  lemma {:induction false} NothingUnaccounted(r: Result, rows: seq<Row>, strategy: Strategy, saves: nat -> bool)
    requires RanAll(r, rows, strategy, saves)
    ensures r.created + r.updated + r.skipped + r.failed == r.total == |r.items| == |rows|
  {
    TallySum(r.items);
  }
}
