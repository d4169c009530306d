/** What the upstream store keeps (packages/middleware/src/upstream-store.ts): a table in memory,
    a queue of snapshots waiting to be written, and a JSON file. The class is in
    `UpstreamStores`. */
module Upstreams {
  import opened Basics
  import opened Decimal

  type Table = map<nat, string>

  /** One member of the JSON object; a value that is not a string has none. */
  datatype Field = Field(key: string, value: Option<string>)

  datatype File = Missing | Corrupt | Object(fields: seq<Field>)

  datatype LoadError = FileInvalid

  const MAX_ID_DIGITS: nat := 15
  const ID_LIMIT: nat := 1_000_000_000_000_000

  predicate IsId(key: string) {
    1 <= |key| <= MAX_ID_DIGITS && IsDigits(key)
  }

  function Loaded(fields: seq<Field>, table: Table, accepts: (nat, string) -> bool): Result<Table, LoadError> {
    if fields == [] then Ok(table) else
    var f := fields[0];
    if !IsId(f.key) || f.value.None? then Err(FileInvalid) else
    var id, url := Value(f.key), f.value.value;
    Loaded(fields[1..], if accepts(id, url) then table[id := url] else table, accepts)
  }

  function Load(file: File, accepts: (nat, string) -> bool): Result<Table, LoadError> {
    match file
    case Missing => Ok(map[])
    case Corrupt => Err(FileInvalid)
    case Object(fields) => Loaded(fields, map[], accepts)
  }

  predicate IsLeast(least: nat, ids: set<nat>) {
    least in ids && forall id :: id in ids ==> least <= id
  }

  lemma {:induction false} HasLeast(ids: set<nat>)
    requires ids != {}
    ensures exists least: nat :: IsLeast(least, ids)
  {
    var some :| some in ids;
    var others := ids - {some};
    assert ids == others + {some};
    if others == {} {
      assert IsLeast(some, ids);
    } else {
      HasLeast(others);
      var least: nat :| IsLeast(least, others);
      assert IsLeast(if least < some then least else some, ids);
    }
  }

  function LeastOf(ids: set<nat>): (least: nat)
    requires ids != {}
    ensures IsLeast(least, ids)
  {
    HasLeast(ids);
    var least :| least in ids && IsLeast(least, ids);
    least
  }

  /** The ids of a table in order. */
  function Ids(ids: set<nat>): (sorted: seq<nat>)
    ensures forall id :: id in sorted <==> id in ids
  {
    if ids == {} then [] else [LeastOf(ids)] + Ids(ids - {LeastOf(ids)})
  }

  lemma {:induction false} IdsAreSorted(ids: set<nat>)
    ensures forall i, j :: 0 <= i < j < |Ids(ids)| ==> Ids(ids)[i] < Ids(ids)[j]
  {
    if ids != {} {
      var rest := Ids(ids - {LeastOf(ids)});
      IdsAreSorted(ids - {LeastOf(ids)});
      assert forall i :: 0 <= i < |rest| ==> rest[i] in rest;
      assert forall i :: 0 <= i < |rest| ==> LeastOf(ids) < rest[i];
    }
  }

  function FieldsOf(ids: seq<nat>, table: Table): seq<Field>
    requires forall id :: id in ids ==> id in table
  {
    if ids == [] then [] else [Field(Print(ids[0]), Some(table[ids[0]]))] + FieldsOf(ids[1..], table)
  }

  /** The file a snapshot becomes. */
  function Written(table: Table): File {
    Object(FieldsOf(Ids(table.Keys), table))
  }

  function Accepted(table: Table, accepts: (nat, string) -> bool): Table {
    map id | id in table && accepts(id, table[id]) :: table[id]
  }

  lemma LimitIsPow()
    ensures Pow10(MAX_ID_DIGITS) == ID_LIMIT
  {
    assert Pow10(5) == 100_000;
    PowSum(5, 5);
    PowSum(5, 10);
  }

  lemma FitsExactly(id: nat)
    ensures IsId(Print(id)) <==> id < ID_LIMIT
  {
    hide Print, Pow10, Value;
    LimitIsPow();
    ValuePrint(id);
    ValueBound(Print(id));
    if id < ID_LIMIT {
      PrintLength(id, MAX_ID_DIGITS);
    } else if |Print(id)| <= MAX_ID_DIGITS {
      PowGrows(|Print(id)|, MAX_ID_DIGITS);
    }
  }

  lemma {:induction false} PowGrows(a: nat, b: nat)
    requires a <= b
    ensures Pow10(a) <= Pow10(b)
  {
    if a < b {
      PowGrows(a, b - 1);
    }
  }

  predicate AllFit(ids: seq<nat>) {
    forall id :: id in ids ==> id < ID_LIMIT
  }

  /** `start`, overwritten by the acceptable entries of `table` with these ids. */
  function Over(start: Table, ids: seq<nat>, table: Table, accepts: (nat, string) -> bool): Table
    requires forall id :: id in ids ==> id in table
  {
    start + map id | id in ids && accepts(id, table[id]) :: table[id]
  }

  lemma NoneUnfit()
    ensures AllFit([])
  {
  }

  lemma HeadOrTail(ids: seq<nat>)
    requires ids != []
    ensures ids[0] in ids && forall id :: id in ids <==> id == ids[0] || id in ids[1..]
    ensures AllFit(ids) <==> ids[0] < ID_LIMIT && AllFit(ids[1..])
  {
    assert ids == [ids[0]] + ids[1..];
  }

  lemma OverStep(start: Table, ids: seq<nat>, table: Table, accepts: (nat, string) -> bool)
    requires ids != [] && forall id :: id in ids ==> id in table
    requires forall id :: id in ids <==> id == ids[0] || id in ids[1..]
    ensures var id := ids[0];
            Over(if accepts(id, table[id]) then start[id := table[id]] else start, ids[1..], table, accepts)
            == Over(start, ids, table, accepts)
  {
  }

  lemma {:induction false} LoadsFields(ids: seq<nat>, table: Table, start: Table, accepts: (nat, string) -> bool)
    requires forall id :: id in ids ==> id in table
    ensures Loaded(FieldsOf(ids, table), start, accepts) ==
            if AllFit(ids) then Ok(Over(start, ids, table, accepts)) else Err(FileInvalid)
  {
    hide Print, Value, IsId, AllFit;
    if ids == [] {
      assert AllFit([]) by {
        NoneUnfit();
      }
      assert Over(start, [], table, accepts) == start;
    } else {
      hide Over;
      var id, rest := ids[0], ids[1..];
      FitsExactly(id);
      ValuePrint(id);
      HeadOrTail(ids);
      OverStep(start, ids, table, accepts);
      var fields := FieldsOf(ids, table);
      assert fields[1..] == FieldsOf(rest, table);
      LoadsFields(rest, table, if accepts(id, table[id]) then start[id := table[id]] else start, accepts);
    }
  }

  lemma OverAll(ids: seq<nat>, table: Table, accepts: (nat, string) -> bool)
    requires forall id :: id in ids <==> id in table
    ensures Over(map[], ids, table, accepts) == Accepted(table, accepts)
  {
  }

  /** Reading a written table back gives exactly its entries that the loader's guard accepts,
      provided every id has at most fifteen digits; one longer id makes the file unreadable. */
  lemma {:induction false} ReloadIsExact(table: Table, accepts: (nat, string) -> bool)
    ensures Load(Written(table), accepts) ==
            if forall id :: id in table ==> id < ID_LIMIT then Ok(Accepted(table, accepts)) else Err(FileInvalid)
  {
    hide Loaded, Over, Accepted, FieldsOf;
    LoadsFields(Ids(table.Keys), table, map[], accepts);
    OverAll(Ids(table.Keys), table, accepts);
  }

  /** The admin route takes any safe integer, so sixteen digits too, and the file with such an
      id does not load again. */
  lemma SixteenDigitsDoNotReload(url: string)
    ensures 1_000_000_000_000_000 < 9_007_199_254_740_991
    ensures Load(Written(map[1_000_000_000_000_000 := url]), (id, u) => true) == Err(FileInvalid)
  {
    var table: Table := map[1_000_000_000_000_000 := url];
    assert 1_000_000_000_000_000 in table;
    ReloadIsExact(table, (id, u) => true);
  }

  // ---- runs ---------------------------------------------------------------------------------

  datatype Store = Store(table: Table, queue: seq<Table>, file: File)

  /** `WriteOp` is the turn of the oldest queued write; `lands` tells whether its rename
      happens or the write rejects. */
  datatype Op = SetOp(serviceId: nat, url: string) | DeleteOp(unmapped: nat) | WriteOp(lands: bool)

  function Persisted(s: Store, table: Table): Store {
    s.(table := table, queue := s.queue + [table])
  }

  function Apply(s: Store, op: Op): Store {
    match op
    case SetOp(id, url) => Persisted(s, s.table[id := url])
    case DeleteOp(id) => if id !in s.table then s else Persisted(s, s.table - {id})
    case WriteOp(lands) =>
      if s.queue == [] then s
      else s.(queue := s.queue[1..], file := if lands then Written(s.queue[0]) else s.file)
  }

  function Run(boot: Store, ops: seq<Op>): Store {
    if ops == [] then boot else Apply(Run(boot, ops[..|ops| - 1]), ops[|ops| - 1])
  }

  /** The snapshot an operation takes, if it takes one. */
  function Taking(s: Store, op: Op): seq<Table> {
    match op
    case SetOp(id, url) => [s.table[id := url]]
    case DeleteOp(id) => if id in s.table then [s.table - {id}] else []
    case WriteOp(_) => []
  }

  /** Every snapshot taken, in call order. */
  function Snapshots(boot: Store, ops: seq<Op>): seq<Table> {
    if ops == [] then []
    else Snapshots(boot, ops[..|ops| - 1]) + Taking(Run(boot, ops[..|ops| - 1]), ops[|ops| - 1])
  }

  /** The snapshot an operation brings to disk, if it does, as its number among `taken`. */
  function Landing(s: Store, taken: nat, op: Op): seq<nat> {
    if op == WriteOp(true) && s.queue != [] && taken >= |s.queue| then [taken - |s.queue|] else []
  }

  /** Which snapshots reached the disk, in the order they did. */
  function Landed(boot: Store, ops: seq<Op>): seq<nat> {
    if ops == [] then [] else
    var before := ops[..|ops| - 1];
    Landed(boot, before) + Landing(Run(boot, before), |Snapshots(boot, before)|, ops[|ops| - 1])
  }

  ghost predicate InOrder(turns: seq<nat>, bound: int) {
    && (forall i, j :: 0 <= i < j < |turns| ==> turns[i] < turns[j])
    && (forall i :: 0 <= i < |turns| ==> turns[i] < bound)
  }

  ghost predicate Serialized(boot: Store, s: Store, snapshots: seq<Table>, landed: seq<nat>) {
    && |s.queue| <= |snapshots|
    && s.queue == snapshots[|snapshots| - |s.queue|..]
    && InOrder(landed, |snapshots| - |s.queue|)
    && s.table == (if snapshots == [] then boot.table else snapshots[|snapshots| - 1])
    && s.file == (if landed == [] then boot.file else Written(snapshots[landed[|landed| - 1]]))
  }

  lemma Taken(boot: Store, s: Store, snapshots: seq<Table>, landed: seq<nat>, table: Table)
    requires Serialized(boot, s, snapshots, landed)
    ensures Serialized(boot, Persisted(s, table), snapshots + [table], landed)
  {
    hide Written;
    var k := |snapshots| - |s.queue|;
    assert (snapshots + [table])[k..] == snapshots[k..] + [table];
  }

  lemma InOrderPush(turns: seq<nat>, turn: nat)
    requires InOrder(turns, turn)
    ensures InOrder(turns + [turn], turn + 1)
  {
  }

  lemma RestOfQueue(snapshots: seq<Table>, k: nat)
    requires k < |snapshots|
    ensures snapshots[k..][1..] == snapshots[k + 1..] && snapshots[k..][0] == snapshots[k]
  {
  }

  lemma TurnLands(boot: Store, s: Store, snapshots: seq<Table>, landed: seq<nat>, k: nat)
    requires Serialized(boot, s, snapshots, landed) && s.queue != [] && k == |snapshots| - |s.queue|
    ensures Serialized(boot, s.(queue := s.queue[1..], file := Written(s.queue[0])), snapshots, landed + [k])
  {
    hide Written, InOrder;
    RestOfQueue(snapshots, k);
    InOrderPush(landed, k);
  }

  lemma TurnRejects(boot: Store, s: Store, snapshots: seq<Table>, landed: seq<nat>)
    requires Serialized(boot, s, snapshots, landed) && s.queue != []
    ensures Serialized(boot, s.(queue := s.queue[1..]), snapshots, landed)
  {
    hide Written;
    RestOfQueue(snapshots, |snapshots| - |s.queue|);
  }

  lemma ChangeStays(boot: Store, s: Store, snapshots: seq<Table>, landed: seq<nat>, op: Op)
    requires Serialized(boot, s, snapshots, landed) && !op.WriteOp?
    ensures Serialized(boot, Apply(s, op), snapshots + Taking(s, op), landed)
  {
    hide Serialized, Written, Persisted;
    match op
    case SetOp(id, url) => Taken(boot, s, snapshots, landed, s.table[id := url]);
    case DeleteOp(id) =>
      if id in s.table {
        Taken(boot, s, snapshots, landed, s.table - {id});
      } else {
        NoneAdded(snapshots);
      }
  }

  lemma NoneAdded<T>(s: seq<T>)
    ensures s + [] == s
  {
  }

  lemma QueueFits(boot: Store, s: Store, snapshots: seq<Table>, landed: seq<nat>)
    requires Serialized(boot, s, snapshots, landed)
    ensures |s.queue| <= |snapshots|
  {
  }

  lemma WriteStays(boot: Store, s: Store, snapshots: seq<Table>, landed: seq<nat>, lands: bool)
    requires Serialized(boot, s, snapshots, landed)
    ensures Serialized(boot, Apply(s, WriteOp(lands)), snapshots, landed + Landing(s, |snapshots|, WriteOp(lands)))
  {
    hide Serialized, Written, Persisted;
    QueueFits(boot, s, snapshots, landed);
    if s.queue == [] || !lands {
      NoneAdded(landed);
      if s.queue != [] {
        TurnRejects(boot, s, snapshots, landed);
      }
    } else {
      TurnLands(boot, s, snapshots, landed, |snapshots| - |s.queue|);
    }
  }

  lemma StaysSerialized(boot: Store, s: Store, snapshots: seq<Table>, landed: seq<nat>, op: Op)
    requires Serialized(boot, s, snapshots, landed)
    ensures Serialized(boot, Apply(s, op), snapshots + Taking(s, op), landed + Landing(s, |snapshots|, op))
  {
    hide Serialized, Apply;
    if op.WriteOp? {
      NoneAdded(snapshots);
      WriteStays(boot, s, snapshots, landed, op.lands);
    } else {
      NoneAdded(landed);
      ChangeStays(boot, s, snapshots, landed, op);
    }
  }

  lemma NothingTaken(boot: Store)
    requires boot.queue == []
    ensures Serialized(boot, Run(boot, []), Snapshots(boot, []), Landed(boot, []))
  {
  }

  lemma LastStep(boot: Store, ops: seq<Op>)
    requires ops != []
    ensures var before, last := ops[..|ops| - 1], ops[|ops| - 1];
            var s := Run(boot, before);
            && Run(boot, ops) == Apply(s, last)
            && Snapshots(boot, ops) == Snapshots(boot, before) + Taking(s, last)
            && Landed(boot, ops) == Landed(boot, before) + Landing(s, |Snapshots(boot, before)|, last)
  {
    hide Apply, Taking, Landing;
  }

  /** The write queue refines the table: in every run, whichever writes fail, the file holds
      the boot image or a snapshot of some past state, snapshots land in call order, and the
      queue holds the newest ones. */
  lemma {:induction false} WritesAreSerialized(boot: Store, ops: seq<Op>)
    requires boot.queue == []
    ensures Serialized(boot, Run(boot, ops), Snapshots(boot, ops), Landed(boot, ops))
  {
    if ops == [] {
      NothingTaken(boot);
    } else {
      hide Serialized, Written, Taking, Landing, Apply, Run, Snapshots, Landed;
      var before := ops[..|ops| - 1];
      WritesAreSerialized(boot, before);
      LastStep(boot, ops);
      StaysSerialized(boot, Run(boot, before), Snapshots(boot, before), Landed(boot, before), ops[|ops| - 1]);
    }
  }

  /** Once the queue has drained and the last write landed, the file is the table's, so a
      reboot finds every acceptable mapping again. */
  lemma {:induction false} DrainedMeansSaved(boot: Store, ops: seq<Op>, accepts: (nat, string) -> bool)
    requires boot.queue == [] && Run(boot, ops).queue == []
    requires Snapshots(boot, ops) != [] && Landed(boot, ops) != []
    requires Landed(boot, ops)[|Landed(boot, ops)| - 1] == |Snapshots(boot, ops)| - 1
    ensures Run(boot, ops).file == Written(Run(boot, ops).table)
    ensures (forall id :: id in Run(boot, ops).table ==> id < ID_LIMIT) ==>
              Load(Run(boot, ops).file, accepts) == Ok(Accepted(Run(boot, ops).table, accepts))
  {
    hide Load;
    WritesAreSerialized(boot, ops);
    ReloadIsExact(Run(boot, ops).table, accepts);
  }

  // ---- any file --------------------------------------------------------------------------------

  /** A member of the object that the loader can read. */
  predicate IsEntry(f: Field) {
    1 <= |f.key| <= 15 && IsDigits(f.key) && f.value.Some?
  }

  predicate Maps(f: Field, id: nat, accepts: (nat, string) -> bool) {
    IsEntry(f) && Value(f.key) == id && accepts(id, f.value.value)
  }

  /** The last acceptable member for this id. */
  ghost predicate LastFor(fields: seq<Field>, i: nat, id: nat, accepts: (nat, string) -> bool) {
    i < |fields| && Maps(fields[i], id, accepts) && forall j :: i < j < |fields| ==> !Maps(fields[j], id, accepts)
  }

  ghost predicate NoneFor(fields: seq<Field>, id: nat, accepts: (nat, string) -> bool) {
    forall i :: 0 <= i < |fields| ==> !Maps(fields[i], id, accepts)
  }

  /** A store opens exactly on no file or on an object whose members can all be read; without a file
      it is empty. */
  lemma {:induction false} OpensExactly(file: File, accepts: (nat, string) -> bool)
    ensures Load(file, accepts).Ok? <==>
              file.Missing? || (file.Object? && forall k :: 0 <= k < |file.fields| ==> IsEntry(file.fields[k]))
    ensures file.Missing? ==> Load(file, accepts) == Ok(map[])
  {
    if file.Object? {
      LoadedExactly(file.fields, map[], accepts, 0, 0);
    }
  }

  /** Any object loads exactly when all its members can be read; the last acceptable member for an id
      then counts, and a refused one leaves no trace. */
  lemma {:induction false} LoadedExactly(
    fields: seq<Field>, table: Table, accepts: (nat, string) -> bool, i: nat, id: nat)
    ensures Loaded(fields, table, accepts).Ok? <==> forall k :: 0 <= k < |fields| ==> IsEntry(fields[k])
    ensures Loaded(fields, table, accepts).Ok? ==>
              var t := Loaded(fields, table, accepts).value;
              && (LastFor(fields, i, id, accepts) ==> id in t && t[id] == fields[i].value.value)
              && (NoneFor(fields, id, accepts) ==> (id in t <==> id in table) && (id in table ==> t[id] == table[id]))
  {
    if fields != [] {
      var f, rest := fields[0], fields[1..];
      assert fields == [f] + rest;
      var table' := if IsEntry(f) && accepts(Value(f.key), f.value.value)
                    then table[Value(f.key) := f.value.value] else table;
      hide Value, IsDigits;
      LoadedExactly(rest, table', accepts, if i == 0 then 0 else i - 1, id);
      assert LastFor(fields, 0, id, accepts) ==> NoneFor(rest, id, accepts);
    }
  }
}
