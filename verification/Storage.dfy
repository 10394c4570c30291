/**
 * The record repositories (trust-registry/src/storage/adapters): a keyed map read by
 * scanning its values, and a flat string-keyed store, against one abstract four-tuple map.
 */
module Storage {
  import opened Domain
  import opened Keys
  import opened MapValues

  type Records = map<RecordKey, TrustRecord>

  datatype Op =
    | Create(record: TrustRecord)
    | Update(record: TrustRecord)
    | Delete(key: RecordKey)
    | Read(key: RecordKey)
    | Find(key: RecordKey)
    | List

  datatype Answer =
    | Done
    | Failed(error: RepoError)
    | One(found: TrustRecord)
    | Maybe(result: Option<TrustRecord>)
    | Listing(records: multiset<TrustRecord>)

  /** Every record sits under its own key. */
  ghost predicate Keyed(m: Records) {
    forall k :: k in m ==> m[k].Key() == k
  }

  /** The abstract repository: one finite map from four-tuples to records. */
  ghost function Step(m: Records, op: Op): (Records, Answer) {
    match op
    case Create(r) => if r.Key() in m then (m, Failed(RecordAlreadyExists)) else (m[r.Key() := r], Done)
    case Update(r) => if r.Key() in m then (m[r.Key() := r], Done) else (m, Failed(RecordNotFound))
    case Delete(k) => if k in m then (m - {k}, Done) else (m, Failed(RecordNotFound))
    case Read(k) => (m, if k in m then One(m[k]) else Failed(RecordNotFound))
    case Find(k) => (m, Maybe(if k in m then Some(m[k]) else None))
    case List => (m, Listing(ValuesOf(m)))
  }

  ghost function Run(m: Records, ops: seq<Op>): (Records, seq<Answer>)
    decreases |ops|
  {
    if ops == [] then (m, [])
    else
      var (m1, a) := Step(m, ops[0]);
      var (m2, rest) := Run(m1, ops[1..]);
      (m2, [a] + rest)
  }

  lemma {:induction false} RunAppend(m: Records, ops: seq<Op>, op: Op)
    ensures Run(m, ops + [op]) ==
      var (m1, a) := Run(m, ops);
      var (m2, last) := Step(m1, op);
      (m2, a + [last])
    decreases |ops|
  {
    var all := ops + [op];
    if ops == [] {
      assert all[0] == op && all[1..] == [];
      assert Run(Step(m, op).0, []) == (Step(m, op).0, []);
    } else {
      assert all[0] == ops[0] && all[1..] == ops[1..] + [op];
      RunAppend(Step(m, ops[0]).0, ops[1..], op);
    }
    assert Run(m, all).1 == Run(m, ops).1 + [Step(Run(m, ops).0, op).1];
  }

  lemma StepKeepsKeyed(m: Records, op: Op)
    requires Keyed(m)
    ensures Keyed(Step(m, op).0)
  {
  }

  // ---------------------------------------------------------------- LocalStorage

  /** `LocalStorage`: writes go by key, reads scan the values in no particular order. */
  class LocalStorage {
    var records: Records

    ghost predicate Valid()
      reads this
    {
      Keyed(records)
    }

    constructor ()
      ensures Valid() && records == map[]
    {
      records := map[];
    }

    method CreateRecord(record: TrustRecord) returns (answer: Answer)
      requires Valid()
      modifies this
      ensures Valid() && (records, answer) == Step(old(records), Create(record))
    {
      if record.Key() in records {
        return Failed(RecordAlreadyExists);
      }
      records := records[record.Key() := record];
      answer := Done;
    }

    method UpdateRecord(record: TrustRecord) returns (answer: Answer)
      requires Valid()
      modifies this
      ensures Valid() && (records, answer) == Step(old(records), Update(record))
    {
      if record.Key() !in records {
        return Failed(RecordNotFound);
      }
      records := records[record.Key() := record];
      answer := Done;
    }

    method DeleteRecord(query: RecordKey) returns (answer: Answer)
      requires Valid()
      modifies this
      ensures Valid() && (records, answer) == Step(old(records), Delete(query))
    {
      if query !in records {
        return Failed(RecordNotFound);
      }
      records := records - {query};
      answer := Done;
    }

    /** `records.values().find(matches_query)`: agrees with a lookup because every key is its record's own. */
    method FindByQuery(query: RecordKey) returns (answer: Answer)
      requires Valid()
      ensures answer == Step(records, Find(query)).1
    {
      var remaining := records.Keys;
      while remaining != {}
        invariant remaining <= records.Keys
        invariant forall k :: k in records.Keys - remaining ==> !records[k].Matches(query)
      {
        var k :| k in remaining;
        if records[k].Matches(query) {
          assert records[k].Key() == query;
          return Maybe(Some(records[k]));
        }
        remaining := remaining - {k};
      }
      assert query in records ==> records[query].Matches(query);
      answer := Maybe(None);
    }

    method ReadRecord(query: RecordKey) returns (answer: Answer)
      requires Valid()
      ensures answer == Step(records, Read(query)).1
    {
      var found := FindByQuery(query);
      answer := if found.result.Some? then One(found.result.value) else Failed(RecordNotFound);
    }

    method ListRecords() returns (listed: seq<TrustRecord>)
      ensures multiset(listed) == ValuesOf(records)
    {
      listed := [];
      var rest := records;
      while rest != map[]
        invariant multiset(listed) + ValuesOf(rest) == ValuesOf(records)
        decreases |rest|
      {
        var k :| k in rest;
        ValuesRemove(rest, k);
        listed := listed + [rest[k]];
        rest := rest - {k};
      }
    }

    /** Any run of operations answers exactly as the abstract map does. */
    method Perform(ops: seq<Op>) returns (answers: seq<Answer>)
      requires Valid()
      modifies this
      ensures Valid() && (records, answers) == Run(old(records), ops)
    {
      answers := [];
      for i := 0 to |ops|
        invariant Valid()
        invariant (records, answers) == Run(old(records), ops[..i])
      {
        RunAppend(old(records), ops[..i], ops[i]);
        assert ops[..i + 1] == ops[..i] + [ops[i]];
        var a;
        match ops[i] {
          case Create(r) => a := CreateRecord(r);
          case Update(r) => a := UpdateRecord(r);
          case Delete(k) => a := DeleteRecord(k);
          case Read(k) => a := ReadRecord(k);
          case Find(k) => a := FindByQuery(k);
          case List => var listed := ListRecords(); a := Listing(multiset(listed));
        }
        answers := answers + [a];
      }
      assert ops[..|ops|] == ops;
    }
  }

  // ---------------------------------------------------------------- flat stores

  /** A stored value: the JSON text of a record, or text that does not deserialise to one. */
  datatype Cell = Readable(record: TrustRecord) | Garbage

  type Cells = map<string, Cell>

  predicate Scanned(s: string) {
    TR_SK_PREFIX <= s
  }

  ghost function Listed(cells: Cells): map<string, TrustRecord> {
    map s | s in cells && Scanned(s) && cells[s].Readable? :: cells[s].record
  }

  lemma ListedRemove(cells: Cells, s: string)
    requires s in cells
    ensures Listed(cells - {s}) == Listed(cells) - {s}
    ensures ValuesOf(Listed(cells)) == ValuesOf(Listed(cells - {s})) +
      (if Scanned(s) && cells[s].Readable? then multiset{cells[s].record} else multiset{})
  {
    var all := Listed(cells);
    assert Listed(cells - {s}) == all - {s};
    if Scanned(s) && cells[s].Readable? {
      ValuesRemove(all, s);
    } else {
      assert all - {s} == all;
    }
  }

  /** What the claim store keeps in the same database is never listed, readable or not; a record under its own key is. */
  lemma MessagesAreNotListed(cells: Cells, issuer: Option<string>, id: string, cell: Cell, r: TrustRecord)
    requires MessageKey(issuer, id) !in cells && Sk(r.Key()) !in cells
    ensures ValuesOf(Listed(cells[MessageKey(issuer, id) := cell])) == ValuesOf(Listed(cells))
    ensures ValuesOf(Listed(cells[Sk(r.Key()) := Readable(r)])) == ValuesOf(Listed(cells)) + multiset{r}
    ensures ValuesOf(Listed(cells[Sk(r.Key()) := Garbage])) == ValuesOf(Listed(cells))
  {
    MessageKeyOutsideRecords(issuer, id, r.Key());
    OneMoreCell(cells, MessageKey(issuer, id), cell);
    OneMoreCell(cells, Sk(r.Key()), Readable(r));
    OneMoreCell(cells, Sk(r.Key()), Garbage);
  }

  lemma OneMoreCell(cells: Cells, s: string, cell: Cell)
    requires s !in cells
    ensures ValuesOf(Listed(cells[s := cell])) ==
      ValuesOf(Listed(cells)) + (if "TR#" <= s && cell.Readable? then multiset{cell.record} else multiset{})
  {
    assert cells[s := cell] - {s} == cells;
    ListedRemove(cells[s := cell], s);
  }

  /** One operation of the fjall and Redis adapters on their flat key. */
  ghost function FlatStep(cells: Cells, op: Op): (Cells, Answer) {
    match op
    case Create(r) =>
      if Sk(r.Key()) in cells then (cells, Failed(RecordAlreadyExists))
      else (cells[Sk(r.Key()) := Readable(r)], Done)
    case Update(r) =>
      if Sk(r.Key()) in cells then (cells[Sk(r.Key()) := Readable(r)], Done)
      else (cells, Failed(RecordNotFound))
    case Delete(k) =>
      if Sk(k) in cells then (cells - {Sk(k)}, Done) else (cells, Failed(RecordNotFound))
    case Read(k) =>
      (cells, if Sk(k) !in cells then Failed(RecordNotFound)
              else if cells[Sk(k)].Garbage? then Failed(SerializationFailed)
              else One(cells[Sk(k)].record))
    case Find(k) =>
      (cells, if Sk(k) !in cells then Maybe(None)
              else if cells[Sk(k)].Garbage? then Failed(SerializationFailed)
              else Maybe(Some(cells[Sk(k)].record)))
    case List => (cells, Listing(ValuesOf(Listed(cells))))
  }

  ghost function FlatRun(cells: Cells, ops: seq<Op>): (Cells, seq<Answer>)
    decreases |ops|
  {
    if ops == [] then (cells, [])
    else
      var (c1, a) := FlatStep(cells, ops[0]);
      var (c2, rest) := FlatRun(c1, ops[1..]);
      (c2, [a] + rest)
  }

  /** Where the backend can fail: at the first lookup or scan, or at the write, which may still have been applied. */
  datatype Fault = NoFault | CheckFails | WriteFails(applied: bool)

  /** One operation with the backend failing; a failure is answered as a failed query. */
  ghost function FlatStepUnder(cells: Cells, op: Op, fault: Fault): (Cells, Answer) {
    var (cells', answer) := FlatStep(cells, op);
    match fault
    case NoFault => (cells', answer)
    case CheckFails => (cells, Failed(QueryFailed))
    case WriteFails(applied) =>
      if answer.Done? then (if applied then cells' else cells, Failed(QueryFailed)) else (cells, answer)
  }

  /** `FjallStorage` and `RedisStorage`: check-then-set on one flat key space. */
  class FlatStorage {
    var cells: Cells

    constructor ()
      ensures cells == map[]
    {
      cells := map[];
    }

    method Write(key: string, cell: Option<Cell>, fault: Fault) returns (answer: Answer)
      modifies this
      ensures cells == if fault == WriteFails(false) then old(cells)
                       else if cell.Some? then old(cells)[key := cell.value]
                       else old(cells) - {key}
      ensures answer == if fault.WriteFails? then Failed(QueryFailed) else Done
    {
      if fault != WriteFails(false) {
        cells := if cell.Some? then cells[key := cell.value] else cells - {key};
      }
      answer := if fault.WriteFails? then Failed(QueryFailed) else Done;
    }

    method CreateRecord(record: TrustRecord, fault: Fault) returns (answer: Answer)
      modifies this
      ensures (cells, answer) == FlatStepUnder(old(cells), Create(record), fault)
    {
      var key := Sk(record.Key());
      if fault.CheckFails? {
        return Failed(QueryFailed);
      }
      if key in cells {
        return Failed(RecordAlreadyExists);
      }
      answer := Write(key, Some(Readable(record)), fault);
    }

    method UpdateRecord(record: TrustRecord, fault: Fault) returns (answer: Answer)
      modifies this
      ensures (cells, answer) == FlatStepUnder(old(cells), Update(record), fault)
    {
      var key := Sk(record.Key());
      if fault.CheckFails? {
        return Failed(QueryFailed);
      }
      if key !in cells {
        return Failed(RecordNotFound);
      }
      answer := Write(key, Some(Readable(record)), fault);
    }

    method DeleteRecord(query: RecordKey, fault: Fault) returns (answer: Answer)
      modifies this
      ensures (cells, answer) == FlatStepUnder(old(cells), Delete(query), fault)
    {
      var key := Sk(query);
      if fault.CheckFails? {
        return Failed(QueryFailed);
      }
      if key !in cells {
        return Failed(RecordNotFound);
      }
      answer := Write(key, None, fault);
    }

    method FindByQuery(query: RecordKey, fault: Fault) returns (answer: Answer)
      ensures answer == FlatStepUnder(cells, Find(query), fault).1
    {
      var key := Sk(query);
      if fault.CheckFails? {
        return Failed(QueryFailed);
      }
      if key !in cells {
        return Maybe(None);
      }
      match cells[key] {
        case Readable(r) => answer := Maybe(Some(r));
        case Garbage => answer := Failed(SerializationFailed);
      }
    }

    method ReadRecord(query: RecordKey, fault: Fault) returns (answer: Answer)
      ensures answer == FlatStepUnder(cells, Read(query), fault).1
    {
      var key := Sk(query);
      if fault.CheckFails? {
        return Failed(QueryFailed);
      }
      if key !in cells {
        return Failed(RecordNotFound);
      }
      match cells[key] {
        case Readable(r) => answer := One(r);
        case Garbage => answer := Failed(SerializationFailed);
      }
    }

    /** The prefix scan: unreadable values are skipped, keys outside the prefix never seen. */
    method Scan() returns (listed: seq<TrustRecord>)
      ensures multiset(listed) == ValuesOf(Listed(cells))
    {
      listed := [];
      var rest := cells;
      while rest != map[]
        invariant multiset(listed) + ValuesOf(Listed(rest)) == ValuesOf(Listed(cells))
        decreases |rest|
      {
        var s :| s in rest;
        ListedRemove(rest, s);
        var found := if Scanned(s) && rest[s].Readable? then [rest[s].record] else [];
        assert multiset(listed + found) == multiset(listed) + multiset(found);
        listed := listed + found;
        rest := rest - {s};
      }
    }

    method ListRecords(fault: Fault) returns (answer: Answer)
      ensures answer == FlatStepUnder(cells, List, fault).1
    {
      if fault.CheckFails? {
        return Failed(QueryFailed);
      }
      var listed := Scan();
      answer := Listing(multiset(listed));
    }
  }

  // ---------------------------------------------------------------- refinement

  ghost predicate InjectiveOn(keys: set<RecordKey>) {
    forall k, l :: k in keys && l in keys && Sk(k) == Sk(l) ==> k == l
  }

  ghost predicate OpOver(op: Op, keys: set<RecordKey>) {
    match op
    case Create(r) => r.Key() in keys
    case Update(r) => r.Key() in keys
    case Delete(k) => k in keys
    case Read(k) => k in keys
    case Find(k) => k in keys
    case List => true
  }

  ghost predicate OpsOver(ops: seq<Op>, keys: set<RecordKey>) {
    forall i :: 0 <= i < |ops| ==> OpOver(ops[i], keys)
  }

  /** The flat store holds exactly the abstract map, record by record, under its prefix. */
  ghost predicate Represents(cells: Cells, m: Records, keys: set<RecordKey>) {
    && m.Keys <= keys
    && Keyed(m)
    && (forall k :: k in keys ==> (Sk(k) in cells <==> k in m))
    && (forall k :: k in m ==> cells[Sk(k)] == Readable(m[k]))
    && (forall s :: s in cells && Scanned(s) ==> exists k :: k in m && Sk(k) == s)
  }

  lemma {:induction false} SameListing(cells: Cells, m: Records, keys: set<RecordKey>)
    requires InjectiveOn(keys) && Represents(cells, m, keys)
    ensures ValuesOf(Listed(cells)) == ValuesOf(m)
    decreases |m|
  {
    if m == map[] {
      assert Listed(cells) == map[];
    } else {
      var k :| k in m;
      MessageKeyOutsideRecords(None, "", k);
      RemovingRepresents(cells, m, keys, k);
      SameListing(cells - {Sk(k)}, m - {k}, keys);
      ListedRemove(cells, Sk(k));
      ValuesRemove(m, k);
    }
  }

  lemma StoringRepresents(cells: Cells, m: Records, keys: set<RecordKey>, r: TrustRecord)
    requires InjectiveOn(keys) && Represents(cells, m, keys) && r.Key() in keys
    ensures Represents(cells[Sk(r.Key()) := Readable(r)], m[r.Key() := r], keys)
  {
    var key := r.Key();
    var cells', m' := cells[Sk(key) := Readable(r)], m[key := r];
    forall s | s in cells' && Scanned(s)
      ensures exists k :: k in m' && Sk(k) == s
    {
      if s == Sk(key) {
        assert key in m';
      } else {
        var k :| k in m && Sk(k) == s;
        assert k in m';
      }
    }
  }

  lemma RemovingRepresents(cells: Cells, m: Records, keys: set<RecordKey>, key: RecordKey)
    requires InjectiveOn(keys) && Represents(cells, m, keys) && key in keys
    ensures Represents(cells - {Sk(key)}, m - {key}, keys)
  {
    var cells', m' := cells - {Sk(key)}, m - {key};
    forall s | s in cells' && Scanned(s)
      ensures exists k :: k in m' && Sk(k) == s
    {
      var k :| k in m && Sk(k) == s;
      assert k in m';
    }
  }

  lemma FlatStepAgrees(cells: Cells, m: Records, keys: set<RecordKey>, op: Op)
    requires InjectiveOn(keys) && Represents(cells, m, keys) && OpOver(op, keys)
    ensures FlatStep(cells, op).1 == Step(m, op).1
    ensures Represents(FlatStep(cells, op).0, Step(m, op).0, keys)
  {
    match op
    case Create(r) => StoringRepresents(cells, m, keys, r);
    case Update(r) => StoringRepresents(cells, m, keys, r);
    case Delete(k) => RemovingRepresents(cells, m, keys, k);
    case Read(_) =>
    case Find(_) =>
    case List => SameListing(cells, m, keys);
  }

  /** Whole runs: the flat stores and the four-tuple map answer alike. */
  lemma {:induction false} FlatRunAgrees(cells: Cells, m: Records, keys: set<RecordKey>, ops: seq<Op>)
    requires InjectiveOn(keys) && Represents(cells, m, keys) && OpsOver(ops, keys)
    ensures FlatRun(cells, ops).1 == Run(m, ops).1
    ensures Represents(FlatRun(cells, ops).0, Run(m, ops).0, keys)
    decreases |ops|
  {
    if ops != [] {
      FlatStepAgrees(cells, m, keys, ops[0]);
      FlatRunAgrees(FlatStep(cells, ops[0]).0, Step(m, ops[0]).0, keys, ops[1..]);
    }
  }

  /** Whether an operation reached the cells in spite of a fault. */
  predicate TookEffect(fault: Fault) {
    fault.NoFault? || fault == WriteFails(true)
  }

  ghost function FlatRunUnder(cells: Cells, ops: seq<Op>, faults: seq<Fault>): Cells
    requires |faults| == |ops|
    decreases |ops|
  {
    if ops == [] then cells
    else FlatRunUnder(FlatStepUnder(cells, ops[0], faults[0]).0, ops[1..], faults[1..])
  }

  /** The operations of a run that took effect. */
  function Effective(ops: seq<Op>, faults: seq<Fault>): seq<Op>
    requires |faults| == |ops|
    decreases |ops|
  {
    if ops == [] then []
    else (if TookEffect(faults[0]) then [ops[0]] else []) + Effective(ops[1..], faults[1..])
  }

  /** A failing backend never leaves anything in between: the operation is answered as failed, and happened or did not. */
  lemma FaultyStepAgrees(cells: Cells, m: Records, keys: set<RecordKey>, op: Op, fault: Fault)
    requires InjectiveOn(keys) && Represents(cells, m, keys) && OpOver(op, keys)
    ensures var (cells', answer) := FlatStepUnder(cells, op, fault);
      && Represents(cells', if TookEffect(fault) then Step(m, op).0 else m, keys)
      && answer == (if fault.CheckFails? || (fault.WriteFails? && Step(m, op).1.Done?) then Failed(QueryFailed) else Step(m, op).1)
  {
    FlatStepAgrees(cells, m, keys, op);
  }

  /** Through any faults, the flat store keeps representing the run of just the operations that took effect. */
  lemma {:induction false} FaultyRunAgrees(cells: Cells, m: Records, keys: set<RecordKey>, ops: seq<Op>, faults: seq<Fault>)
    requires InjectiveOn(keys) && Represents(cells, m, keys) && OpsOver(ops, keys) && |faults| == |ops|
    ensures Represents(FlatRunUnder(cells, ops, faults), Run(m, Effective(ops, faults)).0, keys)
    decreases |ops|
  {
    if ops != [] {
      FaultyStepAgrees(cells, m, keys, ops[0], faults[0]);
      var m1 := if TookEffect(faults[0]) then Step(m, ops[0]).0 else m;
      FaultyRunAgrees(FlatStepUnder(cells, ops[0], faults[0]).0, m1, keys, ops[1..], faults[1..]);
      var rest := Effective(ops[1..], faults[1..]);
      if TookEffect(faults[0]) {
        assert ([ops[0]] + rest)[1..] == rest;
      } else {
        assert [] + rest == rest;
      }
    }
  }

  /** From empty stores, agreement on every run over `keys` holds exactly when no two of them collide. */
  lemma FlatAgreesIff(keys: set<RecordKey>)
    ensures (forall ops :: OpsOver(ops, keys) ==> FlatRun(map[], ops).1 == Run(map[], ops).1)
      <==> InjectiveOn(keys)
  {
    if InjectiveOn(keys) {
      forall ops | OpsOver(ops, keys)
        ensures FlatRun(map[], ops).1 == Run(map[], ops).1
      {
        FlatRunAgrees(map[], map[], keys, ops);
      }
    } else {
      var k, l :| k in keys && l in keys && Sk(k) == Sk(l) && k != l;
      var ops := CollisionDivides(k, l);
      assert OpsOver(ops, keys);
    }
  }

  function RecordAt(k: RecordKey): (r: TrustRecord)
    ensures r.Key() == k
  {
    TrustRecord(k.entityId, k.authorityId, k.action, k.resource, Some(true), Some(true), EMPTY_OBJECT, Authorization)
  }

  /** Creating one record makes a colliding, absent one readable in the flat store only. */
  lemma CollisionDivides(k: RecordKey, l: RecordKey) returns (ops: seq<Op>)
    requires Sk(k) == Sk(l) && k != l
    ensures ops == [Create(RecordAt(k)), Read(l)]
    ensures FlatRun(map[], ops).1 != Run(map[], ops).1
  {
    ops := [Create(RecordAt(k)), Read(l)];
    assert ops[1..] == [Read(l)];
    var (c1, a1) := FlatStep(map[], ops[0]);
    var (m1, b1) := Step(map[], ops[0]);
    var (c2, a2) := FlatStep(c1, Read(l));
    var (m2, b2) := Step(m1, Read(l));
    assert [Read(l)][1..] == [];
    assert FlatRun(c1, [Read(l)]).1 == [a2];
    assert Run(m1, [Read(l)]).1 == [b2];
    assert FlatRun(map[], ops).1 == [a1, a2];
    assert Run(map[], ops).1 == [b1, b2];
  }

  /** Records whose authority, action and resource hold no '#' never collide, so all backends agree on them. */
  lemma BackendsAgree(ops: seq<Op>, keys: set<RecordKey>)
    requires OpsOver(ops, keys) && forall k :: k in keys ==> Storable(k)
    ensures FlatRun(map[], ops).1 == Run(map[], ops).1
  {
    forall k, l | k in keys && l in keys && Sk(k) == Sk(l)
      ensures k == l
    {
      SkInjective(k, l);
    }
    FlatAgreesIff(keys);
  }
}
