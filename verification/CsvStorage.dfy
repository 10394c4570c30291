/** `FileStorage`: records in memory, mirrored to a CSV file (trust-registry/src/storage/adapters/csv_file_storage.rs). */
module CsvStorage {
  import opened Domain
  import opened MapValues
  import opened Storage
  import opened Tasks
  import opened Text

  // ---------------------------------------------------------------- rows

  /** The context column: empty, base64 of some JSON text, or anything that does not decode to JSON. */
  datatype ContextCell = Blank | Encoded(json: Json) | Undecodable(text: string)

  datatype Row = Row(
    entityId: string,
    authorityId: string,
    action: string,
    resource: string,
    recognized: bool,
    authorized: bool,
    context: ContextCell,
    recordType: string)

  function TypeName(t: RecordType): string {
    match t
    case Authorization => "authorization"
    case Recognition => "recognition"
  }

  /** `RecordType::from_str`. */
  function ParseType(s: string): Option<RecordType> {
    if Lower(s) == "authorization" then Some(Authorization)
    else if Lower(s) == "recognition" then Some(Recognition)
    else None
  }

  /** `from_record`. */
  function FromRecord(r: TrustRecord): Row {
    Row(r.entityId, r.authorityId, r.action, r.resource, r.IsRecognized(), r.IsAuthorized(),
        if r.context.Obj? || r.context.Arr? then Encoded(r.context) else Blank,
        TypeName(r.recordType))
  }

  /** `into_record`, on a row whose fields the reader has trimmed. */
  function IntoRecord(row: Row): Option<TrustRecord> {
    match ParseType(Trim(row.recordType))
    case None => None
    case Some(t) =>
      Some(TrustRecord(Trim(row.entityId), Trim(row.authorityId), Trim(row.action), Trim(row.resource),
        Some(row.recognized), Some(row.authorized),
        if row.context.Encoded? then row.context.json else EMPTY_OBJECT, t))
  }

  /** What a file keeps of a record: absent flags become false, a context that is no container becomes empty. */
  function Normal(r: TrustRecord): TrustRecord {
    r.(recognized := Some(r.IsRecognized()), authorized := Some(r.IsAuthorized()),
       context := if r.context.Obj? || r.context.Arr? then r.context else EMPTY_OBJECT)
  }

  function TrimKey(k: RecordKey): RecordKey {
    RecordKey(Trim(k.authorityId), Trim(k.action), Trim(k.resource), Trim(k.entityId))
  }

  predicate TrimmedKey(k: RecordKey) {
    Trimmed(k.authorityId) && Trimmed(k.action) && Trimmed(k.resource) && Trimmed(k.entityId)
  }

  lemma TypeRoundTrip(t: RecordType)
    ensures ParseType(Trim(TypeName(t))) == Some(t)
  {
    var name := TypeName(t);
    LettersAreNoSpace(name[0]);
    LettersAreNoSpace(name[|name| - 1]);
    assert Trimmed(name);
    assert Lower(name) == name;
    assert TypeName(Authorization) != TypeName(Recognition);
  }

  /** Writing a record and reading it back. */
  lemma RowRoundTrip(r: TrustRecord)
    ensures var back := IntoRecord(FromRecord(r));
      && back.Some?
      && back.value.Key() == TrimKey(r.Key())
      && (back == Some(Normal(r)) <==> TrimmedKey(r.Key()))
  {
    TypeRoundTrip(r.recordType);
  }

  /** Spelled in small or capital letters, in any mixture; `name` is in small ones. */
  predicate Spells(s: string, name: string) {
    |s| == |name| && forall i :: 0 <= i < |s| ==> s[i] == name[i] || s[i] as int == name[i] as int - 32
  }

  lemma SpellsIffLower(s: string, name: string)
    requires forall i :: 0 <= i < |name| ==> 'a' <= name[i] <= 'z'
    ensures Spells(s, name) <==> Lower(s) == name
  {
    var low := Lower(s);
    if Lower(s) == name {
      forall i | 0 <= i < |s|
        ensures s[i] == name[i] || s[i] as int == name[i] as int - 32
      {
        assert low[i] == LowerChar(s[i]);
      }
    }
  }

  /**
   * Any row, whoever wrote it: it is read exactly when its type is one of the two names, whatever case
   * and white space; its ids are then the ones inside the padding, and a context that is blank or does
   * not decode is the empty object.
   */
  lemma RowIsRead(row: Row, ids: RecordKey, typeText: string)
    requires Pads(row.authorityId, ids.authorityId) && Pads(row.action, ids.action)
    requires Pads(row.resource, ids.resource) && Pads(row.entityId, ids.entityId) && Pads(row.recordType, typeText)
    ensures IntoRecord(row) ==
      if Spells(typeText, "authorization") || Spells(typeText, "recognition") then
        Some(TrustRecord(ids.entityId, ids.authorityId, ids.action, ids.resource, Some(row.recognized), Some(row.authorized),
          if row.context.Encoded? then row.context.json else Obj(map[]),
          if Spells(typeText, "authorization") then Authorization else Recognition))
      else None
  {
    PaddedIds(row, ids);
    TypeIsRead(row.recordType, typeText);
  }

  lemma PaddedIds(row: Row, ids: RecordKey)
    requires Pads(row.authorityId, ids.authorityId) && Pads(row.action, ids.action)
    requires Pads(row.resource, ids.resource) && Pads(row.entityId, ids.entityId)
    ensures Trim(row.authorityId) == ids.authorityId && Trim(row.action) == ids.action
    ensures Trim(row.resource) == ids.resource && Trim(row.entityId) == ids.entityId
  {
    TrimIff(row.authorityId, ids.authorityId);
    TrimIff(row.action, ids.action);
    TrimIff(row.resource, ids.resource);
    TrimIff(row.entityId, ids.entityId);
  }

  lemma TypeIsRead(text: string, inner: string)
    requires Pads(text, inner)
    ensures ParseType(Trim(text)) ==
      if Spells(inner, "authorization") then Some(Authorization)
      else if Spells(inner, "recognition") then Some(Recognition)
      else None
  {
    TrimIff(text, inner);
    SpellsIffLower(inner, "authorization");
    SpellsIffLower(inner, "recognition");
  }

  /** And what a written row holds of a record. */
  lemma RowIsWritten(r: TrustRecord)
    ensures var row := FromRecord(r);
      && row.entityId == r.entityId && row.authorityId == r.authorityId && row.action == r.action && row.resource == r.resource
      && (row.recognized <==> r.recognized == Some(true)) && (row.authorized <==> r.authorized == Some(true))
      && row.context == (if r.context.Obj? || r.context.Arr? then Encoded(r.context) else Blank)
      && Spells(row.recordType, if r.recordType.Authorization? then "authorization" else "recognition")
  {
  }

  // ---------------------------------------------------------------- files

  /** What the CSV reader makes of a file: a list of rows, or an error on some row. */
  datatype Contents = Rows(rows: seq<Row>) | Malformed

  datatype File = Missing | File(contents: Contents, modified: int)

  /** `parse_csv`: later rows replace earlier ones with the same key; one bad row fails the whole parse. */
  function ParseRows(rows: seq<Row>): Option<Records>
    decreases |rows|
  {
    if rows == [] then Some(map[])
    else
      match ParseRows(rows[..|rows| - 1])
      case None => None
      case Some(before) =>
        match IntoRecord(rows[|rows| - 1])
        case None => None
        case Some(record) => Some(before[record.Key() := record])
  }

  function Parse(c: Contents): Option<Records> {
    match c
    case Rows(rows) => ParseRows(rows)
    case Malformed => None
  }

  lemma ParseStep(rows: seq<Row>, i: nat)
    requires i < |rows| && ParseRows(rows[..i]).Some?
    ensures var record := IntoRecord(rows[i]);
      ParseRows(rows[..i + 1]) ==
        if record.None? then None else Some(ParseRows(rows[..i]).value[record.value.Key() := record.value])
  {
    assert rows[..i + 1][..i] == rows[..i];
  }

  method ParseCsv(c: Contents) returns (parsed: Option<Records>)
    ensures parsed == Parse(c)
  {
    if c.Malformed? {
      return None;
    }
    var records: Records := map[];
    for i := 0 to |c.rows|
      invariant ParseRows(c.rows[..i]) == Some(records)
    {
      ParseStep(c.rows, i);
      var record := IntoRecord(c.rows[i]);
      if record.None? {
        BadRowFails(c.rows, i + 1);
        return None;
      }
      records := records[record.value.Key() := record.value];
    }
    assert c.rows[..|c.rows|] == c.rows;
    parsed := Some(records);
  }

  lemma {:induction false} BadRowFails(rows: seq<Row>, n: nat)
    requires n <= |rows| && ParseRows(rows[..n]).None?
    ensures ParseRows(rows).None?
    decreases |rows|
  {
    if n < |rows| {
      assert rows[..|rows| - 1][..n] == rows[..n];
      BadRowFails(rows[..|rows| - 1], n);
    } else {
      assert rows[..n] == rows;
    }
  }

  ghost predicate AllTrimmed(m: Records) {
    forall k :: k in m ==> TrimmedKey(k)
  }

  function NormalMap(m: Records): Records {
    map k | k in m :: Normal(m[k])
  }

  /** The records of a map in one of the orders a hash map may yield them. */
  ghost predicate Orders(m: Records, order: seq<TrustRecord>) {
    multiset(order) == ValuesOf(m)
  }

  function RowsOf(order: seq<TrustRecord>): (rows: seq<Row>)
    ensures |rows| == |order| && forall i :: 0 <= i < |order| ==> rows[i] == FromRecord(order[i])
  {
    seq(|order|, i requires 0 <= i < |order| => FromRecord(order[i]))
  }

  lemma {:induction false} ValueHasKey<K, V>(m: map<K, V>, v: V)
    requires v in ValuesOf(m)
    ensures exists k :: k in m && m[k] == v
    decreases |m|
  {
    if v != m[Pick(m)] {
      ValueHasKey(m - {Pick(m)}, v);
    }
  }

  /** The last row of an order, and the order of what is left. */
  lemma LastOfOrder(m: Records, order: seq<TrustRecord>) returns (key: RecordKey)
    requires Keyed(m) && Orders(m, order) && order != []
    ensures key in m && m[key] == order[|order| - 1] && key == order[|order| - 1].Key()
    ensures Orders(m - {key}, order[..|order| - 1]) && Keyed(m - {key})
  {
    var n := |order| - 1;
    assert order == order[..n] + [order[n]];
    assert multiset(order) == multiset(order[..n]) + multiset{order[n]};
    ValueHasKey(m, order[n]);
    key :| key in m && m[key] == order[n];
    ValuesRemove(m, key);
    assert multiset(order[..n]) == ValuesOf(m) - multiset{order[n]};
  }

  lemma NormalMapPut(m: Records, key: RecordKey)
    requires key in m
    ensures NormalMap(m - {key})[key := Normal(m[key])] == NormalMap(m)
  {
  }

  /** One more row parsed after a map that is already rebuilt. */
  lemma RebuildStep(m: Records, key: RecordKey, order: seq<TrustRecord>)
    requires order != [] && key in m && m[key] == order[|order| - 1] && key == order[|order| - 1].Key()
    requires TrimmedKey(key) && ParseRows(RowsOf(order[..|order| - 1])) == Some(NormalMap(m - {key}))
    ensures ParseRows(RowsOf(order)) == Some(NormalMap(m))
  {
    var rows, n := RowsOf(order), |order| - 1;
    assert rows[..n] == RowsOf(order[..n]);
    RowRoundTrip(order[n]);
    NormalMapPut(m, key);
  }

  /** With trimmed ids, the rows rebuild the normalised map whatever order they were written in. */
  lemma {:induction false} AnyOrderRebuilds(m: Records, order: seq<TrustRecord>)
    requires Keyed(m) && Orders(m, order) && AllTrimmed(m)
    ensures ParseRows(RowsOf(order)) == Some(NormalMap(m))
    decreases |order|
  {
    if order == [] {
      assert m == map[];
    } else {
      var n := |order| - 1;
      var key := LastOfOrder(m, order);
      AnyOrderRebuilds(m - {key}, order[..n]);
      RebuildStep(m, key, order);
    }
  }

  lemma {:induction false} ParsedIdsAreTrimmed(rows: seq<Row>)
    requires ParseRows(rows).Some?
    ensures Keyed(ParseRows(rows).value) && AllTrimmed(ParseRows(rows).value)
    decreases |rows|
  {
    if rows != [] {
      ParsedIdsAreTrimmed(rows[..|rows| - 1]);
    }
  }

  /** Rebuilding needs exactly that: an id with outer white space comes back changed. */
  lemma RebuildsIffTrimmed(m: Records, order: seq<TrustRecord>)
    requires Keyed(m) && Orders(m, order)
    ensures ParseRows(RowsOf(order)) == Some(NormalMap(m)) <==> AllTrimmed(m)
  {
    if AllTrimmed(m) {
      AnyOrderRebuilds(m, order);
    } else if ParseRows(RowsOf(order)) == Some(NormalMap(m)) {
      var k :| k in m && !TrimmedKey(k);
      ParsedIdsAreTrimmed(RowsOf(order));
      assert false;
    }
  }

  // ---------------------------------------------------------------- FileStorage

  /** How rewriting the file can end: four points at which `write_to_file` may stop. */
  datatype WriteEnd =
    | NotOpened
    | Torn(left: Contents, tornAt: int)
    | NotStatted(writtenAt: int)
    | Written(finishedAt: int)

  /** Memory, the modification time last seen, and the file. */
  datatype Mirror = Mirror(records: Records, seen: int, file: File)

  ghost predicate Rewritten(before: Mirror, file: File, at: int) {
    exists order :: Orders(before.records, order) && file == File(Rows(RowsOf(order)), at)
  }

  /** What one rewrite leaves behind. */
  ghost predicate Saves(before: Mirror, after: Mirror, end: WriteEnd) {
    match end
    case NotOpened => after == before
    case Torn(left, at) => after == before.(file := File(left, at))
    case NotStatted(at) => after == before.(file := after.file) && Rewritten(before, after.file, at)
    case Written(at) => after == before.(file := after.file, seen := at) && Rewritten(before, after.file, at)
  }

  /** Memory changes first; the file follows only if the operation changed something. */
  ghost predicate Performs(before: Mirror, after: Mirror, op: Op, answer: Answer, end: WriteEnd) {
    var (m, a) := Step(before.records, op);
    if a.Done? then
      Saves(before.(records := m), after, end) && answer == if end.Written? then Done else Failed(QueryFailed)
    else after == before && answer == a
  }

  /** One turn of the sync task: reload a file that is newer and parses, else leave everything. */
  function Synced(s: Mirror): Mirror {
    if s.file.Missing? || s.file.modified <= s.seen then s
    else
      match Parse(s.file.contents)
      case None => s
      case Some(m) => Mirror(m, s.file.modified, s.file)
  }

  /** `try_new`: fails when the file is missing or does not parse. */
  function Opened(file: File): Option<Mirror> {
    if file.Missing? then None
    else
      match Parse(file.contents)
      case None => None
      case Some(m) => Some(Mirror(m, file.modified, file))
  }

  class Disk {
    var file: File

    constructor (file: File)
      ensures this.file == file
    {
      this.file := file;
    }
  }

  class FileStorage {
    const disk: Disk
    const memory: LocalStorage
    var lastModified: int

    ghost predicate Valid()
      reads memory
    {
      memory.Valid()
    }

    ghost function View(): Mirror
      reads this, memory, disk
    {
      Mirror(memory.records, lastModified, disk.file)
    }

    constructor (disk: Disk, memory: LocalStorage, modified: int)
      ensures this.disk == disk && this.memory == memory && lastModified == modified
    {
      this.disk := disk;
      this.memory := memory;
      lastModified := modified;
    }

    static method TryNew(disk: Disk) returns (s: FileStorage?)
      ensures s == null <==> Opened(disk.file).None?
      ensures s != null ==> fresh(s) && s.Valid() && s.disk == disk && Opened(disk.file) == Some(s.View())
    {
      if disk.file.Missing? {
        return null;
      }
      var parsed := ParseCsv(disk.file.contents);
      if parsed.None? {
        return null;
      }
      ParsedIdsAreTrimmed(disk.file.contents.rows);
      var memory := new LocalStorage();
      memory.records := parsed.value;
      s := new FileStorage(disk, memory, disk.file.modified);
    }

    method Sync()
      requires Valid()
      modifies this, memory
      ensures Valid() && View() == Synced(old(View()))
    {
      if disk.file.Missing? || disk.file.modified <= lastModified {
        return;
      }
      var parsed := ParseCsv(disk.file.contents);
      if parsed.None? {
        return;
      }
      ParsedIdsAreTrimmed(disk.file.contents.rows);
      memory.records := parsed.value;
      lastModified := disk.file.modified;
    }

    method WriteToFile(end: WriteEnd) returns (ok: bool)
      requires Valid()
      modifies this, disk
      ensures Valid() && Saves(old(View()), View(), end) && (ok <==> end.Written?)
    {
      var listed := memory.ListRecords();
      var rows := RowsOf(listed);
      assert Orders(memory.records, listed);
      match end {
        case NotOpened =>
          ok := false;
        case Torn(left, at) =>
          disk.file := File(left, at);
          ok := false;
        case NotStatted(at) =>
          disk.file := File(Rows(rows), at);
          ok := false;
        case Written(at) =>
          disk.file := File(Rows(rows), at);
          lastModified := at;
          ok := true;
      }
    }

    method Perform(op: Op, end: WriteEnd) returns (answer: Answer)
      requires Valid()
      modifies this, memory, disk
      ensures Valid() && Performs(old(View()), View(), op, answer, end)
    {
      match op {
        case Create(r) => answer := memory.CreateRecord(r);
        case Update(r) => answer := memory.UpdateRecord(r);
        case Delete(k) => answer := memory.DeleteRecord(k);
        case Read(k) => answer := memory.ReadRecord(k);
        case Find(k) => answer := memory.FindByQuery(k);
        case List => var listed := memory.ListRecords(); answer := Listing(multiset(listed));
      }
      if answer.Done? {
        var ok := WriteToFile(end);
        answer := if ok then Done else Failed(QueryFailed);
      }
    }
  }

  // ------------------------------------------------ runs of operations, syncs and restarts

  datatype Event = Do(op: Op, end: WriteEnd) | Sync | Restart

  ghost predicate Moves(before: Mirror, after: Mirror, e: Event, answer: Answer) {
    match e
    case Do(op, end) => Performs(before, after, op, answer, end)
    case Sync => after == Synced(before) && answer == Done
    case Restart => Opened(before.file) == Some(after) && answer == Done
  }

  ghost predicate Runs(states: seq<Mirror>, events: seq<Event>, answers: seq<Answer>) {
    && |states| == |events| + 1 && |answers| == |events|
    && forall i :: 0 <= i < |events| ==> Moves(states[i], states[i + 1], events[i], answers[i])
  }

  /** Every rewrite completes, and no record is written under an untrimmed id. */
  predicate Orderly(e: Event) {
    e.Do? ==> e.end.Written? && match e.op
      case Create(r) => TrimmedKey(r.Key())
      case Update(r) => TrimmedKey(r.Key())
      case _ => true
  }

  /** File and memory tell the same story, and the sync task has nothing to do. */
  ghost predicate InStep(s: Mirror) {
    && Keyed(s.records) && AllTrimmed(s.records)
    && s.file.File? && s.seen == s.file.modified
    && Parse(s.file.contents).Some? && NormalMap(Parse(s.file.contents).value) == NormalMap(s.records)
  }

  lemma OpenedInStep(file: File)
    requires Opened(file).Some?
    ensures InStep(Opened(file).value)
  {
    ParsedIdsAreTrimmed(file.contents.rows);
  }

  lemma NormalIsIdempotent(m: Records)
    ensures NormalMap(NormalMap(m)) == NormalMap(m)
  {
  }

  lemma RewrittenInStep(before: Mirror, file: File, at: int)
    requires Keyed(before.records) && AllTrimmed(before.records) && Rewritten(before, file, at)
    ensures InStep(before.(file := file, seen := at))
  {
    var order :| Orders(before.records, order) && file == File(Rows(RowsOf(order)), at);
    AnyOrderRebuilds(before.records, order);
    NormalIsIdempotent(before.records);
  }

  /** A completed operation on trimmed ids keeps file and memory in step. */
  lemma CompletedStaysInStep(before: Mirror, after: Mirror, op: Op, answer: Answer, end: WriteEnd)
    requires InStep(before) && Orderly(Do(op, end)) && Performs(before, after, op, answer, end)
    ensures InStep(after)
    ensures (after.records, answer) == Step(before.records, op)
  {
    var (m, a) := Step(before.records, op);
    StepKeepsKeyed(before.records, op);
    if a.Done? {
      RewrittenInStep(before.(records := m), after.file, end.finishedAt);
    }
  }

  /** Answers that differ at most in what a file cannot keep. */
  ghost predicate Alike(a: Answer, b: Answer) {
    match (a, b)
    case (One(r), One(q)) => Normal(r) == Normal(q)
    case (Maybe(Some(r)), Maybe(Some(q))) => Normal(r) == Normal(q)
    case (Listing(rs), Listing(qs)) =>
      exists m, n :: rs == ValuesOf(m) && qs == ValuesOf(n) && SameOnFile(m, n)
    case _ => a == b
  }

  ghost predicate SameOnFile(m: Records, n: Records) {
    NormalMap(m) == NormalMap(n)
  }

  lemma SameOnFileAt(m: Records, n: Records, k: RecordKey)
    requires SameOnFile(m, n)
    ensures (k in m <==> k in n) && (k in m ==> Normal(m[k]) == Normal(n[k]))
  {
    assert k in NormalMap(m) <==> k in m;
    assert k in NormalMap(n) <==> k in n;
    assert k in m ==> NormalMap(m)[k] == NormalMap(n)[k];
  }

  lemma PutSame(m: Records, n: Records, k: RecordKey, r: TrustRecord)
    requires SameOnFile(m, n)
    ensures SameOnFile(m[k := r], n[k := r]) && SameOnFile(m - {k}, n - {k})
  {
    assert NormalMap(m[k := r]) == NormalMap(m)[k := Normal(r)];
    assert NormalMap(n[k := r]) == NormalMap(n)[k := Normal(r)];
    assert NormalMap(m - {k}) == NormalMap(m) - {k};
    assert NormalMap(n - {k}) == NormalMap(n) - {k};
  }

  /** Maps a file cannot tell apart stay so, and answer alike. */
  lemma StepAlike(m: Records, n: Records, op: Op)
    requires SameOnFile(m, n)
    ensures SameOnFile(Step(m, op).0, Step(n, op).0) && Alike(Step(m, op).1, Step(n, op).1)
  {
    match op {
      case Create(r) => SameOnFileAt(m, n, r.Key()); PutSame(m, n, r.Key(), r);
      case Update(r) => SameOnFileAt(m, n, r.Key()); PutSame(m, n, r.Key(), r);
      case Delete(k) => SameOnFileAt(m, n, k); if k in m { PutSame(m, n, k, m[k]); }
      case Read(k) => SameOnFileAt(m, n, k);
      case Find(k) => SameOnFileAt(m, n, k);
      case List =>
    }
  }

  /** The abstract map after the operations of a run, as if syncs and restarts had not happened. */
  ghost function RecordsAfter(m: Records, events: seq<Event>): Records
    decreases |events|
  {
    if events == [] then m
    else
      var before, last := RecordsAfter(m, events[..|events| - 1]), events[|events| - 1];
      if last.Do? then Step(before, last.op).0 else before
  }

  /** One event, against the map as it stood before: an operation answers alike, a sync does nothing. */
  ghost predicate Unnoticed(m: Records, before: Mirror, after: Mirror, e: Event, answer: Answer) {
    match e
    case Do(op, _) => Alike(answer, Step(m, op).1)
    case Sync => after == before
    case Restart => true
  }

  ghost predicate MirrorsMap(states: seq<Mirror>, events: seq<Event>, answers: seq<Answer>)
    requires |states| == |events| + 1 && |answers| == |events|
  {
    && InStep(states[|events|])
    && SameOnFile(states[|events|].records, RecordsAfter(states[0].records, events))
    && forall i :: 0 <= i < |events| ==>
         Unnoticed(RecordsAfter(states[0].records, events[..i]), states[i], states[i + 1], events[i], answers[i])
  }

  /** One event further. */
  lemma MirrorStep(before: Mirror, after: Mirror, m: Records, e: Event, answer: Answer)
    requires InStep(before) && SameOnFile(before.records, m) && Orderly(e) && Moves(before, after, e, answer)
    ensures InStep(after)
    ensures SameOnFile(after.records, if e.Do? then Step(m, e.op).0 else m)
    ensures Unnoticed(m, before, after, e, answer)
  {
    match e {
      case Do(op, end) =>
        CompletedStaysInStep(before, after, op, answer, end);
        StepAlike(before.records, m, op);
      case Sync =>
      case Restart => OpenedInStep(before.file);
    }
  }

  lemma RunPrefix(states: seq<Mirror>, events: seq<Event>, answers: seq<Answer>)
    requires Runs(states, events, answers) && events != []
    ensures Runs(states[..|events|], events[..|events| - 1], answers[..|events| - 1])
  {
  }

  /** What was unnoticed in a run is unnoticed in the longer run. */
  lemma UnnoticedStays(states: seq<Mirror>, events: seq<Event>, answers: seq<Answer>, i: nat)
    requires |states| == |events| + 1 && |answers| == |events| && i < |events| - 1
    requires MirrorsMap(states[..|events|], events[..|events| - 1], answers[..|events| - 1])
    ensures Unnoticed(RecordsAfter(states[0].records, events[..i]), states[i], states[i + 1], events[i], answers[i])
  {
    var n := |events| - 1;
    var ss, es, given := states[..n + 1], events[..n], answers[..n];
    assert es[..i] == events[..i];
    assert Unnoticed(RecordsAfter(ss[0].records, es[..i]), ss[i], ss[i + 1], es[i], given[i]);
  }

  /**
   * Over any run of completed operations on trimmed ids, with syncs and restarts anywhere among
   * them, the store answers as the plain map would up to what a file cannot keep, the file always
   * rebuilds it, and a sync changes nothing.
   */
  lemma {:induction false} RestartsAndSyncsAreInvisible(states: seq<Mirror>, events: seq<Event>, answers: seq<Answer>)
    requires Runs(states, events, answers) && InStep(states[0])
    requires forall i :: 0 <= i < |events| ==> Orderly(events[i])
    ensures MirrorsMap(states, events, answers)
    decreases |events|
  {
    var n := |events| - 1;
    if events != [] {
      RunPrefix(states, events, answers);
      RestartsAndSyncsAreInvisible(states[..n + 1], events[..n], answers[..n]);
      assert Moves(states[n], states[n + 1], events[n], answers[n]);
      MirrorStep(states[n], states[n + 1], RecordsAfter(states[0].records, events[..n]), events[n], answers[n]);
      forall i | 0 <= i < n
        ensures Unnoticed(RecordsAfter(states[0].records, events[..i]), states[i], states[i + 1], events[i], answers[i])
      {
        UnnoticedStays(states, events, answers, i);
      }
    }
  }

  lemma {:induction false} SomeOrder(m: Records) returns (order: seq<TrustRecord>)
    ensures Orders(m, order)
    decreases |m|
  {
    order := [];
    if m != map[] {
      var key := Pick(m);
      order := SomeOrder(m - {key});
      order := order + [m[key]];
    }
  }

  lemma SomeMove(s: Mirror, e: Event) returns (after: Mirror, answer: Answer)
    requires InStep(s) && Orderly(e)
    ensures Moves(s, after, e, answer) && InStep(after)
  {
    match e {
      case Do(op, end) =>
        var (m, a) := Step(s.records, op);
        after, answer := s, a;
        if a.Done? {
          var order := SomeOrder(m);
          after := Mirror(m, end.finishedAt, File(Rows(RowsOf(order)), end.finishedAt));
        }
        CompletedStaysInStep(s, after, op, answer, end);
      case Sync => after, answer := s, Done;
      case Restart =>
        after, answer := Opened(s.file).value, Done;
        OpenedInStep(s.file);
    }
  }

  /** There is such a run of any events whatever, from any state in step. */
  lemma {:induction false} RunsExist(s: Mirror, events: seq<Event>) returns (states: seq<Mirror>, answers: seq<Answer>)
    requires InStep(s) && forall i :: 0 <= i < |events| ==> Orderly(events[i])
    ensures Runs(states, events, answers) && states[0] == s && InStep(states[|events|])
    decreases |events|
  {
    if events == [] {
      states, answers := [s], [];
    } else {
      var n := |events| - 1;
      states, answers := RunsExist(s, events[..n]);
      var after, answer := SomeMove(states[n], events[n]);
      states, answers := states + [after], answers + [answer];
    }
  }

  /** What a file cannot keep no recognition or authorization query can see. */
  lemma QueriesCannotTell(m: Records, n: Records, doc: Document, id: string, now: int)
    requires SameOnFile(m, n) && doc.slug in {RECOGNITION, AUTHORIZATION}
    ensures Handle(m, doc, id, now).1 == Handle(n, doc, id, now).1
  {
    if doc.payload.KeyPayload? {
      SameOnFileAt(m, n, doc.payload.key);
      assert OpOf(doc) == Some(Find(doc.payload.key));
    }
  }

  /** When the file cannot be opened, memory has moved ahead of it unless the change is one a file cannot show. */
  lemma UnopenedInStepIff(before: Mirror, after: Mirror, op: Op, answer: Answer)
    requires InStep(before) && Orderly(Do(op, Written(0))) && Step(before.records, op).1.Done?
    requires Performs(before, after, op, answer, NotOpened)
    ensures answer == Failed(QueryFailed) && after.records == Step(before.records, op).0
    ensures Synced(after) == after
    ensures InStep(after) <==> SameOnFile(before.records, after.records)
  {
    StepKeepsKeyed(before.records, op);
  }

  /**
   * When the file was written but its time could not be read, file and memory already agree, and the
   * next sync settles the time stamp exactly when the new one is not older than the one last seen.
   */
  lemma UnstattedHealsIff(before: Mirror, after: Mirror, op: Op, answer: Answer, at: int)
    requires InStep(before) && Orderly(Do(op, Written(at))) && Step(before.records, op).1.Done?
    requires Performs(before, after, op, answer, NotStatted(at))
    ensures answer == Failed(QueryFailed) && after.records == Step(before.records, op).0
    ensures Opened(after.file).Some? && SameOnFile(Opened(after.file).value.records, after.records)
    ensures SameOnFile(Synced(after).records, after.records)
    ensures InStep(Synced(after)) <==> at >= before.seen
  {
    var m := Step(before.records, op).0;
    StepKeepsKeyed(before.records, op);
    RewrittenInStep(before.(records := m), after.file, at);
    ParsedIdsAreTrimmed(after.file.contents.rows);
  }

  /** A torn file is newer than the last one seen, parses, and tells another story than memory. */
  ghost predicate TornMisleads(seen: int, m: Records, left: Contents, at: int) {
    at > seen && Parse(left).Some? && !SameOnFile(Parse(left).value, m)
  }

  /**
   * When the write stopped half way, the next sync replaces memory by the torn file exactly when that
   * file misleads; and the store can be opened again exactly when the torn file still parses.
   */
  lemma TornLosesIff(before: Mirror, after: Mirror, op: Op, answer: Answer, left: Contents, at: int)
    requires Step(before.records, op).1.Done? && Performs(before, after, op, answer, Torn(left, at))
    ensures answer == Failed(QueryFailed) && after.records == Step(before.records, op).0
    ensures SameOnFile(Synced(after).records, after.records) <==> !TornMisleads(before.seen, after.records, left, at)
    ensures TornMisleads(before.seen, after.records, left, at) ==> Synced(after).records == Parse(left).value
    ensures Opened(after.file).Some? <==> Parse(left).Some?
  {
  }

  /** The records whose rows come among the first `n` of an order. */
  ghost predicate KeptByPrefix(m: Records, kept: Records, order: seq<TrustRecord>, n: nat)
    requires n <= |order|
  {
    && (forall k :: k in kept ==> k in m && kept[k] == m[k])
    && Orders(kept, order[..n])
    && (forall i :: n <= i < |order| ==> order[i].Key() in m && order[i].Key() !in kept)
  }

  lemma {:induction false} PrefixOfOrder(m: Records, order: seq<TrustRecord>, n: nat) returns (kept: Records)
    requires Keyed(m) && Orders(m, order) && n <= |order|
    ensures KeptByPrefix(m, kept, order, n)
    decreases |order|
  {
    if n == |order| {
      kept := m;
      assert order[..n] == order;
    } else {
      var key := LastOfOrder(m, order);
      var init := order[..|order| - 1];
      kept := PrefixOfOrder(m - {key}, init, n);
      assert init[..n] == order[..n];
      forall i | n <= i < |order|
        ensures order[i].Key() in m && order[i].Key() !in kept
      {
        if i < |init| {
          assert init[i] == order[i];
        }
      }
    }
  }

  /** Cut off after some rows, the file keeps those rows' records and the next sync loses all the others. */
  lemma CutFileLosesTheRest(before: Mirror, after: Mirror, op: Op, answer: Answer, order: seq<TrustRecord>, n: nat, at: int)
    returns (kept: Records)
    requires InStep(before) && Orderly(Do(op, Written(at))) && Step(before.records, op).1.Done? && at > before.seen
    requires Orders(Step(before.records, op).0, order) && n <= |order|
    requires Performs(before, after, op, answer, Torn(Rows(RowsOf(order[..n])), at))
    ensures KeptByPrefix(after.records, kept, order, n)
    ensures Synced(after).records == NormalMap(kept)
  {
    StepKeepsKeyed(before.records, op);
    var m := Step(before.records, op).0;
    kept := PrefixOfOrder(m, order, n);
    CompletedIdsTrimmed(before.records, op);
    AnyOrderRebuilds(kept, order[..n]);
  }

  lemma CompletedIdsTrimmed(m: Records, op: Op)
    requires AllTrimmed(m) && Orderly(Do(op, Written(0)))
    ensures AllTrimmed(Step(m, op).0)
  {
  }

  /**
   * The next write that completes makes durable what the failed one was answered as not done: file
   * and memory are then in step again, and hold both operations in order.
   */
  lemma NextWritePublishesUnsaved(before: Mirror, mid: Mirror, after: Mirror, op: Op, failed: Answer, end: WriteEnd,
                                  op': Op, answer: Answer, at: int)
    requires InStep(before) && Orderly(Do(op, Written(0))) && Orderly(Do(op', Written(at)))
    requires Step(before.records, op).1.Done? && !end.Written? && Performs(before, mid, op, failed, end)
    requires Step(mid.records, op').1.Done? && Performs(mid, after, op', answer, Written(at))
    ensures failed == Failed(QueryFailed) && answer == Done && InStep(after)
    ensures after.records == Step(Step(before.records, op).0, op').0
    ensures Opened(after.file).Some? && SameOnFile(Opened(after.file).value.records, after.records)
  {
    var m := Step(before.records, op).0;
    StepKeepsKeyed(before.records, op);
    CompletedIdsTrimmed(before.records, op);
    StepKeepsKeyed(m, op');
    CompletedIdsTrimmed(m, op');
    RewrittenInStep(mid.(records := Step(m, op').0), after.file, at);
  }

  /** Whether a restart after a failed create finds the record depends on how the write ended. */
  predicate FoundAfterRestart(end: WriteEnd, key: RecordKey) {
    match end
    case NotOpened => false
    case Torn(left, _) => Parse(left).Some? && key in Parse(left).value
    case NotStatted(_) => TrimmedKey(key)
    case Written(_) => TrimmedKey(key)
  }

  /**
   * However the write of a create failed, the caller is told it failed, reads find the record and a
   * second try is refused; a restart finds it exactly as the ending left it.
   */
  lemma UnsavedCreateIsReadable(before: Mirror, after: Mirror, r: TrustRecord, answer: Answer, end: WriteEnd)
    requires InStep(before) && r.Key() !in before.records
    requires !end.Written? && Performs(before, after, Create(r), answer, end)
    ensures answer == Failed(QueryFailed)
    ensures Step(after.records, Read(r.Key())).1 == One(r)
    ensures Step(after.records, Create(r)).1 == Failed(RecordAlreadyExists)
    ensures (Opened(after.file).Some? && r.Key() in Opened(after.file).value.records) <==> FoundAfterRestart(end, r.Key())
  {
    match end {
      case NotOpened =>
        SameOnFileAt(Parse(before.file.contents).value, before.records, r.Key());
      case Torn(_, _) =>
      case NotStatted(at) =>
        if TrimmedKey(r.Key()) {
          UnstattedHealsIff(before, after, Create(r), answer, at);
          SameOnFileAt(Opened(after.file).value.records, after.records, r.Key());
        } else if Opened(after.file).Some? {
          ParsedIdsAreTrimmed(after.file.contents.rows);
        }
    }
  }
}
