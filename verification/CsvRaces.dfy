/**
 * `FileStorage` under concurrency: the change in memory, and the snapshot, write, stat and time stamp
 * of the rewrite, are separate steps of every operation, and the sync task runs among them
 * (trust-registry/src/storage/adapters/csv_file_storage.rs). A write is one step here.
 */
module CsvRaces {
  import opened Domain
  import opened Storage
  import opened CsvStorage

  /** Records together with the number of the change they were current at. */
  datatype Snap = Snap(version: nat, records: Records)

  datatype Phase =
    | Asked
    | Changed
    | Snapped(snap: Snap)
    | Wrote
    | Statted(modified: int)
    | Ended(answer: Answer)

  datatype Proc = Proc(op: Op, phase: Phase)

  /** The sync task: what it has read so far. */
  datatype SyncPhase = Idle | Peeked(seen: int) | Newer(stamp: int) | Loaded(snap: Snap, stamp: int) | Swapped(stamp: int)

  /**
   * `history` holds the plain map after each change; `newest` is the highest version ever written to
   * the file, and `late` tells whether the last write put an older version there.
   */
  datatype State = State(
    clock: int,
    memory: Snap,
    lastModified: int,
    file: Snap,
    modified: int,
    procs: map<nat, Proc>,
    sync: SyncPhase,
    history: seq<Records>,
    newest: nat,
    late: bool)

  datatype Action =
    | Tick(to: int)
    | Ask(p: nat, op: Op)
    | Change(p: nat)
    | Snapshot(p: nat)
    | Write(p: nat)
    | Stat(p: nat)
    | Note(p: nat)
    | SyncPeek
    | SyncStat
    | SyncRead
    | SyncSwap
    | SyncNote

  predicate At(s: State, p: nat, phase: Phase) {
    p in s.procs && s.procs[p].phase == phase
  }

  ghost predicate Enabled(s: State, a: Action) {
    match a
    case Tick(to) => s.clock <= to
    case Ask(p, op) => p !in s.procs && Orderly(Do(op, Written(0)))
    case Change(p) => At(s, p, Asked)
    case Snapshot(p) => At(s, p, Changed)
    case Write(p) => p in s.procs && s.procs[p].phase.Snapped?
    case Stat(p) => At(s, p, Wrote)
    case Note(p) => p in s.procs && s.procs[p].phase.Statted?
    case SyncPeek => s.sync.Idle?
    case SyncStat => s.sync.Peeked?
    case SyncRead => s.sync.Newer?
    case SyncSwap => s.sync.Loaded?
    case SyncNote => s.sync.Swapped?
  }

  ghost function Moved(s: State, p: nat, phase: Phase): State
    requires p in s.procs
  {
    s.(procs := s.procs[p := s.procs[p].(phase := phase)])
  }

  /** What the plain map at `version` becomes. */
  ghost function NextRecords(s: State, op: Op): Records {
    if s.memory.version < |s.history| then Step(s.history[s.memory.version], op).0 else map[]
  }

  ghost function Next(s: State, a: Action): State
    requires Enabled(s, a)
  {
    match a
    case Tick(to) => s.(clock := to)
    case Ask(p, op) => s.(procs := s.procs[p := Proc(op, Asked)])
    case Change(p) =>
      var (m, answer) := Step(s.memory.records, s.procs[p].op);
      if answer.Done? then
        Moved(s, p, Changed)
          .(memory := Snap(|s.history|, m), history := s.history + [NextRecords(s, s.procs[p].op)])
      else Moved(s, p, Ended(answer))
    case Snapshot(p) => Moved(s, p, Snapped(s.memory))
    case Write(p) =>
      var snap := s.procs[p].phase.snap;
      Moved(s, p, Wrote)
        .(file := Snap(snap.version, NormalMap(snap.records)), modified := s.clock,
          newest := if snap.version >= s.newest then snap.version else s.newest, late := snap.version < s.newest)
    case Stat(p) => Moved(s, p, Statted(s.modified))
    case Note(p) => Moved(s, p, Ended(Done)).(lastModified := s.procs[p].phase.modified)
    case SyncPeek => s.(sync := Peeked(s.lastModified))
    case SyncStat => s.(sync := if s.modified <= s.sync.seen then Idle else Newer(s.modified))
    case SyncRead => s.(sync := Loaded(s.file, s.sync.stamp))
    case SyncSwap => s.(memory := s.sync.snap, sync := Swapped(s.sync.stamp))
    case SyncNote => s.(lastModified := s.sync.stamp, sync := Idle)
  }

  ghost predicate Run(s: State, actions: seq<Action>)
    decreases |actions|
  {
    actions != [] ==> Enabled(s, actions[0]) && Run(Next(s, actions[0]), actions[1..])
  }

  ghost function Final(s: State, actions: seq<Action>): State
    requires Run(s, actions)
    decreases |actions|
  {
    if actions == [] then s else Final(Next(s, actions[0]), actions[1..])
  }

  /** A store just opened, or quiescent and in step. */
  ghost predicate Start(s: State) {
    && s.procs == map[] && s.sync.Idle? && s.lastModified == s.modified <= s.clock
    && s.memory.version == 0 && s.file.version == 0 && s.newest == 0 && !s.late
    && s.history == [s.memory.records] && Keyed(s.memory.records) && AllTrimmed(s.memory.records)
    && Keyed(s.file.records) && AllTrimmed(s.file.records) && SameOnFile(s.file.records, s.memory.records)
  }

  ghost predicate Quiescent(s: State) {
    s.sync.Idle? && forall p :: p in s.procs ==> s.procs[p].phase.Ended?
  }

  // ---------------------------------------------------------------- versions name contents

  /** Up to what a file keeps, these are the records the plain map had at that version. */
  ghost predicate Named(history: seq<Records>, snap: Snap) {
    && snap.version < |history| && SameOnFile(snap.records, history[snap.version])
    && Keyed(snap.records) && AllTrimmed(snap.records)
  }

  ghost predicate NamedProc(history: seq<Records>, proc: Proc) {
    && (proc.phase.Asked? ==> Orderly(Do(proc.op, Written(0))))
    && (proc.phase.Snapped? ==> Named(history, proc.phase.snap))
  }

  ghost predicate AllNamed(s: State) {
    && Named(s.history, s.memory) && Named(s.history, s.file)
    && (s.sync.Loaded? ==> Named(s.history, s.sync.snap))
    && forall p :: p in s.procs ==> NamedProc(s.history, s.procs[p])
  }

  lemma NamedGrows(history: seq<Records>, m: Records, snap: Snap)
    requires Named(history, snap)
    ensures Named(history + [m], snap)
  {
    assert (history + [m])[snap.version] == history[snap.version];
  }

  lemma NormalNamed(history: seq<Records>, snap: Snap)
    requires Named(history, snap)
    ensures Named(history, Snap(snap.version, NormalMap(snap.records)))
  {
    NormalIsIdempotent(snap.records);
  }

  lemma ChangedNamed(s: State, op: Op)
    requires Named(s.history, s.memory) && Orderly(Do(op, Written(0)))
    ensures Named(s.history + [NextRecords(s, op)], Snap(|s.history|, Step(s.memory.records, op).0))
  {
    StepAlike(s.memory.records, s.history[s.memory.version], op);
    StepKeepsKeyed(s.memory.records, op);
    CompletedIdsTrimmed(s.memory.records, op);
  }

  lemma NamedProcGrows(history: seq<Records>, m: Records, proc: Proc)
    requires NamedProc(history, proc)
    ensures NamedProc(history + [m], proc)
  {
    if proc.phase.Snapped? {
      NamedGrows(history, m, proc.phase.snap);
    }
  }

  lemma NamedStep(s: State, a: Action)
    requires AllNamed(s) && Enabled(s, a)
    ensures AllNamed(Next(s, a))
  {
    if a.Change? {
      ChangeNamed(s, a.p);
    } else if a.Write? {
      assert NamedProc(s.history, s.procs[a.p]);
      NormalNamed(s.history, s.procs[a.p].phase.snap);
    }
  }

  lemma ChangeNamed(s: State, p: nat)
    requires AllNamed(s) && Enabled(s, Change(p))
    ensures AllNamed(Next(s, Change(p)))
  {
    var op := s.procs[p].op;
    assert NamedProc(s.history, s.procs[p]);
    if Step(s.memory.records, op).1.Done? {
      var m := NextRecords(s, op);
      ChangedNamed(s, op);
      NamedGrows(s.history, m, s.file);
      if s.sync.Loaded? {
        NamedGrows(s.history, m, s.sync.snap);
      }
      forall q | q in s.procs
        ensures NamedProc(s.history + [m], s.procs[q])
      {
        NamedProcGrows(s.history, m, s.procs[q]);
      }
    }
  }

  // ---------------------------------------------------------------- every change gets written

  /** Somebody still has the current version to write. */
  ghost predicate Carries(s: State, p: nat) {
    p in s.procs && (s.procs[p].phase.Changed? || (s.procs[p].phase.Snapped? && s.procs[p].phase.snap.version == s.memory.version))
  }

  ghost predicate EveryChangeCarried(s: State) {
    && s.memory.version == |s.history| - 1 && s.newest <= s.memory.version
    && (s.newest == s.memory.version || exists p :: Carries(s, p))
    && (s.late <==> s.file.version < s.newest) && s.file.version <= s.newest
    && forall p :: p in s.procs && s.procs[p].phase.Snapped? ==> s.procs[p].phase.snap.version <= s.memory.version
  }

  /** The sync task swaps in the version memory already holds: nothing changed since it was written. */
  predicate HarmlessSwap(s: State, a: Action) {
    a.SyncSwap? && s.sync.Loaded? ==> s.sync.snap.version == s.memory.version
  }

  lemma WrittenStep(s: State, a: Action)
    requires EveryChangeCarried(s) && Enabled(s, a) && HarmlessSwap(s, a)
    ensures EveryChangeCarried(Next(s, a))
  {
    var s' := Next(s, a);
    if s.newest != s.memory.version {
      var p :| Carries(s, p);
      if a == Snapshot(p) || a == Write(p) || !a.Change? {
        assert a == Write(p) || Carries(s', p);
      }
    }
    if a.Change? && Step(s.memory.records, s.procs[a.p].op).1.Done? {
      assert Carries(s', a.p);
    } else if a.Change? && s.newest != s.memory.version {
      var p :| Carries(s, p);
      assert Carries(s', p);
    }
  }

  ghost predicate NoHarmfulSwap(s: State, actions: seq<Action>)
    requires Run(s, actions)
    decreases |actions|
  {
    actions != [] ==> HarmlessSwap(s, actions[0]) && NoHarmfulSwap(Next(s, actions[0]), actions[1..])
  }

  lemma {:induction false} RaceRun(s: State, actions: seq<Action>)
    requires AllNamed(s) && Run(s, actions)
    ensures AllNamed(Final(s, actions))
    ensures EveryChangeCarried(s) && NoHarmfulSwap(s, actions) ==> EveryChangeCarried(Final(s, actions))
    decreases |actions|
  {
    if actions != [] {
      NamedStep(s, actions[0]);
      if EveryChangeCarried(s) && HarmlessSwap(s, actions[0]) {
        WrittenStep(s, actions[0]);
      }
      RaceRun(Next(s, actions[0]), actions[1..]);
    }
  }

  /**
   * Over every interleaving of operations with each other and the sync task in which no swap drops a
   * change: when all have ended, memory is the plain map up to what a file cannot keep, its version
   * has been written, and the file still holds it exactly when the last write was not a late one.
   */
  lemma InStepIffLastWriteNotLate(s0: State, actions: seq<Action>)
    requires Start(s0) && Run(s0, actions) && NoHarmfulSwap(s0, actions) && Quiescent(Final(s0, actions))
    ensures var s := Final(s0, actions);
      && |s.history| > 0 && SameOnFile(s.memory.records, s.history[|s.history| - 1])
      && s.newest == s.memory.version
      && (s.file.version == s.memory.version <==> !s.late)
      && (!s.late ==> SameOnFile(s.file.records, s.memory.records))
  {
    RaceRun(s0, actions);
    var s := Final(s0, actions);
    assert forall p :: !Carries(s, p);
  }

  /** A snapshot that is written, in whatever row order, parses to what the model puts in the file. */
  lemma SnapshotsParse(s0: State, actions: seq<Action>, p: nat, order: seq<TrustRecord>)
    requires Start(s0) && Run(s0, actions) && Enabled(Final(s0, actions), Write(p))
    requires Orders(Final(s0, actions).procs[p].phase.snap.records, order)
    ensures Parse(Rows(RowsOf(order))) == Some(Next(Final(s0, actions), Write(p)).file.records)
  {
    RaceRun(s0, actions);
    var s := Final(s0, actions);
    assert NamedProc(s.history, s.procs[p]);
    AnyOrderRebuilds(s.procs[p].phase.snap.records, order);
  }

  // ---------------------------------------------------------------- and both conditions are needed

  lemma Unroll(s: State, a: Action, rest: seq<Action>)
    requires Enabled(s, a) && Run(Next(s, a), rest)
    ensures Run(s, [a] + rest) && Final(s, [a] + rest) == Final(Next(s, a), rest)
  {
    assert ([a] + rest)[1..] == rest;
  }

  lemma {:induction false} RunConcat(s: State, a: seq<Action>, b: seq<Action>)
    requires Run(s, a) && Run(Final(s, a), b)
    ensures Run(s, a + b) && Final(s, a + b) == Final(Final(s, a), b)
    decreases |a|
  {
    if a == [] {
      assert a + b == b;
    } else {
      assert (a + b)[1..] == a[1..] + b;
      RunConcat(Next(s, a[0]), a[1..], b);
    }
  }

  /** A create of an absent record changes memory. */
  lemma CreateChanges(s: State, p: nat, r: TrustRecord) returns (actions: seq<Action>)
    requires p !in s.procs && r.Key() !in s.memory.records && TrimmedKey(r.Key()) && s.memory.version < |s.history|
    ensures Run(s, actions)
    ensures Final(s, actions) == s.(memory := Snap(|s.history|, s.memory.records[r.Key() := r]),
      history := s.history + [NextRecords(s, Create(r))], procs := s.procs[p := Proc(Create(r), Changed)])
  {
    var s1 := Next(s, Ask(p, Create(r)));
    var s2 := Next(s1, Change(p));
    assert s2.procs == s.procs[p := Proc(Create(r), Changed)];
    Unroll(s1, Change(p), []);
    Unroll(s, Ask(p, Create(r)), [Change(p)]);
    actions := [Ask(p, Create(r))] + [Change(p)];
  }

  lemma Then(s0: State, before: seq<Action>, a: Action) returns (actions: seq<Action>)
    requires Run(s0, before) && Enabled(Final(s0, before), a)
    ensures Run(s0, actions) && Final(s0, actions) == Next(Final(s0, before), a)
  {
    Unroll(Final(s0, before), a, []);
    RunConcat(s0, before, [a] + []);
    actions := before + ([a] + []);
  }

  /** Two creates change memory, the first having taken its snapshot in between. */
  lemma BothSnapped(s0: State, r1: TrustRecord, r2: TrustRecord) returns (actions: seq<Action>)
    requires Start(s0) && r1.Key() != r2.Key() && r1.Key() !in s0.memory.records && r2.Key() !in s0.memory.records
    requires TrimmedKey(r1.Key()) && TrimmedKey(r2.Key())
    ensures Run(s0, actions)
    ensures var s := Final(s0, actions);
      var m1 := s0.memory.records[r1.Key() := r1];
      var m2 := m1[r2.Key() := r2];
      && s.memory == Snap(2, m2) && s.sync.Idle?
      && s.procs == map[1 := Proc(Create(r1), Snapped(Snap(1, m1))), 2 := Proc(Create(r2), Snapped(Snap(2, m2)))]
  {
    var a := CreateChanges(s0, 1, r1);
    a := Then(s0, a, Snapshot(1));
    var s1 := Final(s0, a);
    var b := CreateChanges(s1, 2, r2);
    RunConcat(s0, a, b);
    actions := Then(s0, a + b, Snapshot(2));
  }

  /** From there, written in the other order, both are acknowledged and the file lacks the second for good. */
  lemma WrittenInTheOtherOrder(s: State) returns (actions: seq<Action>)
    requires s.procs.Keys == {1, 2} && s.procs[1].phase.Snapped? && s.procs[2].phase.Snapped? && s.sync.Idle?
    ensures Run(s, actions)
    ensures var t := Final(s, actions);
      && Quiescent(t) && At(t, 1, Ended(Done)) && At(t, 2, Ended(Done))
      && t.memory == s.memory && t.lastModified == t.modified
      && t.file == Snap(s.procs[1].phase.snap.version, NormalMap(s.procs[1].phase.snap.records))
  {
    var s1 := Next(s, Write(2));
    var s2 := Next(s1, Write(1));
    var s3 := Next(s2, Stat(2));
    var s4 := Next(s3, Stat(1));
    var s5 := Next(s4, Note(2));
    var s6 := Next(s5, Note(1));
    Unroll(s5, Note(1), []);
    Unroll(s4, Note(2), [Note(1)]);
    Unroll(s3, Stat(1), [Note(2)] + [Note(1)]);
    var rest := [Stat(1)] + ([Note(2)] + [Note(1)]);
    Unroll(s2, Stat(2), rest);
    Unroll(s1, Write(1), [Stat(2)] + rest);
    actions := [Write(2)] + ([Write(1)] + ([Stat(2)] + rest));
    Unroll(s, Write(2), [Write(1)] + ([Stat(2)] + rest));
  }

  /**
   * Two creates are both acknowledged, and the file lacks one of them while its time stamp is the one
   * last seen: reads find it, no sync will look at the file, and a restart loses it.
   */
  lemma LateWriteLosesCreate(s0: State, r1: TrustRecord, r2: TrustRecord) returns (actions: seq<Action>)
    requires Start(s0) && r1.Key() != r2.Key() && r1.Key() !in s0.memory.records && r2.Key() !in s0.memory.records
    requires TrimmedKey(r1.Key()) && TrimmedKey(r2.Key())
    ensures Run(s0, actions)
    ensures var s := Final(s0, actions);
      && Quiescent(s) && At(s, 1, Ended(Done)) && At(s, 2, Ended(Done))
      && r2.Key() in s.memory.records && r2.Key() !in s.file.records && s.lastModified == s.modified
      && Next(Next(s, SyncPeek), SyncStat) == s
  {
    var first := BothSnapped(s0, r1, r2);
    var s := Final(s0, first);
    var second := WrittenInTheOtherOrder(s);
    RunConcat(s0, first, second);
    NothingToSync(Final(s, second));
    actions := first + second;
  }

  lemma NothingToSync(s: State)
    requires s.sync.Idle? && s.lastModified == s.modified
    ensures Next(Next(s, SyncPeek), SyncStat) == s
  {
  }

  /** One create is written, and the sync task has read the file, newer than the one last seen. */
  lemma OneLoaded(s0: State, r1: TrustRecord) returns (actions: seq<Action>)
    requires Start(s0) && r1.Key() !in s0.memory.records && TrimmedKey(r1.Key())
    ensures Run(s0, actions)
    ensures var s := Final(s0, actions); var m1 := s0.memory.records[r1.Key() := r1];
      && s.memory == Snap(1, m1) && |s.history| == 2 && s.procs == map[1 := Proc(Create(r1), Wrote)]
      && s.file == Snap(1, NormalMap(m1)) && s.sync == Loaded(s.file, s.modified)
  {
    var a := CreateChanges(s0, 1, r1);
    a := Then(s0, a, Snapshot(1));
    var s1 := Final(s0, a);
    var load := WrittenThenLoaded(s1, 1);
    RunConcat(s0, a, load);
    actions := a + load;
  }

  /** And then memory has changed again. */
  lemma LoadedThenChanged(s0: State, r1: TrustRecord, r2: TrustRecord) returns (actions: seq<Action>)
    requires Start(s0) && r1.Key() != r2.Key() && r1.Key() !in s0.memory.records && r2.Key() !in s0.memory.records
    requires TrimmedKey(r1.Key()) && TrimmedKey(r2.Key())
    ensures Run(s0, actions)
    ensures var s := Final(s0, actions);
      && s.procs == map[1 := Proc(Create(r1), Wrote), 2 := Proc(Create(r2), Changed)]
      && s.sync == Loaded(s.file, s.modified) && r2.Key() in s.memory.records && r2.Key() !in s.file.records
  {
    var a := OneLoaded(s0, r1);
    var b := CreateChanges(Final(s0, a), 2, r2);
    RunConcat(s0, a, b);
    actions := a + b;
  }

  lemma WrittenThenLoaded(s: State, p: nat) returns (actions: seq<Action>)
    requires p in s.procs && s.procs[p].phase.Snapped? && s.sync.Idle? && s.lastModified <= s.clock
    ensures Run(s, actions)
    ensures var t := Final(s, actions); var snap := s.procs[p].phase.snap;
      && t.memory == s.memory && t.history == s.history && t.procs == s.procs[p := Proc(s.procs[p].op, Wrote)]
      && t.file == Snap(snap.version, NormalMap(snap.records)) && t.sync == Loaded(t.file, t.modified)
  {
    var a := Then(s, [], Tick(s.clock + 1));
    a := Then(s, a, Write(p));
    a := Then(s, a, SyncPeek);
    a := Then(s, a, SyncStat);
    actions := Then(s, a, SyncRead);
  }

  lemma SwappedAndAcknowledged(s: State) returns (actions: seq<Action>)
    requires s.procs.Keys == {1, 2} && At(s, 1, Wrote) && At(s, 2, Changed) && s.sync.Loaded?
    ensures Run(s, actions)
    ensures var t := Final(s, actions);
      && Quiescent(t) && At(t, 1, Ended(Done)) && At(t, 2, Ended(Done))
      && t.memory == s.sync.snap && t.file == Snap(s.sync.snap.version, NormalMap(s.sync.snap.records))
  {
    var a := Then(s, [], SyncSwap);
    a := Then(s, a, Snapshot(2));
    a := Then(s, a, Write(2));
    var rest := AllNoted(Final(s, a));
    RunConcat(s, a, rest);
    actions := a + rest;
  }

  lemma AllNoted(s: State) returns (actions: seq<Action>)
    requires s.procs.Keys == {1, 2} && At(s, 1, Wrote) && At(s, 2, Wrote) && s.sync.Swapped?
    ensures Run(s, actions)
    ensures var t := Final(s, actions);
      Quiescent(t) && At(t, 1, Ended(Done)) && At(t, 2, Ended(Done)) && t.memory == s.memory && t.file == s.file
  {
    var a := Then(s, [], Stat(1));
    a := Then(s, a, Stat(2));
    a := Then(s, a, Note(1));
    a := Then(s, a, Note(2));
    actions := Then(s, a, SyncNote);
  }

  /**
   * A sync that swaps in what it read before a change drops that change: the create is acknowledged,
   * and its record is in neither memory nor file.
   */
  lemma HarmfulSwapDropsCreate(s0: State, r1: TrustRecord, r2: TrustRecord) returns (actions: seq<Action>)
    requires Start(s0) && r1.Key() != r2.Key() && r1.Key() !in s0.memory.records && r2.Key() !in s0.memory.records
    requires TrimmedKey(r1.Key()) && TrimmedKey(r2.Key())
    ensures Run(s0, actions)
    ensures var s := Final(s0, actions);
      && Quiescent(s) && At(s, 1, Ended(Done)) && At(s, 2, Ended(Done))
      && r2.Key() !in s.memory.records && r2.Key() !in s.file.records
  {
    var first := LoadedThenChanged(s0, r1, r2);
    var s := Final(s0, first);
    var second := SwappedAndAcknowledged(s);
    RunConcat(s0, first, second);
    actions := first + second;
  }

  // ---------------------------------------------------------------- one operation, one sync, alone

  /** An operation alone leaves what performing it with a completed write leaves, and answers so. */
  lemma UndisturbedOperation(s: State, p: nat, op: Op) returns (actions: seq<Action>)
    requires p !in s.procs && Orderly(Do(op, Written(0)))
    ensures Run(s, actions)
    ensures var t := Final(s, actions);
      var (m, answer) := Step(s.memory.records, op);
      && At(t, p, Ended(answer)) && t.memory.records == m && t.clock == s.clock && t.sync == s.sync
      && (if answer.Done? then t.file.records == NormalMap(m) && t.modified == s.clock && t.lastModified == s.clock
          else t.file == s.file && t.modified == s.modified && t.lastModified == s.lastModified)
  {
    actions := Then(s, [], Ask(p, op));
    actions := Then(s, actions, Change(p));
    if Step(s.memory.records, op).1.Done? {
      var rest := UndisturbedWrite(Final(s, actions), p);
      RunConcat(s, actions, rest);
      actions := actions + rest;
    }
  }

  lemma UndisturbedWrite(s: State, p: nat) returns (actions: seq<Action>)
    requires At(s, p, Changed)
    ensures Run(s, actions)
    ensures var t := Final(s, actions);
      && At(t, p, Ended(Done)) && t.memory == s.memory && t.clock == s.clock && t.sync == s.sync
      && t.file.records == NormalMap(s.memory.records) && t.modified == s.clock && t.lastModified == s.clock
  {
    actions := Then(s, [], Snapshot(p));
    actions := Then(s, actions, Write(p));
    actions := Then(s, actions, Stat(p));
    actions := Then(s, actions, Note(p));
  }

  /** A sync alone reloads a file newer than the one last seen, and else changes nothing. */
  lemma UndisturbedSync(s: State) returns (actions: seq<Action>)
    requires s.sync.Idle?
    ensures Run(s, actions)
    ensures Final(s, actions) == if s.modified > s.lastModified then s.(memory := s.file, lastModified := s.modified) else s
  {
    actions := Then(s, [], SyncPeek);
    actions := Then(s, actions, SyncStat);
    if s.modified > s.lastModified {
      actions := Then(s, actions, SyncRead);
      actions := Then(s, actions, SyncSwap);
      actions := Then(s, actions, SyncNote);
    }
  }
}
