/**
 * Many deliveries at once: every interleaving of claim, handling and resolve steps over one shared
 * claim store, for any handlers over any shared state (trust-registry/src/dedup/mod.rs).
 */
module DedupProtocol {
  import opened Domain
  import opened Tasks
  import opened Dedup
  import opened Redelivery

  datatype Progress<J> = Continue(job: J) | Finish(outcome: Outcome)

  /**
   * What a dispatcher makes of a document: the job found for it on arrival, and one step of a job on
   * the shared state, given what its surroundings answer, the id a response would get and the time.
   */
  datatype Handlers<!S, !J, !E> = Handlers(
    begin: (S, Document) -> J,
    work: (S, J, E, string, int) -> (S, Progress<J>))

  /** Where one delivery stands inside `dispatch_idempotent`. */
  datatype Phase<J> =
    | Arrived(job: J)
    | Claimed(since: int, job: J)
    | Handled(since: int, outcome: Outcome)
    | Answered(answer: Outcome)

  datatype Proc<J> = Proc(doc: Document, key: string, phase: Phase<J>) {
    predicate InProgress() {
      phase.Claimed? || phase.Handled?
    }
  }

  /** What happened, in order; `done` is the outcome of a job's last step. */
  datatype Item<J, E> =
    | Granted(key: string, at: int)
    | Worked(key: string, job: J, env: E, responseId: string, at: int, done: Option<Outcome>)
    | Settled(key: string, outcome: Outcome, at: int)
  {
    /** The last step of a dispatch whose outcome is one to keep. */
    predicate Lasting() {
      Worked? && done.Some? && Cacheable(done.value)
    }
  }

  datatype State<S, J, E> = State(
    clock: int,
    entries: Entries,
    shared: S,
    procs: map<nat, Proc<J>>,
    log: seq<Item<J, E>>)

  datatype Action<E> =
    | Tick(to: int)
    | Arrive(p: nat, doc: Document)
    | ClaimStep(p: nat, responseId: string)
    | WorkStep(p: nat, responseId: string, env: E)
    | ResolveStep(p: nat)

  ghost predicate Enabled<S, J, E>(s: State<S, J, E>, a: Action<E>) {
    match a
    case Tick(to) => s.clock <= to
    case Arrive(p, doc) => p !in s.procs && doc.IsWrite()
    case ClaimStep(p, _) => p in s.procs && s.procs[p].phase.Arrived?
    case WorkStep(p, _, _) => p in s.procs && s.procs[p].phase.Claimed?
    case ResolveStep(p) => p in s.procs && s.procs[p].phase.Handled?
  }

  ghost function Move<S, J, E>(s: State<S, J, E>, p: nat, phase: Phase<J>): State<S, J, E>
    requires p in s.procs
  {
    s.(procs := s.procs[p := s.procs[p].(phase := phase)])
  }

  ghost function Next<S, J, E>(s: State<S, J, E>, a: Action<E>, h: Handlers<S, J, E>, w: Windows): State<S, J, E>
    requires Enabled(s, a)
  {
    match a
    case Tick(to) => s.(clock := to)
    case Arrive(p, doc) => s.(procs := s.procs[p := Proc(doc, doc.MessageId(), Arrived(h.begin(s.shared, doc)))])
    case ClaimStep(p, id) =>
      var (entries', claim) := ClaimIn(s.entries, s.procs[p].key, s.clock, w);
      var s' := s.(entries := entries');
      (match claim
       case Acquired =>
         Move(s', p, Claimed(s.clock, s.procs[p].phase.job)).(log := s.log + [Granted(s.procs[p].key, s.clock)])
       case Replay(o) => Move(s', p, Answered(o))
       case Busy => Move(s', p, Answered(InFlightRejection(s.procs[p].doc, id))))
    case WorkStep(p, id, env) =>
      var job := s.procs[p].phase.job;
      var (shared', progress) := h.work(s.shared, job, env, id, s.clock);
      var done := if progress.Finish? then Some(progress.outcome) else None;
      Move(s, p, if progress.Finish? then Handled(s.procs[p].phase.since, progress.outcome)
                 else Claimed(s.procs[p].phase.since, progress.job))
        .(shared := shared', log := s.log + [Worked(s.procs[p].key, job, env, id, s.clock, done)])
    case ResolveStep(p) =>
      var o := s.procs[p].phase.outcome;
      Move(s, p, Answered(o))
        .(entries := Resolve(s.entries, s.procs[p].key, o, s.clock, w),
          log := if Cacheable(o) then s.log + [Settled(s.procs[p].key, o, s.clock)] else s.log)
  }

  /** Every delivery in progress is still inside the window its claim is honoured for. */
  ghost predicate Prompt<S, J, E>(s: State<S, J, E>, w: Windows) {
    forall p :: p in s.procs && s.procs[p].InProgress() ==> s.clock - s.procs[p].phase.since < w.inFlight
  }

  ghost predicate Initial<S, J, E>(s: State<S, J, E>) {
    s.entries == map[] && s.procs == map[] && s.log == []
  }

  /** A run in which every handler resolves before its claim can be reclaimed. */
  ghost predicate PromptRun<S, J, E>(s: State<S, J, E>, actions: seq<Action<E>>, h: Handlers<S, J, E>, w: Windows)
    decreases |actions|
  {
    Prompt(s, w) &&
    (actions != [] ==> Enabled(s, actions[0]) && PromptRun(Next(s, actions[0], h, w), actions[1..], h, w))
  }

  ghost function Final<S, J, E>(s: State<S, J, E>, actions: seq<Action<E>>, h: Handlers<S, J, E>, w: Windows): State<S, J, E>
    requires PromptRun(s, actions, h, w)
    decreases |actions|
  {
    if actions == [] then s else Final(Next(s, actions[0], h, w), actions[1..], h, w)
  }

  // ---------------------------------------------------------------- invariant

  ghost predicate HoldsClaim<S, J, E>(s: State<S, J, E>, p: nat)
    requires p in s.procs && s.procs[p].InProgress()
  {
    var proc := s.procs[p];
    proc.phase.since <= s.clock && proc.key in s.entries && s.entries[proc.key] == InFlight(proc.phase.since)
  }

  ghost predicate Holders<S, J, E>(s: State<S, J, E>) {
    forall p :: p in s.procs && s.procs[p].InProgress() ==> HoldsClaim(s, p)
  }

  /** At most one delivery per key is between its claim and its resolution. */
  ghost predicate Exclusive<S, J, E>(s: State<S, J, E>) {
    forall p, q ::
      (p in s.procs && q in s.procs && s.procs[p].InProgress() && s.procs[q].InProgress()
       && s.procs[p].key == s.procs[q].key) ==> p == q
  }

  ghost predicate Replayable<S, J, E>(s: State<S, J, E>, i: nat, w: Windows)
    requires i < |s.log| && s.log[i].Settled?
  {
    var e := s.log[i];
    e.at <= s.clock
    && (s.clock < e.at + w.ttl ==> e.key in s.entries && s.entries[e.key] == Entry.Done(e.outcome, e.at + w.ttl))
  }

  ghost predicate Remembered<S, J, E>(s: State<S, J, E>, w: Windows) {
    forall i :: 0 <= i < |s.log| && s.log[i].Settled? ==> Replayable(s, i, w)
  }

  ghost predicate SettledAs<J, E>(log: seq<Item<J, E>>, key: string, outcome: Outcome, from: nat) {
    exists m :: from <= m < |log| && log[m].Settled? && log[m].key == key && log[m].outcome == outcome
  }

  ghost predicate AwaitsSettling<S, J, E>(s: State<S, J, E>, key: string, outcome: Outcome) {
    exists p :: p in s.procs && s.procs[p].key == key && s.procs[p].phase.Handled? && s.procs[p].phase.outcome == outcome
  }

  /** Every lasting outcome is settled, or belongs to the delivery about to settle it. */
  ghost predicate Accounted<S, J, E>(s: State<S, J, E>) {
    forall i :: 0 <= i < |s.log| && s.log[i].Lasting() ==> AccountedAt(s, i)
  }

  ghost predicate AccountedAt<S, J, E>(s: State<S, J, E>, i: nat)
    requires i < |s.log| && s.log[i].Lasting()
  {
    SettledAs(s.log, s.log[i].key, s.log[i].done.value, i) || AwaitsSettling(s, s.log[i].key, s.log[i].done.value)
  }

  /** No grant and no handling of a key until `ttl` after each earlier settlement of it. */
  ghost predicate Quiet<J, E>(log: seq<Item<J, E>>, w: Windows) {
    forall i, j :: 0 <= i < j < |log| && log[i].Settled? && !log[j].Settled? && log[i].key == log[j].key ==>
      log[j].at >= log[i].at + w.ttl
  }

  /** Between a lasting outcome and any later handling of its key, that outcome is settled. */
  ghost predicate Separated<J, E>(log: seq<Item<J, E>>) {
    forall i, j :: 0 <= i < j < |log| && log[i].Lasting() && log[j].Worked? && log[i].key == log[j].key ==>
      SettledAs(log[..j], log[i].key, log[i].done.value, i)
  }

  /** An answer that is not a plea to retry is the outcome of a settled dispatch. */
  ghost predicate HonestAnswers<S, J, E>(s: State<S, J, E>) {
    && (forall p :: p in s.procs && s.procs[p].phase.Answered? && Cacheable(s.procs[p].phase.answer) ==>
          SettledAs(s.log, s.procs[p].key, s.procs[p].phase.answer, 0))
    && (forall k :: k in s.entries && s.entries[k].Done? ==> SettledAs(s.log, k, s.entries[k].outcome, 0))
  }

  ghost predicate HonestSettlements<S, J, E>(s: State<S, J, E>) {
    && (forall p :: p in s.procs && s.procs[p].phase.Handled? && Cacheable(s.procs[p].phase.outcome) ==>
          AppliedAs(s.log, s.procs[p].key, s.procs[p].phase.outcome))
    && (forall m :: 0 <= m < |s.log| && s.log[m].Settled? ==> AppliedAs(s.log, s.log[m].key, s.log[m].outcome))
  }

  /** The log carries times of this run only. */
  ghost predicate Dated<S, J, E>(s: State<S, J, E>, start: int) {
    start <= s.clock && forall i :: 0 <= i < |s.log| ==> start <= s.log[i].at <= s.clock
  }

  ghost predicate AppliedAs<J, E>(log: seq<Item<J, E>>, key: string, outcome: Outcome) {
    exists i :: 0 <= i < |log| && log[i].Worked? && log[i].key == key && log[i].done == Some(outcome)
  }

  /** Taking the logged handling steps one after another. */
  ghost function Replayed<S, J, E>(shared: S, log: seq<Item<J, E>>, h: Handlers<S, J, E>): S {
    if log == [] then shared
    else
      var before, e := Replayed(shared, log[..|log| - 1], h), log[|log| - 1];
      if e.Worked? then h.work(before, e.job, e.env, e.responseId, e.at).0 else before
  }

  ghost predicate Safe<S, J, E>(s: State<S, J, E>, w: Windows) {
    Holders(s) && Exclusive(s) && Remembered(s, w)
  }

  // ---------------------------------------------------------------- safety of each step

  lemma ExclusiveStep<S, J, E>(s: State<S, J, E>, a: Action<E>, h: Handlers<S, J, E>, w: Windows)
    requires Holders(s) && Exclusive(s) && Prompt(s, w) && Enabled(s, a)
    ensures Exclusive(Next(s, a, h, w))
  {
    if a.ClaimStep? && Next(s, a, h, w).procs[a.p].InProgress() {
      forall q | q in s.procs && s.procs[q].InProgress()
        ensures s.procs[q].key != s.procs[a.p].key
      {
        assert HoldsClaim(s, q);
      }
    }
  }

  lemma HolderStep<S, J, E>(s: State<S, J, E>, a: Action<E>, h: Handlers<S, J, E>, w: Windows, p: nat)
    requires Exclusive(s) && Prompt(s, w) && Enabled(s, a)
    requires p in Next(s, a, h, w).procs && Next(s, a, h, w).procs[p].InProgress()
    requires p in s.procs && s.procs[p].InProgress() ==> HoldsClaim(s, p)
    ensures HoldsClaim(Next(s, a, h, w), p)
  {
  }

  lemma HoldersStep<S, J, E>(s: State<S, J, E>, a: Action<E>, h: Handlers<S, J, E>, w: Windows)
    requires Safe(s, w) && Prompt(s, w) && Enabled(s, a)
    ensures Holders(Next(s, a, h, w)) && Exclusive(Next(s, a, h, w))
  {
    ExclusiveStep(s, a, h, w);
    forall p | p in Next(s, a, h, w).procs && Next(s, a, h, w).procs[p].InProgress()
      ensures HoldsClaim(Next(s, a, h, w), p)
    {
      HolderStep(s, a, h, w, p);
    }
  }

  lemma RememberedStep<S, J, E>(s: State<S, J, E>, a: Action<E>, h: Handlers<S, J, E>, w: Windows)
    requires Safe(s, w) && Enabled(s, a)
    ensures Remembered(Next(s, a, h, w), w)
  {
    var s' := Next(s, a, h, w);
    forall i | 0 <= i < |s'.log| && s'.log[i].Settled?
      ensures Replayable(s', i, w)
    {
      if i < |s.log| {
        assert s'.log[i] == s.log[i];
        assert Replayable(s, i, w);
        if a.ResolveStep? {
          assert HoldsClaim(s, a.p);
        }
      }
    }
  }

  /** A claim is granted, and a handling step taken, only when no settlement of that key is still replayable. */
  lemma QuietStep<S, J, E>(s: State<S, J, E>, a: Action<E>, h: Handlers<S, J, E>, w: Windows)
    requires Safe(s, w) && Enabled(s, a) && Quiet(s.log, w)
    ensures Quiet(Next(s, a, h, w).log, w)
  {
    var s' := Next(s, a, h, w);
    forall i, j | 0 <= i < j < |s'.log| && s'.log[i].Settled? && !s'.log[j].Settled? && s'.log[i].key == s'.log[j].key
      ensures s'.log[j].at >= s'.log[i].at + w.ttl
    {
      assert s'.log[i] == s.log[i] && Replayable(s, i, w);
      if j < |s.log| {
        assert s'.log[j] == s.log[j];
      } else if a.WorkStep? {
        assert HoldsClaim(s, a.p);
      }
    }
  }

  lemma SettledAsGrows<J, E>(log: seq<Item<J, E>>, more: seq<Item<J, E>>, key: string, outcome: Outcome, from: nat)
    requires SettledAs(log, key, outcome, from)
    ensures SettledAs(log + more, key, outcome, from)
  {
    var m :| from <= m < |log| && log[m].Settled? && log[m].key == key && log[m].outcome == outcome;
    assert (log + more)[m] == log[m];
  }

  lemma AppliedAsGrows<J, E>(log: seq<Item<J, E>>, more: seq<Item<J, E>>, key: string, outcome: Outcome)
    requires AppliedAs(log, key, outcome)
    ensures AppliedAs(log + more, key, outcome)
  {
    var m :| 0 <= m < |log| && log[m].Worked? && log[m].key == key && log[m].done == Some(outcome);
    assert (log + more)[m] == log[m];
  }

  /** What a step appends to the log. */
  ghost function Appended<S, J, E>(s: State<S, J, E>, a: Action<E>, h: Handlers<S, J, E>, w: Windows): seq<Item<J, E>>
    requires Enabled(s, a)
    ensures Next(s, a, h, w).log == s.log + Appended(s, a, h, w)
  {
    Next(s, a, h, w).log[|s.log|..]
  }

  lemma AccountedStep<S, J, E>(s: State<S, J, E>, a: Action<E>, h: Handlers<S, J, E>, w: Windows)
    requires Enabled(s, a) && Accounted(s)
    ensures Accounted(Next(s, a, h, w))
  {
    var s' := Next(s, a, h, w);
    var more := Appended(s, a, h, w);
    forall i | 0 <= i < |s'.log| && s'.log[i].Lasting()
      ensures AccountedAt(s', i)
    {
      if i < |s.log| {
        assert AccountedAt(s, i);
        var key, o := s.log[i].key, s.log[i].done.value;
        if SettledAs(s.log, key, o, i) {
          SettledAsGrows(s.log, more, key, o, i);
        } else {
          var p :| p in s.procs && s.procs[p].key == key && s.procs[p].phase.Handled? && s.procs[p].phase.outcome == o;
          if a == ResolveStep(p) {
            assert s'.log[|s.log|] == Settled(key, o, s.clock);
          } else {
            assert s'.procs[p] == s.procs[p];
          }
        }
      } else {
        assert s'.procs[a.p].phase == Handled(s.procs[a.p].phase.since, s'.log[i].done.value);
      }
    }
  }

  /** A handling step finds every earlier lasting outcome of its key settled: nobody else is about to settle it. */
  lemma SettledBeforeWork<S, J, E>(s: State<S, J, E>, p: nat, i: nat)
    requires Exclusive(s) && Accounted(s) && p in s.procs && s.procs[p].phase.Claimed?
    requires i < |s.log| && s.log[i].Lasting() && s.log[i].key == s.procs[p].key
    ensures SettledAs(s.log, s.log[i].key, s.log[i].done.value, i)
  {
    assert AccountedAt(s, i);
    assert s.procs[p].InProgress();
  }

  lemma SeparatedStep<S, J, E>(s: State<S, J, E>, a: Action<E>, h: Handlers<S, J, E>, w: Windows)
    requires Exclusive(s) && Accounted(s) && Separated(s.log) && Enabled(s, a)
    ensures Separated(Next(s, a, h, w).log)
  {
    var log, log' := s.log, Next(s, a, h, w).log;
    assert log' == log + Appended(s, a, h, w);
    forall i, j | 0 <= i < j < |log'| && log'[i].Lasting() && log'[j].Worked? && log'[i].key == log'[j].key
      ensures SettledAs(log'[..j], log'[i].key, log'[i].done.value, i)
    {
      assert log'[..j] == log[..j] && log'[i] == log[i];
      if j == |log| {
        SettledBeforeWork(s, a.p, i);
        assert log[..j] == log;
      } else {
        assert log'[j] == log[j];
      }
    }
  }

  lemma HonestAnswersStep<S, J, E>(s: State<S, J, E>, a: Action<E>, h: Handlers<S, J, E>, w: Windows)
    requires Enabled(s, a) && HonestAnswers(s)
    ensures HonestAnswers(Next(s, a, h, w))
  {
    var s' := Next(s, a, h, w);
    var more := Appended(s, a, h, w);
    if a.ResolveStep? && Cacheable(s.procs[a.p].phase.outcome) {
      assert s'.log[|s.log|] == Settled(s.procs[a.p].key, s.procs[a.p].phase.outcome, s.clock);
      assert SettledAs(s'.log, s.procs[a.p].key, s.procs[a.p].phase.outcome, 0);
    }
    forall k | k in s'.entries && s'.entries[k].Done?
      ensures SettledAs(s'.log, k, s'.entries[k].outcome, 0)
    {
      if k in s.entries && s'.entries[k] == s.entries[k] {
        SettledAsGrows(s.log, more, k, s.entries[k].outcome, 0);
      }
    }
    forall p | p in s'.procs && s'.procs[p].phase.Answered? && Cacheable(s'.procs[p].phase.answer)
      ensures SettledAs(s'.log, s'.procs[p].key, s'.procs[p].phase.answer, 0)
    {
      if p in s.procs && s'.procs[p] == s.procs[p] {
        SettledAsGrows(s.log, more, s.procs[p].key, s.procs[p].phase.answer, 0);
      } else if a.ClaimStep? {
        SettledAsGrows(s.log, more, s.procs[p].key, s'.procs[p].phase.answer, 0);
      }
    }
  }

  lemma HonestSettlementsStep<S, J, E>(s: State<S, J, E>, a: Action<E>, h: Handlers<S, J, E>, w: Windows)
    requires Enabled(s, a) && HonestSettlements(s)
    ensures HonestSettlements(Next(s, a, h, w))
  {
    var s' := Next(s, a, h, w);
    var more := Appended(s, a, h, w);
    forall p | p in s'.procs && s'.procs[p].phase.Handled? && Cacheable(s'.procs[p].phase.outcome)
      ensures AppliedAs(s'.log, s'.procs[p].key, s'.procs[p].phase.outcome)
    {
      if p in s.procs && s'.procs[p] == s.procs[p] {
        AppliedAsGrows(s.log, more, s.procs[p].key, s.procs[p].phase.outcome);
      } else {
        assert s'.log[|s.log|].done == Some(s'.procs[p].phase.outcome);
      }
    }
    forall m | 0 <= m < |s'.log| && s'.log[m].Settled?
      ensures AppliedAs(s'.log, s'.log[m].key, s'.log[m].outcome)
    {
      if m < |s.log| {
        AppliedAsGrows(s.log, more, s.log[m].key, s.log[m].outcome);
      } else {
        AppliedAsGrows(s.log, more, s.procs[a.p].key, s.procs[a.p].phase.outcome);
      }
    }
  }

  lemma DatedStep<S, J, E>(s: State<S, J, E>, a: Action<E>, h: Handlers<S, J, E>, w: Windows, start: int)
    requires Enabled(s, a) && Dated(s, start)
    ensures Dated(Next(s, a, h, w), start)
  {
    var more := Appended(s, a, h, w);
  }

  lemma ReplayedStep<S, J, E>(s: State<S, J, E>, a: Action<E>, h: Handlers<S, J, E>, w: Windows, shared0: S)
    requires Enabled(s, a) && s.shared == Replayed(shared0, s.log, h)
    ensures Next(s, a, h, w).shared == Replayed(shared0, Next(s, a, h, w).log, h)
  {
    var log' := Next(s, a, h, w).log;
    if |log'| > |s.log| {
      assert log'[..|log'| - 1] == s.log;
    }
  }

  ghost predicate Inv<S, J, E>(s: State<S, J, E>, h: Handlers<S, J, E>, w: Windows, shared0: S, start: int) {
    && Safe(s, w) && Quiet(s.log, w) && Accounted(s) && Separated(s.log)
    && HonestAnswers(s) && HonestSettlements(s) && Dated(s, start)
    && s.shared == Replayed(shared0, s.log, h)
  }

  lemma InvStep<S, J, E>(s: State<S, J, E>, a: Action<E>, h: Handlers<S, J, E>, w: Windows, shared0: S, start: int)
    requires Inv(s, h, w, shared0, start) && Prompt(s, w) && Enabled(s, a)
    ensures Inv(Next(s, a, h, w), h, w, shared0, start)
  {
    HoldersStep(s, a, h, w);
    RememberedStep(s, a, h, w);
    QuietStep(s, a, h, w);
    AccountedStep(s, a, h, w);
    SeparatedStep(s, a, h, w);
    HonestAnswersStep(s, a, h, w);
    HonestSettlementsStep(s, a, h, w);
    ReplayedStep(s, a, h, w, shared0);
    DatedStep(s, a, h, w, start);
  }

  lemma {:induction false} InvRun<S, J, E>(s: State<S, J, E>, actions: seq<Action<E>>, h: Handlers<S, J, E>, w: Windows,
                                           shared0: S, start: int)
    requires Inv(s, h, w, shared0, start) && PromptRun(s, actions, h, w)
    ensures Inv(Final(s, actions, h, w), h, w, shared0, start)
    decreases |actions|
  {
    if actions != [] {
      InvStep(s, actions[0], h, w, shared0, start);
      InvRun(Next(s, actions[0], h, w), actions[1..], h, w, shared0, start);
    }
  }

  // ---------------------------------------------------------------- theorems over whole runs

  /**
   * In every interleaving of any number of deliveries whose handlers resolve in time, whatever the
   * handlers do: one dispatch per key at a time, none again until the replay window has passed since
   * a settlement, and the shared state is that of the logged handling steps taken one by one.
   */
  lemma MutualExclusionAndQuiet<S, J, E>(s0: State<S, J, E>, actions: seq<Action<E>>, h: Handlers<S, J, E>, w: Windows)
    requires Initial(s0) && PromptRun(s0, actions, h, w)
    ensures var s := Final(s0, actions, h, w);
      Exclusive(s) && Quiet(s.log, w) && s.shared == Replayed(s0.shared, s.log, h)
  {
    InvRun(s0, actions, h, w, s0.shared, s0.clock);
  }

  /** Nothing is done for a key after a dispatch of it has ended in a lasting outcome. */
  ghost predicate DoneOnce<J, E>(log: seq<Item<J, E>>) {
    forall i, j :: 0 <= i < j < |log| && log[i].Lasting() && log[j].Worked? ==> log[i].key != log[j].key
  }

  predicate AnsweredForGood<J>(p: Proc<J>) {
    p.phase.Answered? && Cacheable(p.phase.answer)
  }

  /** Settlements too recent to have lapsed leave no room for any further handling. */
  lemma OnceWhileReplayable<J, E>(log: seq<Item<J, E>>, start: int, clock: int, w: Windows)
    requires Quiet(log, w) && Separated(log) && clock < start + w.ttl
    requires forall i :: 0 <= i < |log| ==> start <= log[i].at <= clock
    ensures DoneOnce(log)
  {
    forall i, j | 0 <= i < j < |log| && log[i].Lasting() && log[j].Worked?
      ensures log[i].key != log[j].key
    {
    }
  }

  lemma AnswerIsApplied<S, J, E>(s: State<S, J, E>, p: nat)
    requires HonestAnswers(s) && HonestSettlements(s) && p in s.procs && AnsweredForGood(s.procs[p])
    ensures AppliedAs(s.log, s.procs[p].key, s.procs[p].phase.answer)
  {
    var m :| 0 <= m < |s.log| && s.log[m].Settled? && s.log[m].key == s.procs[p].key
      && s.log[m].outcome == s.procs[p].phase.answer;
  }

  lemma OneOutcome<J, E>(log: seq<Item<J, E>>, key: string, o: Outcome, o': Outcome)
    requires AppliedAs(log, key, o) && AppliedAs(log, key, o') && Cacheable(o) && Cacheable(o')
    requires DoneOnce(log)
    ensures o == o'
  {
    var i :| 0 <= i < |log| && log[i].Worked? && log[i].key == key && log[i].done == Some(o);
    var j :| 0 <= j < |log| && log[j].Worked? && log[j].key == key && log[j].done == Some(o');
    assert i == j;
  }

  /**
   * Within one replay window, however often and however concurrently it is delivered: once a dispatch
   * of a key has ended in a lasting outcome nothing more is ever done for that key, and all its
   * lasting answers are that outcome.
   */
  lemma ExactlyOnceWithinWindow<S, J, E>(s0: State<S, J, E>, actions: seq<Action<E>>, h: Handlers<S, J, E>, w: Windows)
    requires Initial(s0) && PromptRun(s0, actions, h, w)
    requires Final(s0, actions, h, w).clock < s0.clock + w.ttl
    ensures var s := Final(s0, actions, h, w);
      && DoneOnce(s.log)
      && (forall p :: p in s.procs && AnsweredForGood(s.procs[p]) ==>
            AppliedAs(s.log, s.procs[p].key, s.procs[p].phase.answer))
      && (forall p, q :: (p in s.procs && q in s.procs && s.procs[p].key == s.procs[q].key
            && AnsweredForGood(s.procs[p]) && AnsweredForGood(s.procs[q])) ==>
            s.procs[p].phase.answer == s.procs[q].phase.answer)
  {
    InvRun(s0, actions, h, w, s0.shared, s0.clock);
    var s := Final(s0, actions, h, w);
    OnceWhileReplayable(s.log, s0.clock, s.clock, w);
    forall p | p in s.procs && AnsweredForGood(s.procs[p])
      ensures AppliedAs(s.log, s.procs[p].key, s.procs[p].phase.answer)
    {
      AnswerIsApplied(s, p);
    }
    forall p, q | p in s.procs && q in s.procs && s.procs[p].key == s.procs[q].key
      && AnsweredForGood(s.procs[p]) && AnsweredForGood(s.procs[q])
      ensures s.procs[p].phase.answer == s.procs[q].phase.answer
    {
      OneOutcome(s.log, s.procs[p].key, s.procs[p].phase.answer, s.procs[q].phase.answer);
    }
  }

  // ---------------------------------------------------------------- without a bound on handlers

  /** Any run at all: handlers may take as long as they like. */
  ghost predicate AnyRun<S, J, E>(s: State<S, J, E>, actions: seq<Action<E>>, h: Handlers<S, J, E>, w: Windows)
    decreases |actions|
  {
    actions != [] ==> Enabled(s, actions[0]) && AnyRun(Next(s, actions[0], h, w), actions[1..], h, w)
  }

  ghost function After<S, J, E>(s: State<S, J, E>, actions: seq<Action<E>>, h: Handlers<S, J, E>, w: Windows): State<S, J, E>
    requires AnyRun(s, actions, h, w)
    decreases |actions|
  {
    if actions == [] then s else After(Next(s, actions[0], h, w), actions[1..], h, w)
  }

  /** Delivery `q` still works on `key` although its claim may already be reclaimed. */
  ghost predicate Overdue<S, J, E>(s: State<S, J, E>, q: nat, key: string, w: Windows) {
    q in s.procs && s.procs[q].InProgress() && s.procs[q].key == key && s.clock - s.procs[q].phase.since >= w.inFlight
  }

  ghost predicate SomeOverdue<S, J, E>(s: State<S, J, E>, key: string, w: Windows) {
    exists q :: Overdue(s, q, key, w)
  }

  /** A copy asks for its claim while another delivery of the same key is overdue. */
  ghost predicate Overtakes<S, J, E>(s: State<S, J, E>, a: Action<E>, w: Windows) {
    a.ClaimStep? && a.p in s.procs && SomeOverdue(s, s.procs[a.p].key, w)
  }

  ghost predicate AlwaysExclusive<S, J, E>(s: State<S, J, E>, actions: seq<Action<E>>, h: Handlers<S, J, E>, w: Windows)
    requires AnyRun(s, actions, h, w)
    decreases |actions|
  {
    Exclusive(s) && (actions != [] ==> AlwaysExclusive(Next(s, actions[0], h, w), actions[1..], h, w))
  }

  ghost predicate NoneOvertakes<S, J, E>(s: State<S, J, E>, actions: seq<Action<E>>, h: Handlers<S, J, E>, w: Windows)
    requires AnyRun(s, actions, h, w)
    decreases |actions|
  {
    actions != [] ==> !Overtakes(s, actions[0], w) && NoneOvertakes(Next(s, actions[0], h, w), actions[1..], h, w)
  }

  /** The claim of a delivery in progress is its own while it is stored, and past its window once it is not. */
  ghost predicate HeldOrLapsed<S, J, E>(s: State<S, J, E>, p: nat, w: Windows)
    requires p in s.procs && s.procs[p].InProgress()
  {
    var proc := s.procs[p];
    proc.phase.since <= s.clock
    && if proc.key in s.entries then s.entries[proc.key] == InFlight(proc.phase.since)
       else s.clock - proc.phase.since >= w.inFlight
  }

  ghost predicate Held<S, J, E>(s: State<S, J, E>, w: Windows) {
    Exclusive(s) && forall p :: p in s.procs && s.procs[p].InProgress() ==> HeldOrLapsed(s, p, w)
  }

  /** A claim asked for while another delivery of the key is overdue is granted beside it. */
  lemma OvertakingOverlaps<S, J, E>(s: State<S, J, E>, a: Action<E>, h: Handlers<S, J, E>, w: Windows)
    requires Held(s, w) && Enabled(s, a) && Overtakes(s, a, w)
    ensures !Exclusive(Next(s, a, h, w))
  {
    var key := s.procs[a.p].key;
    var q :| Overdue(s, q, key, w);
    assert HeldOrLapsed(s, q, w);
    var s' := Next(s, a, h, w);
    assert key !in Evict(s.entries, s.clock, w);
    assert s'.procs[a.p].phase.Claimed? && s'.procs[q] == s.procs[q];
  }

  lemma ElseExclusive<S, J, E>(s: State<S, J, E>, a: Action<E>, h: Handlers<S, J, E>, w: Windows)
    requires Held(s, w) && Enabled(s, a) && !Overtakes(s, a, w)
    ensures Exclusive(Next(s, a, h, w))
  {
    var s' := Next(s, a, h, w);
    if a.ClaimStep? && s'.procs[a.p].InProgress() {
      forall q | q in s.procs && s.procs[q].InProgress()
        ensures s.procs[q].key != s.procs[a.p].key
      {
        assert HeldOrLapsed(s, q, w);
        assert !Overdue(s, q, s.procs[a.p].key, w);
      }
    }
  }

  lemma HeldThroughClaim<S, J, E>(s: State<S, J, E>, a: Action<E>, h: Handlers<S, J, E>, w: Windows, p: nat)
    requires Held(s, w) && Enabled(s, a) && !Overtakes(s, a, w) && a.ClaimStep?
    requires p in s.procs && s.procs[p].InProgress()
    ensures p in Next(s, a, h, w).procs && Next(s, a, h, w).procs[p] == s.procs[p] && HeldOrLapsed(Next(s, a, h, w), p, w)
  {
    assert HeldOrLapsed(s, p, w);
    assert !Overdue(s, p, s.procs[a.p].key, w);
  }

  lemma ElseHeld<S, J, E>(s: State<S, J, E>, a: Action<E>, h: Handlers<S, J, E>, w: Windows, p: nat)
    requires Held(s, w) && Enabled(s, a) && !Overtakes(s, a, w)
    requires p in Next(s, a, h, w).procs && Next(s, a, h, w).procs[p].InProgress()
    ensures HeldOrLapsed(Next(s, a, h, w), p, w)
  {
    if p in s.procs && s.procs[p].InProgress() {
      assert HeldOrLapsed(s, p, w);
      if a.ClaimStep? {
        HeldThroughClaim(s, a, h, w, p);
      }
    }
  }

  /**
   * From a state in which exclusion has held so far, one step keeps it exactly when the step is no
   * claim asked for while another delivery of the same key is overdue.
   */
  lemma OverlapIffOverdue<S, J, E>(s: State<S, J, E>, a: Action<E>, h: Handlers<S, J, E>, w: Windows)
    requires Held(s, w) && Enabled(s, a)
    ensures Exclusive(Next(s, a, h, w)) <==> !Overtakes(s, a, w)
    ensures !Overtakes(s, a, w) ==> Held(Next(s, a, h, w), w)
  {
    if Overtakes(s, a, w) {
      OvertakingOverlaps(s, a, h, w);
    } else {
      ElseExclusive(s, a, h, w);
      forall p | p in Next(s, a, h, w).procs && Next(s, a, h, w).procs[p].InProgress()
        ensures HeldOrLapsed(Next(s, a, h, w), p, w)
      {
        ElseHeld(s, a, h, w, p);
      }
    }
  }

  lemma {:induction false} ExclusiveRun<S, J, E>(s: State<S, J, E>, actions: seq<Action<E>>, h: Handlers<S, J, E>, w: Windows)
    requires Held(s, w) && AnyRun(s, actions, h, w)
    ensures AlwaysExclusive(s, actions, h, w) <==> NoneOvertakes(s, actions, h, w)
    decreases |actions|
  {
    if actions != [] {
      OverlapIffOverdue(s, actions[0], h, w);
      if !Overtakes(s, actions[0], w) {
        ExclusiveRun(Next(s, actions[0], h, w), actions[1..], h, w);
      }
    }
  }

  /**
   * Over every run with no bound on handler time: no two dispatches of one key are ever in progress
   * together exactly when no claim of the run is asked for while a delivery of its key is overdue.
   */
  lemma ExclusiveIffNoneOvertakes<S, J, E>(s0: State<S, J, E>, actions: seq<Action<E>>, h: Handlers<S, J, E>, w: Windows)
    requires Initial(s0) && AnyRun(s0, actions, h, w)
    ensures AlwaysExclusive(s0, actions, h, w) <==> NoneOvertakes(s0, actions, h, w)
  {
    ExclusiveRun(s0, actions, h, w);
  }

  /** Handlers that resolve in time are never overtaken. */
  lemma {:induction false} PromptIsNeverOvertaken<S, J, E>(s: State<S, J, E>, actions: seq<Action<E>>, h: Handlers<S, J, E>, w: Windows)
    requires PromptRun(s, actions, h, w)
    ensures AnyRun(s, actions, h, w) && NoneOvertakes(s, actions, h, w)
    decreases |actions|
  {
    if actions != [] {
      PromptIsNeverOvertaken(Next(s, actions[0], h, w), actions[1..], h, w);
    }
  }

  // ------------------------------------------------ once overtaken, no window protects the key

  lemma Unroll<S, J, E>(s: State<S, J, E>, a: Action<E>, rest: seq<Action<E>>, h: Handlers<S, J, E>, w: Windows)
    requires Enabled(s, a) && AnyRun(Next(s, a, h, w), rest, h, w)
    ensures AnyRun(s, [a] + rest, h, w) && After(s, [a] + rest, h, w) == After(Next(s, a, h, w), rest, h, w)
  {
    assert ([a] + rest)[1..] == rest;
  }

  /** Where one delivery stands after its claim, taken at `claimedAt`. */
  ghost predicate ClaimedAs<S, J, E>(s: State<S, J, E>, s': State<S, J, E>, p: nat, d: Delivery, h: Handlers<S, J, E>, w: Windows) {
    var (claimed, reply) := Admit(s.entries, d, w, true);
    && p in s'.procs && s'.procs[p].doc == d.doc && s'.procs[p].key == d.doc.MessageId()
    && s'.entries == claimed && s'.shared == s.shared && s'.clock == d.claimedAt
    && s'.procs[p].phase == (if reply.Some? then Answered(reply.value) else Claimed(d.claimedAt, h.begin(s.shared, d.doc)))
    && s'.log == (if reply.Some? then s.log else s.log + [Granted(d.doc.MessageId(), d.claimedAt)])
  }

  /** Deliveries of the eight mutating types take part, and no others. */
  lemma OnlyMutatingTypesTakePart<S, J, E>(s: State<S, J, E>, p: nat, doc: Document)
    requires p !in s.procs
    ensures Enabled(s, Action<E>.Arrive(p, doc)) <==>
      doc.slug in {"registry/record/create", "registry/record/update", "registry/record/delete", "registry/did/rotate",
                   "governance/capability/enable", "governance/capability/disable", "git-trust/grant", "git-trust/revoke"}
  {
  }

  lemma ClaimDecides<S, J, E>(s: State<S, J, E>, p: nat, d: Delivery, h: Handlers<S, J, E>, w: Windows)
    requires p in s.procs && s.clock == d.claimedAt && d.doc.IsWrite()
    requires s.procs[p] == Proc(d.doc, d.doc.MessageId(), Arrived(h.begin(s.shared, d.doc)))
    ensures ClaimedAs(s, Next(s, ClaimStep(p, d.responseId), h, w), p, d, h, w)
  {
  }

  lemma UndisturbedClaim<S, J, E>(s: State<S, J, E>, p: nat, d: Delivery, h: Handlers<S, J, E>, w: Windows)
    returns (actions: seq<Action<E>>)
    requires p !in s.procs && d.doc.IsWrite() && s.clock <= d.claimedAt
    ensures AnyRun(s, actions, h, w) && ClaimedAs(s, After(s, actions, h, w), p, d, h, w)
  {
    var s1 := Next(s, Tick(d.claimedAt), h, w);
    var s2 := Next(s1, Arrive(p, d.doc), h, w);
    ClaimDecides(s2, p, d, h, w);
    Unroll(s2, ClaimStep(p, d.responseId), [], h, w);
    Unroll(s1, Arrive(p, d.doc), [ClaimStep(p, d.responseId)], h, w);
    actions := [Tick(d.claimedAt)] + ([Arrive(p, d.doc)] + [ClaimStep(p, d.responseId)]);
    Unroll(s, Tick(d.claimedAt), [Arrive(p, d.doc)] + [ClaimStep(p, d.responseId)], h, w);
  }

  /**
   * One delivery taken through its steps with nothing in between does what dispatching it does: claim,
   * one handling, and then the outcome stored or the claim released, at the times those steps are taken.
   */
  lemma UndisturbedDelivery<S, J, E>(s: State<S, J, E>, p: nat, d: Delivery, env: E, h: Handlers<S, J, E>, w: Windows)
    returns (actions: seq<Action<E>>)
    requires p !in s.procs && d.doc.IsWrite() && s.clock <= d.claimedAt && d.InOrder()
    requires h.work(s.shared, h.begin(s.shared, d.doc), env, d.responseId, d.handledAt).1.Finish?
    ensures AnyRun(s, actions, h, w)
    ensures var s' := After(s, actions, h, w);
      var (claimed, reply) := Admit(s.entries, d, w, true);
      var (shared', progress) := h.work(s.shared, h.begin(s.shared, d.doc), env, d.responseId, d.handledAt);
      p in s'.procs && (if reply.Some? then s'.entries == claimed && s'.shared == s.shared && s'.procs[p].phase == Answered(reply.value)
        else s'.entries == Retire(claimed, d, progress.outcome, w, true) && s'.shared == shared'
             && s'.procs[p].phase == Answered(progress.outcome))
  {
    actions := UndisturbedClaim(s, p, d, h, w);
    var t := After(s, actions, h, w);
    if t.procs[p].phase.Claimed? {
      var rest := UndisturbedHandling(t, p, d, env, h, w);
      RunConcat(s, actions, rest, h, w);
      actions := actions + rest;
    }
  }

  lemma UndisturbedHandling<S, J, E>(s: State<S, J, E>, p: nat, d: Delivery, env: E, h: Handlers<S, J, E>, w: Windows)
    returns (actions: seq<Action<E>>)
    requires p in s.procs && s.procs[p].phase.Claimed? && s.clock == d.claimedAt && d.InOrder()
    requires d.doc.IsWrite() && s.procs[p].key == d.doc.MessageId()
    requires h.work(s.shared, s.procs[p].phase.job, env, d.responseId, d.handledAt).1.Finish?
    ensures AnyRun(s, actions, h, w)
    ensures var s' := After(s, actions, h, w);
      var (shared', progress) := h.work(s.shared, s.procs[p].phase.job, env, d.responseId, d.handledAt);
      && s'.entries == Retire(s.entries, d, progress.outcome, w, true) && s'.shared == shared'
      && p in s'.procs && s'.procs[p].phase == Answered(progress.outcome)
      && s'.log == s.log
           + [Worked(d.doc.MessageId(), s.procs[p].phase.job, env, d.responseId, d.handledAt, Some(progress.outcome))]
           + (if Cacheable(progress.outcome) then [Settled(d.doc.MessageId(), progress.outcome, d.resolvedAt)] else [])
  {
    var s1 := Next(s, Tick(d.handledAt), h, w);
    var s2 := Next(s1, WorkStep(p, d.responseId, env), h, w);
    var s3 := Next(s2, Tick(d.resolvedAt), h, w);
    var s4 := Next(s3, ResolveStep(p), h, w);
    Unroll(s3, ResolveStep(p), [], h, w);
    Unroll(s2, Tick(d.resolvedAt), [ResolveStep(p)], h, w);
    Unroll(s1, WorkStep(p, d.responseId, env), [Tick(d.resolvedAt)] + [ResolveStep(p)], h, w);
    actions := [Tick(d.handledAt)] + ([WorkStep(p, d.responseId, env)] + ([Tick(d.resolvedAt)] + [ResolveStep(p)]));
    Unroll(s, Tick(d.handledAt), actions[1..], h, w);
  }

  /** One copy claims, its window passes, a second copy is granted the key. */
  lemma SecondCopyOvertakes<S, J, E>(s0: State<S, J, E>, doc: Document, id: string, h: Handlers<S, J, E>, w: Windows)
    returns (actions: seq<Action<E>>)
    requires Initial(s0) && doc.IsWrite()
    ensures AnyRun(s0, actions, h, w)
    ensures var s := After(s0, actions, h, w);
      && 1 in s.procs && 2 in s.procs && s.procs.Keys == {1, 2}
      && s.procs[1] == Proc(doc, doc.MessageId(), Claimed(s0.clock, h.begin(s0.shared, doc)))
      && s.procs[2] == Proc(doc, doc.MessageId(), Claimed(s0.clock + w.inFlight, h.begin(s0.shared, doc)))
      && s.entries == map[doc.MessageId() := InFlight(s.clock)] && s.clock == s0.clock + w.inFlight
      && s.shared == s0.shared
  {
    var key := doc.MessageId();
    var s1 := Next(s0, Arrive(1, doc), h, w);
    var s2 := Next(s1, ClaimStep(1, id), h, w);
    assert s2.entries == map[key := InFlight(s0.clock)] || w.inFlight == 0;
    var s3 := Next(s2, Tick(s0.clock + w.inFlight), h, w);
    var s4 := Next(s3, Arrive(2, doc), h, w);
    assert Evict(s4.entries, s4.clock, w) == map[];
    var s5 := Next(s4, ClaimStep(2, id), h, w);
    Unroll(s4, ClaimStep(2, id), [], h, w);
    Unroll(s3, Arrive(2, doc), [ClaimStep(2, id)], h, w);
    Unroll(s2, Tick(s0.clock + w.inFlight), [Arrive(2, doc)] + [ClaimStep(2, id)], h, w);
    Unroll(s1, ClaimStep(1, id), [Tick(s0.clock + w.inFlight)] + ([Arrive(2, doc)] + [ClaimStep(2, id)]), h, w);
    actions := [Arrive(1, doc)]
      + ([ClaimStep(1, id)] + ([Tick(s0.clock + w.inFlight)] + ([Arrive(2, doc)] + [ClaimStep(2, id)])));
    Unroll(s0, Arrive(1, doc), actions[1..], h, w);
  }

  /**
   * The first copy then ends retryably and, its release naming no owner, deletes the second copy's
   * claim: with nothing overdue and exclusion holding again, a third copy is let in beside the second.
   */
  lemma OwnerlessReleaseLetsThirdIn<S, J, E>(s0: State<S, J, E>, doc: Document, id: string, env: E, o: Outcome,
                                             h: Handlers<S, J, E>, w: Windows) returns (actions: seq<Action<E>>)
    requires Initial(s0) && doc.IsWrite() && w.inFlight > 0 && !Cacheable(o)
    requires h.work(s0.shared, h.begin(s0.shared, doc), env, id, s0.clock + w.inFlight).1 == Finish(o)
    ensures AnyRun(s0, actions, h, w)
    ensures var s := After(s0, actions, h, w);
      && Exclusive(s) && !SomeOverdue(s, doc.MessageId(), w) && Enabled(s, ClaimStep(3, id))
      && s.procs[3].key == doc.MessageId() && !Exclusive(Next(s, ClaimStep(3, id), h, w))
  {
    var five := SecondCopyOvertakes(s0, doc, id, h, w);
    var s5 := After(s0, five, h, w);
    var s6 := Next(s5, WorkStep(1, id, env), h, w);
    var s7 := Next(s6, ResolveStep(1), h, w);
    var s8 := Next(s7, Arrive(3, doc), h, w);
    assert s8.entries == map[];
    var rest := [WorkStep(1, id, env)] + ([ResolveStep(1)] + [Arrive(3, doc)]);
    Unroll(s7, Arrive(3, doc), [], h, w);
    Unroll(s6, ResolveStep(1), [Arrive(3, doc)], h, w);
    Unroll(s5, WorkStep(1, id, env), [ResolveStep(1)] + [Arrive(3, doc)], h, w);
    actions := five + rest;
    RunConcat(s0, five, rest, h, w);
    var s9 := Next(s8, ClaimStep(3, id), h, w);
    assert s9.procs[3].InProgress() && s9.procs[2].InProgress();
  }

  lemma {:induction false} RunConcat<S, J, E>(s: State<S, J, E>, a: seq<Action<E>>, b: seq<Action<E>>, h: Handlers<S, J, E>, w: Windows)
    requires AnyRun(s, a, h, w) && AnyRun(After(s, a, h, w), b, h, w)
    ensures AnyRun(s, a + b, h, w) && After(s, a + b, h, w) == After(After(s, a, h, w), b, h, w)
    decreases |a|
  {
    if a == [] {
      assert a + b == b;
    } else {
      assert (a + b)[1..] == a[1..] + b;
      RunConcat(Next(s, a[0], h, w), a[1..], b, h, w);
    }
  }
}
