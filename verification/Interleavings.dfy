/**
 * Messages of all three bindings handled at once: each is checked and given its handler on arrival, and
 * then works on the shared state one store operation at a time (trust-registry/src/tsp,
 * didcomm/handlers/trust_tasks, http/handlers/trust_tasks).
 */
module Interleavings {
  import opened Domain
  import opened Storage
  import opened Tasks
  import opened Capabilities
  import opened GitTrust
  import opened Bindings
  import opened BindingRuns
  import opened Answers
  import opened Dedup
  import opened ServerProtocol
  import Redelivery
  import P = DedupProtocol

  datatype Phase = Working(job: Job) | Answered(outcome: Outcome)

  /** `say` remembers whether the message had a say when it arrived. */
  datatype Proc = Proc(message: Inbound, say: bool, phase: Phase)

  datatype State = State(core: Core, rotations: nat, procs: map<nat, Proc>)

  /** `Replied` stands for a claim that replays or refuses: the message is answered without working. */
  datatype Action =
    | Arrive(p: nat, message: Inbound)
    | WorkStep(p: nat, env: Env, id: string, now: int)
    | Replied(p: nat, outcome: Outcome)

  ghost predicate Enabled(s: State, a: Action) {
    match a
    case Arrive(p, _) => p !in s.procs
    case WorkStep(p, _, _, _) => p in s.procs && s.procs[p].phase.Working?
    case Replied(p, _) => p in s.procs && s.procs[p].phase.Working?
  }

  function RegistryOf(core: Core): Registry {
    Registry(core.records, core.live, map[], 0)
  }

  /** The handler is looked up on arrival, in the dispatcher of the message's transport. */
  function BeginOver(core: Core, i: Inbound): Job {
    var d := if i.transport.Http? then core.live.query else core.live.admin;
    Found(i.Doc(), if i.Doc().slug in d then Some(d[i.Doc().slug]) else None)
  }

  function Arrived(policy: Policy, core: Core, i: Inbound): Phase {
    var refusal := Refusal(policy, i);
    if refusal.Some? then Answered(RejectWith(i.Doc(), i.delivery.responseId, refusal.value))
    else if RotatesDirectly(i) then Answered(Rotation(policy, i))
    else Working(BeginOver(core, i))
  }

  predicate AsksOnArrival(policy: Policy, i: Inbound) {
    Refusal(policy, i).None? && AsksRotation(policy, i)
  }

  ghost function Next(policy: Policy, s: State, a: Action): State
    requires Enabled(s, a)
  {
    match a
    case Arrive(p, i) =>
      s.(procs := s.procs[p := Proc(i, HasSay(policy, RegistryOf(s.core), i), Arrived(policy, s.core, i))],
         rotations := s.rotations + if AsksOnArrival(policy, i) then 1 else 0)
    case WorkStep(p, env, id, now) =>
      var (core', progress) := Work(s.core, s.procs[p].phase.job, env, id, now);
      s.(core := core', procs := s.procs[p := s.procs[p].(phase :=
        if progress.Finish? then Answered(progress.outcome) else Working(progress.job))])
    case Replied(p, o) => s.(procs := s.procs[p := s.procs[p].(phase := Answered(o))])
  }

  ghost predicate Run(policy: Policy, s: State, actions: seq<Action>)
    decreases |actions|
  {
    actions != [] ==> Enabled(s, actions[0]) && Run(policy, Next(policy, s, actions[0]), actions[1..])
  }

  ghost function Final(policy: Policy, s: State, actions: seq<Action>): State
    requires Run(policy, s, actions)
    decreases |actions|
  {
    if actions == [] then s else Final(policy, Next(policy, s, actions[0]), actions[1..])
  }

  // ---------------------------------------------------------------- jobs without a say

  /** A job that cannot change anything whenever it runs: a read, or a git-trust handler with no authority. */
  predicate Harmless(job: Job) {
    job.Found? &&
    match job.handler
    case None => true
    case Some(h) =>
      (RoutesTo(job.doc.slug, h) && !job.doc.IsWrite()) || ((h.GrantHandler? || h.RevokeHandler?) && h.authority.None?)
  }

  lemma HarmlessWork(core: Core, job: Job, env: Env, id: string, now: int)
    requires Harmless(job)
    ensures Work(core, job, env, id, now).0 == core && Work(core, job, env, id, now).1.Finish?
  {
    if job.handler.Some? && RoutesTo(job.doc.slug, job.handler.value) && !job.doc.IsWrite() {
      ReadOnlyHandlers(job.handler.value, RegistryOf(core), MessageOf(job.doc, env, id, now));
    }
  }

  lemma WorkStaysCoherent(core: Core, job: Job, env: Env, id: string, now: int)
    requires Coherent(core.live)
    ensures Coherent(Work(core, job, env, id, now).0.live)
  {
    if job.Found? && job.handler.Some? {
      InvokeStaysCoherent(job.handler.value, RegistryOf(core), MessageOf(job.doc, env, id, now));
    }
  }

  /** A message without a say is refused, or is given a harmless job, and asks for no rotation. */
  lemma WithoutSay(policy: Policy, core: Core, i: Inbound)
    requires Coherent(core.live) && !HasSay(policy, RegistryOf(core), i)
    ensures Arrived(policy, core, i).Working? ==> Harmless(Arrived(policy, core, i).job)
    ensures !AsksOnArrival(policy, i)
  {
    if i.transport.Http? {
      QuerySurface(core.live, i.Doc().slug);
      CoherentWellRouted(core.live);
    } else {
      CoherentWellRouted(core.live);
      if i.Doc().IsWrite() {
        RefusedIffNotAdmitted(policy, i);
      }
    }
  }

  ghost predicate Inv(s: State) {
    && Coherent(s.core.live)
    && forall p :: p in s.procs && !s.procs[p].say && s.procs[p].phase.Working? ==> Harmless(s.procs[p].phase.job)
  }

  lemma InvStep(policy: Policy, s: State, a: Action)
    requires Inv(s) && Enabled(s, a)
    ensures Inv(Next(policy, s, a))
  {
    if a.Arrive? {
      if !HasSay(policy, RegistryOf(s.core), a.message) {
        WithoutSay(policy, s.core, a.message);
      }
    } else if a.WorkStep? {
      WorkStaysCoherent(s.core, s.procs[a.p].phase.job, a.env, a.id, a.now);
      if !s.procs[a.p].say {
        HarmlessWork(s.core, s.procs[a.p].phase.job, a.env, a.id, a.now);
      }
    }
  }

  // ---------------------------------------------------------------- erasing them from a run

  /** The step belongs to a message with a say. */
  ghost predicate Counts(policy: Policy, s: State, a: Action)
    requires Enabled(s, a)
  {
    if a.Arrive? then HasSay(policy, RegistryOf(s.core), a.message) else s.procs[a.p].say
  }

  ghost function Erased(policy: Policy, s: State, actions: seq<Action>): seq<Action>
    requires Run(policy, s, actions)
    decreases |actions|
  {
    if actions == [] then []
    else
      (if Counts(policy, s, actions[0]) then [actions[0]] else [])
        + Erased(policy, Next(policy, s, actions[0]), actions[1..])
  }

  /** The same shared state, and just the messages with a say, at the same point. */
  ghost predicate Mirrors(full: State, bare: State) {
    && full.core == bare.core && full.rotations == bare.rotations
    && bare.procs == map p | p in full.procs && full.procs[p].say :: full.procs[p]
  }

  lemma CountingStep(policy: Policy, full: State, bare: State, a: Action)
    requires Mirrors(full, bare) && Enabled(full, a) && Counts(policy, full, a)
    ensures Enabled(bare, a) && Mirrors(Next(policy, full, a), Next(policy, bare, a))
  {
    var full', bare' := Next(policy, full, a), Next(policy, bare, a);
    assert bare'.procs == map p | p in full'.procs && full'.procs[p].say :: full'.procs[p];
  }

  lemma OtherStep(policy: Policy, full: State, bare: State, a: Action)
    requires Inv(full) && Mirrors(full, bare) && Enabled(full, a) && !Counts(policy, full, a)
    ensures Mirrors(Next(policy, full, a), bare)
  {
    if a.Arrive? {
      WithoutSay(policy, full.core, a.message);
    } else if a.WorkStep? {
      HarmlessWork(full.core, full.procs[a.p].phase.job, a.env, a.id, a.now);
    }
    var full' := Next(policy, full, a);
    assert bare.procs == map p | p in full'.procs && full'.procs[p].say :: full'.procs[p];
  }

  /**
   * In every interleaving, strike out every step of every message but the admitted writes and the
   * git-trust documents posted while git-trust was on: what is left is a run, ending in the same
   * records, capability state, dispatchers and rotations, with the same answers.
   */
  lemma {:induction false} OthersAreInvisible(policy: Policy, full: State, bare: State, actions: seq<Action>)
    requires Inv(full) && Mirrors(full, bare) && Run(policy, full, actions)
    ensures Run(policy, bare, Erased(policy, full, actions))
    ensures Mirrors(Final(policy, full, actions), Final(policy, bare, Erased(policy, full, actions)))
    decreases |actions|
  {
    if actions != [] {
      var a, rest := actions[0], actions[1..];
      var full' := Next(policy, full, a);
      InvStep(policy, full, a);
      var erased := Erased(policy, full', rest);
      if Counts(policy, full, a) {
        CountingStep(policy, full, bare, a);
        OthersAreInvisible(policy, full', Next(policy, bare, a), rest);
        assert ([a] + erased)[1..] == erased;
      } else {
        OtherStep(policy, full, bare, a);
        OthersAreInvisible(policy, full', bare, rest);
        assert [] + erased == erased;
      }
    }
  }

  /** From any start, with nothing in progress. */
  lemma FromStartOthersAreInvisible(policy: Policy, records: Records, saved: States, actions: seq<Action>)
    requires Run(policy, State(Core(records, Started(ServerHost(), saved)), 0, map[]), actions)
    ensures var s0 := State(Core(records, Started(ServerHost(), saved)), 0, map[]);
      && Run(policy, s0, Erased(policy, s0, actions))
      && Mirrors(Final(policy, s0, actions), Final(policy, s0, Erased(policy, s0, actions)))
  {
    StartsCoherent(saved);
    var s0 := State(Core(records, Started(ServerHost(), saved)), 0, map[]);
    OthersAreInvisible(policy, s0, s0, actions);
  }

  // ---------------------------------------------------------------- the handler is the one found on arrival

  lemma Unroll(policy: Policy, s: State, a: Action, rest: seq<Action>)
    requires Enabled(s, a) && Run(policy, Next(policy, s, a), rest)
    ensures Run(policy, s, [a] + rest)
    ensures Final(policy, s, [a] + rest) == Final(policy, Next(policy, s, a), rest)
  {
    assert ([a] + rest)[1..] == rest;
  }

  /** A git-trust job found while git-trust was on works whatever has become of git-trust since. */
  lemma FoundJobOutlivesDisable(policy: Policy, s: State, p: nat, doc: Document, authority: string, env: Env, id: string, now: int)
    requires p in s.procs && s.procs[p].phase == Working(Found(doc, Some(GrantHandler(Some(authority)))))
    requires doc.payload.GitPayload? && env.up && TupleKey(authority, doc.payload.subject, doc.payload.repo) !in s.core.records
    ensures var key := TupleKey(authority, doc.payload.subject, doc.payload.repo);
      Next(policy, s, WorkStep(p, env, id, now)).core == s.core.(records := s.core.records[key := GrantRecord(key)])
  {
  }

  /**
   * A grant posted while git-trust is on is recorded after git-trust has been disabled and the
   * disabling saved: the say a message has is the one it had when it arrived.
   */
  lemma PostedGrantLandsAfterDisable(policy: Policy, s0: State, grant: Inbound, off: Inbound, env: Env, id: string, now: int)
    requires Coherent(s0.core.live) && s0.core.live.states == s0.core.live.saved && s0.procs == map[]
    requires PostedGitWrite(policy, RegistryOf(s0.core), grant) && grant.Doc().slug == GIT_GRANT
    requires grant.Doc().payload.GitPayload? && TupleOf(RegistryOf(s0.core), grant.Doc()) !in s0.core.records
    requires AdmittedWrite(policy, off) && off.Doc().slug == CAPABILITY_DISABLE && off.Doc().payload == DisablePayload(NAME)
    requires env.up && env.saveEnd.SaveDone?
    ensures var actions := [Arrive(1, grant)] + ([Arrive(2, off)] + ([WorkStep(2, env, id, now)] + [WorkStep(1, env, id, now)]));
      && Run(policy, s0, actions)
      && !GitOn(Final(policy, s0, actions).core.live.saved)
      && TupleOf(RegistryOf(s0.core), grant.Doc()) in Final(policy, s0, actions).core.records
  {
    var s1 := Next(policy, s0, Arrive(1, grant));
    QuerySurface(s0.core.live, GIT_GRANT);
    var authority := AuthorityOf(s0.core.live.saved[NAME]).value;
    assert s1.procs[1].phase == Working(Found(grant.Doc(), Some(GrantHandler(Some(authority)))));
    var s2 := Next(policy, s1, Arrive(2, off));
    RefusedIffNotAdmitted(policy, off);
    AdminDisables(s0.core.live);
    assert s2.procs[2].phase == Working(Found(off.Doc(), Some(DisableHandler)));
    var s3 := Next(policy, s2, WorkStep(2, env, id, now));
    DisableWorks(s2.core, off.Doc(), env, id, now);
    FoundJobOutlivesDisable(policy, s3, 1, grant.Doc(), authority, env, id, now);
    Unroll(policy, s3, WorkStep(1, env, id, now), []);
    Unroll(policy, s2, WorkStep(2, env, id, now), [WorkStep(1, env, id, now)]);
    Unroll(policy, s1, Arrive(2, off), [WorkStep(2, env, id, now)] + [WorkStep(1, env, id, now)]);
    Unroll(policy, s0, Arrive(1, grant), [Arrive(2, off)] + ([WorkStep(2, env, id, now)] + [WorkStep(1, env, id, now)]));
  }

  lemma AdminDisables(live: Live)
    requires Coherent(live)
    ensures CAPABILITY_DISABLE in live.admin && live.admin[CAPABILITY_DISABLE] == DisableHandler
  {
    ComposedOf(live.saved);
    GitPartOnly(BASE + Governance(true), live.saved, CAPABILITY_DISABLE);
  }

  lemma DisableWorks(core: Core, doc: Document, env: Env, id: string, now: int)
    requires Coherent(core.live) && core.live.states == core.live.saved && IsOn(core.live.saved, NAME)
    requires doc.payload == DisablePayload(NAME) && env.saveEnd.SaveDone?
    ensures var core' := Work(core, Found(doc, Some(DisableHandler)), env, id, now).0;
      core'.records == core.records && !IsOn(core'.live.saved, NAME)
  {
  }

  // ---------------------------------------------------------------- one message alone

  /** A handler looks at the document, the response id, the time, the stores and how a save ends, and at nothing else. */
  lemma InvokeLooksAt(h: Handler, s: Registry, i: Inbound, core: Core, j: Inbound)
    requires s.records == core.records && s.live == core.live && i.Doc() == j.Doc() && i.saveEnd == j.saveEnd
    requires i.delivery.responseId == j.delivery.responseId && i.delivery.handledAt == j.delivery.handledAt
    ensures var (s', o) := Invoke(h, s, i);
      var (r, answer) := Invoke(h, RegistryOf(core), j);
      s'.records == r.records && s'.live == r.live && o == answer
  {
  }

  function EnvOf(i: Inbound): Env {
    Env(true, i.saveEnd)
  }

  /** The rest of a message that is working, with nothing in between: one step, or two for a revoke. */
  lemma UndisturbedWork(policy: Policy, s: State, p: nat, i: Inbound) returns (actions: seq<Action>)
    requires p in s.procs && s.procs[p].phase.Working?
    ensures Run(policy, s, actions)
    ensures var t := Final(policy, s, actions);
      var (core, o) := Undisturbed(s.core, s.procs[p].phase.job, EnvOf(i), i.delivery.responseId, i.delivery.handledAt);
      t.core == core && t.rotations == s.rotations && p in t.procs && t.procs[p].phase == Answered(o)
  {
    var step := WorkStep(p, EnvOf(i), i.delivery.responseId, i.delivery.handledAt);
    var s1 := Next(policy, s, step);
    actions := [];
    if s1.procs[p].phase.Working? {
      var s2 := Next(policy, s1, step);
      Unroll(policy, s1, step, []);
      actions := [step] + [];
    }
    Unroll(policy, s, step, actions);
    actions := [step] + actions;
  }

  /** Serving over a surface, taken through the steps of the job found in it. */
  lemma UndisturbedServing(core: Core, i: Inbound, s: Registry)
    requires s.records == core.records && s.live == core.live
    ensures var (after, o) := Undisturbed(core, BeginOver(core, i), EnvOf(i), i.delivery.responseId, i.delivery.handledAt);
      var (s', answer) := ServeOver(if i.transport.Http? then core.live.query else core.live.admin, s, i);
      after == Core(s'.records, s'.live) && o == answer
  {
    var d := if i.transport.Http? then core.live.query else core.live.admin;
    if i.Doc().slug in d {
      var h := d[i.Doc().slug];
      UndisturbedInvokes(core, h, i.Doc(), EnvOf(i), i.delivery.responseId, i.delivery.handledAt);
      InvokeLooksAt(h, s, i, core, MessageOf(i.Doc(), EnvOf(i), i.delivery.responseId, i.delivery.handledAt));
    }
  }

  /** A message whose claim is free, alone: its steps do to stores, capabilities and rotations what receiving it does. */
  lemma UndisturbedMessage(policy: Policy, s: State, p: nat, i: Inbound, entries: Entries, w: Windows)
    returns (actions: seq<Action>)
    requires p !in s.procs && ClaimFree(Registry(s.core.records, s.core.live, entries, s.rotations), i, w)
    ensures Run(policy, s, actions)
    ensures var t := Final(policy, s, actions);
      var (r, o) := Receive(policy, Registry(s.core.records, s.core.live, entries, s.rotations), i, w);
      t.core == Core(r.records, r.live) && t.rotations == r.rotations && p in t.procs && t.procs[p].phase == Answered(o)
  {
    var before := Registry(s.core.records, s.core.live, entries, s.rotations);
    var s1 := Next(policy, s, Arrive(p, i));
    actions := [];
    if s1.procs[p].phase.Working? {
      actions := UndisturbedWork(policy, s1, p, i);
      if i.transport.Http? {
        UndisturbedServing(s.core, i, before);
      } else {
        var claimed := Redelivery.Admit(entries, i.delivery, w, i.storeUp).0;
        UndisturbedServing(s.core, i, before.(entries := claimed));
        ServeKeeps(s.core.live.admin, before.(entries := claimed), i);
      }
    }
    Unroll(policy, s, Arrive(p, i), actions);
    actions := [Arrive(p, i)] + actions;
  }

  lemma ServeKeeps(d: Dispatcher, s: Registry, i: Inbound)
    ensures ServeOver(d, s, i).0.rotations == s.rotations
  {
  }
}
