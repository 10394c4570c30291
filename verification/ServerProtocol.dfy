/**
 * The server's own handlers as jobs of the claim protocol: looked up on arrival, run one store
 * operation at a time, a revoke in two (trust-registry/src/trust_tasks, capabilities).
 */
module ServerProtocol {
  import opened Domain
  import opened Storage
  import opened Tasks
  import opened Dedup
  import opened Capabilities
  import opened GitTrust
  import opened Bindings
  import Redelivery
  import P = DedupProtocol

  /** What handlers share, besides the claim store. */
  datatype Core = Core(records: Records, live: Live)

  /** Whether the record store answers at all, and how a save ends. */
  datatype Env = Env(up: bool, saveEnd: SaveEnd)

  datatype Job =
    | Found(doc: Document, handler: Option<Handler>)
    | Updating(doc: Document, key: RecordKey, existing: TrustRecord)

  function Begin(s: Core, doc: Document): Job {
    Found(doc, if doc.slug in s.live.admin then Some(s.live.admin[doc.slug]) else None)
  }

  /** The message a job serves, as far as its handler looks at it. */
  function MessageOf(doc: Document, e: Env, id: string, now: int): Inbound {
    Inbound(Http, Redelivery.Delivery(doc, id, now, now, now), true, e.saveEnd, None)
  }

  predicate UsesStore(h: Handler) {
    h.RecordHandler? || h.GrantHandler? || h.RevokeHandler?
  }

  /** A revoke's first operation: read the record, and stop there or go on to update it. */
  ghost function ReadForRevoke(s: Core, authority: string, doc: Document, id: string): P.Progress<Job>
    requires doc.payload.GitPayload?
  {
    var key := TupleKey(authority, doc.payload.subject, doc.payload.repo);
    var found := Step(s.records, Read(key)).1;
    if found.Failed? then P.Finish(ReadRejection(doc, id, found.error)) else P.Continue(Job.Updating(doc, key, found.found))
  }

  ghost function Work(s: Core, job: Job, e: Env, id: string, now: int): (Core, P.Progress<Job>) {
    match job
    case Updating(doc, key, existing) =>
      if !e.up || !doc.payload.GitPayload? then (s, P.Finish(RejectWith(doc, id, InternalError)))
      else
        var (m, answer) := Step(s.records, Update(RevokedRecord(key, existing)));
        (s.(records := m), P.Finish(RevokeOutcome(doc, id, answer)))
    case Found(doc, None) => (s, P.Finish(RejectWith(doc, id, UnsupportedType)))
    case Found(doc, Some(h)) =>
      if !Parses(h, doc) then (s, P.Finish(RejectWith(doc, id, MalformedRequest)))
      else if UsesStore(h) && !e.up then (s, P.Finish(RejectWith(doc, id, InternalError)))
      else if h.RevokeHandler? && h.authority.Some? then (s, ReadForRevoke(s, h.authority.value, doc, id))
      else
        var (r, o) := Invoke(h, Registry(s.records, s.live, map[], 0), MessageOf(doc, e, id, now));
        (Core(r.records, r.live), P.Finish(o))
  }

  ghost function ServerHandlers(): P.Handlers<Core, Job, Env> {
    P.Handlers((s, doc) => Begin(s, doc), (s, job, e, id, now) => Work(s, job, e, id, now))
  }

  /** A job taken through its steps with nothing in between. */
  ghost function Undisturbed(s: Core, job: Job, e: Env, id: string, now: int): (Core, Outcome)
    decreases if job.Found? then 1 else 0
  {
    var (s', progress) := Work(s, job, e, id, now);
    match progress
    case Finish(o) => (s', o)
    case Continue(next) => Undisturbed(s', next, e, id, now)
  }

  /** With the store answering, that is what serving the document over the admin dispatcher does. */
  lemma UndisturbedJobServes(s: Core, doc: Document, e: Env, id: string, now: int)
    requires e.up
    ensures var (s', o) := Undisturbed(s, Begin(s, doc), e, id, now);
      var (r, answer) := ServeOver(s.live.admin, Registry(s.records, s.live, map[], 0), MessageOf(doc, e, id, now));
      s' == Core(r.records, r.live) && o == answer
  {
    if doc.slug in s.live.admin {
      UndisturbedInvokes(s, s.live.admin[doc.slug], doc, e, id, now);
    }
  }

  lemma UndisturbedInvokes(s: Core, h: Handler, doc: Document, e: Env, id: string, now: int)
    requires e.up
    ensures var (s', o) := Undisturbed(s, Found(doc, Some(h)), e, id, now);
      var (r, answer) := Invoke(h, Registry(s.records, s.live, map[], 0), MessageOf(doc, e, id, now));
      s' == Core(r.records, r.live) && o == answer
  {
  }

  /** A store that does not answer costs a retryable rejection and changes nothing. */
  lemma StoreDownChangesNothing(s: Core, job: Job, e: Env, id: string, now: int)
    requires !e.up && (job.Updating? || (job.handler.Some? && Parses(job.handler.value, job.doc)
      && (job.handler.value.RecordHandler? || job.handler.value.GrantHandler? || job.handler.value.RevokeHandler?)))
    ensures Work(s, job, e, id, now) == (s, P.Finish(RejectWith(job.doc, id, InternalError)))
    ensures !Cacheable(RejectWith(job.doc, id, InternalError))
  {
  }

  /**
   * A revoke reads in one step and writes in another: whatever has become of the store in between, the
   * record is overwritten by what was read, with authorization withdrawn; if it is gone, a retry is due.
   */
  lemma RevokeReadsThenWrites(s: Core, between: Core, doc: Document, authority: string, e: Env, id: string, now: int)
    requires e.up && doc.payload.GitPayload?
    ensures var key := RecordKey(authority, "git.commit.sign", doc.payload.repo, doc.payload.subject);
      Work(s, Found(doc, Some(RevokeHandler(Some(authority)))), e, id, now) == (s,
        if key in s.records then P.Continue(Job.Updating(doc, key, s.records[key]))
        else P.Finish(Rejected(id, doc.id, TaskFailed("not_granted"), false)))
    ensures var key := RecordKey(authority, "git.commit.sign", doc.payload.repo, doc.payload.subject);
      key in s.records ==>
        Work(between, Job.Updating(doc, key, s.records[key]), e, id, now) ==
          if key in between.records then
            (between.(records := between.records[key := TrustRecord(doc.payload.subject, authority, "git.commit.sign",
                doc.payload.repo, Some(s.records[key].recognized == Some(true)), Some(false), s.records[key].context,
                Authorization)]),
             P.Finish(Completed(id, doc.id, GitBody(doc.payload.subject, doc.payload.repo, false))))
          else (between, P.Finish(Rejected(id, doc.id, InternalError, true)))
  {
  }

  /**
   * On the server, in every interleaving of any deliveries of any write types, with store outages and
   * failed saves anywhere, handlers resolving in time: within one window, once a dispatch of a key has
   * ended in an answer to keep, no store operation and no save is made for that key again.
   */
  lemma ServerWritesHappenOnce(s0: P.State<Core, Job, Env>, actions: seq<P.Action<Env>>, w: Windows)
    requires P.Initial(s0) && P.PromptRun(s0, actions, ServerHandlers(), w)
    requires P.Final(s0, actions, ServerHandlers(), w).clock < s0.clock + w.ttl
    ensures var s := P.Final(s0, actions, ServerHandlers(), w);
      && P.Exclusive(s) && P.DoneOnce(s.log) && s.shared == P.Replayed(s0.shared, s.log, ServerHandlers())
      && (forall p :: p in s.procs && P.AnsweredForGood(s.procs[p]) ==>
            P.AppliedAs(s.log, s.procs[p].key, s.procs[p].phase.answer))
  {
    P.MutualExclusionAndQuiet(s0, actions, ServerHandlers(), w);
    P.ExactlyOnceWithinWindow(s0, actions, ServerHandlers(), w);
  }
}
