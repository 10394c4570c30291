/** The `git-trust` capability (trust-registry/src/capabilities/git_trust.rs). */
module GitTrust {
  import opened Domain
  import opened Storage
  import opened Tasks
  import opened Capabilities
  import Runs = CapabilityRuns

  const NAME := "git-trust"
  const ACTION := "git.commit.sign"

  predicate IsDid(s: string) {
    "did:" <= s
  }

  /** The `authority` member, when the config is an object that has one. */
  function AuthorityMember(config: Json): Option<Json> {
    if config.Obj? && "authority" in config.fields then Some(config.fields["authority"]) else None
  }

  /** The enable-time config check. */
  predicate ValidConfig(config: Json) {
    var member := AuthorityMember(config);
    member.Some? && member.value.Str? && IsDid(member.value.s)
  }

  /** `authority_of`. */
  function AuthorityOf(entry: CapabilityState): Option<string> {
    match entry.config
    case None => None
    case Some(config) =>
      match AuthorityMember(config)
      case Some(Str(did)) => if IsDid(did) then Some(did) else None
      case _ => None
  }

  function Contribute(entry: CapabilityState): Dispatcher {
    map[GIT_GRANT := GrantHandler(AuthorityOf(entry)), GIT_REVOKE := RevokeHandler(AuthorityOf(entry))]
  }

  /** The members that name the manifest. */
  const MANIFEST := Obj(map["capability" := Str(NAME), "version" := Str("0.1")])

  function GitDefinition(): Definition {
    Definition(NAME, MANIFEST, Some(config => ValidConfig(config)), entry => Contribute(entry))
  }

  /** What enabling validates is precisely what the handlers later need. */
  lemma ValidatedIffAuthority(entry: CapabilityState)
    ensures ConfigAccepted(GitDefinition(), entry.config) <==> AuthorityOf(entry).Some?
  {
  }

  // ---------------------------------------------------------------- handlers

  function TupleKey(authority: string, subject: string, repo: string): RecordKey {
    RecordKey(authority, ACTION, repo, subject)
  }

  function GrantRecord(key: RecordKey): TrustRecord {
    TrustRecord(key.entityId, key.authorityId, key.action, key.resource, Some(true), Some(true), EMPTY_OBJECT, Authorization)
  }

  /** Revoking keeps recognition and context and takes authorization away. */
  function RevokedRecord(key: RecordKey, existing: TrustRecord): TrustRecord {
    TrustRecord(key.entityId, key.authorityId, key.action, key.resource,
      Some(existing.IsRecognized()), Some(false), existing.context, Authorization)
  }

  function GrantOutcome(doc: Document, id: string, answer: Answer): Outcome
    requires doc.payload.GitPayload?
  {
    match answer
    case Failed(RecordAlreadyExists) => RejectWith(doc, id, TaskFailed("already_granted"))
    case Failed(_) => RejectWith(doc, id, InternalError)
    case _ => RespondWith(doc, id, GitBody(doc.payload.subject, doc.payload.repo, true))
  }

  function ReadRejection(doc: Document, id: string, error: RepoError): Outcome {
    RejectWith(doc, id, if error.RecordNotFound? then TaskFailed("not_granted") else InternalError)
  }

  function RevokeOutcome(doc: Document, id: string, answer: Answer): Outcome
    requires doc.payload.GitPayload?
  {
    if answer.Failed? then RejectWith(doc, id, InternalError)
    else RespondWith(doc, id, GitBody(doc.payload.subject, doc.payload.repo, false))
  }

  ghost function Grant(m: Records, authority: Option<string>, doc: Document, id: string): (Records, Outcome)
    requires doc.payload.GitPayload?
  {
    if authority.None? then (m, RejectWith(doc, id, InternalError))
    else
      var key := TupleKey(authority.value, doc.payload.subject, doc.payload.repo);
      var (m', answer) := Step(m, Create(GrantRecord(key)));
      (m', GrantOutcome(doc, id, answer))
  }

  ghost function Revoke(m: Records, authority: Option<string>, doc: Document, id: string): (Records, Outcome)
    requires doc.payload.GitPayload?
  {
    if authority.None? then (m, RejectWith(doc, id, InternalError))
    else
      var key := TupleKey(authority.value, doc.payload.subject, doc.payload.repo);
      var found := Step(m, Read(key)).1;
      if found.Failed? then (m, ReadRejection(doc, id, found.error))
      else
        var (m', answer) := Step(m, Update(RevokedRecord(key, found.found)));
        (m', RevokeOutcome(doc, id, answer))
  }

  method HandleGrant(repository: LocalStorage, authority: Option<string>, doc: Document, id: string)
    returns (outcome: Outcome)
    requires repository.Valid() && doc.payload.GitPayload?
    modifies repository
    ensures repository.Valid()
    ensures (repository.records, outcome) == Grant(old(repository.records), authority, doc, id)
  {
    if authority.None? {
      return RejectWith(doc, id, InternalError);
    }
    var key := TupleKey(authority.value, doc.payload.subject, doc.payload.repo);
    var answer := repository.CreateRecord(GrantRecord(key));
    outcome := GrantOutcome(doc, id, answer);
  }

  method HandleRevoke(repository: LocalStorage, authority: Option<string>, doc: Document, id: string)
    returns (outcome: Outcome)
    requires repository.Valid() && doc.payload.GitPayload?
    modifies repository
    ensures repository.Valid()
    ensures (repository.records, outcome) == Revoke(old(repository.records), authority, doc, id)
  {
    if authority.None? {
      return RejectWith(doc, id, InternalError);
    }
    var key := TupleKey(authority.value, doc.payload.subject, doc.payload.repo);
    var existing := repository.ReadRecord(key);
    if existing.Failed? {
      return ReadRejection(doc, id, existing.error);
    }
    var answer := repository.UpdateRecord(RevokedRecord(key, existing.found));
    outcome := RevokeOutcome(doc, id, answer);
  }

  // ------------------------------------------------ interleaved grants and revokes

  /** What a grant or a revoke asks for, under the authority configured when it is asked. */
  datatype Tuple = Tuple(authority: string, subject: string, repo: string) {
    function Key(): RecordKey {
      TupleKey(authority, subject, repo)
    }
  }

  /** A grant is one store operation; a revoke reads, and later updates from what it read. */
  datatype Proc =
    | Granting(tuple: Tuple)
    | Revoking(tuple: Tuple)
    | Updating(tuple: Tuple, existing: TrustRecord)
    | Finished(tuple: Tuple, succeeded: bool)

  /** `granted` and `revoked` collect what some request has succeeded for. */
  datatype System = System(
    records: Records,
    authority: Option<string>,
    procs: map<nat, Proc>,
    granted: set<Tuple>,
    revoked: set<Tuple>)

  datatype Action =
    | Reconfigure(newAuthority: Option<string>)
    | AskGrant(p: nat, subject: string, repo: string)
    | AskRevoke(p: nat, subject: string, repo: string)
    | GrantStep(p: nat)
    | RevokeRead(p: nat)
    | RevokeUpdate(p: nat)

  ghost predicate Enabled(s: System, a: Action) {
    match a
    case Reconfigure(_) => true
    case AskGrant(p, _, _) => p !in s.procs && s.authority.Some?
    case AskRevoke(p, _, _) => p !in s.procs && s.authority.Some?
    case GrantStep(p) => p in s.procs && s.procs[p].Granting?
    case RevokeRead(p) => p in s.procs && s.procs[p].Revoking?
    case RevokeUpdate(p) => p in s.procs && s.procs[p].Updating?
  }

  ghost function Next(s: System, a: Action): System
    requires Enabled(s, a)
  {
    match a
    case Reconfigure(authority) => s.(authority := authority)
    case AskGrant(p, subject, repo) =>
      s.(procs := s.procs[p := Granting(Tuple(s.authority.value, subject, repo))])
    case AskRevoke(p, subject, repo) =>
      s.(procs := s.procs[p := Revoking(Tuple(s.authority.value, subject, repo))])
    case GrantStep(p) =>
      var tuple := s.procs[p].tuple;
      var (records', answer) := Step(s.records, Create(GrantRecord(tuple.Key())));
      s.(records := records', procs := s.procs[p := Finished(tuple, answer.Done?)],
         granted := if answer.Done? then s.granted + {tuple} else s.granted)
    case RevokeRead(p) =>
      var tuple := s.procs[p].tuple;
      var answer := Step(s.records, Read(tuple.Key())).1;
      s.(procs := s.procs[p := if answer.One? then Updating(tuple, answer.found) else Finished(tuple, false)])
    case RevokeUpdate(p) =>
      var tuple := s.procs[p].tuple;
      var (records', answer) := Step(s.records, Update(RevokedRecord(tuple.Key(), s.procs[p].existing)));
      s.(records := records', procs := s.procs[p := Finished(tuple, answer.Done?)],
         revoked := if answer.Done? then s.revoked + {tuple} else s.revoked)
  }

  ghost predicate Run(s: System, actions: seq<Action>)
    decreases |actions|
  {
    actions != [] ==> Enabled(s, actions[0]) && Run(Next(s, actions[0]), actions[1..])
  }

  ghost function Final(s: System, actions: seq<Action>): System
    requires Run(s, actions)
    decreases |actions|
  {
    if actions == [] then s else Final(Next(s, actions[0]), actions[1..])
  }

  /** absent, then authorized, then unauthorized. */
  ghost function Rank(m: Records, key: RecordKey): nat {
    if key !in m then 0 else if m[key].IsAuthorized() then 1 else 2
  }

  lemma RankStep(s: System, a: Action, key: RecordKey)
    requires Enabled(s, a)
    ensures Rank(s.records, key) <= Rank(Next(s, a).records, key)
  {
  }

  /** In every interleaving, from any store, a tuple never moves back. */
  lemma {:induction false} TuplesNeverMoveBack(s: System, actions: seq<Action>, key: RecordKey)
    requires Run(s, actions)
    ensures Rank(s.records, key) <= Rank(Final(s, actions).records, key)
    decreases |actions|
  {
    if actions != [] {
      RankStep(s, actions[0], key);
      TuplesNeverMoveBack(Next(s, actions[0]), actions[1..], key);
    }
  }

  /** The store holds a record for a key exactly when it is that of a granted tuple, authorized unless revoked. */
  ghost predicate TalliedAt(s: System, k: RecordKey) {
    var tuple := Tuple(k.authorityId, k.entityId, k.resource);
    && (k in s.records <==> k.action == "git.commit.sign" && tuple in s.granted)
    && (k in s.records ==> (s.records[k].authorized == Some(true) <==> tuple !in s.revoked))
  }

  ghost predicate Tallied(s: System) {
    && s.revoked <= s.granted
    && (forall k :: TalliedAt(s, k))
    && (forall p :: p in s.procs && s.procs[p].Updating? ==> s.procs[p].tuple in s.granted)
    && Keyed(s.records)
  }

  lemma TalliedAtStep(s: System, a: Action, k: RecordKey)
    requires Tallied(s) && Enabled(s, a)
    ensures TalliedAt(Next(s, a), k)
  {
    assert TalliedAt(s, k);
    if a.GrantStep? || a.RevokeUpdate? {
      assert TalliedAt(s, s.procs[a.p].tuple.Key());
    }
  }

  lemma TalliedStep(s: System, a: Action)
    requires Tallied(s) && Enabled(s, a)
    ensures Tallied(Next(s, a))
  {
    forall k: RecordKey
      ensures TalliedAt(Next(s, a), k)
    {
      TalliedAtStep(s, a, k);
    }
    if a.RevokeRead? || a.RevokeUpdate? {
      assert TalliedAt(s, s.procs[a.p].tuple.Key());
    }
  }

  lemma {:induction false} TalliedRun(s: System, actions: seq<Action>)
    requires Tallied(s) && Run(s, actions)
    ensures Tallied(Final(s, actions))
    decreases |actions|
  {
    if actions != [] {
      TalliedStep(s, actions[0]);
      TalliedRun(Next(s, actions[0]), actions[1..]);
    }
  }

  ghost predicate Fresh(s: System) {
    s.records == map[] && s.procs == map[] && s.granted == {} && s.revoked == {}
  }

  lemma TalliedFromStart(s0: System, actions: seq<Action>)
    requires Fresh(s0) && Run(s0, actions)
    ensures Tallied(Final(s0, actions))
  {
    assert forall k :: TalliedAt(s0, k);
    TalliedRun(s0, actions);
  }

  /**
   * From an empty store, and whatever was reconfigured on the way, the authorization query says yes
   * exactly when its action is commit signing, some grant to its entity on its resource under its
   * authority has succeeded, and no such revoke has.
   */
  lemma AuthorizedIffGrantedNotRevoked(s0: System, actions: seq<Action>, query: Document, id: string, now: int)
    requires Fresh(s0) && Run(s0, actions)
    requires query.slug == AUTHORIZATION && query.payload.KeyPayload?
    ensures var s, key := Final(s0, actions), query.payload.key;
      var tuple := Tuple(key.authorityId, key.entityId, key.resource);
      var reply := Handle(s.records, query, id, now).1;
      reply.Completed? && reply.body.Verdict? && reply.body.query == key
      && (reply.body.positive <==> key.action == "git.commit.sign" && tuple in s.granted && tuple !in s.revoked)
  {
    TalliedFromStart(s0, actions);
    assert TalliedAt(Final(s0, actions), query.payload.key);
    QueryTellsTheFlag(Final(s0, actions).records, query, id, now);
  }

  /** Once a revoke has succeeded, no later grant of the tuple can: the retained record stands in its way. */
  lemma RevokedCannotBeGrantedAgain(s0: System, actions: seq<Action>, p: nat)
    requires Fresh(s0) && Run(s0, actions) && Enabled(Final(s0, actions), GrantStep(p))
    requires Final(s0, actions).procs[p].tuple in Final(s0, actions).revoked
    ensures var s := Final(s0, actions);
      Next(s, GrantStep(p)) == s.(procs := s.procs[p := Finished(s.procs[p].tuple, false)])
  {
    TalliedFromStart(s0, actions);
    assert TalliedAt(Final(s0, actions), Final(s0, actions).procs[p].tuple.Key());
  }

  /**
   * A grant is refused exactly when the tuple was granted before, and only then leaves the records
   * alone; the refusal tells of an active grant exactly when no revoke has succeeded.
   */
  lemma GrantRefusedIffGrantedBefore(s0: System, actions: seq<Action>, p: nat)
    requires Fresh(s0) && Run(s0, actions) && Enabled(Final(s0, actions), GrantStep(p))
    ensures var s, s' := Final(s0, actions), Next(Final(s0, actions), GrantStep(p));
      var tuple := s.procs[p].tuple;
      var key := RecordKey(tuple.authority, "git.commit.sign", tuple.repo, tuple.subject);
      && s'.procs[p] == Finished(tuple, tuple !in s.granted)
      && (s'.records == s.records <==> tuple in s.granted)
      && (tuple in s.granted ==> key in s.records && (s.records[key].IsAuthorized() <==> tuple !in s.revoked))
      && (tuple !in s.granted ==> key in s'.records && s'.records[key].IsAuthorized())
  {
    TalliedFromStart(s0, actions);
    assert TalliedAt(Final(s0, actions), Final(s0, actions).procs[p].tuple.Key());
  }

  /**
   * A revoke is refused exactly when nothing has granted the tuple by the time it reads, however
   * often it was revoked; past that step it always succeeds.
   */
  lemma RevokeRefusedIffNeverGranted(s0: System, actions: seq<Action>, p: nat)
    requires Fresh(s0) && Run(s0, actions)
    ensures var s := Final(s0, actions);
      && (Enabled(s, RevokeRead(p)) ==>
            (Next(s, RevokeRead(p)).procs[p] == Finished(s.procs[p].tuple, false) <==> s.procs[p].tuple !in s.granted)
            && (s.procs[p].tuple in s.granted ==> Enabled(Next(s, RevokeRead(p)), RevokeUpdate(p))))
      && (Enabled(s, RevokeUpdate(p)) ==>
            var s', tuple := Next(s, RevokeUpdate(p)), s.procs[p].tuple;
            var key := RecordKey(tuple.authority, "git.commit.sign", tuple.repo, tuple.subject);
            s'.procs[p] == Finished(tuple, true) && tuple in s'.revoked
            && key in s'.records && !s'.records[key].IsAuthorized())
  {
    TalliedFromStart(s0, actions);
    if p in Final(s0, actions).procs {
      assert TalliedAt(Final(s0, actions), Final(s0, actions).procs[p].tuple.Key());
    }
  }

  // ------------------------------------------------ what a query sees of a grant and a revoke

  /** The key a query has to ask about, field by field, to see what was granted. */
  predicate AsksAbout(query: Document, authority: string, subject: string, repo: string) {
    query.payload.KeyPayload? && query.payload.key.authorityId == authority && query.payload.key.action == "git.commit.sign"
    && query.payload.key.resource == repo && query.payload.key.entityId == subject
  }

  /**
   * A grant completes exactly when there is no record for its four fields; then both queries about
   * them turn positive, and every other document that only asks is answered as before.
   */
  lemma GrantThenQuery(m: Records, authority: string, doc: Document, id: string, query: Document, queryId: string, now: int)
    requires doc.payload.GitPayload? && query.slug in {"registry/recognition", "registry/authorization"} && query.payload.KeyPayload?
    ensures var (m', o) := Grant(m, Some(authority), doc, id);
      var key := RecordKey(authority, "git.commit.sign", doc.payload.repo, doc.payload.subject);
      && o == (if key in m then Rejected(id, doc.id, TaskFailed("already_granted"), false)
               else Completed(id, doc.id, GitBody(doc.payload.subject, doc.payload.repo, true)))
      && m' == (if key in m then m else m[key := TrustRecord(doc.payload.subject, authority, "git.commit.sign", doc.payload.repo,
                                                             Some(true), Some(true), Obj(map[]), Authorization)])
      && (o.Completed? && AsksAbout(query, authority, doc.payload.subject, doc.payload.repo) ==>
            Handle(m', query, queryId, now).1.body.Verdict? && Handle(m', query, queryId, now).1.body.positive)
      && (!AsksAbout(query, authority, doc.payload.subject, doc.payload.repo) ==>
            Handle(m', query, queryId, now).1 == Handle(m, query, queryId, now).1)
  {
    var m' := Grant(m, Some(authority), doc, id).0;
    QueryTellsTheFlag(m', query, queryId, now);
    QueryTellsTheFlag(m, query, queryId, now);
  }

  /**
   * A revoke completes exactly when there is a record for its four fields; then the authorization
   * query about them turns negative, the recognition query answers as before, the context is kept,
   * and every other query is answered as before.
   */
  lemma RevokeThenQuery(m: Records, authority: string, doc: Document, id: string, query: Document, queryId: string, now: int)
    requires doc.payload.GitPayload? && query.slug in {"registry/recognition", "registry/authorization"} && query.payload.KeyPayload?
    ensures var (m', o) := Revoke(m, Some(authority), doc, id);
      var key := RecordKey(authority, "git.commit.sign", doc.payload.repo, doc.payload.subject);
      && o == (if key in m then Completed(id, doc.id, GitBody(doc.payload.subject, doc.payload.repo, false))
               else Rejected(id, doc.id, TaskFailed("not_granted"), false))
      && m' == (if key !in m then m
                else m[key := TrustRecord(doc.payload.subject, authority, "git.commit.sign", doc.payload.repo,
                                          Some(m[key].recognized == Some(true)), Some(false), m[key].context, Authorization)])
      && (AsksAbout(query, authority, doc.payload.subject, doc.payload.repo) ==>
            var (before, after) := (Handle(m, query, queryId, now).1, Handle(m', query, queryId, now).1);
            before.body.Verdict? && after.body.Verdict?
            && after.body.positive == (query.slug == "registry/recognition" && before.body.positive))
      && (!AsksAbout(query, authority, doc.payload.subject, doc.payload.repo) ==>
            Handle(m', query, queryId, now).1 == Handle(m, query, queryId, now).1)
  {
    var m' := Revoke(m, Some(authority), doc, id).0;
    QueryTellsTheFlag(m', query, queryId, now);
    QueryTellsTheFlag(m, query, queryId, now);
  }

  /** Without an authority neither does anything but ask for a retry. */
  lemma NoAuthorityNoEffect(m: Records, doc: Document, id: string)
    requires doc.payload.GitPayload?
    ensures Grant(m, None, doc, id) == (m, Rejected(id, doc.id, InternalError, true))
    ensures Revoke(m, None, doc, id) == (m, Rejected(id, doc.id, InternalError, true))
  {
  }

  /** A store that fails costs either of them a plea to retry, whichever operation it fails at. */
  lemma GitFaultsAreRetryable(doc: Document, id: string, error: RepoError)
    requires doc.payload.GitPayload? && error in {QueryFailed, SerializationFailed}
    ensures GrantOutcome(doc, id, Failed(error)) == Rejected(id, doc.id, InternalError, true)
    ensures ReadRejection(doc, id, error) == Rejected(id, doc.id, InternalError, true)
    ensures RevokeOutcome(doc, id, Failed(error)) == Rejected(id, doc.id, InternalError, true)
  {
  }

  /** At any time the authority can be changed; requests asked since then are for the new one, those before keep theirs. */
  lemma ReconfiguringCounts(s: System, authority: string, p: nat, q: nat, subject: string, repo: string)
    requires p !in s.procs && q !in s.procs && p != q && s.authority.Some?
    ensures Enabled(s, Reconfigure(Some(authority))) && Enabled(s, Reconfigure(None))
    ensures !Enabled(Next(s, Reconfigure(None)), AskGrant(p, subject, repo))
    ensures var s' := Next(Next(Next(s, AskGrant(p, subject, repo)), Reconfigure(Some(authority))), AskGrant(q, subject, repo));
      && s'.procs[p] == Granting(Tuple(s.authority.value, subject, repo))
      && s'.procs[q] == Granting(Tuple(authority, subject, repo))
  {
  }

  /** Undisturbed, the steps of a grant and of a revoke do what the two handlers do. */
  lemma UndisturbedGit(s: System, p: nat, doc: Document, id: string)
    requires p !in s.procs && s.authority.Some? && doc.payload.GitPayload?
    ensures var (m, o) := Grant(s.records, s.authority, doc, id);
      var s' := Next(Next(s, AskGrant(p, doc.payload.subject, doc.payload.repo)), GrantStep(p));
      s'.records == m && s'.procs[p].Finished? && s'.procs[p].succeeded == o.Completed?
    ensures var (m, o) := Revoke(s.records, s.authority, doc, id);
      var s1 := Next(Next(s, AskRevoke(p, doc.payload.subject, doc.payload.repo)), RevokeRead(p));
      var s' := if Enabled(s1, RevokeUpdate(p)) then Next(s1, RevokeUpdate(p)) else s1;
      s'.records == m && s'.procs[p].Finished? && s'.procs[p].succeeded == o.Completed?
  {
  }

  // ------------------------------------------------ no handler without an authority

  predicate Backed(h: Handler) {
    (h.GrantHandler? || h.RevokeHandler?) ==> h.authority.Some?
  }

  ghost predicate AllBacked(d: Dispatcher) {
    forall slug :: slug in d ==> Backed(d[slug])
  }

  /** Git handlers come from the git-trust definition only. */
  ghost predicate Genuine(host: Host) {
    && AllBacked(host.base) && AllBacked(host.baseQuery)
    && (forall def :: def in host.available ==>
          if def.name == NAME then def == GitDefinition()
          else forall entry: CapabilityState :: AllBacked(def.contribute(entry)))
  }

  predicate Validated(states: States) {
    IsOn(states, NAME) ==> AuthorityOf(states[NAME]).Some?
  }

  lemma {:induction false} ComposedBacked(d: Dispatcher, host: Host, n: nat, states: States)
    requires Genuine(host) && Validated(states) && AllBacked(d) && n <= |host.available|
    ensures AllBacked(Registered(d, host.available[..n], states))
    decreases n
  {
    if n > 0 {
      ComposedBacked(d, host, n - 1, states);
      assert host.available[..n][..n - 1] == host.available[..n - 1];
      var def := host.available[n - 1];
      assert def in host.available;
      if On(def, states) && def.name == NAME {
        assert AllBacked(Contribute(states[NAME]));
      }
    }
  }

  lemma StartedBacked(host: Host, states: States)
    requires Genuine(host) && Validated(states)
    ensures AllBacked(Compose(host.base, host.available, states, true))
    ensures AllBacked(Compose(host.baseQuery, host.available, states, false))
  {
    ComposedBacked(host.base + Governance(true), host, |host.available|, states);
    ComposedBacked(host.baseQuery + Governance(false), host, |host.available|, states);
    assert host.available[..|host.available|] == host.available;
  }

  ghost predicate BackedMachine(m: Runs.Machine) {
    && Validated(m.disk)
    && (Runs.At(m, Runs.RenameTmp) && m.tmp.Some? ==> Validated(m.tmp.value))
    && (m.process.Up? ==>
          && Genuine(m.process.host) && Validated(m.process.states)
          && AllBacked(m.process.admin) && AllBacked(m.process.query))
  }

  lemma BackedStep(m: Runs.Machine, e: Runs.Event)
    requires BackedMachine(m) && Runs.Enabled(m, e)
    requires e.Start? ==> Genuine(e.newHost)
    ensures BackedMachine(Runs.Next(m, e))
  {
    if e.Start? {
      StartedBacked(e.newHost, m.disk);
    } else if e.AdminSwapped? || e.QuerySwapped? {
      StartedBacked(m.process.host, m.process.states);
    } else if e.RequestEnable? {
      var next := EnableIn(m.process.host, m.process.states, e.name, e.version, e.config, e.now, e.delegate);
      if next.Ok? && e.name == NAME {
        ValidatedIffAuthority(next.value[NAME]);
      }
    }
  }

  /** In every run from validated saved state, no live handler lacks its authority. */
  lemma {:induction false} AuthorityAlwaysPresent(m: Runs.Machine, es: seq<Runs.Event>)
    requires BackedMachine(m) && Runs.Run(m, es)
    requires forall i :: 0 <= i < |es| && es[i].Start? ==> Genuine(es[i].newHost)
    ensures BackedMachine(Runs.Final(m, es))
    decreases |es|
  {
    if es != [] {
      BackedStep(m, es[0]);
      assert forall i :: 0 <= i < |es| - 1 ==> es[1..][i] == es[i + 1];
      AuthorityAlwaysPresent(Runs.Next(m, es[0]), es[1..]);
    }
  }

  /** So the missing-authority rejection is never reached: a grant is refused only because the tuple exists. */
  lemma MissingAuthorityUnreachable(m0: Runs.Machine, es: seq<Runs.Event>, records: Records, doc: Document, id: string)
    requires Runs.Initial(m0) && Validated(m0.disk) && Runs.Run(m0, es)
    requires forall i :: 0 <= i < |es| && es[i].Start? ==> Genuine(es[i].newHost)
    requires doc.payload.GitPayload?
    ensures var p := Runs.Final(m0, es).process;
      p.Up? ==> forall slug :: slug in p.admin ==>
        && (p.admin[slug].GrantHandler? ==>
              Grant(records, p.admin[slug].authority, doc, id).1 != RejectWith(doc, id, InternalError))
        && (p.admin[slug].RevokeHandler? ==>
              Revoke(records, p.admin[slug].authority, doc, id).1 != RejectWith(doc, id, InternalError))
  {
    AuthorityAlwaysPresent(m0, es);
    var p := Runs.Final(m0, es).process;
    if p.Up? {
      forall slug | slug in p.admin
        ensures Backed(p.admin[slug])
      {
      }
    }
  }
}
