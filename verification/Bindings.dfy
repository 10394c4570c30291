/**
 * The DIDComm, TSP and HTTP bindings over the whole server (trust-registry/src/didcomm/handlers/trust_tasks,
 * tsp, http/handlers/trust_tasks, trust_tasks/proof).
 */
module Bindings {
  import opened Domain
  import opened Storage
  import opened Tasks
  import opened Dedup
  import opened Capabilities
  import opened GitTrust
  import Redelivery

  /** DIDComm and TSP authenticate the sender; an HTTP caller is anonymous. */
  datatype Transport = DidComm(sender: string) | Tsp(sender: string) | Http

  /** One message, with the answers its surroundings will give while it is handled. */
  datatype Inbound = Inbound(
    transport: Transport,
    delivery: Redelivery.Delivery,
    storeUp: bool,
    saveEnd: SaveEnd,
    rotated: Option<NewKeys>)
  {
    function Doc(): Document {
      delivery.doc
    }

    function Sender(): Option<string> {
      if transport.Http? then None else Some(transport.sender)
    }
  }

  /** The framework's own checks, the configured administrators, and whether key rotation is built in. */
  datatype Policy = Policy(
    partiesAgree: (Document, Option<string>) -> bool,
    timely: (Document, int) -> bool,
    proofHolds: Document -> bool,
    adminDids: seq<string>,
    canRotate: bool)

  /** `authorize_write`, the same in both bindings. */
  function AuthorizeWrite(doc: Document, sender: string, adminDids: seq<string>): Option<Reason> {
    if !doc.IsWrite() then None
    else if !doc.hasProof then Some(ProofRequired)
    else if sender !in adminDids then Some(PermissionDenied)
    else None
  }

  /** `verify_write_proof`: a read or a proofless write passes here. */
  function VerifyWriteProof(doc: Document, proofHolds: Document -> bool): Option<Reason> {
    if !doc.IsWrite() || !doc.hasProof || proofHolds(doc) then None else Some(ProofInvalid)
  }

  /** The framework checks every binding makes first. */
  function Untrusted(p: Policy, i: Inbound): Option<Reason> {
    if !p.partiesAgree(i.Doc(), i.Sender()) then Some(PartyMismatch)
    else if !p.timely(i.Doc(), i.delivery.claimedAt) then Some(NotFresh)
    else None
  }

  /** The checks in order; the first that fails answers. HTTP makes the framework checks only. */
  function Refusal(p: Policy, i: Inbound): Option<Reason> {
    var untrusted := Untrusted(p, i);
    if untrusted.Some? || i.transport.Http? then untrusted
    else
      var unauthorized := AuthorizeWrite(i.Doc(), i.transport.sender, p.adminDids);
      if unauthorized.Some? then unauthorized else VerifyWriteProof(i.Doc(), p.proofHolds)
  }

  /** What it takes to change anything over DIDComm or TSP, stated without regard to order. */
  predicate AdmittedWrite(p: Policy, i: Inbound) {
    && !i.transport.Http?
    && i.Doc().IsWrite()
    && p.partiesAgree(i.Doc(), i.Sender())
    && p.timely(i.Doc(), i.delivery.claimedAt)
    && i.transport.sender in p.adminDids
    && i.Doc().hasProof
    && p.proofHolds(i.Doc())
  }

  // ---------------------------------------------------------------- the host

  const RECORD_SLUGS := {RECOGNITION, AUTHORIZATION, RECORD_CREATE, RECORD_UPDATE, RECORD_DELETE, RECORD_READ, RECORD_LIST}

  /** `build_dispatcher`. */
  const BASE: Dispatcher := map slug | slug in RECORD_SLUGS :: RecordHandler

  /** `build_query_dispatcher`. */
  const BASE_QUERY: Dispatcher := map[RECOGNITION := RecordHandler, AUTHORIZATION := RecordHandler]

  /** The host the server builds: one compiled-in capability. */
  function ServerHost(): Host {
    Host([GitDefinition()], BASE, BASE_QUERY)
  }

  /** `rotations` counts how often the key service was asked to rotate the registry's own keys. */
  datatype Registry = Registry(records: Records, live: Live, entries: Entries, rotations: nat)

  /** `reject_of`. */
  function ReasonOf(e: CapabilityError): Reason {
    match e
    case UnknownCapability => TaskFailed("unknown_capability")
    case AlreadyEnabled => TaskFailed("already_enabled")
    case NotEnabled => TaskFailed("not_enabled")
    case ConfigInvalid => MalformedRequest
    case Storage => InternalError
  }

  function Changed(doc: Document, id: string, body: Body, error: Option<CapabilityError>): Outcome {
    match error
    case None => RespondWith(doc, id, body)
    case Some(e) => RejectWith(doc, id, ReasonOf(e))
  }

  /** An empty config object counts as no config. */
  function ConfigOf(config: map<string, Json>): Option<Json> {
    if config == map[] then None else Some(Obj(config))
  }

  /** The payload shape a handler parses before it runs. */
  predicate Parses(h: Handler, doc: Document) {
    match h
    case RecordHandler => true
    case ListHandler => doc.payload.StatusPayload?
    case EnableHandler => doc.payload.EnablePayload?
    case DisableHandler => doc.payload.DisablePayload?
    case GrantHandler(_) => doc.payload.GitPayload?
    case RevokeHandler(_) => doc.payload.GitPayload?
    case OtherHandler(_, _) => true
  }

  /** Without a status the listing shows what is enabled; `available` shows what is not; anything else shows all. */
  function ListedFor(states: States, status: Option<string>): seq<ListedEntry> {
    var wanted := if status.Some? then status.value else "enabled";
    var all := Capabilities.Listing(ServerHost().available, states, wanted != "enabled");
    Shown(if wanted == "available" then NotEnabledIn(all) else all)
  }

  function NotEnabledIn(entries: seq<Listed>): seq<Listed> {
    if entries == [] then []
    else NotEnabledIn(entries[..|entries| - 1]) + if entries[|entries| - 1].On() then [] else [entries[|entries| - 1]]
  }

  /** The time is shown of an enabled entry only, the delegate of any entry that has one. */
  function Shown(entries: seq<Listed>): seq<ListedEntry> {
    seq(|entries|, i requires 0 <= i < |entries| =>
      ListedEntry(entries[i].manifest, entries[i].On(),
        if entries[i].On() then Some(entries[i].state.value.enabledAt) else None,
        if entries[i].state.Some? then entries[i].state.value.delegate else None))
  }

  /** Runs the handler found for a document. */
  ghost function Invoke(h: Handler, s: Registry, i: Inbound): (Registry, Outcome) {
    var doc, id, now := i.Doc(), i.delivery.responseId, i.delivery.handledAt;
    if !Parses(h, doc) then (s, RejectWith(doc, id, MalformedRequest))
    else
      match h
      case RecordHandler =>
        var (m, o) := Handle(s.records, doc, id, now);
        (s.(records := m), o)
      case GrantHandler(authority) =>
        var (m, o) := Grant(s.records, authority, doc, id);
        (s.(records := m), o)
      case RevokeHandler(authority) =>
        var (m, o) := Revoke(s.records, authority, doc, id);
        (s.(records := m), o)
      case EnableHandler =>
        var EnablePayload(name, version, config, delegate) := doc.payload;
        var next := EnableIn(ServerHost(), s.live.states, name, version, ConfigOf(config), now, delegate);
        var (live, error) := Change(ServerHost(), s.live, next, i.saveEnd);
        (s.(live := live), Changed(doc, id, EnabledBody(name, version, now), error))
      case DisableHandler =>
        var name := doc.payload.name;
        var (live, error) := Change(ServerHost(), s.live, DisableIn(s.live.states, name), i.saveEnd);
        (s.(live := live), Changed(doc, id, DisabledBody(name), error))
      case ListHandler =>
        (s, RespondWith(doc, id, CapabilitiesBody(ListedFor(s.live.states, doc.payload.status))))
      case OtherHandler(_, _) => (s, RejectWith(doc, id, UnsupportedType))
  }

  /** `handle_document` over one of the live dispatchers. */
  ghost function ServeOver(d: Dispatcher, s: Registry, i: Inbound): (Registry, Outcome) {
    if i.Doc().slug in d then Invoke(d[i.Doc().slug], s, i)
    else (s, RejectWith(i.Doc(), i.delivery.responseId, UnsupportedType))
  }

  /** `dispatch_idempotent` over the live admin dispatcher. */
  ghost function Dispatch(s: Registry, i: Inbound, w: Windows): (Registry, Outcome) {
    var (claimed, reply) := Redelivery.Admit(s.entries, i.delivery, w, i.storeUp);
    if reply.Some? then (s.(entries := claimed), reply.value)
    else
      var (s', o) := ServeOver(s.live.admin, s.(entries := claimed), i);
      (s'.(entries := Redelivery.Retire(s'.entries, i.delivery, o, w, i.storeUp)), o)
  }

  /** Over DIDComm a rotation never reaches the dispatcher; over TSP it is dispatched like any other type. */
  predicate RotatesDirectly(i: Inbound) {
    i.transport.DidComm? && i.Doc().slug == DID_ROTATE
  }

  /** The rotation handler gets as far as asking the key service. */
  predicate AsksRotation(p: Policy, i: Inbound) {
    RotatesDirectly(i) && p.canRotate && i.Doc().payload.RotatePayload?
  }

  /** `handle_did_rotate`. */
  function Rotation(p: Policy, i: Inbound): Outcome {
    var doc, id := i.Doc(), i.delivery.responseId;
    if !p.canRotate then RejectWith(doc, id, TaskFailed("unavailable"))
    else if !doc.payload.RotatePayload? then RejectWith(doc, id, MalformedRequest)
    else if i.rotated.Some? then RespondWith(doc, id, RotatedBody(i.rotated.value))
    else RejectWith(doc, id, TaskFailed("rotation"))
  }

  /** One message from arrival to answer. */
  ghost function Receive(p: Policy, s: Registry, i: Inbound, w: Windows): (Registry, Outcome) {
    var refusal := Refusal(p, i);
    if refusal.Some? then (s, RejectWith(i.Doc(), i.delivery.responseId, refusal.value))
    else if i.transport.Http? then ServeOver(s.live.query, s, i)
    else if RotatesDirectly(i) then
      (s.(rotations := s.rotations + if AsksRotation(p, i) then 1 else 0), Rotation(p, i))
    else Dispatch(s, i, w)
  }

  /** The registry process: one record store, one claim store, one capability set. */
  class Server {
    const policy: Policy
    const repository: LocalStorage
    const dedup: MemoryMessageIdStore
    const capabilities: CapabilitySet
    var rotations: nat

    constructor (policy: Policy, repository: LocalStorage, dedup: MemoryMessageIdStore, capabilities: CapabilitySet)
      ensures this.policy == policy && this.repository == repository
      ensures this.dedup == dedup && this.capabilities == capabilities && rotations == 0
    {
      this.policy := policy;
      this.repository := repository;
      this.dedup := dedup;
      this.capabilities := capabilities;
      rotations := 0;
    }

    ghost predicate Valid()
      reads repository
    {
      repository.Valid() && capabilities.host == ServerHost()
    }

    ghost function State(): Registry
      reads this, repository, dedup, capabilities, capabilities.store
    {
      Registry(repository.records, capabilities.View(), dedup.entries, rotations)
    }

    method InvokeHandler(h: Handler, i: Inbound) returns (outcome: Outcome)
      requires Valid()
      modifies repository, capabilities, capabilities.store
      ensures Valid()
      ensures (State(), outcome) == Invoke(h, old(State()), i)
    {
      var doc, id, now := i.Doc(), i.delivery.responseId, i.delivery.handledAt;
      if !Parses(h, doc) {
        return RejectWith(doc, id, MalformedRequest);
      }
      match h {
        case RecordHandler => outcome := HandleDocument(repository, doc, id, now);
        case GrantHandler(authority) => outcome := HandleGrant(repository, authority, doc, id);
        case RevokeHandler(authority) => outcome := HandleRevoke(repository, authority, doc, id);
        case EnableHandler =>
          var name := doc.payload.capability;
          var error := capabilities.Enable(name, doc.payload.version, ConfigOf(doc.payload.config), now,
                                           doc.payload.delegate, i.saveEnd);
          outcome := Changed(doc, id, EnabledBody(name, doc.payload.version, now), error);
        case DisableHandler =>
          var error := capabilities.Disable(doc.payload.name, i.saveEnd);
          outcome := Changed(doc, id, DisabledBody(doc.payload.name), error);
        case ListHandler =>
          var status := if doc.payload.status.Some? then doc.payload.status.value else "enabled";
          var entries := capabilities.ListAll(status != "enabled");
          outcome := RespondWith(doc, id, CapabilitiesBody(Shown(if status == "available" then NotEnabledIn(entries) else entries)));
        case OtherHandler(_, _) => outcome := RejectWith(doc, id, UnsupportedType);
      }
    }

    method ServeDocument(dispatcher: Dispatcher, i: Inbound) returns (outcome: Outcome)
      requires Valid()
      modifies repository, capabilities, capabilities.store
      ensures Valid()
      ensures (State(), outcome) == ServeOver(dispatcher, old(State()), i)
    {
      if i.Doc().slug !in dispatcher {
        return RejectWith(i.Doc(), i.delivery.responseId, UnsupportedType);
      }
      outcome := InvokeHandler(dispatcher[i.Doc().slug], i);
    }

    method DispatchDocument(i: Inbound) returns (outcome: Outcome)
      requires Valid()
      modifies repository, dedup, capabilities, capabilities.store
      ensures Valid()
      ensures (State(), outcome) == Dispatch(old(State()), i, dedup.w)
    {
      var d := i.delivery;
      if !d.doc.IsWrite() || !i.storeUp {
        outcome := ServeDocument(capabilities.admin, i);
        return;
      }
      var key := d.doc.MessageId();
      var claim := dedup.ClaimKey(key, d.claimedAt);
      match claim {
        case Replay(o) => return o;
        case Busy => return Redelivery.InFlightRejection(d.doc, d.responseId);
        case Acquired =>
      }
      outcome := ServeDocument(capabilities.admin, i);
      if Cacheable(outcome) {
        dedup.Complete(key, outcome, d.resolvedAt);
      } else {
        dedup.Release(key);
      }
    }

    method RotateKeys(i: Inbound) returns (outcome: Outcome)
      requires Valid() && RotatesDirectly(i)
      modifies this
      ensures Valid()
      ensures rotations == old(rotations) + (if AsksRotation(policy, i) then 1 else 0) && outcome == Rotation(policy, i)
    {
      var doc, id := i.Doc(), i.delivery.responseId;
      if !policy.canRotate {
        return RejectWith(doc, id, TaskFailed("unavailable"));
      }
      if !doc.payload.RotatePayload? {
        return RejectWith(doc, id, MalformedRequest);
      }
      rotations := rotations + 1;
      outcome := if i.rotated.Some? then RespondWith(doc, id, RotatedBody(i.rotated.value))
                 else RejectWith(doc, id, TaskFailed("rotation"));
    }

    /** DIDComm and TSP: parties, freshness, administrators, proof, and only then the dispatcher. */
    method HandleInbound(i: Inbound) returns (outcome: Outcome)
      requires Valid() && !i.transport.Http?
      modifies this, repository, dedup, capabilities, capabilities.store
      ensures Valid()
      ensures (State(), outcome) == Receive(policy, old(State()), i, dedup.w)
    {
      var doc, id := i.Doc(), i.delivery.responseId;
      if !policy.partiesAgree(doc, i.Sender()) {
        return RejectWith(doc, id, PartyMismatch);
      }
      if !policy.timely(doc, i.delivery.claimedAt) {
        return RejectWith(doc, id, NotFresh);
      }
      var refused := AuthorizeWrite(doc, i.transport.sender, policy.adminDids);
      if refused.Some? {
        return RejectWith(doc, id, refused.value);
      }
      refused := VerifyWriteProof(doc, policy.proofHolds);
      if refused.Some? {
        return RejectWith(doc, id, refused.value);
      }
      if RotatesDirectly(i) {
        outcome := RotateKeys(i);
        return;
      }
      outcome := DispatchDocument(i);
    }

    /** HTTP: parties, freshness, and then the query dispatcher, with no claim. */
    method HandlePosted(i: Inbound) returns (outcome: Outcome)
      requires Valid() && i.transport.Http?
      modifies repository, capabilities, capabilities.store
      ensures Valid()
      ensures (State(), outcome) == Receive(policy, old(State()), i, dedup.w)
    {
      var doc, id := i.Doc(), i.delivery.responseId;
      if !policy.partiesAgree(doc, None) {
        return RejectWith(doc, id, PartyMismatch);
      }
      if !policy.timely(doc, i.delivery.claimedAt) {
        return RejectWith(doc, id, NotFresh);
      }
      outcome := ServeDocument(capabilities.query, i);
    }
  }
}
