/** Trust Task documents, outcomes and the record router (trust-registry/src/trust_tasks). */
module Tasks {
  import opened Domain
  import opened Storage
  import opened Keys
  import opened MapValues

  const RECOGNITION := "registry/recognition"
  const AUTHORIZATION := "registry/authorization"
  const RECORD_CREATE := "registry/record/create"
  const RECORD_UPDATE := "registry/record/update"
  const RECORD_DELETE := "registry/record/delete"
  const RECORD_READ := "registry/record/read"
  const RECORD_LIST := "registry/record/list"
  const DID_ROTATE := "registry/did/rotate"
  const CAPABILITY_ENABLE := "governance/capability/enable"
  const CAPABILITY_DISABLE := "governance/capability/disable"
  const CAPABILITY_LIST := "governance/capability/list"
  const GIT_GRANT := "git-trust/grant"
  const GIT_REVOKE := "git-trust/revoke"

  const WRITE_SLUGS := {RECORD_CREATE, RECORD_UPDATE, RECORD_DELETE, DID_ROTATE,
                        CAPABILITY_ENABLE, CAPABILITY_DISABLE, GIT_GRANT, GIT_REVOKE}

  /** `is_write_slug`. */
  predicate IsWriteSlug(slug: string) {
    slug in WRITE_SLUGS
  }

  /** The payload shapes the registered types parse; anything else is `Unparsed`. */
  datatype Payload =
    | RecordPayload(record: TrustRecord)
    | KeyPayload(key: RecordKey, time: Option<int>)
    | EmptyPayload
    | EnablePayload(capability: string, version: string, config: map<string, Json>, delegate: Option<string>)
    | DisablePayload(name: string)
    | GitPayload(subject: string, repo: string)
    | StatusPayload(status: Option<string>)
    | RotatePayload(preRotationCount: Option<nat>, keyLabel: Option<string>)
    | Unparsed(raw: Json)

  datatype Document = Document(
    id: string,
    issuer: Option<string>,
    slug: string,
    hasProof: bool,
    payload: Payload)
  {
    predicate IsWrite() {
      IsWriteSlug(slug)
    }

    function MessageId(): string {
      MessageKey(issuer, id)
    }
  }

  datatype Reason =
    | MalformedRequest
    | UnsupportedType
    | TaskFailed(what: string)
    | InternalError
    | ProofRequired
    | PermissionDenied
    | ProofInvalid
    | PartyMismatch
    | NotFresh
  {
    /** Only the transient codes are retryable by default. */
    predicate Retryable() {
      InternalError?
    }
  }

  /** One capability as a listing response shows it. */
  datatype ListedEntry = ListedEntry(manifest: Json, enabled: bool, since: Option<int>, delegate: Option<string>)

  /** What the key service answers to a rotation. */
  datatype NewKeys = NewKeys(did: string, newScid: string, newVersionId: string)

  datatype Body =
    | Ack
    | Verdict(query: RecordKey, positive: bool, message: Option<string>, requestedAt: Option<int>, evaluatedAt: int)
    | RecordBody(found: TrustRecord)
    | ListBody(records: multiset<TrustRecord>)
    | EnabledBody(enabledCapability: string, version: string, enabledAt: int)
    | DisabledBody(disabledCapability: string)
    | CapabilitiesBody(entries: seq<ListedEntry>)
    | RotatedBody(keys: NewKeys)
    | GitBody(subject: string, repo: string, granted: bool)

  /** `TaskOutcome`: a response or an error document; `responseId` is the fresh id either carries. */
  datatype Outcome =
    | Completed(responseId: string, threadId: string, body: Body)
    | Rejected(responseId: string, threadId: string, reason: Reason, retryable: bool)

  function RespondWith(doc: Document, id: string, body: Body): Outcome {
    Completed(id, doc.id, body)
  }

  function RejectWith(doc: Document, id: string, reason: Reason): Outcome {
    Rejected(id, doc.id, reason, reason.Retryable())
  }

  /** `is_cacheable`. */
  predicate Cacheable(outcome: Outcome) {
    outcome.Completed? || !outcome.retryable
  }

  /** `map_repo_err`. */
  function MapRepoErr(e: RepoError): Reason {
    match e
    case RecordNotFound => TaskFailed("not found")
    case RecordAlreadyExists => TaskFailed("already exists")
    case SerializationFailed => InternalError
    case QueryFailed => InternalError
  }

  /** The repository operation a record document asks for, if its payload has the registered shape. */
  function OpOf(doc: Document): Option<Op> {
    if doc.slug == RECORD_CREATE && doc.payload.RecordPayload? then Some(Create(doc.payload.record))
    else if doc.slug == RECORD_UPDATE && doc.payload.RecordPayload? then Some(Update(doc.payload.record))
    else if doc.slug == RECORD_DELETE && doc.payload.KeyPayload? then Some(Delete(doc.payload.key))
    else if doc.slug == RECORD_READ && doc.payload.KeyPayload? then Some(Read(doc.payload.key))
    else if doc.slug == RECORD_LIST && doc.payload.EmptyPayload? then Some(List)
    else if doc.slug in {RECOGNITION, AUTHORIZATION} && doc.payload.KeyPayload? then Some(Find(doc.payload.key))
    else None
  }

  predicate RecordSlug(slug: string) {
    slug in {RECOGNITION, AUTHORIZATION, RECORD_CREATE, RECORD_UPDATE, RECORD_DELETE, RECORD_READ, RECORD_LIST}
  }

  /** The response built from a repository answer; an absent record is a negative verdict, not an error. */
  function OutcomeOf(doc: Document, id: string, now: int, answer: Answer): Outcome
    requires answer.Maybe? ==> doc.payload.KeyPayload?
  {
    match answer
    case Done => RespondWith(doc, id, Ack)
    case Failed(e) => RejectWith(doc, id, MapRepoErr(e))
    case One(r) => RespondWith(doc, id, RecordBody(r))
    case Listing(rs) => RespondWith(doc, id, ListBody(rs))
    case Maybe(None) => RespondWith(doc, id, Verdict(doc.payload.key, false, None, doc.payload.time, now))
    case Maybe(Some(r)) =>
      RespondWith(doc, id,
        if doc.slug == RECOGNITION then
          Verdict(doc.payload.key, r.IsRecognized(), Some(r.entityId + " recognized by " + r.authorityId),
            doc.payload.time, now)
        else
          Verdict(doc.payload.key, r.IsAuthorized(),
            Some(r.entityId + " authorized to " + r.action + "+" + r.resource + " by " + r.authorityId),
            doc.payload.time, now))
  }

  /** `handle_document` over the base dispatcher: the records afterwards and the outcome. */
  ghost function Handle(m: Records, doc: Document, id: string, now: int): (Records, Outcome) {
    if !RecordSlug(doc.slug) then (m, RejectWith(doc, id, UnsupportedType))
    else
      match OpOf(doc)
      case None => (m, RejectWith(doc, id, MalformedRequest))
      case Some(op) =>
        var (m', answer) := Step(m, op);
        (m', OutcomeOf(doc, id, now, answer))
  }

  method HandleDocument(repository: LocalStorage, doc: Document, id: string, now: int) returns (outcome: Outcome)
    requires repository.Valid()
    modifies repository
    ensures repository.Valid()
    ensures (repository.records, outcome) == Handle(old(repository.records), doc, id, now)
  {
    if !RecordSlug(doc.slug) {
      return RejectWith(doc, id, UnsupportedType);
    }
    var op := OpOf(doc);
    if op.None? {
      return RejectWith(doc, id, MalformedRequest);
    }
    var answer;
    match op.value {
      case Create(r) => answer := repository.CreateRecord(r);
      case Update(r) => answer := repository.UpdateRecord(r);
      case Delete(k) => answer := repository.DeleteRecord(k);
      case Read(k) => answer := repository.ReadRecord(k);
      case Find(k) => answer := repository.FindByQuery(k);
      case List => var listed := repository.ListRecords(); answer := Listing(multiset(listed));
    }
    outcome := OutcomeOf(doc, id, now, answer);
  }

  /** Only write slugs reach a handler that can change a record. */
  lemma ReadsChangeNothing(m: Records, doc: Document, id: string, now: int)
    ensures !doc.IsWrite() ==> Handle(m, doc, id, now).0 == m
  {
  }

  /** Over the local repository every answer is a property of document and records, never transient. */
  lemma LocalOutcomesCacheable(m: Records, doc: Document, id: string, now: int)
    ensures Cacheable(Handle(m, doc, id, now).1)
  {
    var op := OpOf(doc);
    if RecordSlug(doc.slug) && op.Some? {
      var (_, answer) := Step(m, op.value);
      assert answer.Failed? ==> answer.error in {RecordNotFound, RecordAlreadyExists};
    }
  }

  // ------------------------------------------------ what each type of record document does

  /** Every answer goes back on the document's thread, under the response id it was given. */
  lemma AnswersOnItsThread(m: Records, doc: Document, id: string, now: int)
    ensures var o := Handle(m, doc, id, now).1;
      o.threadId == doc.id && o.responseId == id
  {
    var op := OpOf(doc);
    if RecordSlug(doc.slug) && op.Some? {
      var answer := Step(m, op.value).1;
      assert answer.Maybe? ==> doc.payload.KeyPayload?;
    }
  }

  /** A create adds exactly its record, under its own four fields, if the key was free, and is refused otherwise. */
  lemma CreateAdds(m: Records, doc: Document, id: string, now: int)
    requires doc.slug == "registry/record/create" && doc.payload.RecordPayload?
    ensures var (m', o) := Handle(m, doc, id, now);
      var r := doc.payload.record;
      var key := RecordKey(r.authorityId, r.action, r.resource, r.entityId);
      && m' == (if key in m then m else m[key := r])
      && o == (if key in m then Rejected(id, doc.id, TaskFailed("already exists"), false) else Completed(id, doc.id, Ack))
  {
    assert doc.payload.record.Key() == RecordKey(doc.payload.record.authorityId, doc.payload.record.action,
                                                 doc.payload.record.resource, doc.payload.record.entityId);
  }

  /** An update replaces the record that is there, and is refused otherwise. */
  lemma UpdateReplaces(m: Records, doc: Document, id: string, now: int)
    requires doc.slug == "registry/record/update" && doc.payload.RecordPayload?
    ensures var (m', o) := Handle(m, doc, id, now);
      var r := doc.payload.record;
      var key := RecordKey(r.authorityId, r.action, r.resource, r.entityId);
      && m' == (if key in m then m[key := r] else m)
      && o == (if key in m then Completed(id, doc.id, Ack) else Rejected(id, doc.id, TaskFailed("not found"), false))
  {
    assert doc.payload.record.Key() == RecordKey(doc.payload.record.authorityId, doc.payload.record.action,
                                                 doc.payload.record.resource, doc.payload.record.entityId);
  }

  /** A delete removes the record that is there, and is refused otherwise. */
  lemma DeleteRemoves(m: Records, doc: Document, id: string, now: int)
    requires doc.slug == "registry/record/delete" && doc.payload.KeyPayload?
    ensures var (m', o) := Handle(m, doc, id, now);
      var key := doc.payload.key;
      && m' == m - {key}
      && o == (if key in m then Completed(id, doc.id, Ack) else Rejected(id, doc.id, TaskFailed("not found"), false))
  {
    assert doc.payload.key !in m ==> m - {doc.payload.key} == m;
  }

  /** A read gives the record under its key, a list all values, and neither changes anything. */
  lemma ReadsGiveWhatIsStored(m: Records, doc: Document, id: string, now: int)
    ensures doc.slug == "registry/record/read" && doc.payload.KeyPayload? ==>
      Handle(m, doc, id, now) == (m,
        if doc.payload.key in m then Completed(id, doc.id, RecordBody(m[doc.payload.key]))
        else Rejected(id, doc.id, TaskFailed("not found"), false))
    ensures doc.slug == "registry/record/list" && doc.payload.EmptyPayload? ==>
      Handle(m, doc, id, now) == (m, Completed(id, doc.id, ListBody(ValuesOf(m))))
  {
  }

  /**
   * A query is answered positively exactly when there is a record under its key whose flag is set,
   * echoes the query and the time asked about, and carries a message exactly when there is a record.
   */
  lemma QueryTellsTheFlag(m: Records, doc: Document, id: string, now: int)
    requires doc.slug in {"registry/recognition", "registry/authorization"} && doc.payload.KeyPayload?
    ensures var (m', o) := Handle(m, doc, id, now);
      var key := doc.payload.key;
      && m' == m && o.Completed? && o.responseId == id && o.threadId == doc.id && o.body.Verdict?
      && o.body.query == key && o.body.requestedAt == doc.payload.time && o.body.evaluatedAt == now
      && (o.body.positive <==> key in m && (if doc.slug == "registry/recognition" then m[key].recognized == Some(true)
                                            else m[key].authorized == Some(true)))
      && o.body.message == (if key !in m then None
           else if doc.slug == "registry/recognition" then Some(m[key].entityId + " recognized by " + m[key].authorityId)
           else Some(m[key].entityId + " authorized to " + m[key].action + "+" + m[key].resource + " by " + m[key].authorityId))
  {
  }

  /** Any other type is unsupported, any payload of another shape malformed, and neither changes anything. */
  lemma OtherwiseRejected(m: Records, doc: Document, id: string, now: int)
    ensures doc.slug !in {"registry/recognition", "registry/authorization", "registry/record/create", "registry/record/update",
                          "registry/record/delete", "registry/record/read", "registry/record/list"} ==>
      Handle(m, doc, id, now) == (m, Rejected(id, doc.id, UnsupportedType, false))
    ensures ((doc.slug in {"registry/record/create", "registry/record/update"} && !doc.payload.RecordPayload?)
             || (doc.slug in {"registry/record/delete", "registry/record/read", "registry/recognition", "registry/authorization"}
                 && !doc.payload.KeyPayload?)
             || (doc.slug == "registry/record/list" && !doc.payload.EmptyPayload?)) ==>
      Handle(m, doc, id, now) == (m, Rejected(id, doc.id, MalformedRequest, false))
  {
  }

  /** Over a backend that can fail, an answer is one not to keep exactly when the backend failed or the value was unreadable. */
  lemma BackendFaultsAreRetryable(cells: Cells, doc: Document, op: Op, fault: Fault, id: string, now: int)
    requires OpOf(doc) == Some(op)
    ensures var answer := FlatStepUnder(cells, op, fault).1;
      var o := OutcomeOf(doc, id, now, answer);
      && (!Cacheable(o) <==> answer == Failed(QueryFailed) || answer == Failed(SerializationFailed))
      && (!Cacheable(o) ==> o == Rejected(id, doc.id, InternalError, true))
  {
  }

  /**
   * Across two documents: what a completed create or update wrote is what a read of its key returns
   * and what the queries tell, and after a completed delete the key reads as not found.
   */
  lemma ReadAfterWrite(m: Records, write: Document, read: Document, id: string, readId: string, now: int, later: int)
    requires write.slug in {"registry/record/create", "registry/record/update", "registry/record/delete"}
    requires Handle(m, write, id, now).1.Completed? && read.payload.KeyPayload?
    requires if write.slug == "registry/record/delete" then write.payload.KeyPayload? && read.payload.key == write.payload.key
             else write.payload.RecordPayload? && read.payload.key == write.payload.record.Key()
    ensures var o := Handle(Handle(m, write, id, now).0, read, readId, later).1;
      && (read.slug == "registry/record/read" ==>
            if write.slug == "registry/record/delete" then o.Rejected? && o.reason == TaskFailed("not found")
            else o.Completed? && o.body == RecordBody(write.payload.record))
      && (read.slug in {"registry/recognition", "registry/authorization"} ==>
            o.Completed? && o.body.Verdict?
            && o.body.positive == (write.slug != "registry/record/delete"
                  && (if read.slug == "registry/recognition" then write.payload.record.recognized == Some(true)
                      else write.payload.record.authorized == Some(true))))
  {
    var m' := Handle(m, write, id, now).0;
    if write.slug == "registry/record/create" {
      CreateAdds(m, write, id, now);
    } else if write.slug == "registry/record/update" {
      UpdateReplaces(m, write, id, now);
    } else {
      DeleteRemoves(m, write, id, now);
    }
    ReadsGiveWhatIsStored(m', read, readId, later);
    if read.slug in {"registry/recognition", "registry/authorization"} {
      QueryTellsTheFlag(m', read, readId, later);
    }
  }
}
