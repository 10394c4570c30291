/**
 * What a sender is told, and what has happened then, from the fields of the message alone: the checks of
 * the DIDComm and TSP bindings, the types each surface serves, and what every type does on the server.
 */
module Answers {
  import opened Domain
  import opened Storage
  import opened Keys
  import opened Tasks
  import opened Dedup
  import opened Capabilities
  import opened GitTrust
  import opened Bindings
  import opened BindingRuns
  import Redelivery

  // ------------------------------------------------ the checks

  /** The document would mutate the registry: one of the eight types that take a proof and an administrator. */
  predicate Mutates(doc: Document) {
    doc.slug in {"registry/record/create", "registry/record/update", "registry/record/delete", "registry/did/rotate",
                 "governance/capability/enable", "governance/capability/disable", "git-trust/grant", "git-trust/revoke"}
  }

  /** Over DIDComm and TSP, reads included: what it takes to get past the checks. */
  predicate Passes(p: Policy, i: Inbound) {
    && p.partiesAgree(i.Doc(), i.Sender()) && p.timely(i.Doc(), i.delivery.claimedAt)
    && (Mutates(i.Doc()) ==> i.Doc().hasProof && p.proofHolds(i.Doc()) && (exists a :: a in p.adminDids && Some(a) == i.Sender()))
  }

  /** The checks let a message through exactly then. */
  lemma PassesIff(p: Policy, i: Inbound)
    requires !i.transport.Http?
    ensures Refusal(p, i).None? <==> Passes(p, i)
  {
    if i.transport.sender in p.adminDids {
      assert Some(i.transport.sender) == i.Sender();
    }
  }

  /** Otherwise the sender is told which check failed first, finally, and nothing else happens. */
  lemma FirstFailingCheckAnswers(p: Policy, s: Registry, i: Inbound, w: Windows)
    requires !i.transport.Http? && !Passes(p, i)
    ensures var (s', o) := Receive(p, s, i, w);
      && s' == s && o.Rejected? && !o.retryable && o.threadId == i.Doc().id && o.responseId == i.delivery.responseId
      && (o.reason == PartyMismatch <==> !p.partiesAgree(i.Doc(), i.Sender()))
      && (o.reason == NotFresh <==> p.partiesAgree(i.Doc(), i.Sender()) && !p.timely(i.Doc(), i.delivery.claimedAt))
      && (o.reason in {ProofRequired, PermissionDenied, ProofInvalid} <==>
            p.partiesAgree(i.Doc(), i.Sender()) && p.timely(i.Doc(), i.delivery.claimedAt))
      && (o.reason in {ProofRequired, PermissionDenied, ProofInvalid} ==>
            && Mutates(i.Doc())
            && (o.reason == ProofRequired <==> !i.Doc().hasProof)
            && (o.reason == PermissionDenied <==> i.Doc().hasProof && forall a :: a in p.adminDids ==> Some(a) != i.Sender())
            && (o.reason == ProofInvalid ==> !p.proofHolds(i.Doc())))
  {
    PassesIff(p, i);
  }

  // ------------------------------------------------ the types served

  /** The admin dispatcher in full: the record types, the governance types, and git-trust while it is on. */
  lemma AdminSurface(live: Live, slug: string)
    requires Coherent(live)
    ensures slug in live.admin <==>
      slug in {"registry/recognition", "registry/authorization", "registry/record/create", "registry/record/update",
               "registry/record/delete", "registry/record/read", "registry/record/list", "governance/capability/list",
               "governance/capability/enable", "governance/capability/disable"}
      || (slug in {"git-trust/grant", "git-trust/revoke"} && IsOn(live.saved, NAME))
  {
    ComposedOf(live.saved);
    GitPartOnly(BASE + Governance(true), live.saved, slug);
  }

  /** Both surfaces answer the two queries, and the admin surface all record types, from the record store. */
  lemma RecordsServed(s: Registry, i: Inbound, admin: bool)
    requires Coherent(s.live) && RecordSlug(i.Doc().slug)
    requires admin || i.Doc().slug in {"registry/recognition", "registry/authorization"}
    ensures var (m, o) := Handle(s.records, i.Doc(), i.delivery.responseId, i.delivery.handledAt);
      ServeOver(if admin then s.live.admin else s.live.query, s, i) == (s.(records := m), o)
  {
    if admin {
      AdminServesRecords(s.live, i.Doc().slug);
    } else {
      QuerySurface(s.live, i.Doc().slug);
    }
  }

  /** A type that mutates nothing is brought straight to its handler, past the claims. */
  lemma ReadsAreDispatched(p: Policy, s: Registry, i: Inbound, w: Windows)
    requires !i.transport.Http? && Passes(p, i) && !Mutates(i.Doc())
    ensures Receive(p, s, i, w) == ServeOver(s.live.admin, s, i)
  {
    PassesIff(p, i);
  }

  /**
   * From any registry and over any of the three bindings: a recognition or authorization query that
   * gets past the checks is told what the record store holds under its four fields, and changes nothing.
   */
  lemma QueriesAreAnswered(p: Policy, s: Registry, i: Inbound, w: Windows)
    requires Coherent(s.live) && i.Doc().slug in {"registry/recognition", "registry/authorization"} && i.Doc().payload.KeyPayload?
    requires p.partiesAgree(i.Doc(), i.Sender()) && p.timely(i.Doc(), i.delivery.claimedAt)
    ensures var (s', o) := Receive(p, s, i, w);
      var key := i.Doc().payload.key;
      && s' == s && o.Completed? && o.threadId == i.Doc().id && o.responseId == i.delivery.responseId
      && o.body.Verdict? && o.body.query == key && o.body.requestedAt == i.Doc().payload.time
      && o.body.evaluatedAt == i.delivery.handledAt
      && (o.body.positive <==> key in s.records && (if i.Doc().slug == "registry/recognition"
            then s.records[key].recognized == Some(true) else s.records[key].authorized == Some(true)))
  {
    QueryTellsTheFlag(s.records, i.Doc(), i.delivery.responseId, i.delivery.handledAt);
    RecordsServed(s, i, !i.transport.Http?);
    if !i.transport.Http? {
      assert Passes(p, i);
      ReadsAreDispatched(p, s, i, w);
    }
  }

  /** Over DIDComm and TSP a read gives the record under its key and a list all values; over HTTP both are unsupported. */
  lemma ReadsAreAnswered(p: Policy, s: Registry, i: Inbound, w: Windows)
    requires Coherent(s.live)
    requires p.partiesAgree(i.Doc(), i.Sender()) && p.timely(i.Doc(), i.delivery.claimedAt)
    requires (i.Doc().slug == "registry/record/read" && i.Doc().payload.KeyPayload?)
          || (i.Doc().slug == "registry/record/list" && i.Doc().payload.EmptyPayload?)
    ensures var id := i.delivery.responseId;
      Receive(p, s, i, w) == (s,
        if i.transport.Http? then Rejected(id, i.Doc().id, UnsupportedType, false)
        else if i.Doc().slug == "registry/record/list" then Completed(id, i.Doc().id, ListBody(MapValues.ValuesOf(s.records)))
        else if i.Doc().payload.key in s.records then Completed(id, i.Doc().id, RecordBody(s.records[i.Doc().payload.key]))
        else Rejected(id, i.Doc().id, TaskFailed("not found"), false))
  {
    if i.transport.Http? {
      QuerySurface(s.live, i.Doc().slug);
    } else {
      ReadsGiveWhatIsStored(s.records, i.Doc(), i.delivery.responseId, i.delivery.handledAt);
      RecordsServed(s, i, true);
      ReadsAreDispatched(p, s, i, w);
    }
  }

  /** Nothing is remembered under the message's key, or no longer; or the claim store is down. */
  predicate ClaimFree(s: Registry, i: Inbound, w: Windows) {
    var key := MessageKey(i.Doc().issuer, i.Doc().id);
    i.storeUp && key in s.entries ==>
      match s.entries[key]
      case Done(_, expiresAt) => expiresAt <= i.delivery.claimedAt
      case InFlight(since) => i.delivery.claimedAt - since >= w.inFlight
  }

  /** No handler looks at the claims. */
  lemma ServingIgnoresClaims(d: Dispatcher, s: Registry, i: Inbound, claimed: Entries)
    ensures var (served, answer) := ServeOver(d, s, i);
      ServeOver(d, s.(entries := claimed), i) == (served.(entries := claimed), answer)
  {
  }

  /** A mutating document past the checks, with its claim free, is brought to its handler on the admin surface. */
  lemma WritesAreDispatched(p: Policy, s: Registry, i: Inbound, w: Windows)
    requires Passes(p, i) && !i.transport.Http? && Mutates(i.Doc()) && ClaimFree(s, i, w)
    requires !(i.transport.DidComm? && i.Doc().slug == "registry/did/rotate")
    ensures var (s', o) := Receive(p, s, i, w);
      var (served, answer) := ServeOver(s.live.admin, s, i);
      s' == served.(entries := s'.entries) && o == answer
      && (i.storeUp && Cacheable(o) ==> s'.entries[MessageKey(i.Doc().issuer, i.Doc().id)] == Entry.Done(o, i.delivery.resolvedAt + w.ttl))
  {
    PassesIff(p, i);
    var claimed := Redelivery.Admit(s.entries, i.delivery, w, i.storeUp).0;
    ServingIgnoresClaims(s.live.admin, s, i, claimed);
  }

  /**
   * A create, update or delete past the checks with its claim free: a create stores its record exactly
   * when the key was free, an update and a delete act exactly when it was not, and nothing else changes.
   */
  lemma RecordWritesAreCarriedOut(p: Policy, s: Registry, i: Inbound, w: Windows, key: RecordKey)
    requires Coherent(s.live) && Passes(p, i) && !i.transport.Http? && ClaimFree(s, i, w)
    requires if i.Doc().slug == "registry/record/delete" then i.Doc().payload.KeyPayload? && i.Doc().payload.key == key
             else i.Doc().slug in {"registry/record/create", "registry/record/update"} && i.Doc().payload.RecordPayload?
                  && i.Doc().payload.record.Key() == key
    ensures var (s', o) := Receive(p, s, i, w);
      var acts := (key in s.records) == (i.Doc().slug != "registry/record/create");
      && o == (if acts then Completed(i.delivery.responseId, i.Doc().id, Ack)
               else Rejected(i.delivery.responseId, i.Doc().id,
                      TaskFailed(if key in s.records then "already exists" else "not found"), false))
      && s'.records == (if !acts then s.records
                        else if i.Doc().slug == "registry/record/delete" then s.records - {key}
                        else s.records[key := i.Doc().payload.record])
      && s'.live == s.live && s'.rotations == s.rotations
  {
    var doc, id, now := i.Doc(), i.delivery.responseId, i.delivery.handledAt;
    WritesAreDispatched(p, s, i, w);
    RecordsServed(s, i, true);
    if doc.slug == "registry/record/create" {
      CreateAdds(s.records, doc, id, now);
    } else if doc.slug == "registry/record/update" {
      UpdateReplaces(s.records, doc, id, now);
    } else {
      DeleteRemoves(s.records, doc, id, now);
    }
  }

  // ------------------------------------------------ enabling and disabling git-trust by document

  /** The config names the community's authority DID. */
  predicate NamesAuthority(config: map<string, Json>) {
    "authority" in config && config["authority"].Str? && "did:" <= config["authority"].s
  }

  predicate SwitchedOn(states: States, name: string) {
    name in states && states[name].enabled
  }

  lemma AdminGovernance(live: Live)
    requires Coherent(live)
    ensures "governance/capability/enable" in live.admin && live.admin["governance/capability/enable"] == EnableHandler
    ensures "governance/capability/disable" in live.admin && live.admin["governance/capability/disable"] == DisableHandler
    ensures "governance/capability/list" in live.admin && live.admin["governance/capability/list"] == ListHandler
  {
    ComposedOf(live.saved);
    GitPartOnly(BASE + Governance(true), live.saved, "governance/capability/enable");
    GitPartOnly(BASE + Governance(true), live.saved, "governance/capability/disable");
    GitPartOnly(BASE + Governance(true), live.saved, "governance/capability/list");
  }

  lemma OnlyGitIsOffered(name: string)
    ensures ServerHost().Lookup(name) == if name == "git-trust" then Some(GitDefinition()) else None
  {
    var rest := ServerHost().available[1..];
    assert rest == [] && LookupIn(rest, name) == None;
  }

  /** On any host: an enable document with an empty config saves an entry without one, any other config is saved as it is. */
  lemma ConfigIsSavedAsGiven(host: Host, states: States, name: string, version: string, config: map<string, Json>, now: int,
                             delegate: Option<string>)
    ensures var next := EnableIn(host, states, name, version, ConfigOf(config), now, delegate);
      next.Ok? ==> name in next.value && next.value[name].config == (if |config| == 0 then None else Some(Obj(config)))
  {
    assert |config| == 0 <==> config == map[];
  }

  /** Why an enable document is refused, told from its own fields, what memory holds, and how the save ends. */
  function EnableRefusal(states: States, name: string, config: map<string, Json>, end: SaveEnd): Option<Reason> {
    if name != "git-trust" then Some(TaskFailed("unknown_capability"))
    else if !NamesAuthority(config) then Some(MalformedRequest)
    else if SwitchedOn(states, "git-trust") then Some(TaskFailed("already_enabled"))
    else if !end.SaveDone? then Some(InternalError)
    else None
  }

  /** The same, of the change a document asks for on the server's host. */
  lemma EnableOnServer(states: States, name: string, version: string, config: map<string, Json>, now: int, delegate: Option<string>)
    ensures EnableIn(ServerHost(), states, name, version, ConfigOf(config), now, delegate) ==
      if name != "git-trust" then Err(UnknownCapability)
      else if !NamesAuthority(config) then Err(ConfigInvalid)
      else if SwitchedOn(states, "git-trust") then Err(AlreadyEnabled)
      else Ok(states["git-trust" := CapabilityState(version, true, Some(Obj(config)), now, delegate)])
  {
    OnlyGitIsOffered(name);
    assert !NamesAuthority(map[]);
  }

  /**
   * An enable document completes exactly when it names git-trust, its config an authority DID, git-trust
   * is not on in memory, and the save is done; then memory and file hold its config, version and delegate
   * as enabled from then on. Otherwise the first of these that fails answers, and only a failed save,
   * which may be retried, leaves anything behind: the change, in memory.
   */
  lemma EnableIsAnswered(s: Registry, i: Inbound)
    requires Coherent(s.live) && i.Doc().slug == "governance/capability/enable" && i.Doc().payload.EnablePayload?
    ensures var (s', o) := ServeOver(s.live.admin, s, i);
      var EnablePayload(name, version, config, delegate) := i.Doc().payload;
      var refusal := EnableRefusal(s.live.states, name, config, i.saveEnd);
      var entry := CapabilityState(version, true, Some(Obj(config)), i.delivery.handledAt, delegate);
      && o == (match refusal
               case Some(reason) => Rejected(i.delivery.responseId, i.Doc().id, reason, reason == InternalError)
               case None => Completed(i.delivery.responseId, i.Doc().id, EnabledBody("git-trust", version, i.delivery.handledAt)))
      && s'.live.states == (if refusal in {None, Some(InternalError)} then s.live.states["git-trust" := entry] else s.live.states)
      && s'.live.saved == (if refusal == None then s'.live.states else s.live.saved)
      && s'.records == s.records && s'.entries == s.entries
  {
    var EnablePayload(name, version, config, delegate) := i.Doc().payload;
    AdminGovernance(s.live);
    EnableOnServer(s.live.states, name, version, config, i.delivery.handledAt, delegate);
  }

  /** A disable document completes exactly when the named capability is on in memory and the save is done. */
  lemma DisableIsAnswered(s: Registry, i: Inbound)
    requires Coherent(s.live) && i.Doc().slug == "governance/capability/disable" && i.Doc().payload.DisablePayload?
    ensures var (s', o) := ServeOver(s.live.admin, s, i);
      var name := i.Doc().payload.name;
      && o == (if !SwitchedOn(s.live.states, name) then
                 Rejected(i.delivery.responseId, i.Doc().id, TaskFailed("not_enabled"), false)
               else if !i.saveEnd.SaveDone? then Rejected(i.delivery.responseId, i.Doc().id, InternalError, true)
               else Completed(i.delivery.responseId, i.Doc().id, DisabledBody(name)))
      && s'.live.states == (if SwitchedOn(s.live.states, name)
                            then s.live.states[name := s.live.states[name].(enabled := false)] else s.live.states)
      && s'.live.saved == (if o.Completed? then s'.live.states else s.live.saved)
      && s'.records == s.records && s'.entries == s.entries
  {
    AdminGovernance(s.live);
  }

  /** A payload of another shape than its type's is malformed, finally, wherever the type is served, and changes nothing. */
  lemma OtherShapesAreMalformed(s: Registry, i: Inbound, admin: bool)
    requires Coherent(s.live) && i.Doc().slug in (if admin then s.live.admin else s.live.query)
    requires match i.Doc().slug
      case "governance/capability/enable" => !i.Doc().payload.EnablePayload?
      case "governance/capability/disable" => !i.Doc().payload.DisablePayload?
      case "governance/capability/list" => !i.Doc().payload.StatusPayload?
      case _ => i.Doc().slug in {"git-trust/grant", "git-trust/revoke"} && !i.Doc().payload.GitPayload?
    ensures ServeOver(if admin then s.live.admin else s.live.query, s, i)
      == (s, Rejected(i.delivery.responseId, i.Doc().id, MalformedRequest, false))
  {
    CoherentWellRouted(s.live);
  }

  /** Either surface carries out grants under the authority of the saved config while git-trust is saved as on. */
  lemma GrantsAreServed(s: Registry, i: Inbound, admin: bool, authority: string)
    requires Coherent(s.live) && SwitchedOn(s.live.saved, "git-trust")
    requires s.live.saved["git-trust"].config.Some? && s.live.saved["git-trust"].config.value.Obj?
    requires var config := s.live.saved["git-trust"].config.value.fields;
      NamesAuthority(config) && config["authority"].s == authority
    requires i.Doc().slug in {"git-trust/grant", "git-trust/revoke"} && i.Doc().payload.GitPayload?
    ensures var (m, o) := if i.Doc().slug == "git-trust/grant"
              then Grant(s.records, Some(authority), i.Doc(), i.delivery.responseId)
              else Revoke(s.records, Some(authority), i.Doc(), i.delivery.responseId);
      ServeOver(if admin then s.live.admin else s.live.query, s, i) == (s.(records := m), o)
  {
    if admin {
      ComposedOf(s.live.saved);
      GitPartOnly(BASE + Governance(true), s.live.saved, i.Doc().slug);
    } else {
      QuerySurface(s.live, i.Doc().slug);
    }
  }

  /** While it is saved as off, or not at all, neither surface knows them. */
  lemma GrantsAreUnsupported(s: Registry, i: Inbound, admin: bool)
    requires Coherent(s.live) && !SwitchedOn(s.live.saved, "git-trust")
    requires i.Doc().slug in {"git-trust/grant", "git-trust/revoke"}
    ensures ServeOver(if admin then s.live.admin else s.live.query, s, i)
      == (s, Rejected(i.delivery.responseId, i.Doc().id, UnsupportedType, false))
  {
    if admin {
      AdminSurface(s.live, i.Doc().slug);
    } else {
      QuerySurface(s.live, i.Doc().slug);
    }
  }

  /**
   * From enabling to the verdict: after an enable document has completed, a grant of a tuple with no
   * record completes on either surface, and the authorization query for its subject, on its resource,
   * under the authority of that very config, turns positive.
   */
  lemma EnableGrantQuery(s: Registry, on: Inbound, grant: Inbound, query: Inbound, admin: bool)
    requires Coherent(s.live) && on.Doc().slug == "governance/capability/enable" && on.Doc().payload.EnablePayload?
    requires ServeOver(s.live.admin, s, on).1.Completed?
    requires grant.Doc().slug == "git-trust/grant" && grant.Doc().payload.GitPayload?
    requires query.Doc().slug == "registry/authorization" && NamesAuthority(on.Doc().payload.config)
    requires AsksAbout(query.Doc(), on.Doc().payload.config["authority"].s, grant.Doc().payload.subject, grant.Doc().payload.repo)
    requires query.Doc().payload.key !in s.records
    ensures var s1 := ServeOver(s.live.admin, s, on).0;
      var (s2, granted) := ServeOver(if admin then s1.live.admin else s1.live.query, s1, grant);
      var answer := ServeOver(if admin then s2.live.admin else s2.live.query, s2, query).1;
      granted.Completed? && answer.Completed? && answer.body.Verdict? && answer.body.positive
  {
    EnableIsAnswered(s, on);
    var s1 := ServeOver(s.live.admin, s, on).0;
    ServeStaysCoherent(s.live.admin, s, on);
    var authority := on.Doc().payload.config["authority"].s;
    GrantsAreServed(s1, grant, admin, authority);
    GrantThenQuery(s1.records, authority, grant.Doc(), grant.delivery.responseId,
                   query.Doc(), query.delivery.responseId, query.delivery.handledAt);
    var s2 := ServeOver(if admin then s1.live.admin else s1.live.query, s1, grant).0;
    RecordsServed(s2, query, admin);
    QueryTellsTheFlag(s2.records, query.Doc(), query.delivery.responseId, query.delivery.handledAt);
  }

  /** After a completed disable no grant or revoke is served on either surface, and the records stay. */
  lemma DisableStopsGrants(s: Registry, off: Inbound, later: Inbound, admin: bool)
    requires Coherent(s.live) && off.Doc().slug == "governance/capability/disable" && off.Doc().payload == DisablePayload("git-trust")
    requires ServeOver(s.live.admin, s, off).1.Completed? && later.Doc().slug in {"git-trust/grant", "git-trust/revoke"}
    ensures var s1 := ServeOver(s.live.admin, s, off).0;
      s1.records == s.records
      && ServeOver(if admin then s1.live.admin else s1.live.query, s1, later)
           == (s1, Rejected(later.delivery.responseId, later.Doc().id, UnsupportedType, false))
  {
    DisableIsAnswered(s, off);
    ServeStaysCoherent(s.live.admin, s, off);
    GrantsAreUnsupported(ServeOver(s.live.admin, s, off).0, later, admin);
  }

  /** What a listing shows of git-trust: nothing, or one entry with its manifest, state, and time while it is on. */
  lemma ListingIsAnswered(s: Registry, i: Inbound, admin: bool)
    requires Coherent(s.live) && i.Doc().slug == "governance/capability/list" && i.Doc().payload.StatusPayload?
    ensures var status := i.Doc().payload.status;
      var on := SwitchedOn(s.live.states, "git-trust");
      var known := "git-trust" in s.live.states;
      var manifest := Obj(map["capability" := Str("git-trust"), "version" := Str("0.1")]);
      var entry := ListedEntry(manifest, on, if on then Some(s.live.states["git-trust"].enabledAt) else None,
                               if known then s.live.states["git-trust"].delegate else None);
      ServeOver(if admin then s.live.admin else s.live.query, s, i) == (s, Completed(i.delivery.responseId, i.Doc().id,
        CapabilitiesBody(
          if status == Some("available") then (if on then [] else [entry])
          else if status in {None, Some("enabled")} then (if on then [entry] else [])
          else [entry])))
  {
    if admin {
      AdminGovernance(s.live);
    } else {
      QuerySurface(s.live, i.Doc().slug);
    }
    ListedForGit(s.live.states, i.Doc().payload.status);
    ShownOne(ListedAs(GitDefinition(), s.live.states));
  }

  lemma ShownOne(e: Listed)
    ensures Shown([]) == []
    ensures Shown([e]) == [ListedEntry(e.manifest, e.On(), if e.On() then Some(e.state.value.enabledAt) else None,
                                       if e.state.Some? then e.state.value.delegate else None)]
  {
  }

  lemma ListedForGit(states: States, status: Option<string>)
    ensures var on := SwitchedOn(states, "git-trust");
      var entry := ListedAs(GitDefinition(), states);
      ListedFor(states, status) == Shown(
          if status == Some("available") then (if on then [] else [entry])
          else if status in {None, Some("enabled")} then (if on then [entry] else [])
          else [entry])
  {
    var defs := ServerHost().available;
    var all := Capabilities.Listing(defs, states, (if status.Some? then status.value else "enabled") != "enabled");
    assert defs[..0] == [] && Capabilities.Listing(defs[..0], states, true) == [] && Capabilities.Listing(defs[..0], states, false) == [];
    assert |all| == 1 ==> all[..0] == [] && NotEnabledIn(all[..0]) == [];
    assert NotEnabledIn([]) == [];
  }

  // ------------------------------------------------ rotation

  /**
   * A rotation past the checks: over DIDComm the key service is asked, if it is built in and the payload
   * has the registered shape, and answers; over TSP, where the dispatcher does not know it, it is unsupported.
   */
  lemma RotationIsAnswered(p: Policy, s: Registry, i: Inbound, w: Windows)
    requires Coherent(s.live) && Passes(p, i) && !i.transport.Http? && i.Doc().slug == "registry/did/rotate" && ClaimFree(s, i, w)
    ensures var (s', o) := Receive(p, s, i, w);
      var id := i.delivery.responseId;
      var asked := i.transport.DidComm? && p.canRotate && i.Doc().payload.RotatePayload?;
      && s'.records == s.records && s'.live == s.live
      && s'.rotations == s.rotations + (if asked then 1 else 0)
      && o == (if i.transport.Tsp? then Rejected(id, i.Doc().id, UnsupportedType, false)
               else if !p.canRotate then Rejected(id, i.Doc().id, TaskFailed("unavailable"), false)
               else if !i.Doc().payload.RotatePayload? then Rejected(id, i.Doc().id, MalformedRequest, false)
               else if i.rotated.None? then Rejected(id, i.Doc().id, TaskFailed("rotation"), false)
               else Completed(id, i.Doc().id, RotatedBody(i.rotated.value)))
  {
    PassesIff(p, i);
    if i.transport.Tsp? {
      WritesAreDispatched(p, s, i, w);
      AdminSurface(s.live, "registry/did/rotate");
    }
  }
}
