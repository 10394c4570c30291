/** What runs of messages over all three bindings can change, and what a repeated message is answered. */
module BindingRuns {
  import opened Domain
  import opened Storage
  import opened Tasks
  import opened Dedup
  import opened Capabilities
  import opened GitTrust
  import opened Bindings
  import Redelivery

  // ------------------------------------------------ the two live dispatchers

  /** Both dispatchers are composed from the saved state; memory may be ahead of it. */
  predicate Coherent(live: Live) {
    live == Started(ServerHost(), live.saved).(states := live.states)
  }

  /** What git-trust adds to either dispatcher. */
  function GitPart(saved: States): Dispatcher {
    if IsOn(saved, NAME) then Contribute(saved[NAME]) else map[]
  }

  /** Whatever is saved, the server's dispatchers are the base, the governance surface and git-trust when it is on. */
  lemma ComposedOf(saved: States)
    ensures Started(ServerHost(), saved).admin == BASE + Governance(true) + GitPart(saved)
    ensures Started(ServerHost(), saved).query == BASE_QUERY + Governance(false) + GitPart(saved)
  {
    RegisteredGit(BASE + Governance(true), saved);
    RegisteredGit(BASE_QUERY + Governance(false), saved);
  }

  lemma RegisteredGit(d: Dispatcher, saved: States)
    ensures Registered(d, [GitDefinition()], saved) == d + GitPart(saved)
  {
    assert [GitDefinition()][..0] == [];
    assert Registered(d, [], saved) == d;
    assert d + map[] == d;
  }

  predicate RoutesTo(slug: string, h: Handler) {
    match h
    case RecordHandler => RecordSlug(slug)
    case ListHandler => slug == CAPABILITY_LIST
    case EnableHandler => slug == CAPABILITY_ENABLE
    case DisableHandler => slug == CAPABILITY_DISABLE
    case GrantHandler(_) => slug == GIT_GRANT
    case RevokeHandler(_) => slug == GIT_REVOKE
    case OtherHandler(_, _) => false
  }

  ghost predicate WellRouted(d: Dispatcher) {
    forall slug :: slug in d ==> RoutesTo(slug, d[slug])
  }

  lemma PartsWellRouted(admin: bool, saved: States)
    ensures WellRouted(BASE) && WellRouted(BASE_QUERY) && WellRouted(Governance(admin)) && WellRouted(GitPart(saved))
  {
  }

  /** Whatever is saved, each type reaches only its own handler, on both dispatchers. */
  lemma CoherentWellRouted(live: Live)
    requires Coherent(live)
    ensures WellRouted(live.admin) && WellRouted(live.query)
  {
    ComposedOf(live.saved);
    PartsWellRouted(true, live.saved);
    PartsWellRouted(false, live.saved);
  }

  /** git-trust is on and its saved configuration yields an authority. */
  predicate GitOn(saved: States) {
    IsOn(saved, NAME) && AuthorityOf(saved[NAME]).Some?
  }

  lemma BaseSurfaces(slug: string)
    ensures slug in BASE_QUERY + Governance(false) <==> slug in {RECOGNITION, AUTHORIZATION, CAPABILITY_LIST}
    ensures slug in {RECOGNITION, AUTHORIZATION} ==> (BASE_QUERY + Governance(false))[slug] == RecordHandler
    ensures slug == CAPABILITY_LIST ==> (BASE_QUERY + Governance(false))[slug] == ListHandler
    ensures RecordSlug(slug) ==> slug in BASE + Governance(true) && (BASE + Governance(true))[slug] == RecordHandler
  {
  }

  lemma GitPartOnly(d: Dispatcher, saved: States, slug: string)
    ensures slug in GitPart(saved) <==> IsOn(saved, NAME) && slug in {GIT_GRANT, GIT_REVOKE}
    ensures slug in GitPart(saved) ==> slug in d + GitPart(saved) && (d + GitPart(saved))[slug] == GitPart(saved)[slug]
    ensures slug !in GitPart(saved) ==>
      (slug in d + GitPart(saved) <==> slug in d) && (slug in d ==> (d + GitPart(saved))[slug] == d[slug])
    ensures GIT_GRANT in GitPart(saved) ==> GitPart(saved)[GIT_GRANT] == GrantHandler(AuthorityOf(saved[NAME]))
    ensures GIT_REVOKE in GitPart(saved) ==> GitPart(saved)[GIT_REVOKE] == RevokeHandler(AuthorityOf(saved[NAME]))
  {
  }

  /** Slugs of git-trust are no others. */
  lemma GitSlugsApart(slug: string)
    ensures slug in {GIT_GRANT, GIT_REVOKE} ==>
      !RecordSlug(slug) && slug !in {RECOGNITION, AUTHORIZATION, CAPABILITY_LIST}
  {
  }

  /** The query dispatcher in full: the two queries, the listing, and git-trust while it is on. */
  lemma QuerySurface(live: Live, slug: string)
    requires Coherent(live)
    ensures slug in live.query <==>
      slug in {RECOGNITION, AUTHORIZATION, CAPABILITY_LIST} || (slug in {GIT_GRANT, GIT_REVOKE} && IsOn(live.saved, NAME))
    ensures slug in {RECOGNITION, AUTHORIZATION} ==> live.query[slug] == RecordHandler
    ensures slug == CAPABILITY_LIST ==> live.query[slug] == ListHandler
    ensures slug == GIT_GRANT && slug in live.query ==> live.query[slug] == GrantHandler(AuthorityOf(live.saved[NAME]))
    ensures slug == GIT_REVOKE && slug in live.query ==> live.query[slug] == RevokeHandler(AuthorityOf(live.saved[NAME]))
  {
    ComposedOf(live.saved);
    BaseSurfaces(slug);
    GitSlugsApart(slug);
    GitPartOnly(BASE_QUERY + Governance(false), live.saved, slug);
  }

  // ------------------------------------------------ every message keeps the dispatchers coherent

  lemma InvokeStaysCoherent(h: Handler, s: Registry, i: Inbound)
    requires Coherent(s.live)
    ensures Coherent(Invoke(h, s, i).0.live)
    ensures Invoke(h, s, i).0.entries == s.entries && Invoke(h, s, i).0.rotations == s.rotations
  {
  }

  lemma ServeStaysCoherent(d: Dispatcher, s: Registry, i: Inbound)
    requires Coherent(s.live)
    ensures Coherent(ServeOver(d, s, i).0.live)
    ensures ServeOver(d, s, i).0.entries == s.entries && ServeOver(d, s, i).0.rotations == s.rotations
  {
    if i.Doc().slug in d {
      InvokeStaysCoherent(d[i.Doc().slug], s, i);
    }
  }

  lemma ReceiveStaysCoherent(p: Policy, s: Registry, i: Inbound, w: Windows)
    requires Coherent(s.live)
    ensures Coherent(Receive(p, s, i, w).0.live)
  {
    var claimed := Redelivery.Admit(s.entries, i.delivery, w, i.storeUp).0;
    ServeStaysCoherent(s.live.query, s, i);
    ServeStaysCoherent(s.live.admin, s.(entries := claimed), i);
  }

  // ------------------------------------------------ DIDComm and TSP: only admitted writes

  /** The checks pass a write exactly when it is admitted, in whatever order they are made. */
  lemma RefusedIffNotAdmitted(p: Policy, i: Inbound)
    requires i.Doc().IsWrite() && !i.transport.Http?
    ensures Refusal(p, i).None? <==> AdmittedWrite(p, i)
  {
  }

  lemma ReadOnlyHandlers(h: Handler, s: Registry, i: Inbound)
    requires RoutesTo(i.Doc().slug, h) && !i.Doc().IsWrite()
    ensures Invoke(h, s, i).0 == s
  {
    ReadsChangeNothing(s.records, i.Doc(), i.delivery.responseId, i.delivery.handledAt);
  }

  /** Over DIDComm and TSP, anything but an admitted write leaves the whole registry as it was. */
  lemma OnlyAdmittedWritesChange(p: Policy, s: Registry, i: Inbound, w: Windows)
    requires Coherent(s.live) && !i.transport.Http? && !AdmittedWrite(p, i)
    ensures Receive(p, s, i, w).0 == s
  {
    CoherentWellRouted(s.live);
    if i.Doc().IsWrite() {
      RefusedIffNotAdmitted(p, i);
    } else if i.Doc().slug in s.live.admin {
      ReadOnlyHandlers(s.live.admin[i.Doc().slug], s, i);
    }
  }

  // ------------------------------------------------ HTTP: git-trust, while it is on

  /** A posted git-trust document that passes the framework checks while git-trust is on. */
  predicate PostedGitWrite(p: Policy, s: Registry, i: Inbound) {
    && i.transport.Http? && Untrusted(p, i).None?
    && i.Doc().slug in {GIT_GRANT, GIT_REVOKE} && GitOn(s.live.saved)
  }

  /** The tuple a git-trust document is about. */
  function TupleOf(s: Registry, doc: Document): RecordKey
    requires GitOn(s.live.saved) && doc.payload.GitPayload?
  {
    TupleKey(AuthorityOf(s.live.saved[NAME]).value, doc.payload.subject, doc.payload.repo)
  }

  /** It would change the tuple's record: a grant of an absent one, a revoke of one it leaves different. */
  predicate ChangesTuple(m: Records, slug: string, key: RecordKey) {
    if slug == GIT_GRANT then key !in m else key in m && RevokedRecord(key, m[key]) != m[key]
  }

  /** A posted document changes something exactly when it is such a write and would change its tuple. */
  lemma PostedChangesIff(p: Policy, s: Registry, i: Inbound, w: Windows)
    requires Coherent(s.live) && i.transport.Http?
    ensures Receive(p, s, i, w).0 != s <==>
      PostedGitWrite(p, s, i) && i.Doc().payload.GitPayload? && ChangesTuple(s.records, i.Doc().slug, TupleOf(s, i.Doc()))
  {
    QuerySurface(s.live, i.Doc().slug);
    ReadsChangeNothing(s.records, i.Doc(), i.delivery.responseId, i.delivery.handledAt);
    if PostedGitWrite(p, s, i) && i.Doc().payload.GitPayload? {
      PostedGitEffect(p, s, i, w);
    }
  }

  /** And then it changes that record only: no claim, no capability, no other tuple. */
  lemma PostedGitEffect(p: Policy, s: Registry, i: Inbound, w: Windows)
    requires Coherent(s.live) && PostedGitWrite(p, s, i) && i.Doc().payload.GitPayload?
    ensures var key := TupleOf(s, i.Doc());
      Receive(p, s, i, w).0 == s.(records :=
        if i.Doc().slug == GIT_GRANT then (if key in s.records then s.records else s.records[key := GrantRecord(key)])
        else if key in s.records then s.records[key := RevokedRecord(key, s.records[key])]
        else s.records)
  {
    QuerySurface(s.live, i.Doc().slug);
  }

  lemma PostedElseUnchanged(p: Policy, s: Registry, i: Inbound, w: Windows)
    requires Coherent(s.live) && i.transport.Http? && !PostedGitWrite(p, s, i)
    ensures Receive(p, s, i, w).0 == s
  {
    QuerySurface(s.live, i.Doc().slug);
    ReadsChangeNothing(s.records, i.Doc(), i.delivery.responseId, i.delivery.handledAt);
  }

  /** While git-trust is on, a posted grant needs no proof, no administrator and no claim to be recorded. */
  lemma PostedGrantIsRecorded(p: Policy, s: Registry, i: Inbound, w: Windows)
    requires Coherent(s.live) && PostedGitWrite(p, s, i) && i.Doc().slug == GIT_GRANT && i.Doc().payload.GitPayload?
    requires !i.Doc().hasProof && TupleOf(s, i.Doc()) !in s.records
    ensures var key := TupleOf(s, i.Doc());
      var (s', o) := Receive(p, s, i, w);
      s' == s.(records := s.records[key := GrantRecord(key)]) && o.Completed? && s'.records[key].IsAuthorized()
  {
    QuerySurface(s.live, i.Doc().slug);
    PostedGitEffect(p, s, i, w);
  }

  /** The query surface of a server with this saved state leaves every registry alone, whatever it is asked. */
  ghost predicate QueryReadOnly(saved: States) {
    forall s: Registry, i: Inbound :: Coherent(s.live) && s.live.saved == saved ==> ServeOver(s.live.query, s, i).0 == s
  }

  /** It is read-only exactly while git-trust is off, or on with no authority to act for. */
  lemma QueryReadOnlyIff(saved: States)
    ensures QueryReadOnly(saved) <==> !GitOn(saved)
  {
    if GitOn(saved) {
      var doc := Document("id", None, GIT_GRANT, false, GitPayload("subject", "repo"));
      var i := Inbound(Http, Redelivery.Delivery(doc, "response", 0, 0, 0), true, SaveDone, None);
      var s := Registry(map[], Started(ServerHost(), saved), map[], 0);
      QuerySurface(s.live, GIT_GRANT);
      assert TupleOf(s, doc) in ServeOver(s.live.query, s, i).0.records;
    } else {
      forall s: Registry, i: Inbound | Coherent(s.live) && s.live.saved == saved
        ensures ServeOver(s.live.query, s, i).0 == s
      {
        QuerySurface(s.live, i.Doc().slug);
        ReadsChangeNothing(s.records, i.Doc(), i.delivery.responseId, i.delivery.handledAt);
      }
    }
  }

  // ------------------------------------------------ runs over all three transports

  ghost function ReceiveAll(p: Policy, s: Registry, ins: seq<Inbound>, w: Windows): (Registry, seq<Outcome>)
    decreases |ins|
  {
    if ins == [] then (s, [])
    else
      var (s1, a) := ReceiveAll(p, s, ins[..|ins| - 1], w);
      var (s2, o) := Receive(p, s1, ins[|ins| - 1], w);
      (s2, a + [o])
  }

  lemma {:induction false} RunStaysCoherent(p: Policy, s: Registry, ins: seq<Inbound>, w: Windows)
    requires Coherent(s.live)
    ensures Coherent(ReceiveAll(p, s, ins, w).0.live)
    decreases |ins|
  {
    if ins != [] {
      RunStaysCoherent(p, s, ins[..|ins| - 1], w);
      ReceiveStaysCoherent(p, ReceiveAll(p, s, ins[..|ins| - 1], w).0, ins[|ins| - 1], w);
    }
  }

  /** The messages with a say: admitted writes, and git-trust documents posted while git-trust is on. */
  predicate HasSay(p: Policy, s: Registry, i: Inbound) {
    AdmittedWrite(p, i) || PostedGitWrite(p, s, i)
  }

  lemma OthersChangeNothing(p: Policy, s: Registry, i: Inbound, w: Windows)
    requires Coherent(s.live) && !HasSay(p, s, i)
    ensures Receive(p, s, i, w).0 == s
  {
    if i.transport.Http? {
      PostedElseUnchanged(p, s, i, w);
    } else {
      OnlyAdmittedWritesChange(p, s, i, w);
    }
  }

  /** Whether the last message of a run has a say, where the run has brought the registry. */
  ghost predicate LastHasSay(p: Policy, s: Registry, ins: seq<Inbound>, w: Windows)
    requires ins != []
  {
    HasSay(p, ReceiveAll(p, s, ins[..|ins| - 1], w).0, ins[|ins| - 1])
  }

  /** The run with every other message struck out. */
  ghost function WritesOf(p: Policy, s: Registry, ins: seq<Inbound>, w: Windows): seq<Inbound>
    decreases |ins|
  {
    if ins == [] then []
    else WritesOf(p, s, ins[..|ins| - 1], w) + if LastHasSay(p, s, ins, w) then [ins[|ins| - 1]] else []
  }

  /** The answers that the messages with a say were given. */
  ghost function AnswersToWrites(p: Policy, s: Registry, ins: seq<Inbound>, answers: seq<Outcome>, w: Windows): seq<Outcome>
    requires |answers| == |ins|
    decreases |ins|
  {
    if ins == [] then []
    else
      AnswersToWrites(p, s, ins[..|ins| - 1], answers[..|ins| - 1], w)
        + if LastHasSay(p, s, ins, w) then [answers[|ins| - 1]] else []
  }

  /** The run and its erasure end in the same registry, and what is left of it is answered alike. */
  ghost predicate ErasesTo(p: Policy, s: Registry, ins: seq<Inbound>, w: Windows) {
    var (full, answers) := ReceiveAll(p, s, ins, w);
    && |answers| == |ins|
    && (full, AnswersToWrites(p, s, ins, answers, w)) == ReceiveAll(p, s, WritesOf(p, s, ins, w), w)
    && Coherent(full.live)
  }

  lemma ErasureStep(p: Policy, s: Registry, ins: seq<Inbound>, w: Windows)
    requires ins != [] && ErasesTo(p, s, ins[..|ins| - 1], w)
    ensures ErasesTo(p, s, ins, w)
  {
    var n := |ins| - 1;
    var (before, answers) := ReceiveAll(p, s, ins[..n], w);
    var (after, o) := Receive(p, before, ins[n], w);
    assert (answers + [o])[..n] == answers;
    ReceiveStaysCoherent(p, before, ins[n], w);
    if HasSay(p, before, ins[n]) {
      var kept := WritesOf(p, s, ins, w);
      assert kept[..|kept| - 1] == WritesOf(p, s, ins[..n], w) && kept[|kept| - 1] == ins[n];
    } else {
      OthersChangeNothing(p, before, ins[n], w);
      assert WritesOf(p, s, ins, w) == WritesOf(p, s, ins[..n], w);
      assert AnswersToWrites(p, s, ins, answers + [o], w) == AnswersToWrites(p, s, ins[..n], answers, w);
    }
  }

  /**
   * Over all three transports together: strike out of any run every message but the admitted writes
   * and the git-trust documents posted while git-trust is on, and the records, capability state,
   * dispatchers, claims, rotations and every remaining answer stay the same.
   */
  lemma {:induction false} OnlyAdmittedWritesMatter(p: Policy, s: Registry, ins: seq<Inbound>, w: Windows)
    requires Coherent(s.live)
    ensures ErasesTo(p, s, ins, w)
    decreases |ins|
  {
    if ins != [] {
      OnlyAdmittedWritesMatter(p, s, ins[..|ins| - 1], w);
      ErasureStep(p, s, ins, w);
    }
  }

  /** The registry after the first `k` messages. */
  ghost function After(p: Policy, s: Registry, ins: seq<Inbound>, w: Windows, k: nat): Registry
    requires k <= |ins|
  {
    ReceiveAll(p, s, ins[..k], w).0
  }

  /** A server starts coherent. */
  lemma StartsCoherent(saved: States)
    ensures Coherent(Started(ServerHost(), saved))
  {
  }

  /** So from any start, whatever is stored and saved, with no further assumption. */
  lemma FromStartOnlyWritesMatter(p: Policy, records: Records, saved: States, ins: seq<Inbound>, w: Windows)
    ensures var s := Registry(records, Started(ServerHost(), saved), map[], 0);
      ErasesTo(p, s, ins, w) && Coherent(ReceiveAll(p, s, ins, w).0.live)
  {
    StartsCoherent(saved);
    OnlyAdmittedWritesMatter(p, Registry(records, Started(ServerHost(), saved), map[], 0), ins, w);
  }

  lemma ChangedByOneWithSay(p: Policy, s: Registry, ins: seq<Inbound>, w: Windows, i: nat)
    requires Coherent(s.live) && i < |ins| && After(p, s, ins, w, i) != After(p, s, ins, w, i + 1)
    ensures HasSay(p, After(p, s, ins, w, i), ins[i])
  {
    assert ins[..i + 1][..i] == ins[..i];
    RunStaysCoherent(p, s, ins[..i], w);
    if !HasSay(p, After(p, s, ins, w, i), ins[i]) {
      OthersChangeNothing(p, After(p, s, ins, w, i), ins[i], w);
    }
  }

  /**
   * Whatever part of the registry a run changed was last changed, to what it ends as, by an admitted
   * write or by a git-trust document posted while git-trust was on.
   */
  lemma {:induction false} LastChangeIsAdmitted<T>(p: Policy, s: Registry, ins: seq<Inbound>, w: Windows, k: nat,
                                                   part: Registry -> T)
    returns (i: nat)
    requires Coherent(s.live) && k <= |ins|
    requires part(After(p, s, ins, w, k)) != part(s)
    ensures i < k && HasSay(p, After(p, s, ins, w, i), ins[i])
    ensures part(After(p, s, ins, w, i)) != part(After(p, s, ins, w, i + 1))
    ensures part(After(p, s, ins, w, i + 1)) == part(After(p, s, ins, w, k))
    decreases k
  {
    if k > 0 && part(After(p, s, ins, w, k - 1)) == part(After(p, s, ins, w, k)) {
      i := LastChangeIsAdmitted(p, s, ins, w, k - 1, part);
    } else {
      i := k - 1;
      ChangedByOneWithSay(p, s, ins, w, i);
    }
  }

  // ------------------------------------------------ a repeated write

  predicate Stored(m: Entries, key: string, o: Outcome, expiresAt: int) {
    key in m && m[key] == Entry.Done(o, expiresAt)
  }

  /** The message is brought to the dispatcher under a claim: not posted, and not a DIDComm rotation. */
  predicate Claims(i: Inbound) {
    !i.transport.Http? && !RotatesDirectly(i)
  }

  lemma DispatchKeepsStored(s: Registry, i: Inbound, w: Windows, key: string, o: Outcome, expiresAt: int)
    requires Stored(s.entries, key, o, expiresAt) && i.delivery.claimedAt < expiresAt
    ensures Stored(Dispatch(s, i, w).0.entries, key, o, expiresAt)
  {
    assert Stored(Evict(s.entries, i.delivery.claimedAt, w), key, o, expiresAt);
    var (claimed, reply) := Redelivery.Admit(s.entries, i.delivery, w, i.storeUp);
    if i.Doc().IsWrite() && i.storeUp && i.Doc().MessageId() == key {
      assert reply == Some(o);
    }
    ServeKeepsClaims(s.live.admin, s.(entries := claimed), i);
  }

  /** Messages claimed before the stored outcome expires leave it stored. */
  lemma ReceiveKeepsStored(p: Policy, s: Registry, i: Inbound, w: Windows, key: string, o: Outcome, expiresAt: int)
    requires Stored(s.entries, key, o, expiresAt) && i.delivery.claimedAt < expiresAt
    ensures Stored(Receive(p, s, i, w).0.entries, key, o, expiresAt)
  {
    DispatchKeepsStored(s, i, w, key, o, expiresAt);
    ServeKeepsClaims(s.live.query, s, i);
  }

  lemma {:induction false} RunKeepsStored(p: Policy, s: Registry, ins: seq<Inbound>, w: Windows,
                                          key: string, o: Outcome, expiresAt: int)
    requires Stored(s.entries, key, o, expiresAt)
    requires forall i :: 0 <= i < |ins| ==> ins[i].delivery.claimedAt < expiresAt
    ensures Stored(ReceiveAll(p, s, ins, w).0.entries, key, o, expiresAt)
    decreases |ins|
  {
    if ins != [] {
      var n := |ins| - 1;
      RunKeepsStored(p, s, ins[..n], w, key, o, expiresAt);
      var before := ReceiveAll(p, s, ins[..n], w).0;
      ReceiveKeepsStored(p, before, ins[n], w, key, o, expiresAt);
    }
  }

  /** An admitted write with the claim store up and, if it claims, its key free and its outcome one to keep. */
  ghost predicate TakesEffect(p: Policy, s: Registry, i: Inbound, w: Windows) {
    && AdmittedWrite(p, i) && i.storeUp
    && (Claims(i) ==> Redelivery.Admit(s.entries, i.delivery, w, true).1.None? && Cacheable(Receive(p, s, i, w).1))
  }

  lemma EffectIsStored(p: Policy, s: Registry, i: Inbound, w: Windows)
    requires TakesEffect(p, s, i, w) && Claims(i)
    ensures var (s', o) := Receive(p, s, i, w);
      Stored(s'.entries, i.Doc().MessageId(), o, i.delivery.resolvedAt + w.ttl)
  {
    RefusedIffNotAdmitted(p, i);
  }

  lemma StoredIsReplayed(p: Policy, s: Registry, i: Inbound, w: Windows, o: Outcome, expiresAt: int)
    requires i.Doc().IsWrite() && i.storeUp && i.delivery.claimedAt < expiresAt
    requires Stored(s.entries, i.Doc().MessageId(), o, expiresAt)
    ensures var (s', o') := Receive(p, s, i, w);
      && (!i.transport.Http? ==> s'.records == s.records && s'.live == s.live)
      && (Claims(i) ==> s'.rotations == s.rotations && (AdmittedWrite(p, i) ==> o' == o))
  {
    if !i.transport.Http? {
      RefusedIffNotAdmitted(p, i);
    }
    assert Stored(Evict(s.entries, i.delivery.claimedAt, w), i.Doc().MessageId(), o, expiresAt);
  }

  ghost predicate InWindow(first: Inbound, between: seq<Inbound>, again: Inbound, w: Windows) {
    var expiresAt := first.delivery.resolvedAt + w.ttl;
    again.delivery.claimedAt < expiresAt
    && forall i :: 0 <= i < |between| ==> between[i].delivery.claimedAt < expiresAt
  }

  /**
   * Once an admitted write has taken effect under a claim, whatever is received in between: a copy
   * inside the window, over DIDComm or TSP, changes neither records nor capabilities nor dispatchers;
   * and one that claims asks for no rotation either and, if admitted, is given the first answer.
   */
  lemma CopyOfAWriteChangesNothing(p: Policy, s: Registry, first: Inbound, between: seq<Inbound>, again: Inbound, w: Windows)
    requires TakesEffect(p, s, first, w) && Claims(first)
    requires again.Doc().IsWrite() && again.storeUp && again.Doc().MessageId() == first.Doc().MessageId()
    requires InWindow(first, between, again, w)
    ensures var (s1, o1) := Receive(p, s, first, w);
      var s2 := ReceiveAll(p, s1, between, w).0;
      var (s3, o3) := Receive(p, s2, again, w);
      && (!again.transport.Http? ==> s3.records == s2.records && s3.live == s2.live)
      && (Claims(again) ==> s3.rotations == s2.rotations && (AdmittedWrite(p, again) ==> o3 == o1))
  {
    var (s1, o1) := Receive(p, s, first, w);
    var s2 := ReceiveAll(p, s1, between, w).0;
    var expiresAt := first.delivery.resolvedAt + w.ttl;
    EffectIsStored(p, s, first, w);
    RunKeepsStored(p, s1, between, w, first.Doc().MessageId(), o1, expiresAt);
    StoredIsReplayed(p, s2, again, w, o1, expiresAt);
  }

  // ------------------------------------------------ rotations

  /** A rotation admitted over DIDComm leaves no claim behind, and every copy of it asks once more. */
  lemma RotationIsNeverClaimed(p: Policy, s: Registry, i: Inbound, w: Windows)
    requires AdmittedWrite(p, i) && RotatesDirectly(i)
    ensures var (s', o) := Receive(p, s, i, w);
      s' == s.(rotations := s.rotations + if AsksRotation(p, i) then 1 else 0) && o == Rotation(p, i)
  {
  }

  /** So the same document delivered twice over DIDComm asks twice and, under its own response id, is answered anew. */
  lemma RotationIsRepeated(p: Policy, s: Registry, i: Inbound, again: Inbound, w: Windows)
    requires AdmittedWrite(p, i) && AsksRotation(p, i)
    requires AdmittedWrite(p, again) && again.Doc() == i.Doc() && again.transport == i.transport
    requires again.delivery.responseId != i.delivery.responseId
    ensures var (s1, o1) := Receive(p, s, i, w);
      var (s2, o2) := Receive(p, s1, again, w);
      s1.entries == s.entries && s2.rotations == s.rotations + 2 && o2 != o1
  {
    RotationIsNeverClaimed(p, s, i, w);
    RotationIsNeverClaimed(p, Receive(p, s, i, w).0, again, w);
  }

  function RotationsIn(p: Policy, ins: seq<Inbound>): nat
    decreases |ins|
  {
    if ins == [] then 0
    else
      RotationsIn(p, ins[..|ins| - 1])
        + if AdmittedWrite(p, ins[|ins| - 1]) && AsksRotation(p, ins[|ins| - 1]) then 1 else 0
  }

  /** In every run the key service is asked once for each admitted DIDComm rotation delivered, copies included. */
  lemma {:induction false} RotationsAreCounted(p: Policy, s: Registry, ins: seq<Inbound>, w: Windows)
    requires Coherent(s.live)
    ensures ReceiveAll(p, s, ins, w).0.rotations == s.rotations + RotationsIn(p, ins)
    decreases |ins|
  {
    if ins != [] {
      var n := |ins| - 1;
      RotationsAreCounted(p, s, ins[..n], w);
      RunStaysCoherent(p, s, ins[..n], w);
      RotationStep(p, ReceiveAll(p, s, ins[..n], w).0, ins[n], w);
    }
  }

  lemma RotationStep(p: Policy, s: Registry, i: Inbound, w: Windows)
    requires Coherent(s.live)
    ensures Receive(p, s, i, w).0.rotations ==
      s.rotations + if AdmittedWrite(p, i) && AsksRotation(p, i) then 1 else 0
  {
    if RotatesDirectly(i) {
      RefusedIffNotAdmitted(p, i);
    }
    var claimed := Redelivery.Admit(s.entries, i.delivery, w, i.storeUp).0;
    ServeStaysCoherent(s.live.admin, s.(entries := claimed), i);
    ServeStaysCoherent(s.live.query, s, i);
  }

  // ------------------------------------------------ exactly when a copy is answered verbatim

  /** No stored outcome was given under this response id. */
  ghost predicate Unheard(m: Entries, id: string) {
    forall k :: k in m && m[k].Done? ==> m[k].outcome.responseId != id
  }

  lemma InvokeCarriesId(h: Handler, s: Registry, i: Inbound)
    ensures Invoke(h, s, i).1.responseId == i.delivery.responseId
  {
    Redelivery.ResponseIdCarried(s.records, i.Doc(), i.delivery.responseId, i.delivery.handledAt);
  }

  lemma ServeCarriesId(d: Dispatcher, s: Registry, i: Inbound)
    ensures ServeOver(d, s, i).1.responseId == i.delivery.responseId
  {
    if i.Doc().slug in d {
      InvokeCarriesId(d[i.Doc().slug], s, i);
    }
  }

  lemma DispatchStaysUnheard(s: Registry, i: Inbound, w: Windows, id: string)
    requires Unheard(s.entries, id) && i.delivery.responseId != id
    ensures Unheard(Dispatch(s, i, w).0.entries, id) && Dispatch(s, i, w).1.responseId != id
  {
    var (claimed, reply) := Redelivery.Admit(s.entries, i.delivery, w, i.storeUp);
    assert Unheard(claimed, id);
    if reply.None? {
      ServeKeepsClaims(s.live.admin, s.(entries := claimed), i);
      ServeCarriesId(s.live.admin, s.(entries := claimed), i);
    }
  }

  /** Handlers do not touch the claim store. */
  lemma ServeKeepsClaims(d: Dispatcher, s: Registry, i: Inbound)
    ensures ServeOver(d, s, i).0.entries == s.entries
  {
  }

  /** An id neither stored nor this message's own is neither answered nor stored. */
  lemma ReceiveStaysUnheard(p: Policy, s: Registry, i: Inbound, w: Windows, id: string)
    requires Unheard(s.entries, id) && i.delivery.responseId != id
    ensures Unheard(Receive(p, s, i, w).0.entries, id) && Receive(p, s, i, w).1.responseId != id
  {
    DispatchStaysUnheard(s, i, w, id);
    ServeKeepsClaims(s.live.query, s, i);
    ServeCarriesId(s.live.query, s, i);
  }

  lemma {:induction false} RunStaysUnheard(p: Policy, s: Registry, ins: seq<Inbound>, w: Windows, id: string)
    requires Unheard(s.entries, id)
    requires forall i :: 0 <= i < |ins| ==> ins[i].delivery.responseId != id
    ensures Unheard(ReceiveAll(p, s, ins, w).0.entries, id)
    decreases |ins|
  {
    if ins != [] {
      var n := |ins| - 1;
      RunStaysUnheard(p, s, ins[..n], w, id);
      var before := ReceiveAll(p, s, ins[..n], w).0;
      ReceiveStaysUnheard(p, before, ins[n], w, id);
    }
  }

  /** The answer to a message that claims its free key, or rotates directly, carries its own response id. */
  lemma FirstCarriesId(p: Policy, s: Registry, first: Inbound, w: Windows)
    requires TakesEffect(p, s, first, w)
    ensures Receive(p, s, first, w).1.responseId == first.delivery.responseId
  {
    RefusedIffNotAdmitted(p, first);
    var claimed := Redelivery.Admit(s.entries, first.delivery, w, first.storeUp).0;
    ServeCarriesId(s.live.admin, s.(entries := claimed), first);
  }

  lemma DirectRotationCarriesId(p: Policy, s: Registry, i: Inbound, w: Windows)
    requires RotatesDirectly(i)
    ensures Receive(p, s, i, w).1.responseId == i.delivery.responseId && Receive(p, s, i, w).0.entries == s.entries
  {
  }

  /** When either of the two is a DIDComm rotation, the copy's answer does not carry the first one's id. */
  lemma CopyUnderItsOwnId(p: Policy, s: Registry, first: Inbound, between: seq<Inbound>, again: Inbound, w: Windows)
    requires RotatesDirectly(first) || RotatesDirectly(again)
    requires Unheard(s.entries, first.delivery.responseId) && again.delivery.responseId != first.delivery.responseId
    requires forall i :: 0 <= i < |between| ==> between[i].delivery.responseId != first.delivery.responseId
    ensures var s2 := ReceiveAll(p, Receive(p, s, first, w).0, between, w).0;
      Receive(p, s2, again, w).1.responseId != first.delivery.responseId
  {
    var s1 := Receive(p, s, first, w).0;
    var s2 := ReceiveAll(p, s1, between, w).0;
    if RotatesDirectly(again) {
      DirectRotationCarriesId(p, s2, again, w);
    } else {
      DirectRotationCarriesId(p, s, first, w);
      RunStaysUnheard(p, s1, between, w, first.delivery.responseId);
      ReceiveStaysUnheard(p, s2, again, w, first.delivery.responseId);
    }
  }

  /**
   * With fresh response ids, an admitted copy of an admitted write is answered verbatim, and asks for
   * no further rotation, exactly when neither of the two is a DIDComm rotation.
   */
  lemma CopyVerbatimIff(p: Policy, s: Registry, first: Inbound, between: seq<Inbound>, again: Inbound, w: Windows)
    requires TakesEffect(p, s, first, w) && InWindow(first, between, again, w)
    requires AdmittedWrite(p, again) && again.storeUp && again.Doc().MessageId() == first.Doc().MessageId()
    requires Unheard(s.entries, first.delivery.responseId) && again.delivery.responseId != first.delivery.responseId
    requires forall i :: 0 <= i < |between| ==> between[i].delivery.responseId != first.delivery.responseId
    ensures var (s1, o1) := Receive(p, s, first, w);
      var s2 := ReceiveAll(p, s1, between, w).0;
      var (s3, o3) := Receive(p, s2, again, w);
      (o3 == o1 && s3.rotations == s2.rotations) <==> !RotatesDirectly(first) && !RotatesDirectly(again)
  {
    if Claims(first) && Claims(again) {
      CopyOfAWriteChangesNothing(p, s, first, between, again, w);
    } else {
      FirstCarriesId(p, s, first, w);
      CopyUnderItsOwnId(p, s, first, between, again, w);
    }
  }

  // ------------------------------------------------ the server and its record router

  lemma RecordsDispatchedAsBefore(s: Registry, i: Inbound, w: Windows)
    requires i.Doc().slug in s.live.admin && s.live.admin[i.Doc().slug] == RecordHandler
    ensures var (s', o) := Dispatch(s, i, w);
      && s'.live == s.live && s'.rotations == s.rotations
      && (Redelivery.World(s'.entries, s'.records), o)
           == Redelivery.Dispatch(Redelivery.World(s.entries, s.records), i.delivery, w, i.storeUp)
  {
  }

  lemma AdminServesRecords(live: Live, slug: string)
    requires Coherent(live) && RecordSlug(slug)
    ensures slug in live.admin && live.admin[slug] == RecordHandler
  {
    ComposedOf(live.saved);
    BaseSurfaces(slug);
    GitSlugsApart(slug);
    GitPartOnly(BASE + Governance(true), live.saved, slug);
  }

  /** Whatever is saved, a record document the server serves goes the way of the plain record dispatcher. */
  lemma RecordsGoTheirOwnWay(s: Registry, i: Inbound, w: Windows)
    requires Coherent(s.live) && RecordSlug(i.Doc().slug)
    ensures var (s', o) := Dispatch(s, i, w);
      && s'.live == s.live && s'.rotations == s.rotations
      && (Redelivery.World(s'.entries, s'.records), o)
           == Redelivery.Dispatch(Redelivery.World(s.entries, s.records), i.delivery, w, i.storeUp)
  {
    AdminServesRecords(s.live, i.Doc().slug);
    RecordsDispatchedAsBefore(s, i, w);
  }

}
