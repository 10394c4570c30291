/** `dispatch_idempotent`, one delivery after another (trust-registry/src/dedup/mod.rs). */
module Redelivery {
  import opened Domain
  import opened Storage
  import opened Keys
  import opened Tasks
  import opened Dedup

  /** One delivery: the document, the response id it would be given, and when each step reads the clock. */
  datatype Delivery = Delivery(doc: Document, responseId: string, claimedAt: int, handledAt: int, resolvedAt: int)
  {
    predicate InOrder() {
      claimedAt <= handledAt <= resolvedAt
    }

    predicate SameWrite(that: Delivery) {
      doc.IsWrite() && that.doc.IsWrite() && doc.MessageId() == that.doc.MessageId()
    }
  }

  datatype World = World(entries: Entries, records: Records)

  /** The rejection a copy gets while the first is still being processed: retryable, never stored. */
  function InFlightRejection(doc: Document, id: string): Outcome {
    Rejected(id, doc.id, TaskFailed("an identical document is currently being processed"), true)
  }

  function Resolve(m: Entries, key: string, outcome: Outcome, now: int, w: Windows): Entries {
    if Cacheable(outcome) then CompleteIn(m, key, outcome, now, w) else m - {key}
  }

  /** Before dispatching: the claim, and the reply that makes dispatching unnecessary, if any. */
  function Admit(m: Entries, d: Delivery, w: Windows, storeUp: bool): (Entries, Option<Outcome>) {
    if !d.doc.IsWrite() || !storeUp then (m, None)
    else
      var (claimed, claim) := ClaimIn(m, d.doc.MessageId(), d.claimedAt, w);
      match claim
      case Replay(o) => (claimed, Some(o))
      case Busy => (claimed, Some(InFlightRejection(d.doc, d.responseId)))
      case Acquired => (claimed, None)
  }

  /** After dispatching: resolve the claim that was taken. */
  function Retire(m: Entries, d: Delivery, outcome: Outcome, w: Windows, storeUp: bool): Entries {
    if !d.doc.IsWrite() || !storeUp then m
    else Resolve(m, d.doc.MessageId(), outcome, d.resolvedAt, w)
  }

  /** `dispatch_idempotent`; `storeUp` is false when the claim call itself errors. */
  ghost function Dispatch(s: World, d: Delivery, w: Windows, storeUp: bool): (World, Outcome) {
    var (claimed, reply) := Admit(s.entries, d, w, storeUp);
    if reply.Some? then
      (World(claimed, s.records), reply.value)
    else
      var (records', o) := Handle(s.records, d.doc, d.responseId, d.handledAt);
      (World(Retire(claimed, d, o, w, storeUp), records'), o)
  }

  method DispatchIdempotent(store: MemoryMessageIdStore, repository: LocalStorage, d: Delivery, storeUp: bool)
    returns (outcome: Outcome)
    requires repository.Valid()
    modifies store, repository
    ensures repository.Valid()
    ensures (World(store.entries, repository.records), outcome)
         == Dispatch(World(old(store.entries), old(repository.records)), d, store.w, storeUp)
  {
    if !d.doc.IsWrite() || !storeUp {
      outcome := HandleDocument(repository, d.doc, d.responseId, d.handledAt);
      return;
    }
    var key := d.doc.MessageId();
    var claim := store.ClaimKey(key, d.claimedAt);
    match claim {
      case Replay(o) =>
        return o;
      case Busy =>
        return InFlightRejection(d.doc, d.responseId);
      case Acquired =>
    }
    outcome := HandleDocument(repository, d.doc, d.responseId, d.handledAt);
    if Cacheable(outcome) {
      store.Complete(key, outcome, d.resolvedAt);
    } else {
      store.Release(key);
    }
  }

  /** A sequential run through a healthy store. */
  ghost function DispatchAll(s: World, ds: seq<Delivery>, w: Windows): (World, seq<Outcome>) {
    if ds == [] then (s, [])
    else
      var (s1, a) := DispatchAll(s, ds[..|ds| - 1], w);
      var (s2, o) := Dispatch(s1, ds[|ds| - 1], w, true);
      (s2, a + [o])
  }

  /** The same documents handled with no dedup at all. */
  ghost function HandleAll(m: Records, ds: seq<Delivery>): (Records, seq<Outcome>) {
    if ds == [] then (m, [])
    else
      var (m1, a) := HandleAll(m, ds[..|ds| - 1]);
      var last := ds[|ds| - 1];
      var (m2, o) := Handle(m1, last.doc, last.responseId, last.handledAt);
      (m2, a + [o])
  }

  /** The first delivery carrying the same write; a read is its own first. */
  ghost function First(ds: seq<Delivery>, i: nat): (f: nat)
    requires i < |ds|
    ensures f <= i
    ensures f == i || (f < i && ds[f].SameWrite(ds[i]))
    ensures forall j :: 0 <= j < f ==> !ds[j].SameWrite(ds[i])
  {
    FirstFrom(ds, i, 0)
  }

  ghost function FirstFrom(ds: seq<Delivery>, i: nat, from: nat): (f: nat)
    requires from <= i < |ds|
    ensures from <= f <= i
    ensures f == i || ds[f].SameWrite(ds[i])
    ensures forall j :: from <= j < f ==> !ds[j].SameWrite(ds[i])
    decreases i - from
  {
    if from == i || ds[from].SameWrite(ds[i]) then from else FirstFrom(ds, i, from + 1)
  }

  /** The run with every later copy of an already seen write struck out. */
  ghost function WithoutRepeats(ds: seq<Delivery>): seq<Delivery> {
    if ds == [] then []
    else
      var init := WithoutRepeats(ds[..|ds| - 1]);
      if First(ds, |ds| - 1) == |ds| - 1 then init + [ds[|ds| - 1]] else init
  }

  /** Where each delivery's first copy stands in the struck-out run: a first copy takes the next place. */
  ghost function Slots(ds: seq<Delivery>): (slots: seq<nat>)
    ensures |slots| == |ds|
  {
    if ds == [] then []
    else
      var n := |ds| - 1;
      var init := Slots(ds[..n]);
      init + [if First(ds, n) == n then |WithoutRepeats(ds[..n])| else init[First(ds, n)]]
  }

  ghost predicate Sequential(ds: seq<Delivery>) {
    && (forall i :: 0 <= i < |ds| ==> ds[i].InOrder())
    && (forall i, j :: 0 <= i < j < |ds| ==> ds[i].resolvedAt <= ds[j].claimedAt)
  }

  /** Delivery `i` is a copy that comes when its first copy's outcome no longer replays. */
  ghost predicate LateAt(ds: seq<Delivery>, i: nat, ttl: nat)
    requires i < |ds|
  {
    First(ds, i) < i && ds[i].claimedAt >= ds[First(ds, i)].resolvedAt + ttl
  }

  /** Every copy arrives before the first copy's outcome stops being replayable. */
  ghost predicate RepeatsWithin(ds: seq<Delivery>, ttl: nat) {
    forall i :: 0 <= i < |ds| ==> !LateAt(ds, i, ttl)
  }

  lemma FirstInPrefix(ds: seq<Delivery>, n: nat, i: nat)
    requires i < n <= |ds|
    ensures First(ds[..n], i) == First(ds, i)
    ensures ds[..n][..First(ds, i)] == ds[..First(ds, i)]
  {
    var f, g := First(ds[..n], i), First(ds, i);
    assert f == i || ds[f].SameWrite(ds[i]);
    assert g == i || ds[..n][g].SameWrite(ds[..n][i]);
  }

  lemma {:induction false} RepeatsWithinPrefix(ds: seq<Delivery>, n: nat, ttl: nat)
    requires n <= |ds|
    requires Sequential(ds) && RepeatsWithin(ds, ttl)
    ensures Sequential(ds[..n]) && RepeatsWithin(ds[..n], ttl)
  {
    forall i | 0 <= i < n
      ensures !LateAt(ds[..n], i, ttl)
    {
      FirstInPrefix(ds, n, i);
      assert !LateAt(ds, i, ttl);
    }
  }

  /** The store holds this outcome with this expiry, or nothing because it has expired by `since`. */
  ghost predicate Owes(m: Entries, key: string, outcome: Outcome, expiresAt: int, since: int) {
    && (key in m ==> m[key] == Entry.Done(outcome, expiresAt))
    && (expiresAt > since ==> key in m)
  }

  /** Nothing live is stored under a key no write has used. */
  ghost predicate OwesOnly(m: Entries, ds: seq<Delivery>) {
    forall k :: k in m ==> Seen(ds, k)
  }

  /** Each answer stands at its slot. */
  ghost predicate StandsAt(slots: seq<nat>, answers: seq<Outcome>, struck: seq<Outcome>) {
    |answers| == |slots| && forall i :: 0 <= i < |slots| ==> slots[i] < |struck| && answers[i] == struck[slots[i]]
  }

  /** Every answer is the one its first copy gets in the struck-out run. */
  ghost predicate AnsweredAlike(ds: seq<Delivery>, answers: seq<Outcome>, struck: seq<Outcome>) {
    |struck| == |WithoutRepeats(ds)| && StandsAt(Slots(ds), answers, struck)
  }

  ghost predicate Refines(m0: Records, ds: seq<Delivery>, w: Windows) {
    var (s, a) := DispatchAll(World(map[], m0), ds, w);
    var (m, b) := HandleAll(m0, WithoutRepeats(ds));
    s.records == m && AnsweredAlike(ds, a, b)
  }

  ghost predicate StoreOwes(m: Entries, ds: seq<Delivery>, answers: seq<Outcome>, w: Windows)
    requires |answers| == |ds|
  {
    && OwesOnly(m, ds)
    && (forall i :: 0 <= i < |ds| && ds[i].doc.IsWrite() ==> OwesFor(m, ds, i, answers[i], w))
  }

  /** Delivery `i` was answered as its first copy was, and that is what the store owes. */
  ghost predicate OwesFor(m: Entries, ds: seq<Delivery>, i: nat, answer: Outcome, w: Windows)
    requires i < |ds|
  {
    && Owes(m, ds[i].doc.MessageId(), answer, ds[First(ds, i)].resolvedAt + w.ttl, ds[|ds| - 1].resolvedAt)
    && answer.responseId == ds[First(ds, i)].responseId
  }

  lemma {:induction false} AnswerCount(s: World, ds: seq<Delivery>, w: Windows)
    ensures |DispatchAll(s, ds, w).1| == |ds|
  {
    if ds != [] {
      AnswerCount(s, ds[..|ds| - 1], w);
    }
  }

  lemma {:induction false} HandleCount(m: Records, ds: seq<Delivery>)
    ensures |HandleAll(m, ds).1| == |ds|
  {
    if ds != [] {
      HandleCount(m, ds[..|ds| - 1]);
    }
  }

  lemma FirstIsItsOwnFirst(ds: seq<Delivery>, i: nat)
    requires i < |ds|
    ensures First(ds, First(ds, i)) == First(ds, i)
  {
    var f := First(ds, i);
    var g := First(ds, f);
    assert g == f || ds[g].SameWrite(ds[i]);
  }

  /** Under `key` nothing changed except that an entry expired by `since` may be gone. */
  ghost predicate Keeps(m: Entries, m': Entries, key: string, since: int) {
    && (key in m' ==> key in m && m'[key] == m[key])
    && (key in m && m[key].Done? && m[key].expiresAt > since ==> key in m')
  }

  lemma EvictionKeeps(m: Entries, key: string, at: int, since: int, w: Windows)
    requires at <= since
    ensures Keeps(m, Evict(m, at, w), key, since)
  {
  }

  /** A write whose key the store does not hold is handled, and its outcome kept. */
  lemma FirstTime(s: World, d: Delivery, w: Windows)
    requires d.doc.IsWrite() && d.doc.MessageId() !in s.entries
    ensures var (m, o) := Handle(s.records, d.doc, d.responseId, d.handledAt);
      Dispatch(s, d, w, true) ==
        (World(Evict(s.entries, d.claimedAt, w)[d.doc.MessageId() := Entry.Done(o, d.resolvedAt + w.ttl)], m), o)
  {
    LocalOutcomesCacheable(s.records, d.doc, d.responseId, d.handledAt);
    var kept, key := Evict(s.entries, d.claimedAt, w), d.doc.MessageId();
    var (_, o) := Handle(s.records, d.doc, d.responseId, d.handledAt);
    assert kept[key := InFlight(d.claimedAt)][key := Entry.Done(o, d.resolvedAt + w.ttl)]
      == kept[key := Entry.Done(o, d.resolvedAt + w.ttl)];
  }

  /** A write whose outcome the store still holds is answered from it. */
  lemma Repeated(s: World, d: Delivery, o: Outcome, expiresAt: int, w: Windows)
    requires d.doc.IsWrite()
    requires Visible(s.entries, d.doc.MessageId(), d.claimedAt, w) == Some(Entry.Done(o, expiresAt))
    ensures Dispatch(s, d, w, true) == (World(Evict(s.entries, d.claimedAt, w), s.records), o)
  {
  }

  ghost predicate Seen(ds: seq<Delivery>, key: string) {
    exists i :: 0 <= i < |ds| && ds[i].doc.IsWrite() && ds[i].doc.MessageId() == key
  }

  lemma FirstMeansUnseen(ds: seq<Delivery>)
    requires ds != [] && ds[|ds| - 1].doc.IsWrite()
    ensures First(ds, |ds| - 1) == |ds| - 1 ==> !Seen(ds[..|ds| - 1], ds[|ds| - 1].doc.MessageId())
  {
  }

  lemma SeenGrows(m: Entries, m': Entries, ds: seq<Delivery>)
    requires ds != [] && OwesOnly(m, ds[..|ds| - 1])
    requires forall k :: k in m' ==> k in m || (ds[|ds| - 1].doc.IsWrite() && ds[|ds| - 1].doc.MessageId() == k)
    ensures OwesOnly(m', ds)
  {
    var init := ds[..|ds| - 1];
    forall k | k in m'
      ensures Seen(ds, k)
    {
      if k in m {
        var i :| 0 <= i < |init| && init[i].doc.IsWrite() && init[i].doc.MessageId() == k;
        assert ds[i] == init[i];
      } else {
        assert ds[|ds| - 1].doc.MessageId() == k;
      }
    }
  }

  /** An outcome owed before the last delivery is owed after it. */
  lemma StillOwed(m: Entries, m': Entries, ds: seq<Delivery>, i: nat, answer: Outcome, w: Windows)
    requires Sequential(ds) && i < |ds| - 1
    requires OwesFor(m, ds[..|ds| - 1], i, answer, w)
    requires Keeps(m, m', ds[i].doc.MessageId(), ds[|ds| - 1].resolvedAt)
    ensures OwesFor(m', ds, i, answer, w)
  {
    var n := |ds| - 1;
    FirstInPrefix(ds, n, i);
  }

  /** What one delivery does to the store, seen from the keys of earlier deliveries. */
  lemma DispatchKeeps(s: World, ds: seq<Delivery>, i: nat, w: Windows)
    requires Sequential(ds) && i < |ds| - 1 && ds[i].doc.IsWrite()
    requires OwesOnly(s.entries, ds[..|ds| - 1])
    requires First(ds, |ds| - 1) < |ds| - 1 ==> exists o, e ::
      Visible(s.entries, ds[|ds| - 1].doc.MessageId(), ds[|ds| - 1].claimedAt, w) == Some(Entry.Done(o, e))
    ensures Keeps(s.entries, Dispatch(s, ds[|ds| - 1], w, true).0.entries,
                  ds[i].doc.MessageId(), ds[|ds| - 1].resolvedAt)
  {
    var n := |ds| - 1;
    var d := ds[n];
    var key := ds[i].doc.MessageId();
    EvictionKeeps(s.entries, key, d.claimedAt, d.resolvedAt, w);
    if d.doc.IsWrite() && First(ds, n) == n {
      FirstMeansUnseen(ds);
      FirstTime(s, d, w);
      assert !ds[i].SameWrite(d);
    } else if d.doc.IsWrite() {
      var o, e :| Visible(s.entries, d.doc.MessageId(), d.claimedAt, w) == Some(Entry.Done(o, e));
      Repeated(s, d, o, e, w);
    }
  }

  /** A repeat inside the window finds its first copy's outcome. */
  lemma RepeatFound(m: Entries, ds: seq<Delivery>, answer: Outcome, w: Windows)
    requires ds != [] && First(ds, |ds| - 1) < |ds| - 1
    requires ds[|ds| - 2].resolvedAt <= ds[|ds| - 1].claimedAt && !LateAt(ds, |ds| - 1, w.ttl)
    requires OwesFor(m, ds[..|ds| - 1], First(ds, |ds| - 1), answer, w)
    ensures var d, f := ds[|ds| - 1], First(ds, |ds| - 1);
      Visible(m, d.doc.MessageId(), d.claimedAt, w) == Some(Entry.Done(answer, ds[f].resolvedAt + w.ttl))
  {
    var n := |ds| - 1;
    var f := First(ds, n);
    FirstInPrefix(ds, n, f);
    FirstIsItsOwnFirst(ds, n);
    assert ds[..n][f] == ds[f] && ds[..n][n - 1] == ds[n - 1];
  }

  /** A repeat: the first copy's answer, untouched records, and the outcome still owed. */
  lemma RepeatOwed(s: World, ds: seq<Delivery>, answer: Outcome, w: Windows)
    requires ds != [] && Sequential(ds) && First(ds, |ds| - 1) < |ds| - 1
    requires !LateAt(ds, |ds| - 1, w.ttl)
    requires OwesFor(s.entries, ds[..|ds| - 1], First(ds, |ds| - 1), answer, w)
    ensures var (s', o) := Dispatch(s, ds[|ds| - 1], w, true);
      && s' == World(Evict(s.entries, ds[|ds| - 1].claimedAt, w), s.records) && o == answer
      && OwesFor(s'.entries, ds, |ds| - 1, answer, w)
  {
    var n := |ds| - 1;
    var d, f := ds[n], First(ds, n);
    RepeatFound(s.entries, ds, answer, w);
    Repeated(s, d, answer, ds[f].resolvedAt + w.ttl, w);
    FirstIsItsOwnFirst(ds, n);
    EvictionKeeps(s.entries, d.doc.MessageId(), d.claimedAt, d.resolvedAt, w);
    StillOwed(s.entries, Evict(s.entries, d.claimedAt, w), ds, f, answer, w);
  }

  /** A first copy, or a read: handled, and a write's outcome owed from now on. */
  lemma FirstOwed(s: World, ds: seq<Delivery>, w: Windows)
    requires ds != [] && OwesOnly(s.entries, ds[..|ds| - 1]) && First(ds, |ds| - 1) == |ds| - 1
    ensures var d := ds[|ds| - 1];
      var (s', o) := Dispatch(s, d, w, true);
      && (s'.records, o) == Handle(s.records, d.doc, d.responseId, d.handledAt)
      && (d.doc.IsWrite() ==> OwesFor(s'.entries, ds, |ds| - 1, o, w))
      && (forall k :: k in s'.entries ==> k in s.entries || (d.doc.IsWrite() && d.doc.MessageId() == k))
  {
    var d := ds[|ds| - 1];
    ResponseIdCarried(s.records, d.doc, d.responseId, d.handledAt);
    if d.doc.IsWrite() {
      FirstMeansUnseen(ds);
      FirstTime(s, d, w);
    }
  }

  /** Every outcome owed before the last delivery is owed after it. */
  lemma EarlierStillOwed(s: World, ds: seq<Delivery>, a: seq<Outcome>, i: nat, w: Windows)
    requires i < |ds| - 1 && ds[i].doc.IsWrite() && Sequential(ds)
    requires |a| == |ds| - 1 && StoreOwes(s.entries, ds[..|ds| - 1], a, w)
    requires First(ds, |ds| - 1) < |ds| - 1 ==> exists o, e ::
      Visible(s.entries, ds[|ds| - 1].doc.MessageId(), ds[|ds| - 1].claimedAt, w) == Some(Entry.Done(o, e))
    ensures OwesFor(Dispatch(s, ds[|ds| - 1], w, true).0.entries, ds, i, a[i], w)
  {
    DispatchKeeps(s, ds, i, w);
    assert ds[..|ds| - 1][i] == ds[i];
    StillOwed(s.entries, Dispatch(s, ds[|ds| - 1], w, true).0.entries, ds, i, a[i], w);
  }

  /** The last delivery itself: what it is answered is owed, and it adds no key but its own. */
  lemma LastOwed(s: World, ds: seq<Delivery>, a: seq<Outcome>, w: Windows)
    requires ds != [] && Sequential(ds) && !LateAt(ds, |ds| - 1, w.ttl)
    requires |a| == |ds| - 1 && StoreOwes(s.entries, ds[..|ds| - 1], a, w)
    ensures var d := ds[|ds| - 1];
      var (s', o) := Dispatch(s, d, w, true);
      && (d.doc.IsWrite() ==> OwesFor(s'.entries, ds, |ds| - 1, o, w))
      && OwesOnly(s'.entries, ds)
      && (First(ds, |ds| - 1) < |ds| - 1 ==> exists o, e ::
            Visible(s.entries, d.doc.MessageId(), d.claimedAt, w) == Some(Entry.Done(o, e)))
  {
    var n := |ds| - 1;
    var f := First(ds, n);
    if f < n {
      assert OwesFor(s.entries, ds[..n], f, a[f], w);
      RepeatFound(s.entries, ds, a[f], w);
      RepeatOwed(s, ds, a[f], w);
    } else {
      FirstOwed(s, ds, w);
    }
    SeenGrows(s.entries, Dispatch(s, ds[n], w, true).0.entries, ds);
  }

  lemma OwedTogether(m: Entries, ds: seq<Delivery>, a: seq<Outcome>, o: Outcome, w: Windows)
    requires ds != [] && |a| == |ds| - 1 && OwesOnly(m, ds)
    requires forall i :: 0 <= i < |ds| - 1 && ds[i].doc.IsWrite() ==> OwesFor(m, ds, i, a[i], w)
    requires ds[|ds| - 1].doc.IsWrite() ==> OwesFor(m, ds, |ds| - 1, o, w)
    ensures StoreOwes(m, ds, a + [o], w)
  {
  }

  /** One more delivery: what it is answered, and what the store owes afterwards. */
  lemma LastDelivery(s: World, ds: seq<Delivery>, a: seq<Outcome>, w: Windows)
    requires ds != [] && Sequential(ds) && !LateAt(ds, |ds| - 1, w.ttl)
    requires |a| == |ds| - 1 && StoreOwes(s.entries, ds[..|ds| - 1], a, w)
    ensures var (s', o) := Dispatch(s, ds[|ds| - 1], w, true); StoreOwes(s'.entries, ds, a + [o], w)
  {
    var n := |ds| - 1;
    var (s', o) := Dispatch(s, ds[n], w, true);
    LastOwed(s, ds, a, w);
    forall i | 0 <= i < n && ds[i].doc.IsWrite()
      ensures OwesFor(s'.entries, ds, i, a[i], w)
    {
      EarlierStillOwed(s, ds, a, i, w);
    }
    OwedTogether(s'.entries, ds, a, o, w);
  }

  /** Striking out and handling, one delivery further. */
  lemma WithoutRepeatsStep(m0: Records, ds: seq<Delivery>)
    requires ds != []
    ensures var init, d := ds[..|ds| - 1], ds[|ds| - 1];
      var (m, b) := HandleAll(m0, WithoutRepeats(init));
      var (m', handled) := Handle(m, d.doc, d.responseId, d.handledAt);
      HandleAll(m0, WithoutRepeats(ds)) == if First(ds, |ds| - 1) == |ds| - 1 then (m', b + [handled]) else (m, b)
  {
    var init, d := ds[..|ds| - 1], ds[|ds| - 1];
    var kept := WithoutRepeats(init) + [d];
    assert kept[..|kept| - 1] == WithoutRepeats(init);
  }

  /** Earlier slots, and what stands at them, do not move when the run grows. */
  lemma SlotsStay(ds: seq<Delivery>, i: nat)
    requires i < |ds| - 1
    ensures var init := ds[..|ds| - 1];
      Slots(ds)[i] == Slots(init)[i] && First(ds, i) == First(init, i) && WithoutRepeats(init) <= WithoutRepeats(ds)
  {
    FirstInPrefix(ds, |ds| - 1, i);
  }

  ghost predicate HoldsFirstCopy(ds: seq<Delivery>, i: nat)
    requires i < |ds|
  {
    Slots(ds)[i] < |WithoutRepeats(ds)| && WithoutRepeats(ds)[Slots(ds)[i]] == ds[First(ds, i)]
  }

  lemma HoldsFirstCopyStays(ds: seq<Delivery>, i: nat)
    requires i < |ds| - 1 && HoldsFirstCopy(ds[..|ds| - 1], i)
    ensures HoldsFirstCopy(ds, i)
  {
    SlotsStay(ds, i);
    assert ds[..|ds| - 1][First(ds, i)] == ds[First(ds, i)];
  }

  ghost predicate SharesSlot(ds: seq<Delivery>, i: nat)
    requires i < |ds|
  {
    Slots(ds)[First(ds, i)] == Slots(ds)[i]
  }

  lemma SharesSlotStays(ds: seq<Delivery>, i: nat)
    requires i < |ds| - 1 && SharesSlot(ds[..|ds| - 1], i)
    ensures SharesSlot(ds, i)
  {
    SlotsStay(ds, i);
    assert Slots(ds)[First(ds, i)] == Slots(ds[..|ds| - 1])[First(ds, i)];
  }

  /** A repeat has its first copy's slot. */
  lemma {:induction false} SlotOfFirstCopy(ds: seq<Delivery>, i: nat)
    requires i < |ds|
    ensures SharesSlot(ds, i)
    decreases |ds|
  {
    if i < |ds| - 1 {
      SlotOfFirstCopy(ds[..|ds| - 1], i);
      SharesSlotStays(ds, i);
    }
  }

  lemma LastFirstCopy(ds: seq<Delivery>)
    requires ds != [] && First(ds, |ds| - 1) == |ds| - 1
    ensures HoldsFirstCopy(ds, |ds| - 1)
  {
  }

  lemma HoldsFirstCopyShared(ds: seq<Delivery>, i: nat)
    requires i < |ds| && HoldsFirstCopy(ds, First(ds, i)) && SharesSlot(ds, i)
    ensures HoldsFirstCopy(ds, i)
  {
    FirstIsItsOwnFirst(ds, i);
  }

  /** At a delivery's slot the struck-out run holds its first copy. */
  lemma {:induction false} SlotHoldsFirstCopy(ds: seq<Delivery>, i: nat)
    requires i < |ds|
    ensures HoldsFirstCopy(ds, i)
    decreases |ds|
  {
    if First(ds, i) < |ds| - 1 {
      SlotHoldsFirstCopy(ds[..|ds| - 1], First(ds, i));
      HoldsFirstCopyStays(ds, First(ds, i));
      SlotOfFirstCopy(ds, i);
      HoldsFirstCopyShared(ds, i);
    } else {
      LastFirstCopy(ds);
    }
  }

  lemma StandsAtNext(slots: seq<nat>, a: seq<Outcome>, b: seq<Outcome>, o: Outcome)
    requires StandsAt(slots, a, b)
    ensures StandsAt(slots + [|b|], a + [o], b + [o])
  {
  }

  lemma StandsAtAgain(slots: seq<nat>, a: seq<Outcome>, b: seq<Outcome>, f: nat)
    requires StandsAt(slots, a, b) && f < |slots|
    ensures StandsAt(slots + [slots[f]], a + [a[f]], b)
  {
  }

  /** Both runs, one delivery further. */
  lemma LastRefines(m0: Records, ds: seq<Delivery>, w: Windows)
    requires ds != [] && Sequential(ds) && RepeatsWithin(ds, w.ttl)
    requires Refines(m0, ds[..|ds| - 1], w)
    requires var (s, a) := DispatchAll(World(map[], m0), ds[..|ds| - 1], w);
      |a| == |ds| - 1 && StoreOwes(s.entries, ds[..|ds| - 1], a, w)
    ensures Refines(m0, ds, w)
  {
    var (s, a) := DispatchAll(World(map[], m0), ds[..|ds| - 1], w);
    var (_, b) := HandleAll(m0, WithoutRepeats(ds[..|ds| - 1]));
    var n := |ds| - 1;
    var f := First(ds, n);
    WithoutRepeatsStep(m0, ds);
    if f < n {
      assert OwesFor(s.entries, ds[..n], f, a[f], w);
      RepeatOwed(s, ds, a[f], w);
      StandsAtAgain(Slots(ds[..n]), a, b, f);
    } else {
      FirstOwed(s, ds, w);
      StandsAtNext(Slots(ds[..n]), a, b, Dispatch(s, ds[n], w, true).1);
    }
  }

  /**
   * Redelivery is invisible: the records and every answer are those of the run with
   * repeats struck out and no dedup at all, each repeat being given its first answer.
   */
  lemma {:induction false} RedeliveryInvisible(m0: Records, ds: seq<Delivery>, w: Windows)
    requires Sequential(ds) && RepeatsWithin(ds, w.ttl)
    ensures Refines(m0, ds, w)
    ensures var (s, a) := DispatchAll(World(map[], m0), ds, w); |a| == |ds| && StoreOwes(s.entries, ds, a, w)
    decreases |ds|
  {
    if ds != [] {
      var n := |ds| - 1;
      RepeatsWithinPrefix(ds, n, w.ttl);
      RedeliveryInvisible(m0, ds[..n], w);
      var (s, a) := DispatchAll(World(map[], m0), ds[..n], w);
      LastDelivery(s, ds, a, w);
      LastRefines(m0, ds, w);
    }
  }

  // ------------------------------------------------ the window is exactly what is needed

  lemma ResponseIdCarried(m: Records, doc: Document, id: string, now: int)
    ensures Handle(m, doc, id, now).1.responseId == id
  {
  }

  ghost predicate DistinctResponseIds(ds: seq<Delivery>) {
    forall i, j :: 0 <= i < j < |ds| ==> ds[i].responseId != ds[j].responseId
  }

  ghost predicate FirstAnswersVerbatim(ds: seq<Delivery>, answers: seq<Outcome>) {
    |answers| == |ds| && forall i :: 0 <= i < |ds| ==> answers[i] == answers[First(ds, i)]
  }

  /** A write that finds its key expired is handled afresh under its own response id. */
  lemma ExpiredIsHandledAfresh(s: World, d: Delivery, w: Windows)
    requires d.doc.IsWrite()
    requires var key := d.doc.MessageId();
      key in s.entries ==> s.entries[key].Done? && s.entries[key].expiresAt <= d.claimedAt
    ensures Dispatch(s, d, w, true).1.responseId == d.responseId
  {
    assert d.doc.MessageId() !in Evict(s.entries, d.claimedAt, w);
    ResponseIdCarried(s.records, d.doc, d.responseId, d.handledAt);
  }

  /** A repeat that arrives too late gets an answer of its own. */
  lemma LateRepeatAnsweredAfresh(s: World, ds: seq<Delivery>, late: nat, firstAnswer: Outcome, w: Windows)
    requires late < |ds| && LateAt(ds, late, w.ttl)
    requires ds[First(ds, late)].responseId != ds[late].responseId
    requires OwesFor(s.entries, ds[..late], First(ds, late), firstAnswer, w)
    ensures Dispatch(s, ds[late], w, true).1 != firstAnswer
  {
    FirstInPrefix(ds, late, First(ds, late));
    FirstIsItsOwnFirst(ds, late);
    ExpiredIsHandledAfresh(s, ds[late], w);
  }

  /** With fresh response ids, every repeat gets its first answer verbatim exactly when all arrive in time. */
  lemma VerbatimIffWithinWindow(m0: Records, ds: seq<Delivery>, w: Windows)
    requires Sequential(ds) && DistinctResponseIds(ds)
    ensures FirstAnswersVerbatim(ds, DispatchAll(World(map[], m0), ds, w).1) <==> RepeatsWithin(ds, w.ttl)
  {
    var answers := DispatchAll(World(map[], m0), ds, w).1;
    AnswerCount(World(map[], m0), ds, w);
    if RepeatsWithin(ds, w.ttl) {
      InTimeIsVerbatim(m0, ds, w);
    } else {
      var i :| 0 <= i < |ds| && LateAt(ds, i, w.ttl);
      var late := FirstLate(ds, i, w.ttl);
      SequentialPrefix(ds, late);
      AnswersAtLate(m0, ds, late, w);
      LateIsNotVerbatim(World(map[], m0), ds, late, w);
    }
  }

  /** An answer of its own at one place shows in the whole run. */
  lemma LateIsNotVerbatim(s0: World, ds: seq<Delivery>, late: nat, w: Windows)
    requires late < |ds| && First(ds, late) < late
    requires var before, upto := DispatchAll(s0, ds[..late], w).1, DispatchAll(s0, ds[..late + 1], w).1;
      |before| == late && |upto| == late + 1 && upto[late] != before[First(ds, late)]
    ensures !FirstAnswersVerbatim(ds, DispatchAll(s0, ds, w).1)
  {
    PrefixAnswers(s0, ds, late, w);
    PrefixAnswers(s0, ds, late + 1, w);
    NotVerbatim(ds, DispatchAll(s0, ds, w).1, DispatchAll(s0, ds[..late], w).1, DispatchAll(s0, ds[..late + 1], w).1, late);
  }

  lemma NotVerbatim(ds: seq<Delivery>, answers: seq<Outcome>, before: seq<Outcome>, upto: seq<Outcome>, late: nat)
    requires late < |ds| && First(ds, late) < late
    requires |answers| == |ds| && |before| == late && |upto| == late + 1
    requires (forall i :: 0 <= i < late ==> answers[i] == before[i])
    requires (forall i :: 0 <= i <= late ==> answers[i] == upto[i])
    requires upto[late] != before[First(ds, late)]
    ensures !FirstAnswersVerbatim(ds, answers)
  {
    assert answers[late] != answers[First(ds, late)];
  }

  lemma AnswersAtLate(m0: Records, ds: seq<Delivery>, late: nat, w: Windows)
    requires late < |ds| && ds[First(ds, late)].responseId != ds[late].responseId
    requires Sequential(ds[..late]) && RepeatsWithin(ds[..late], w.ttl)
    requires LateAt(ds, late, w.ttl)
    ensures var s0 := World(map[], m0);
      var before, upto := DispatchAll(s0, ds[..late], w).1, DispatchAll(s0, ds[..late + 1], w).1;
      |before| == late && |upto| == late + 1 && upto[late] != before[First(ds, late)]
  {
    var f := First(ds, late);
    RedeliveryInvisible(m0, ds[..late], w);
    var (s, a) := DispatchAll(World(map[], m0), ds[..late], w);
    OwedAt(s.entries, ds[..late], a, f, w);
    LateRepeatAnsweredAfresh(s, ds, late, a[f], w);
    OneMore(World(map[], m0), ds, late, w);
  }

  lemma OneMore(s0: World, ds: seq<Delivery>, n: nat, w: Windows)
    requires n < |ds|
    ensures var (s, a) := DispatchAll(s0, ds[..n], w);
      DispatchAll(s0, ds[..n + 1], w).1 == a + [Dispatch(s, ds[n], w, true).1]
  {
    assert ds[..n + 1][..n] == ds[..n];
  }

  lemma OwedAt(m: Entries, ds: seq<Delivery>, a: seq<Outcome>, i: nat, w: Windows)
    requires |a| == |ds| && StoreOwes(m, ds, a, w) && i < |ds| && ds[i].doc.IsWrite()
    ensures OwesFor(m, ds, i, a[i], w)
  {
  }

  lemma SameSlotSameAnswer(slots: seq<nat>, answers: seq<Outcome>, struck: seq<Outcome>, i: nat, f: nat)
    requires StandsAt(slots, answers, struck) && i < |slots| && f < |slots| && slots[i] == slots[f]
    ensures answers[i] == answers[f]
  {
  }

  lemma InTimeIsVerbatim(m0: Records, ds: seq<Delivery>, w: Windows)
    requires Sequential(ds) && RepeatsWithin(ds, w.ttl)
    ensures FirstAnswersVerbatim(ds, DispatchAll(World(map[], m0), ds, w).1)
  {
    RedeliveryInvisible(m0, ds, w);
    AlikeIsVerbatim(ds, DispatchAll(World(map[], m0), ds, w).1, HandleAll(m0, WithoutRepeats(ds)).1);
  }

  lemma AlikeIsVerbatim(ds: seq<Delivery>, answers: seq<Outcome>, struck: seq<Outcome>)
    requires AnsweredAlike(ds, answers, struck)
    ensures FirstAnswersVerbatim(ds, answers)
  {
    forall i | 0 <= i < |ds|
      ensures answers[i] == answers[First(ds, i)]
    {
      SlotOfFirstCopy(ds, i);
      SameSlotSameAnswer(Slots(ds), answers, struck, i, First(ds, i));
    }
  }

  lemma {:induction false} PrefixAnswers(s: World, ds: seq<Delivery>, n: nat, w: Windows)
    requires n <= |ds|
    ensures var a, p := DispatchAll(s, ds, w).1, DispatchAll(s, ds[..n], w).1;
      |a| == |ds| && |p| == n && forall i :: 0 <= i < n ==> a[i] == p[i]
    decreases |ds|
  {
    AnswerCount(s, ds, w);
    AnswerCount(s, ds[..n], w);
    if n < |ds| {
      assert ds[..|ds| - 1][..n] == ds[..n];
      PrefixAnswers(s, ds[..|ds| - 1], n, w);
    } else {
      assert ds[..n] == ds;
    }
  }

  /** The earliest repeat outside the window. */
  lemma {:induction false} FirstLate(ds: seq<Delivery>, i: nat, ttl: nat) returns (late: nat)
    requires i < |ds| && LateAt(ds, i, ttl)
    ensures late <= i && LateAt(ds, late, ttl) && RepeatsWithin(ds[..late], ttl)
  {
    if j :| 0 <= j < i && LateAt(ds, j, ttl) {
      late := FirstLate(ds, j, ttl);
    } else {
      late := i;
      forall j | 0 <= j < i
        ensures !LateAt(ds[..i], j, ttl)
      {
        FirstInPrefix(ds, i, j);
        assert !LateAt(ds, j, ttl);
      }
    }
  }

  lemma SequentialPrefix(ds: seq<Delivery>, n: nat)
    requires n <= |ds| && Sequential(ds)
    ensures Sequential(ds[..n])
  {
  }

  // ---------------------------------------------------------------- whose claims are whose

  /** Only the eight mutating types are claimed, each under issuer and id; a claim leaves the key taken. */
  lemma ClaimedIffMutating(m: Entries, d: Delivery, w: Windows)
    ensures var key := "MID#" + (if d.doc.issuer.Some? then d.doc.issuer.value else "anonymous") + "#" + d.doc.id;
      if d.doc.slug in {"registry/record/create", "registry/record/update", "registry/record/delete", "registry/did/rotate",
                        "governance/capability/enable", "governance/capability/disable", "git-trust/grant", "git-trust/revoke"}
      then key in Admit(m, d, w, true).0
      else Admit(m, d, w, true) == (m, None)
  {
    var issuer := if d.doc.issuer.Some? then d.doc.issuer.value else "anonymous";
    assert "MID#" + issuer + "#" + d.doc.id == "MID#" + (issuer + "#" + d.doc.id);
  }

  /** Inside the window a second write is answered from the first one's outcome exactly when issuer and id are the same. */
  lemma ReplayedToItsOwnIssuer(records: Records, first: Delivery, again: Delivery, w: Windows)
    requires first.doc.IsWrite() && again.doc.IsWrite()
    requires NamedIssuer(first.doc.issuer) && (NamedIssuer(again.doc.issuer) || again.doc.issuer.None?)
    requires again.claimedAt < first.resolvedAt + w.ttl
    ensures var (s, o) := Dispatch(World(map[], records), first, w, true);
      Admit(s.entries, again, w, true).1
        == if again.doc.issuer == first.doc.issuer && again.doc.id == first.doc.id then Some(o) else None
  {
    LocalOutcomesCacheable(records, first.doc, first.responseId, first.handledAt);
    if again.doc.MessageId() == first.doc.MessageId() {
      MessageKeyInjective(first.doc.issuer, first.doc.id, again.doc.issuer, again.doc.id);
    }
  }

  /**
   * A copy that comes while the first is still being handled is turned away under its own ids, told it
   * may retry, and changes nothing; and once the first is completed, the retry is given its outcome.
   */
  lemma BusyCopyRetries(m: Entries, records: Records, since: int, d: Delivery, retry: Delivery, o: Outcome, at: int, w: Windows)
    requires d.doc.IsWrite() && retry.doc == d.doc
    requires d.doc.MessageId() in m && m[d.doc.MessageId()] == InFlight(since) && d.claimedAt - since < w.inFlight
    requires retry.claimedAt < at + w.ttl
    ensures var (s, answer) := Dispatch(World(m, records), d, w, true);
      && answer == Rejected(d.responseId, d.doc.id, TaskFailed("an identical document is currently being processed"), true)
      && s.records == records && d.doc.MessageId() in s.entries && s.entries[d.doc.MessageId()] == InFlight(since)
      && Dispatch(World(CompleteIn(s.entries, d.doc.MessageId(), o, at, w), records), retry, w, true).1 == o
  {
  }
}
