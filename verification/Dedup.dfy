/** The message-id claim store (trust-registry/src/dedup/mod.rs). Times are milliseconds. */
module Dedup {
  import opened Domain
  import opened Tasks

  const DEFAULT_TTL := 24 * 60 * 60 * 1000
  const DEFAULT_IN_FLIGHT_TTL := 5 * 60 * 1000
  /** Longest span a clock difference can hold; longer settings collapse to zero. */
  const MAX_SPAN := 0x7FFF_FFFF_FFFF_FFFF

  function SpanOrZero(duration: nat): nat {
    if duration <= MAX_SPAN then duration else 0
  }

  /** The windows of a store built from these settings. */
  function Configured(ttl: nat, inFlightTtl: nat): Windows {
    Windows(SpanOrZero(ttl), SpanOrZero(inFlightTtl))
  }

  /** How long a completed outcome replays, and how long an unresolved claim is honoured. */
  datatype Windows = Windows(ttl: nat, inFlight: nat)

  datatype Entry =
    | InFlight(claimedAt: int)
    | Done(outcome: Outcome, expiresAt: int)

  datatype Claim = Acquired | Replay(outcome: Outcome) | Busy

  type Entries = map<string, Entry>

  predicate Live(e: Entry, now: int, w: Windows) {
    match e
    case Done(_, expiresAt) => expiresAt > now
    case InFlight(claimedAt) => now - claimedAt < w.inFlight
  }

  /** `evict_expired`. */
  function Evict(m: Entries, now: int, w: Windows): Entries {
    map k | k in m && Live(m[k], now, w) :: m[k]
  }

  function AnswerFor(m: Entries, key: string): Claim {
    if key !in m then Acquired
    else
      match m[key]
      case Done(o, _) => Replay(o)
      case InFlight(_) => Busy
  }

  function ClaimIn(m: Entries, key: string, now: int, w: Windows): (Entries, Claim) {
    var kept := Evict(m, now, w);
    (if key in kept then kept else kept[key := InFlight(now)], AnswerFor(kept, key))
  }

  function CompleteIn(m: Entries, key: string, outcome: Outcome, now: int, w: Windows): Entries {
    m[key := Done(outcome, now + w.ttl)]
  }

  /** `MemoryMessageIdStore`; each call reads the clock once, passed in as `now`. */
  class MemoryMessageIdStore {
    const w: Windows
    var entries: Entries

    constructor (ttl: nat, inFlightTtl: nat)
      ensures w == Configured(ttl, inFlightTtl) && entries == map[]
    {
      w := Windows(SpanOrZero(ttl), SpanOrZero(inFlightTtl));
      entries := map[];
    }

    constructor Default()
      ensures w == Configured(DEFAULT_TTL, DEFAULT_IN_FLIGHT_TTL) && entries == map[]
    {
      w := Configured(DEFAULT_TTL, DEFAULT_IN_FLIGHT_TTL);
      entries := map[];
    }

    method EvictExpired(now: int)
      modifies this
      ensures entries == Evict(old(entries), now, w)
    {
      entries := map k | k in entries && Live(entries[k], now, w) :: entries[k];
    }

    method ClaimKey(key: string, now: int) returns (claim: Claim)
      modifies this
      ensures (entries, claim) == ClaimIn(old(entries), key, now, w)
      ensures forall k :: k in entries && !(claim.Acquired? && k == key) ==> Live(entries[k], now, w)
    {
      EvictExpired(now);
      if key in entries {
        match entries[key] {
          case Done(o, _) => claim := Replay(o);
          case InFlight(_) => claim := Busy;
        }
      } else {
        entries := entries[key := InFlight(now)];
        claim := Acquired;
      }
    }

    method Complete(key: string, outcome: Outcome, now: int)
      modifies this
      ensures entries == CompleteIn(old(entries), key, outcome, now, w)
    {
      var expiresAt := now + w.ttl;
      entries := entries[key := Done(outcome, expiresAt)];
    }

    method Release(key: string)
      modifies this
      ensures entries == old(entries) - {key}
    {
      entries := entries - {key};
    }
  }

  // ------------------------------------------------ the store refines its history

  datatype Event =
    | ClaimAt(key: string, at: int)
    | CompleteAt(key: string, outcome: Outcome, at: int)
    | ReleaseAt(key: string, at: int)

  ghost predicate Monotone(es: seq<Event>) {
    forall i, j :: 0 <= i < j < |es| ==> es[i].at <= es[j].at
  }

  function Apply(m: Entries, e: Event, w: Windows): Entries {
    match e
    case ClaimAt(k, at) => ClaimIn(m, k, at, w).0
    case CompleteAt(k, o, at) => CompleteIn(m, k, o, at, w)
    case ReleaseAt(k, _) => m - {k}
  }

  /** The store after a history of calls. */
  function StoreAfter(es: seq<Event>, w: Windows): Entries {
    if es == [] then map[] else Apply(StoreAfter(es[..|es| - 1], w), es[|es| - 1], w)
  }

  /** What a claim at `now` would be told. */
  function Answer(es: seq<Event>, key: string, now: int, w: Windows): Claim {
    ClaimIn(StoreAfter(es, w), key, now, w).1
  }

  /** What is due to one key, told from that key's own events and never evicted. */
  function Due(es: seq<Event>, key: string, w: Windows): Option<Entry> {
    if es == [] then None
    else
      var before, e := Due(es[..|es| - 1], key, w), es[|es| - 1];
      if e.key != key then before
      else
        match e
        case ClaimAt(_, at) => if DueAnswer(before, at, w).Acquired? then Some(InFlight(at)) else before
        case CompleteAt(_, o, at) => Some(Done(o, at + w.ttl))
        case ReleaseAt(_, _) => None
  }

  function DueAnswer(due: Option<Entry>, now: int, w: Windows): Claim {
    if due.None? || !Live(due.value, now, w) then Acquired
    else if due.value.Done? then Replay(due.value.outcome)
    else Busy
  }

  /** The entry a later claim could still see. */
  function Visible(m: Entries, key: string, now: int, w: Windows): Option<Entry> {
    if key in m && Live(m[key], now, w) then Some(m[key]) else None
  }

  ghost predicate Tracks(m: Entries, due: Option<Entry>, key: string, since: int, w: Windows) {
    forall t :: t >= since ==>
      Visible(m, key, t, w) == if due.Some? && Live(due.value, t, w) then due else None
  }

  lemma {:induction false} StoreTracksDue(es: seq<Event>, key: string, w: Windows, now: int)
    requires Monotone(es) && forall i :: 0 <= i < |es| ==> es[i].at <= now
    ensures Tracks(StoreAfter(es, w), Due(es, key, w), key, now, w)
  {
    if es != [] {
      var init, e := es[..|es| - 1], es[|es| - 1];
      StoreTracksDue(init, key, w, e.at);
      var m, due := StoreAfter(init, w), Due(init, key, w);
      forall t | t >= now
        ensures Visible(Apply(m, e, w), key, t, w) ==
          (var d := Due(es, key, w); if d.Some? && Live(d.value, t, w) then d else None)
      {
        assert Visible(m, key, t, w) == if due.Some? && Live(due.value, t, w) then due else None;
        assert Visible(m, key, e.at, w) == if due.Some? && Live(due.value, e.at, w) then due else None;
      }
    }
  }

  /** With a clock that never steps back, a claim's answer depends on its own key's history alone. */
  lemma AnswersFollowOwnHistory(es: seq<Event>, key: string, now: int, w: Windows)
    requires Monotone(es) && forall i :: 0 <= i < |es| ==> es[i].at <= now
    ensures Answer(es, key, now, w) == DueAnswer(Due(es, key, w), now, w)
    ensures Answer(es, key, now, w) == Answer(OnKey(es, key), key, now, w)
  {
    StoreTracksDue(es, key, w, now);
    assert Visible(StoreAfter(es, w), key, now, w).Some? <==> DueAnswer(Due(es, key, w), now, w) != Acquired;
    OnKeyTimes(es, key, now);
    OnKeyDue(es, key, w);
    StoreTracksDue(OnKey(es, key), key, w, now);
    assert Visible(StoreAfter(OnKey(es, key), w), key, now, w) == Visible(StoreAfter(es, w), key, now, w);
  }

  function OnKey(es: seq<Event>, key: string): seq<Event> {
    if es == [] then []
    else OnKey(es[..|es| - 1], key) + if es[|es| - 1].key == key then [es[|es| - 1]] else []
  }

  lemma {:induction false} OnKeyTimes(es: seq<Event>, key: string, now: int)
    requires Monotone(es) && forall i :: 0 <= i < |es| ==> es[i].at <= now
    ensures Monotone(OnKey(es, key))
    ensures forall i :: 0 <= i < |OnKey(es, key)| ==> OnKey(es, key)[i].at <= now
  {
    if es != [] {
      OnKeyTimes(es[..|es| - 1], key, es[|es| - 1].at);
    }
  }

  lemma {:induction false} OnKeyDue(es: seq<Event>, key: string, w: Windows)
    ensures Due(OnKey(es, key), key, w) == Due(es, key, w)
  {
    if es != [] {
      var init, e := es[..|es| - 1], es[|es| - 1];
      OnKeyDue(init, key, w);
      if e.key == key {
        var f := OnKey(es, key);
        assert f[..|f| - 1] == OnKey(init, key) && f[|f| - 1] == e;
      } else {
        assert OnKey(es, key) == OnKey(init, key);
      }
    }
  }

  // ------------------------------------------------ clocks that step back

  /** How many events of the history it takes to have made the current due entry: later ones left it alone. */
  function MadeBy(es: seq<Event>, key: string, w: Windows): (n: nat)
    ensures n <= |es|
  {
    if es == [] then 0
    else
      var init, e := es[..|es| - 1], es[|es| - 1];
      if e.key != key || (e.ClaimAt? && !DueAnswer(Due(init, key, w), e.at, w).Acquired?) then MadeBy(init, key, w)
      else |es|
  }

  /** Event `i`, a claim on another key read by a clock under which the entry due now had expired. */
  ghost predicate EvictsDue(es: seq<Event>, key: string, w: Windows, i: nat)
    requires i < |es|
  {
    && MadeBy(es, key, w) <= i && es[i].ClaimAt? && es[i].key != key
    && Due(es, key, w).Some? && !Live(Due(es, key, w).value, es[i].at, w)
  }

  ghost predicate Evicted(es: seq<Event>, key: string, w: Windows) {
    exists i :: 0 <= i < |es| && EvictsDue(es, key, w, i)
  }

  /** Claim `j` on the key finds due what a claim on another key, made in between, saw expired. */
  ghost predicate ForgottenAt(es: seq<Event>, key: string, w: Windows, j: nat)
    requires j < |es|
  {
    && es[j].ClaimAt? && es[j].key == key
    && Due(es[..j], key, w).Some? && Live(Due(es[..j], key, w).value, es[j].at, w)
    && Evicted(es[..j], key, w)
  }

  /** Claim `j` on the key is answered from the key's own history. */
  ghost predicate AnsweredAsDue(es: seq<Event>, key: string, w: Windows, j: nat)
    requires j < |es|
  {
    es[j].ClaimAt? && es[j].key == key ==>
      Answer(es[..j], key, es[j].at, w) == DueAnswer(Due(es[..j], key, w), es[j].at, w)
  }

  ghost predicate HoldsUnlessEvicted(m: Entries, due: Option<Entry>, evicted: bool, key: string) {
    if due.Some? && !evicted then key in m && m[key] == due.value else key !in m
  }

  lemma EvictedStep(es: seq<Event>, key: string, w: Windows)
    requires es != []
    ensures var init, e := es[..|es| - 1], es[|es| - 1];
      if MadeBy(es, key, w) == |es| then !Evicted(es, key, w)
      else
        Due(es, key, w) == Due(init, key, w)
        && (Evicted(es, key, w) <==>
              Evicted(init, key, w)
              || (e.ClaimAt? && e.key != key && Due(init, key, w).Some? && !Live(Due(init, key, w).value, e.at, w)))
  {
    var init, e := es[..|es| - 1], es[|es| - 1];
    if MadeBy(es, key, w) < |es| {
      if Evicted(init, key, w) {
        var i :| 0 <= i < |init| && EvictsDue(init, key, w, i);
        assert EvictsDue(es, key, w, i);
      }
      if e.ClaimAt? && e.key != key && Due(init, key, w).Some? && !Live(Due(init, key, w).value, e.at, w) {
        assert EvictsDue(es, key, w, |es| - 1);
      }
      if Evicted(es, key, w) {
        var i :| 0 <= i < |es| && EvictsDue(es, key, w, i);
        assert i < |es| - 1 ==> EvictsDue(init, key, w, i);
      }
    }
  }

  /** As long as no claim on the key was answered otherwise, the store holds what is due unless it was evicted. */
  lemma {:induction false} HeldUnlessEvicted(es: seq<Event>, key: string, w: Windows)
    requires forall j :: 0 <= j < |es| ==> AnsweredAsDue(es, key, w, j)
    ensures HoldsUnlessEvicted(StoreAfter(es, w), Due(es, key, w), Evicted(es, key, w), key)
  {
    if es != [] {
      var init, e := es[..|es| - 1], es[|es| - 1];
      forall j | 0 <= j < |init|
        ensures AnsweredAsDue(init, key, w, j)
      {
        assert init[..j] == es[..j];
        assert AnsweredAsDue(es, key, w, j);
      }
      HeldUnlessEvicted(init, key, w);
      EvictedStep(es, key, w);
      assert AnsweredAsDue(es, key, w, |es| - 1);
    }
  }

  lemma AsDueUnlessForgotten(es: seq<Event>, key: string, w: Windows, j: nat)
    requires j < |es| && forall k :: 0 <= k < j ==> AnsweredAsDue(es, key, w, k)
    ensures AnsweredAsDue(es, key, w, j) <==> !ForgottenAt(es, key, w, j)
  {
    forall k | 0 <= k < j
      ensures AnsweredAsDue(es[..j], key, w, k)
    {
      assert es[..j][..k] == es[..k];
      assert AnsweredAsDue(es, key, w, k);
    }
    HeldUnlessEvicted(es[..j], key, w);
  }

  /**
   * Whatever the clock does, every claim on a key is answered from that key's own history exactly
   * when none finds due what a claim on another key, made in between, saw expired.
   */
  lemma OwnHistoryIff(es: seq<Event>, key: string, w: Windows)
    ensures (forall j :: 0 <= j < |es| ==> AnsweredAsDue(es, key, w, j))
      <==> (forall j :: 0 <= j < |es| ==> !ForgottenAt(es, key, w, j))
  {
    if forall j :: 0 <= j < |es| ==> AnsweredAsDue(es, key, w, j) {
      forall j | 0 <= j < |es|
        ensures !ForgottenAt(es, key, w, j)
      {
        AsDueUnlessForgotten(es, key, w, j);
      }
    } else {
      var j :| 0 <= j < |es| && !AnsweredAsDue(es, key, w, j);
      var first := FirstOtherwise(es, key, w, j);
      AsDueUnlessForgotten(es, key, w, first);
    }
  }

  lemma {:induction false} FirstOtherwise(es: seq<Event>, key: string, w: Windows, j: nat) returns (first: nat)
    requires j < |es| && !AnsweredAsDue(es, key, w, j)
    ensures first <= j && !AnsweredAsDue(es, key, w, first)
    ensures forall k :: 0 <= k < first ==> AnsweredAsDue(es, key, w, k)
  {
    if k :| 0 <= k < j && !AnsweredAsDue(es, key, w, k) {
      first := FirstOtherwise(es, key, w, k);
    } else {
      first := j;
    }
  }

  /** A clock that never steps back forgets nothing: what is live later was live before. */
  lemma MonotoneForgetsNothing(es: seq<Event>, key: string, w: Windows, j: nat)
    requires Monotone(es) && j < |es|
    ensures !ForgottenAt(es, key, w, j)
  {
  }

  /** Once it does step back, a claim read in the future can make another key's live outcome forgotten. */
  lemma ClockStepBackForgets(o: Outcome)
    ensures var es := [ClaimAt("k", 0), CompleteAt("k", o, 0), ClaimAt("other", 20), ClaimAt("k", 5)];
      var w := Windows(10, 5);
      ForgottenAt(es, "k", w, 3)
      && Answer(es[..3], "k", 5, w) == Acquired && DueAnswer(Due(es[..3], "k", w), 5, w) == Replay(o)
  {
    var w := Windows(10, 5);
    var es := [ClaimAt("k", 0), CompleteAt("k", o, 0), ClaimAt("other", 20), ClaimAt("k", 5)];
    var three := es[..3];
    assert es[..2] == three[..2] && es[..1] == es[..2][..1] && es[..0] == [];
    assert Due(es[..2], "k", w) == Some(Done(o, 10)) && MadeBy(es[..2], "k", w) == 2;
    assert StoreAfter(es[..2], w)["k"] == Done(o, 10);
    assert Due(three, "k", w) == Some(Done(o, 10)) && MadeBy(three, "k", w) == 2;
    assert EvictsDue(three, "k", w, 2);
    assert "k" !in StoreAfter(three, w);
  }

  // ------------------------------------------------ separation of grants

  /** Event `i` is a claim of `key` that was granted. */
  ghost predicate GrantedAt(es: seq<Event>, i: nat, key: string, w: Windows)
    requires i < |es|
  {
    es[i].ClaimAt? && es[i].key == key && Answer(es[..i], key, es[i].at, w) == Acquired
  }

  /** Between events `i` and `n`: a release of the key, or a completion whose outcome is `due`. */
  ghost predicate ReleasedWithin(es: seq<Event>, i: nat, n: nat, key: string) {
    exists m :: i < m < n && m < |es| && es[m].ReleaseAt? && es[m].key == key
  }

  ghost predicate CompletedWithin(es: seq<Event>, i: nat, n: nat, key: string, deadline: int) {
    exists m :: i < m < n && m < |es| && es[m].CompleteAt? && es[m].key == key && es[m].at <= deadline
  }

  /** After a grant, until a release, the key is due to that grant, a later one, or a completion since. */
  lemma {:induction false} DueSinceGrant(es: seq<Event>, i: nat, n: nat, key: string, w: Windows)
    requires Monotone(es) && i < n <= |es| && GrantedAt(es, i, key, w)
    requires !ReleasedWithin(es, i, n, key)
    ensures var d := Due(es[..n], key, w);
      d.Some? && match d.value {
        case InFlight(at) => at >= es[i].at
        case Done(_, expiresAt) => CompletedWithin(es, i, n, key, expiresAt - w.ttl)
      }
    decreases n
  {
    var prefix := es[..n];
    assert prefix[..n - 1] == es[..n - 1] && prefix[n - 1] == es[n - 1];
    if n == i + 1 {
      AnswersFollowOwnHistory(es[..i], key, es[i].at, w);
    } else {
      assert !ReleasedWithin(es, i, n - 1, key);
      DueSinceGrant(es, i, n - 1, key, w);
      var d := Due(es[..n - 1], key, w);
      if d.value.Done? {
        var m :| i < m < n - 1 && m < |es| && es[m].CompleteAt? && es[m].key == key
          && es[m].at <= d.value.expiresAt - w.ttl;
        assert CompletedWithin(es, i, n, key, d.value.expiresAt - w.ttl);
      }
      if es[n - 1].CompleteAt? && es[n - 1].key == key {
        assert CompletedWithin(es, i, n, key, es[n - 1].at);
      }
      assert es[n - 1].ReleaseAt? ==> es[n - 1].key != key;
    }
  }

  /**
   * No bound on handler time is assumed: two grants of one key are separated by a release,
   * by the in-flight window since the first, or by the replay window since a completion.
   */
  lemma GrantsAreSeparated(es: seq<Event>, i: nat, j: nat, key: string, w: Windows)
    requires Monotone(es) && i < j < |es|
    requires GrantedAt(es, i, key, w) && GrantedAt(es, j, key, w)
    ensures || ReleasedWithin(es, i, j, key)
            || es[j].at - es[i].at >= w.inFlight
            || CompletedWithin(es, i, j, key, es[j].at - w.ttl)
  {
    if !ReleasedWithin(es, i, j, key) {
      DueSinceGrant(es, i, j, key, w);
      AnswersFollowOwnHistory(es[..j], key, es[j].at, w);
      var d := Due(es[..j], key, w).value;
      if d.Done? {
        var m :| i < m < j && m < |es| && es[m].CompleteAt? && es[m].key == key && es[m].at <= d.expiresAt - w.ttl;
      }
    }
  }

  // ------------------------------------------------ how long a store as configured remembers

  /** Event `i` is on the key, and no later one is. */
  ghost predicate LastOn(es: seq<Event>, key: string, i: nat) {
    i < |es| && es[i].key == key && forall j :: i < j < |es| ==> es[j].key != key
  }

  /** What is due to a key is what its last event left due. */
  lemma {:induction false} DueSinceLast(es: seq<Event>, key: string, i: nat, w: Windows)
    requires LastOn(es, key, i)
    ensures Due(es, key, w) == Due(es[..i + 1], key, w)
    decreases |es|
  {
    if i + 1 < |es| {
      var init := es[..|es| - 1];
      assert es[|es| - 1].key != key;
      assert init[..i + 1] == es[..i + 1];
      DueSinceLast(init, key, i, w);
    } else {
      assert es[..i + 1] == es;
    }
  }

  ghost predicate UpTo(es: seq<Event>, now: int) {
    Monotone(es) && forall i :: 0 <= i < |es| ==> es[i].at <= now
  }

  /**
   * With a store built from these settings, whatever happens on other keys: once a key is completed,
   * its outcome is replayed exactly while less than the replay window has passed, if that setting is
   * one a clock difference can hold, and from then on the key is free again.
   */
  lemma ReplayedIff(es: seq<Event>, i: nat, key: string, o: Outcome, now: int, ttl: nat, inFlightTtl: nat)
    requires LastOn(es, key, i) && es[i].CompleteAt? && es[i].outcome == o && UpTo(es, now)
    ensures Answer(es, key, now, Configured(ttl, inFlightTtl))
      == if ttl <= 0x7FFF_FFFF_FFFF_FFFF && now < es[i].at + ttl then Replay(o) else Acquired
  {
    var w := Configured(ttl, inFlightTtl);
    AnswersFollowOwnHistory(es, key, now, w);
    DueSinceLast(es, key, i, w);
    assert es[..i + 1][|es[..i + 1]| - 1] == es[i];
  }

  /** Likewise, once a claim of it is granted a key is busy exactly while less than the in-flight window has passed. */
  lemma BusyIff(es: seq<Event>, i: nat, key: string, now: int, ttl: nat, inFlightTtl: nat)
    requires LastOn(es, key, i) && GrantedAt(es, i, key, Configured(ttl, inFlightTtl)) && UpTo(es, now)
    ensures Answer(es, key, now, Configured(ttl, inFlightTtl))
      == if inFlightTtl <= 0x7FFF_FFFF_FFFF_FFFF && now < es[i].at + inFlightTtl then Busy else Acquired
  {
    var w := Configured(ttl, inFlightTtl);
    AnswersFollowOwnHistory(es, key, now, w);
    DueSinceLast(es, key, i, w);
    AnswersFollowOwnHistory(es[..i], key, es[i].at, w);
    assert es[..i + 1][..|es[..i + 1]| - 1] == es[..i] && es[..i + 1][|es[..i + 1]| - 1] == es[i];
  }

  /** Releasing a key frees it at once. */
  lemma ReleasedIsFree(es: seq<Event>, i: nat, key: string, now: int, w: Windows)
    requires LastOn(es, key, i) && es[i].ReleaseAt? && UpTo(es, now)
    ensures Answer(es, key, now, w) == Acquired
  {
    AnswersFollowOwnHistory(es, key, now, w);
    DueSinceLast(es, key, i, w);
    assert es[..i + 1][|es[..i + 1]| - 1] == es[i];
  }

  /** As the server builds it, the store replays for a day and honours an unresolved claim for five minutes. */
  lemma DefaultWindows(es: seq<Event>, i: nat, key: string, now: int)
    requires LastOn(es, key, i) && UpTo(es, now)
    ensures var answer := Answer(es, key, now, Configured(DEFAULT_TTL, DEFAULT_IN_FLIGHT_TTL));
      && (es[i].CompleteAt? ==>
            answer == if now < es[i].at + 86_400_000 then Replay(es[i].outcome) else Acquired)
      && (GrantedAt(es, i, key, Configured(DEFAULT_TTL, DEFAULT_IN_FLIGHT_TTL)) ==>
            answer == if now < es[i].at + 300_000 then Busy else Acquired)
  {
    if es[i].CompleteAt? {
      ReplayedIff(es, i, key, es[i].outcome, now, DEFAULT_TTL, DEFAULT_IN_FLIGHT_TTL);
    } else if GrantedAt(es, i, key, Configured(DEFAULT_TTL, DEFAULT_IN_FLIGHT_TTL)) {
      BusyIff(es, i, key, now, DEFAULT_TTL, DEFAULT_IN_FLIGHT_TTL);
    }
  }
}
