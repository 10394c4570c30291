/** Capped exponential backoff, in the TSP unpacker and the DIDComm listener (tsp/mod.rs, didcomm/listener/mod.rs). */
module Backoff {
  import opened Domain

  function Pow2(k: nat): (p: nat)
    ensures p >= 1
  {
    if k == 0 then 1 else 2 * Pow2(k - 1)
  }

  function Min(a: nat, b: nat): nat {
    if a <= b then a else b
  }

  /** The delay variable before sleep `k`: doubled and capped after every sleep, so never capped before the first. */
  function Delay(k: nat, initial: nat, cap: nat): nat {
    if k == 0 then initial else Min(Delay(k - 1, initial, cap) * 2, cap)
  }

  /** The first `n` sleeps. */
  function Delays(n: nat, initial: nat, cap: nat): (ds: seq<nat>)
    ensures |ds| == n
  {
    if n == 0 then [] else Delays(n - 1, initial, cap) + [Delay(n - 1, initial, cap)]
  }

  function Sum(ds: seq<nat>): nat {
    if ds == [] then 0 else Sum(ds[..|ds| - 1]) + ds[|ds| - 1]
  }

  // ---------------------------------------------------------------- the two loops

  datatype AtmError = DidError | TransportError | Disconnected | TdkError | MsgReceiveError | SecretsError | OtherError

  /** `is_transient_unpack_error`. */
  predicate Transient(e: AtmError) {
    e.DidError? || e.TransportError? || e.Disconnected? || e.TdkError?
  }

  predicate FailsTransiently<T>(r: Result<T, AtmError>) {
    r.Err? && Transient(r.error)
  }

  /** `retry_transient`; `op(k)` is what call number `k` returns. */
  method RetryTransient<T>(attempts: nat, initial: nat, cap: nat, op: nat -> Result<T, AtmError>)
    returns (result: Result<T, AtmError>, calls: nat, slept: seq<nat>)
    ensures 1 <= calls && (calls <= attempts || calls == 1)
    ensures result == op(calls) && forall k :: 1 <= k < calls ==> FailsTransiently(op(k))
    ensures FailsTransiently(result) ==> calls >= attempts
    ensures forall k :: 1 <= k <= calls ==> (calls > k <==>
      k < attempts && op(k).Err? && op(k).error in {DidError, TransportError, Disconnected, TdkError})
    ensures slept == Delays(calls - 1, initial, cap)
  {
    var backoff, attempt := initial, 1;
    slept := [];
    while true
      invariant 1 <= attempt && (attempt <= attempts || attempt == 1)
      invariant forall k :: 1 <= k < attempt ==> FailsTransiently(op(k))
      invariant backoff == Delay(attempt - 1, initial, cap)
      invariant slept == Delays(attempt - 1, initial, cap)
      decreases attempts - attempt
    {
      var r := op(attempt);
      if r.Ok? || attempt >= attempts || !Transient(r.error) {
        return r, attempt, slept;
      }
      slept := slept + [backoff];
      backoff := Min(backoff * 2, cap);
      attempt := attempt + 1;
    }
  }

  datatype Probe = Accessible | Refused(status: nat) | Unreachable

  datatype ListenerError = InvalidDid | HttpRequest | UnreachableDidDocument

  const WEB_PREFIX := "did:web:"

  /** `check_did_document_availability`; `probe(k)` is the answer to request number `k`. */
  method CheckAvailability(did: string, domainDecodes: bool, clientBuilds: bool, attempts: nat, initial: nat, cap: nat,
                           probe: nat -> Probe)
    returns (result: Result<(), ListenerError>, probes: nat, slept: seq<nat>)
    ensures !("did:web:" <= did) ==> result == Ok(()) && probes == 0
    ensures "did:web:" <= did && !domainDecodes ==> result == Err(InvalidDid) && probes == 0
    ensures "did:web:" <= did && domainDecodes && !clientBuilds ==> result == Err(HttpRequest) && probes == 0
    ensures "did:web:" <= did && domainDecodes && clientBuilds ==>
      && probes <= attempts
      && (forall k :: 1 <= k < probes ==> !probe(k).Accessible?)
      && (if result.Ok? then probes >= 1 && probe(probes).Accessible?
          else result == Err(UnreachableDidDocument) && probes == attempts && (probes >= 1 ==> !probe(probes).Accessible?))
    ensures slept == Delays(if probes == 0 then 0 else probes - 1, initial, cap)
  {
    slept := [];
    if !(WEB_PREFIX <= did) {
      return Ok(()), 0, slept;
    }
    if !domainDecodes {
      return Err(InvalidDid), 0, slept;
    }
    if !clientBuilds {
      return Err(HttpRequest), 0, slept;
    }
    var currentDelay, attempt := initial, 1;
    while attempt <= attempts
      invariant 1 <= attempt <= attempts + 1
      invariant forall k :: 1 <= k < attempt ==> !probe(k).Accessible?
      invariant attempt <= attempts ==>
        currentDelay == Delay(attempt - 1, initial, cap) && slept == Delays(attempt - 1, initial, cap)
      invariant attempt == attempts + 1 ==> slept == Delays(if attempts == 0 then 0 else attempts - 1, initial, cap)
    {
      if probe(attempt).Accessible? {
        return Ok(()), attempt, slept;
      }
      if attempt < attempts {
        slept := slept + [currentDelay];
        currentDelay := Min(currentDelay * 2, cap);
      }
      attempt := attempt + 1;
    }
    return Err(UnreachableDidDocument), attempts, slept;
  }

  // ---------------------------------------------------------------- what the loops sleep

  /** The start, doubled `k` times with no cap. */
  function Doubled(initial: nat, k: nat): nat {
    if k == 0 then initial else 2 * Doubled(initial, k - 1)
  }

  lemma {:induction false} DoubledIsPower(initial: nat, k: nat)
    ensures Doubled(initial, k) == initial * Pow2(k)
    ensures Doubled(initial, k) - initial == initial * (Pow2(k) - 1)
  {
    if k > 0 {
      DoubledIsPower(initial, k - 1);
    }
  }

  lemma {:induction false} CappedDoubling(k: nat, initial: nat, cap: nat)
    requires k >= 1
    ensures Delay(k, initial, cap) == Min(Doubled(initial, k), cap)
  {
    if k > 1 {
      CappedDoubling(k - 1, initial, cap);
    }
  }

  /** After the first sleep the delay is exactly the doubled start, capped, whatever the start. */
  lemma {:induction false} DelayClosedForm(k: nat, initial: nat, cap: nat)
    ensures k >= 1 ==> Delay(k, initial, cap) == Min(initial * Pow2(k), cap)
  {
    if k >= 1 {
      CappedDoubling(k, initial, cap);
      DoubledIsPower(initial, k);
    }
  }

  /** The first sleep follows the same formula exactly when the start is within the cap. */
  lemma UniformIff(initial: nat, cap: nat)
    ensures (forall k: nat :: Delay(k, initial, cap) == Min(initial * Pow2(k), cap)) <==> initial <= cap
  {
    assert Delay(0, initial, cap) == initial && Min(initial * Pow2(0), cap) == Min(initial, cap);
    forall k: nat | k >= 1
      ensures Delay(k, initial, cap) == Min(initial * Pow2(k), cap)
    {
      DelayClosedForm(k, initial, cap);
    }
  }

  lemma {:induction false} SleepAt(n: nat, initial: nat, cap: nat, k: nat)
    requires k < n
    ensures Delays(n, initial, cap)[k] == Delay(k, initial, cap)
  {
    if k < n - 1 {
      SleepAt(n - 1, initial, cap, k);
    }
  }

  lemma SumStep(n: nat, initial: nat, cap: nat)
    requires n > 0
    ensures Sum(Delays(n, initial, cap)) == Sum(Delays(n - 1, initial, cap)) + Delay(n - 1, initial, cap)
  {
    var ds := Delays(n, initial, cap);
    assert ds[..n - 1] == Delays(n - 1, initial, cap);
  }

  lemma {:induction false} DelayUnderDoubled(k: nat, initial: nat, cap: nat)
    ensures Delay(k, initial, cap) <= Doubled(initial, k)
    ensures Doubled(initial, k) <= cap ==> Delay(k, initial, cap) == Doubled(initial, k)
  {
    if k > 0 {
      DelayUnderDoubled(k - 1, initial, cap);
    }
  }

  /** One more delay added to a sum that is under the doubling so far, and reaches it while the cap allows. */
  lemma SumUnderDoubledStep(n: nat, sum: nat, delay: nat, initial: nat, cap: nat)
    requires n > 0 && Doubled(initial, n - 1) >= initial
    requires sum <= Doubled(initial, n - 1) - initial && delay <= Doubled(initial, n - 1)
    requires n > 1 && Doubled(initial, n - 2) <= cap ==> sum == Doubled(initial, n - 1) - initial
    requires n == 1 ==> sum == 0
    requires Doubled(initial, n - 1) <= cap ==> delay == Doubled(initial, n - 1)
    ensures Doubled(initial, n) >= initial && sum + delay <= Doubled(initial, n) - initial
    ensures Doubled(initial, n - 1) <= cap ==> sum + delay == Doubled(initial, n) - initial
  {
    assert Doubled(initial, n) == 2 * Doubled(initial, n - 1);
    if n > 1 {
      assert Doubled(initial, n - 1) == 2 * Doubled(initial, n - 2);
    }
  }

  lemma {:induction false} SumUnderDoubled(n: nat, initial: nat, cap: nat)
    ensures Sum(Delays(n, initial, cap)) <= Doubled(initial, n) - initial
    ensures n > 0 && Doubled(initial, n - 1) <= cap ==> Sum(Delays(n, initial, cap)) == Doubled(initial, n) - initial
    ensures Doubled(initial, n) >= initial
  {
    if n > 0 {
      SumUnderDoubled(n - 1, initial, cap);
      DelayUnderDoubled(n - 1, initial, cap);
      SumStep(n, initial, cap);
      SumUnderDoubledStep(n, Sum(Delays(n - 1, initial, cap)), Delay(n - 1, initial, cap), initial, cap);
    }
  }

  lemma {:induction false} DelayUnderCap(k: nat, initial: nat, cap: nat)
    requires initial <= cap
    ensures Delay(k, initial, cap) <= cap
  {
    if k > 0 {
      DelayUnderCap(k - 1, initial, cap);
    }
  }

  lemma {:induction false} SumUnderCap(n: nat, initial: nat, cap: nat)
    requires initial <= cap
    ensures Sum(Delays(n, initial, cap)) <= n * cap
  {
    if n > 0 {
      SumUnderCap(n - 1, initial, cap);
      DelayUnderCap(n - 1, initial, cap);
      SumStep(n, initial, cap);
      assert n * cap == (n - 1) * cap + cap;
    }
  }

  /** Total sleep stays under the doubling sum, reaches it while the cap is not, and stays under the cap each time. */
  lemma TotalSleep(n: nat, initial: nat, cap: nat)
    ensures Sum(Delays(n, initial, cap)) <= initial * (Pow2(n) - 1)
    ensures n > 0 && initial * Pow2(n - 1) <= cap ==> Sum(Delays(n, initial, cap)) == initial * (Pow2(n) - 1)
    ensures initial <= cap ==> Sum(Delays(n, initial, cap)) <= n * cap
  {
    SumUnderDoubled(n, initial, cap);
    DoubledIsPower(initial, n);
    if n > 0 {
      DoubledIsPower(initial, n - 1);
    }
    if initial <= cap {
      SumUnderCap(n, initial, cap);
    }
  }

  /** Half of what the listener's 64-bit delay can hold. */
  const HALF_U64 := 0x8000_0000_0000_0000

  ghost predicate DoublingsFit(n: nat, initial: nat, cap: nat) {
    forall k :: 0 <= k < n ==> Delay(k, initial, cap) < HALF_U64
  }

  lemma {:induction false} DelaysGrow(k: nat, n: nat, initial: nat, cap: nat)
    requires 1 <= k <= n
    ensures Delay(k, initial, cap) <= Delay(n, initial, cap)
  {
    if k < n {
      DelaysGrow(k, n - 1, initial, cap);
    }
  }

  /** The listener's 64-bit doubling never overflows exactly when the start, and the last capped doubling of it, are small enough. */
  lemma DoublingFitsIff(n: nat, initial: nat, cap: nat)
    ensures DoublingsFit(n, initial, cap) <==>
      n == 0 || (initial < HALF_U64 && (n > 1 ==> Min(initial * Pow2(n - 1), cap) < HALF_U64))
  {
    if n > 1 {
      DelayClosedForm(n - 1, initial, cap);
    }
    LastDoublingDecides(n, initial, cap);
  }

  lemma LastDoublingDecides(n: nat, initial: nat, cap: nat)
    ensures DoublingsFit(n, initial, cap) <==>
      n == 0 || (initial < HALF_U64 && Delay(n - 1, initial, cap) < HALF_U64)
  {
    if n >= 1 && initial < HALF_U64 && Delay(n - 1, initial, cap) < HALF_U64 {
      forall k | 0 <= k < n
        ensures Delay(k, initial, cap) < HALF_U64
      {
        if k >= 1 {
          DelaysGrow(k, n - 1, initial, cap);
        }
      }
    } else if n >= 1 {
      assert Delay(0, initial, cap) == initial;
    }
  }
}
