/** One request's worker: bounded attempts against the adapter, ended by an answer, a deadline or a cancellation. */
module ManagedWorker {
  import opened Optional
  import opened ManagedModel

  /** What the worker sees of the cancellation flag and the deadline at one of its checks. */
  datatype Probe = Probe(cancelled: bool, due: bool)

  /** `fits` is whether the response keeps within the response limits; a panic is a fatal answer. */
  datatype Response = Frames(fits: bool) | Fatal | Retryable

  /** Checks 0, 1 and 2 of an attempt come before it, after the reconnect delay and after the answer. */
  datatype Environment = Environment(probe: (nat, nat) -> Probe, respond: nat -> Response)

  datatype Verdict = Stop(result: Option<Outcome>) | Again

  function Checked(p: Probe): Verdict {
    if p.cancelled then Stop(None) else if p.due then Stop(Some(TimedOut)) else Again
  }

  function Answered(r: Response, last: bool): Verdict {
    match r
    case Frames(fits) => Stop(Some(if fits then Succeeded else Failed))
    case Fatal => Stop(Some(Failed))
    case Retryable => if last then Stop(Some(RetryExhausted)) else Again
  }

  /** How one attempt ends. */
  function Attempt(env: Environment, limit: nat, attempt: nat): Verdict {
    var before := Checked(env.probe(attempt, 0));
    var delayed := if attempt > 1 then Checked(env.probe(attempt, 1)) else Again;
    var after := Checked(env.probe(attempt, 2));
    if before.Stop? then before
    else if delayed.Stop? then delayed
    else if after.Stop? then after
    else Answered(env.respond(attempt), attempt >= limit)
  }

  predicate SeesCancel(env: Environment, attempt: nat) {
    env.probe(attempt, 0).cancelled || env.probe(attempt, 1).cancelled || env.probe(attempt, 2).cancelled
  }

  /**
   The first attempt that does not ask for another one decides. There always is one within
   the limit; only an observed cancellation leaves the request without a result, and a result
   is never `Cancelled`; retry exhaustion means every attempt was made and answered retryably.
   */
  method RunRequest(env: Environment, limit: nat)
    returns (result: Option<Outcome>, deciding: nat, attempts: nat, retries: nat, reconnects: nat)
    requires limit >= 1
    ensures 1 <= deciding <= limit && Attempt(env, limit, deciding) == Stop(result)
    ensures forall a :: 1 <= a < deciding ==> Attempt(env, limit, a) == Again
    ensures attempts == (if Checked(env.probe(deciding, 0)).Stop? then deciding - 1 else deciding)
    ensures retries == deciding - 1 && reconnects == (if attempts == 0 then 0 else attempts - 1)
    ensures result.None? ==> SeesCancel(env, deciding)
    ensures result != Some(Cancelled)
    ensures result == Some(RetryExhausted) ==>
              attempts == limit && forall a :: 1 <= a <= limit ==> env.respond(a) == Retryable
  {
    result := None;
    attempts, retries, reconnects := 0, 0, 0;
    deciding := 1;
    while deciding <= limit
      invariant 1 <= deciding <= limit
      invariant forall a :: 1 <= a < deciding ==> Attempt(env, limit, a) == Again
      invariant attempts == retries == deciding - 1
      invariant reconnects == if attempts == 0 then 0 else attempts - 1
      invariant result == None
      decreases limit - deciding
    {
      var early := env.probe(deciding, 0);
      if early.cancelled { return; }
      if early.due { return Some(TimedOut), deciding, attempts, retries, reconnects; }
      attempts := attempts + 1;
      if deciding > 1 {
        reconnects := reconnects + 1;
        var woken := env.probe(deciding, 1);
        if woken.cancelled { return; }
        if woken.due { return Some(TimedOut), deciding, attempts, retries, reconnects; }
      }
      var response := env.respond(deciding);
      var late := env.probe(deciding, 2);
      if late.cancelled { return; }
      if late.due { return Some(TimedOut), deciding, attempts, retries, reconnects; }
      match response {
        case Frames(fits) =>
          return Some(if fits then Succeeded else Failed), deciding, attempts, retries, reconnects;
        case Fatal =>
          return Some(Failed), deciding, attempts, retries, reconnects;
        case Retryable =>
          if deciding >= limit {
            forall a: nat | 1 <= a <= limit ensures env.respond(a) == Retryable {
              if a < deciding { assert Attempt(env, limit, a) == Again; }
            }
            return Some(RetryExhausted), deciding, attempts, retries, reconnects;
          }
          retries := retries + 1;
      }
      deciding := deciding + 1;
    }
  }

  /** What the worker returns is one of the results the stream model lets a worker finish with. */
  lemma WorkerResultIsPossible(env: Environment, limit: nat, deciding: nat, result: Option<Outcome>, r: Request)
    requires Attempt(env, limit, deciding) == Stop(result)
    requires SeesCancel(env, deciding) ==> r.cancelFlag
    ensures PossibleResult(r, result)
  {
  }
}

/** Admission slots and the leases on them. */
module AdmissionControl {
  datatype Acquired = Leased(lease: AdmissionLease) | NoSlot | AdmissionClosed

  /** `live` is the set of leases not yet given back. */
  class AdmissionSlots {
    const max: nat
    var inFlight: nat
    var closed: bool
    ghost var live: set<AdmissionLease>

    /** One slot is taken per live lease, never more than there are. */
    ghost predicate Valid()
      reads this, live
    {
      inFlight == |live| <= max && forall l :: l in live ==> l.slots == this
    }

    constructor (capacity: nat)
      requires capacity > 0
      ensures Valid() && max == capacity && !closed && live == {}
    {
      max, inFlight, closed, live := capacity, 0, false, {};
    }

    /** No slots at all are refused. */
    static method New(capacity: nat) returns (slots: AdmissionSlots?)
      ensures slots == null <==> capacity == 0
      ensures slots != null ==>
                fresh(slots) && slots.Valid() && slots.max == capacity && !slots.closed && slots.live == {}
    {
      if capacity == 0 { return null; }
      slots := new AdmissionSlots(capacity);
    }

    method TryAcquire() returns (r: Acquired)
      requires Valid()
      modifies this
      ensures Valid() && closed == old(closed)
      ensures r.AdmissionClosed? <==> old(closed)
      ensures r.NoSlot? <==> !old(closed) && old(inFlight) == max
      ensures r.Leased? ==>
                && fresh(r.lease) && r.lease.slots == this
                && live == old(live) + {r.lease} && inFlight == old(inFlight) + 1
      ensures !r.Leased? ==> live == old(live) && inFlight == old(inFlight)
    {
      if closed { return AdmissionClosed; }
      if inFlight == max { return NoSlot; }
      inFlight := inFlight + 1;
      var lease := new AdmissionLease(this);
      live := live + {lease};
      return Leased(lease);
    }

    /** Closing stops new leases; those out stay valid. */
    method Close()
      requires Valid()
      modifies this
      ensures Valid() && closed && live == old(live) && inFlight == old(inFlight)
    {
      closed := true;
    }
  }

  class AdmissionLease {
    var slots: AdmissionSlots?

    constructor (s: AdmissionSlots)
      ensures slots == s
    {
      slots := s;
    }

    /** Gives the slot back exactly once: releasing, or dropping, again changes nothing. */
    method Release()
      requires slots != null ==> slots.Valid() && this in slots.live
      modifies this, slots
      ensures slots == null
      ensures old(slots) != null ==>
                && old(slots).Valid() && old(slots).live == old(slots.live) - {this}
                && old(slots).inFlight == old(slots.inFlight) - 1 && old(slots).closed == old(slots.closed)
    {
      if slots == null { return; }
      var shared := slots;
      slots := null;
      shared.live := shared.live - {this};
      shared.inFlight := shared.inFlight - 1;
    }
  }
}
