/**
 Polling until Authentik answers: one request at once, then one after each tick of a five
 second ticker, until a 200 arrives, the deadline has passed, or the caller gives up.
 Time is in milliseconds on an idealised clock that starts at 0.
 */
module Readiness {

  const TICK := 5000

  /** What the surroundings do in one round of the loop. */
  datatype Probe = Probe(
    duration: nat,        // how long the request would take without its deadline
    seenLate: bool,       // after a request cut off by the deadline, the clock already shows a later instant
    answered200: bool,
    cancelled: bool)      // the select takes ctx.Done in this round

  datatype Outcome = Ready | TimedOut | Cancelled

  /**
   The ticker's channel holds at most one tick.  `waiting` is the number of the tick in the
   channel (0 when it is empty); `next` is the number of the next tick to fire, at time
   next * TICK.  A tick that fires while one is waiting is dropped.
   */
  datatype Ticker = Ticker(waiting: nat, next: nat) {
    /** The ticker at time `now`, after every tick up to then has fired. */
    function At(now: nat): (t: Ticker)
      requires next > 0
      ensures t.next > 0 && t.next >= next && now < t.next * TICK
      ensures (next - 1) * TICK <= now ==> (t.next - 1) * TICK <= now
      ensures waiting > 0 ==> t.waiting == waiting
      ensures waiting == 0 && t.waiting > 0 ==> t.waiting == next && t.waiting * TICK <= now && t.next > next
      ensures t.waiting == 0 ==> t.next == next
    {
      if now < next * TICK then this
      else Ticker(if waiting > 0 then waiting else next, now / TICK + 1)
    }
  }

  /** The instant at which the request of this round is over; its context ends at the deadline. */
  function RequestEnd(now: nat, p: Probe, deadline: nat): nat {
    if now + p.duration <= deadline then now + p.duration
    else if p.seenLate then deadline + 1
    else deadline
  }

  method WaitForReady(timeout: nat, probes: nat -> Probe)
    returns (outcome: Outcome, attempts: nat, now: nat)
    ensures 1 <= attempts <= timeout / 5000 + 1
    ensures outcome.Ready? <==> probes(attempts).answered200
    ensures forall i :: 1 <= i < attempts ==> !probes(i).answered200 && !probes(i).cancelled
    ensures outcome.Cancelled? ==> probes(attempts).cancelled
    ensures outcome.TimedOut? ==> timeout < now
    ensures now <= timeout + 5000
    // With immediate answers no attempt is wasted: the bound is reached before giving up.
    ensures outcome.TimedOut? && (forall i :: probes(i).duration == 0) ==> attempts == timeout / 5000 + 1
  {
    var deadline := timeout;
    var ticker := Ticker(0, 1);
    attempts := 0;
    now := 0;
    while true
      invariant now <= deadline
      invariant ticker.next > 0 && (ticker.next - 1) * TICK <= now < ticker.next * TICK
      invariant attempts * TICK <= now
      invariant attempts < ticker.next && (ticker.waiting > 0 ==> attempts < ticker.waiting < ticker.next)
      invariant ticker.waiting > 0 ==> ticker.waiting * TICK <= now
      invariant forall i :: 1 <= i <= attempts ==> !probes(i).answered200 && !probes(i).cancelled
      invariant (forall i :: probes(i).duration == 0) ==>
                  now == attempts * TICK && ticker.waiting == 0 && ticker.next == attempts + 1
      decreases deadline / TICK + 1 - attempts
    {
      attempts := attempts + 1;
      now := RequestEnd(now, probes(attempts), deadline);
      ticker := ticker.At(now);
      if probes(attempts).answered200 {
        return Ready, attempts, now;
      }
      if now > deadline {
        return TimedOut, attempts, now;
      }
      if probes(attempts).cancelled {
        return Cancelled, attempts, now;
      }
      if ticker.waiting > 0 {
        ticker := ticker.(waiting := 0);
      } else {
        now := ticker.next * TICK;
        ticker := ticker.(next := ticker.next + 1);
      }
      if now > deadline {
        return TimedOut, attempts, now;
      }
    }
  }
}
