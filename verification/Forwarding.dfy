/** Handing received mail to the platform: what one forward writes. */
module MxForwarding {
  import opened DurableSteps
  import opened SpoolFiles
  import Backoff

  /** The platform decided (accepted, duplicate or refused), refused the node for good, or
      could not be asked. */
  datatype ForwardAnswer = Decided | Fatal | Failed

  /** Whether a forward ends the node's hold on the message: its bytes are gone, the
      platform decided or refused it for good, or its lifetime passed at a failure. */
  predicate SettledBy(readable: bool, r: Received, a: ForwardAnswer, now: int, lifetime: int) {
    !readable || !a.Failed? || now - r.receivedAt > lifetime
  }

  function ForwardWrites(readable: bool, r: Received, a: ForwardAnswer, now: int, lifetime: int): seq<Write> {
    if SettledBy(readable, r, a, now, lifetime) then RemoveReceivedWrites(r.id)
    else [UpdateInbound(r.(attempts := r.attempts + 1, nextAttempt := now + Backoff.ForwardSchedule(r.attempts + 1)))]
  }

  class ForwardLoop {
    const spool: Spool
    const maxLifetime: int

    constructor (spool: Spool, maxLifetime: int)
      ensures this.spool == spool && this.maxLifetime == maxLifetime
    {
      this.spool, this.maxLifetime := spool, maxLifetime;
    }

    /** One message. Without its bytes it is dropped; so it is once the platform decided on
        it or refused it for good; a failed forward keeps it until its lifetime is over, due
        again after the forwarding gap. */
    method ForwardOne(r: Received, answer: ForwardAnswer, now: int)
      requires spool.Valid()
      modifies spool
      ensures spool.Valid()
      ensures spool.log == old(spool.log) + ForwardWrites(r.id in old(spool.received), r, answer, now, maxLifetime)
      ensures r.id !in old(spool.received) || answer.Decided? || answer.Fatal? ==>
                spool.inbound == old(spool.inbound) - {r.id} && spool.received == old(spool.received) - {r.id}
      ensures r.id in old(spool.received) && answer.Failed? ==>
                if now - r.receivedAt > maxLifetime
                then spool.inbound == old(spool.inbound) - {r.id} && spool.received == old(spool.received) - {r.id}
                else spool.received == old(spool.received) &&
                     spool.inbound == old(spool.inbound)[r.id :=
                       r.(attempts := r.attempts + 1, nextAttempt := now + Backoff.ForwardSchedule(r.attempts + 1))]
      ensures spool.messages == old(spool.messages) && spool.outcomes == old(spool.outcomes) &&
              spool.bodies == old(spool.bodies)
    {
      if r.id !in spool.received {
        spool.RemoveInbound(r.id);
        return;
      }
      match answer {
        case Decided => spool.RemoveInbound(r.id);
        case Fatal => spool.RemoveInbound(r.id);
        case Failed => RetryForward(r, now);
      }
    }

    method RetryForward(r: Received, now: int)
      requires spool.Valid()
      modifies spool
      ensures spool.Valid() && spool.log == old(spool.log) + ForwardWrites(true, r, Failed, now, maxLifetime)
      ensures if now - r.receivedAt > maxLifetime
              then spool.Now() == old(spool.Now()).(inbound := old(spool.inbound) - {r.id},
                                                    received := old(spool.received) - {r.id})
              else spool.Now() == old(spool.Now()).(inbound := old(spool.inbound)[r.id :=
                     r.(attempts := r.attempts + 1, nextAttempt := now + Backoff.ForwardSchedule(r.attempts + 1))])
    {
      if now - r.receivedAt > maxLifetime {
        spool.RemoveInbound(r.id);
      } else {
        var gap := Backoff.ForwardGap(r.attempts + 1);
        spool.Step(UpdateInbound(r.(attempts := r.attempts + 1, nextAttempt := now + gap)));
      }
    }
  }
}
