/** Reorder-buffer slots: one entry per in-flight turn, with its tell-back bookkeeping. */
module TurnBarriers {
  import opened VehiclePhysics
  import opened Fsm
  import opened Zones
  import FrontHeadlamp
  import Wiper

  const U32_MAX: u32 := 0xFFFF_FFFF

  datatype TellBackWait = TellBackWait(turnId: u64, tellAttempt: u32, retriesRemaining: u8)

  function NewWait(turnId: u64): TellBackWait {
    TellBackWait(turnId, 0, ZONE_TELL_BACK_MAX_RETRIES)
  }

  function NextAttempt(attempt: u32): u32 {
    if attempt < U32_MAX then attempt + 1 else attempt
  }

  function SyntheticHeadlampReply(ctx: FrontHeadlamp.HeadlampContext): FrontHeadlamp.HeadlampZoneReply {
    FrontHeadlamp.HeadlampZoneReply(ctx, [FrontHeadlamp.LogWarning(FrontHeadlamp.Unresponsive)])
  }

  function SyntheticWiperReply(ctx: Wiper.WiperContext): Wiper.WiperZoneReply {
    Wiper.WiperZoneReply(ctx, [Wiper.LogUnresponsive])
  }

  datatype TellBackTimeoutOutcome = RetryWith(wait: TellBackWait) | Exhausted(reply: FrontHeadlamp.HeadlampZoneReply)

  /** The retry policy as a pure decision on one wait. */
  function OnTellBackTimeout(ctx: FrontHeadlamp.HeadlampContext, wait: TellBackWait): TellBackTimeoutOutcome {
    if wait.retriesRemaining > 0 then
      RetryWith(TellBackWait(wait.turnId, NextAttempt(wait.tellAttempt), wait.retriesRemaining - 1))
    else
      Exhausted(SyntheticHeadlampReply(ctx))
  }

  /** Handle of the deadline armed for one tell. */
  datatype Timer = Timer(zone: AssemblyId, turnId: u64, attempt: u32)

  datatype TimeoutOutcome = Retry(nextAttempt: u32) | GaveUp

  /** Value of one waiting slot. */
  datatype Barrier = Barrier(
    turnId: u64,
    event: FsmEvent,
    now: Instant,
    pending: set<AssemblyId>,
    waits: map<AssemblyId, TellBackWait>,
    timers: map<AssemblyId, Timer>,
    replies: ZoneReplies,
    messages: map<AssemblyId, ZoneMessage>)
  {
    predicate IsComplete() { pending == {} }

    predicate TellAttemptMatches(zone: AssemblyId, attempt: u32) {
      zone in waits && waits[zone].tellAttempt == attempt
    }

    function AddPendingZone(zone: AssemblyId, message: ZoneMessage, wait: TellBackWait, timer: Timer): Barrier {
      this.(pending := pending + {zone}, messages := messages[zone := message],
            waits := waits[zone := wait], timers := timers[zone := timer])
    }

    function ActOnZoneReply(zone: AssemblyId, reply: ZoneReply): Barrier {
      this.(pending := pending - {zone}, replies := replies[zone := reply], timers := timers - {zone})
    }

    /** The live handle a reply for `zone` aborts. */
    function AbortedBy(zone: AssemblyId): set<Timer> {
      if zone in timers then {timers[zone]} else {}
    }

    predicate Retries(zone: AssemblyId, attempt: u32) {
      zone in waits && waits[zone].tellAttempt == attempt && waits[zone].retriesRemaining > 0
    }

    /** Slot after a fired deadline; the outcome is a retry exactly when `Retries` holds. */
    function ActOnZoneTimeout(zone: AssemblyId, attempt: u32): Barrier {
      var spent := this.(timers := timers - {zone});
      if Retries(zone, attempt) then
        var wait := waits[zone];
        spent.(waits := waits[zone := wait.(tellAttempt := NextAttempt(wait.tellAttempt),
                                            retriesRemaining := wait.retriesRemaining - 1)])
      else
        spent
    }

    function StoreRetryTimer(zone: AssemblyId, timer: Timer): Barrier {
      this.(timers := timers[zone := timer])
    }
  }

  function EmptyBarrier(turnId: u64, event: FsmEvent, now: Instant): Barrier {
    Barrier(turnId, event, now, {}, map[], map[], map[], map[])
  }

  /** A slot freshly told to one zone. */
  function NewBarrier(turnId: u64, event: FsmEvent, now: Instant, zone: AssemblyId, message: ZoneMessage): Barrier {
    EmptyBarrier(turnId, event, now).AddPendingZone(zone, message, NewWait(turnId), Timer(zone, turnId, 0))
  }

  datatype Entry = Waiting(barrier: Barrier) | Passthrough(turnId: u64, event: FsmEvent, now: Instant) {
    function TurnId(): u64 { if Waiting? then barrier.turnId else turnId }
    function Event(): FsmEvent { if Waiting? then barrier.event else event }
    function Now(): Instant { if Waiting? then barrier.now else now }
    function Replies(): ZoneReplies { if Waiting? then barrier.replies else map[] }
    predicate IsComplete() { Waiting? ==> barrier.IsComplete() }
  }

  /** The slot object the actor keeps in its queue and updates in place. */
  class TurnBarrier {
    const turnId: u64
    const event: FsmEvent
    const now: Instant
    var pending: set<AssemblyId>
    var zoneWaits: map<AssemblyId, TellBackWait>
    var zoneTimers: map<AssemblyId, Timer>
    var zoneReplies: ZoneReplies
    var zoneMessages: map<AssemblyId, ZoneMessage>

    function Value(): Barrier
      reads this
    {
      Barrier(turnId, event, now, pending, zoneWaits, zoneTimers, zoneReplies, zoneMessages)
    }

    constructor (turnId: u64, event: FsmEvent, now: Instant)
      ensures Value() == EmptyBarrier(turnId, event, now)
    {
      this.turnId, this.event, this.now := turnId, event, now;
      pending, zoneWaits, zoneTimers, zoneReplies, zoneMessages := {}, map[], map[], map[], map[];
    }

    method AddPendingZone(zone: AssemblyId, message: ZoneMessage, wait: TellBackWait, timer: Timer)
      modifies this
      ensures Value() == old(Value()).AddPendingZone(zone, message, wait, timer)
    {
      pending := pending + {zone};
      zoneMessages := zoneMessages[zone := message];
      zoneWaits := zoneWaits[zone := wait];
      zoneTimers := zoneTimers[zone := timer];
    }

    method StoreRetryTimer(zone: AssemblyId, timer: Timer)
      modifies this
      ensures Value() == old(Value()).StoreRetryTimer(zone, timer)
    {
      zoneTimers := zoneTimers[zone := timer];
    }

    /** Returns the handles it aborts. */
    method ActOnZoneReply(zone: AssemblyId, reply: ZoneReply) returns (aborted: set<Timer>)
      modifies this
      ensures Value() == old(Value()).ActOnZoneReply(zone, reply)
      ensures aborted == old(Value()).AbortedBy(zone)
    {
      pending := pending - {zone};
      zoneReplies := zoneReplies[zone := reply];
      aborted := {};
      if zone in zoneTimers {
        aborted := {zoneTimers[zone]};
      }
      zoneTimers := zoneTimers - {zone};
    }

    method ActOnZoneTimeout(zone: AssemblyId, attempt: u32) returns (outcome: TimeoutOutcome)
      modifies this
      ensures Value() == old(Value()).ActOnZoneTimeout(zone, attempt)
      ensures outcome.Retry? <==> old(Value()).Retries(zone, attempt)
      ensures outcome.Retry? ==> zone in zoneWaits && outcome.nextAttempt == zoneWaits[zone].tellAttempt
    {
      zoneTimers := zoneTimers - {zone};
      if zone !in zoneWaits {
        return GaveUp;
      }
      var wait := zoneWaits[zone];
      if wait.tellAttempt == attempt && wait.retriesRemaining > 0 {
        wait := wait.(tellAttempt := NextAttempt(wait.tellAttempt), retriesRemaining := wait.retriesRemaining - 1);
        zoneWaits := zoneWaits[zone := wait];
        outcome := Retry(wait.tellAttempt);
      } else {
        outcome := GaveUp;
      }
    }

    /** Teardown: every live handle is aborted. */
    method AbortAllTimers() returns (aborted: set<Timer>)
      modifies this
      ensures Value() == old(Value()).(timers := map[])
      ensures aborted == old(zoneTimers).Values
    {
      aborted := zoneTimers.Values;
      zoneTimers := map[];
    }
  }
}
