/** The zone twinlets: what each does with one mailbox message, as a value and as an object updated in place. */
module Twinlets {
  import opened VehiclePhysics
  import opened Fsm
  import opened Zones
  import FrontHeadlamp
  import Wiper

  datatype ReadyMsg = ReadyMsg(zone: AssemblyId, turnId: u64, attempt: u32, reply: ZoneReply)

  datatype SpontaneousMsg = SpontaneousMsg(
    direction: SwitchDirection, cause: IncompleteCause, reply: FrontHeadlamp.HeadlampZoneReply)

  /**
   * Headlamp twinlet: zone snapshot, whether the brain is known yet, the handle of the latest
   * acknowledgement timer, and the timers still running (a replaced handle that is dropped rather
   * than aborted leaves its timer running).
   */
  datatype HeadlampTwinlet = HeadlampTwinlet(
    ctx: FrontHeadlamp.HeadlampContext,
    brainKnown: bool,
    ackTimer: Option<nat>,
    running: map<nat, SwitchDirection>,
    armed: nat)

  const INITIAL_HEADLAMP_TWINLET := HeadlampTwinlet(FrontHeadlamp.DEFAULT_HEADLAMP, false, None, map[], 0)

  /** Direction whose acknowledgement deadline a snapshot needs. */
  function AckDeadline(ctx: FrontHeadlamp.HeadlampContext): Option<SwitchDirection> {
    if ctx.ackPendingSince.None? then None
    else match ctx.state
         case OnRequested => Some(FrontHeadlamp.SwitchOn)
         case OffRequested => Some(FrontHeadlamp.SwitchOff)
         case _ => None
  }

  function AbortAck(t: HeadlampTwinlet): HeadlampTwinlet {
    t.(ackTimer := None, running := if t.ackTimer.Some? then t.running - {t.ackTimer.value} else t.running)
  }

  /** Every message re-arms the deadline the new snapshot needs, whatever was armed before. */
  function ReArmAck(t: HeadlampTwinlet): HeadlampTwinlet {
    var cleared := AbortAck(t);
    var direction := AckDeadline(t.ctx);
    if direction.None? then cleared
    else cleared.(ackTimer := Some(t.armed), running := cleared.running[t.armed := direction.value], armed := t.armed + 1)
  }

  function HeadlampApplied(t: HeadlampTwinlet, msg: FrontHeadlamp.HeadlampMessage, now: Instant): HeadlampTwinlet {
    ReArmAck(t.(ctx := FrontHeadlamp.OnReceivingMessage(t.ctx, msg, now).ctx, brainKnown := true))
  }

  function ElapsedReply(t: HeadlampTwinlet, direction: SwitchDirection, now: Instant): FrontHeadlamp.HeadlampZoneReply {
    FrontHeadlamp.OnReceivingMessage(t.ctx, FrontHeadlamp.ActuationIncomplete(direction, FrontHeadlamp.TimedOut), now)
  }

  function AckElapsed(t: HeadlampTwinlet, direction: SwitchDirection, now: Instant): HeadlampTwinlet {
    if !t.brainKnown then t.(ackTimer := None)
    else t.(ackTimer := None, ctx := ElapsedReply(t, direction, now).ctx)
  }

  /** Handles are numbered in order, and the one kept runs for the direction the zone waits for. */
  ghost predicate AckTimerFits(t: HeadlampTwinlet) {
    && (forall id :: id in t.running ==> id < t.armed)
    && (t.ackTimer.Some? ==> t.ackTimer.value < t.armed)
    && (t.ackTimer.Some? && t.ackTimer.value in t.running ==>
          match t.running[t.ackTimer.value]
          case SwitchOn => t.ctx.state.OnRequested?
          case SwitchOff => t.ctx.state.OffRequested?)
  }

  /** After every message the old handle is aborted, and a new one runs exactly if a request is outstanding, in its direction. */
  lemma {:induction false} MessageRearms(t: HeadlampTwinlet, msg: FrontHeadlamp.HeadlampMessage, now: Instant)
    requires AckTimerFits(t)
    ensures var u := HeadlampApplied(t, msg, now);
            && AckTimerFits(u) && u.brainKnown && u.ctx == FrontHeadlamp.OnReceivingMessage(t.ctx, msg, now).ctx
            && (t.ackTimer.Some? ==> t.ackTimer.value !in u.running)
            && (forall id :: id in t.running && Some(id) != t.ackTimer ==> id in u.running && u.running[id] == t.running[id])
            && (u.ctx.state.OnRequested? && u.ctx.ackPendingSince.Some? ==>
                  u.ackTimer == Some(t.armed) && t.armed in u.running && u.running[t.armed].SwitchOn?)
            && (u.ctx.state.OffRequested? && u.ctx.ackPendingSince.Some? ==>
                  u.ackTimer == Some(t.armed) && t.armed in u.running && u.running[t.armed].SwitchOff?)
            && (u.ctx.ackPendingSince.None? ==> u.ackTimer == None && u.running.Keys <= t.running.Keys)
  {
    hide FrontHeadlamp.OnReceivingMessage;
  }

  /** An elapsed wait settles a request in its direction to what the lamp is, and leaves any other state alone. */
  lemma {:induction false} ElapsedWaitSettles(t: HeadlampTwinlet, direction: SwitchDirection, now: Instant)
    requires AckTimerFits(t)
    ensures var u := AckElapsed(t, direction, now);
            && AckTimerFits(u) && u.ackTimer == None && u.running == t.running && u.brainKnown == t.brainKnown
            && u.ctx == (if t.brainKnown && direction.SwitchOn? && t.ctx.state.OnRequested?
                         then FrontHeadlamp.HeadlampContext(FrontHeadlamp.Ready, None)
                         else if t.brainKnown && direction.SwitchOff? && t.ctx.state.OffRequested?
                         then FrontHeadlamp.HeadlampContext(FrontHeadlamp.On, None)
                         else t.ctx)
  {
  }

  class HeadlampActor {
    var ctx: FrontHeadlamp.HeadlampContext
    const silent: bool
    var brainKnown: bool
    var ackTimer: Option<nat>
    var running: map<nat, SwitchDirection>
    var armed: nat

    function Value(): HeadlampTwinlet
      reads this
    {
      HeadlampTwinlet(ctx, brainKnown, ackTimer, running, armed)
    }

    constructor (silent: bool)
      ensures Value() == INITIAL_HEADLAMP_TWINLET && this.silent == silent
    {
      this.silent := silent;
      ctx, brainKnown, ackTimer, running, armed := FrontHeadlamp.DEFAULT_HEADLAMP, false, None, map[], 0;
    }

    method AbortAckTimer()
      modifies this`ackTimer, this`running
      ensures Value() == AbortAck(old(Value()))
    {
      if ackTimer.Some? {
        running := running - {ackTimer.value};
      }
      ackTimer := None;
    }

    method MaybeArmAckTimer()
      modifies this
      ensures Value() == ReArmAck(old(Value()))
    {
      AbortAckTimer();
      if ctx.ackPendingSince.None? {
        return;
      }
      var direction := FrontHeadlamp.SwitchOn;
      match ctx.state {
        case OnRequested => direction := FrontHeadlamp.SwitchOn;
        case OffRequested => direction := FrontHeadlamp.SwitchOff;
        case _ => return;
      }
      ackTimer := Some(armed);
      running := running[armed := direction];
      armed := armed + 1;
    }

    method HandleApply(message: FrontHeadlamp.HeadlampMessage, now: Instant, turnId: u64, attempt: u32)
      returns (ready: Option<ReadyMsg>)
      modifies this
      ensures silent ==> ready.None? && Value() == old(Value())
      ensures !silent ==>
        && Value() == HeadlampApplied(old(Value()), message, now)
        && ready == Some(ReadyMsg(HeadlampAssembly, turnId, attempt,
                                  FromHeadlamp(FrontHeadlamp.OnReceivingMessage(old(ctx), message, now))))
    {
      if silent {
        return None;
      }
      brainKnown := true;
      var zone := new FrontHeadlamp.HeadlampZone(ctx);
      var outcomes := zone.ApplyInPlace(message, ctx.state, now);
      ctx := zone.Value();
      ready := Some(ReadyMsg(HeadlampAssembly, turnId, attempt,
                             FromHeadlamp(FrontHeadlamp.HeadlampZoneReply(ctx, outcomes))));
      MaybeArmAckTimer();
    }

    method HandleAckWaitElapsed(direction: SwitchDirection, now: Instant) returns (spontaneous: Option<SpontaneousMsg>)
      modifies this
      ensures Value() == AckElapsed(old(Value()), direction, now)
      ensures spontaneous == if !old(brainKnown) then None
                             else Some(SpontaneousMsg(direction, FrontHeadlamp.TimedOut, ElapsedReply(old(Value()), direction, now)))
    {
      ackTimer := None;
      if !brainKnown {
        return None;
      }
      var zone := new FrontHeadlamp.HeadlampZone(ctx);
      var outcomes := zone.ApplyInPlace(FrontHeadlamp.ActuationIncomplete(direction, FrontHeadlamp.TimedOut), ctx.state, now);
      ctx := zone.Value();
      AbortAckTimer();
      spontaneous := Some(SpontaneousMsg(direction, FrontHeadlamp.TimedOut, FrontHeadlamp.HeadlampZoneReply(ctx, outcomes)));
    }
  }

  class WiperActor {
    var ctx: Wiper.WiperContext
    const silent: bool

    constructor (silent: bool)
      ensures ctx == Wiper.DEFAULT_WIPER && this.silent == silent
    {
      this.silent := silent;
      ctx := Wiper.DEFAULT_WIPER;
    }

    method HandleApply(message: Wiper.WiperMessage, turnId: u64, attempt: u32) returns (ready: Option<ReadyMsg>)
      modifies this
      ensures silent ==> ready.None? && ctx == old(ctx)
      ensures !silent ==>
        && ctx == Wiper.OnReceivingMessage(old(ctx), message).ctx
        && ready == Some(ReadyMsg(WiperAssembly, turnId, attempt, FromWiper(Wiper.OnReceivingMessage(old(ctx), message))))
    {
      if silent {
        return None;
      }
      var zone := new Wiper.WiperZone(ctx);
      var outcomes := zone.ApplyInPlace(message);
      ctx := zone.Value();
      ready := Some(ReadyMsg(WiperAssembly, turnId, attempt, FromWiper(Wiper.WiperZoneReply(ctx, outcomes))));
    }
  }
}
