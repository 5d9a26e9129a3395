/** Front-headlamp zone (L1): the value-level handler and the zone object that updates itself in place. */
module FrontHeadlamp {
  import opened VehiclePhysics

  datatype HeadlampState = Off | Ready | OnRequested | On | OffRequested

  datatype SwitchDirection = SwitchOn | SwitchOff

  datatype IncompleteCause = TimedOut | NegativeAck

  datatype HeadlampMessage =
    | BecomeOn
    | BecomeOff
    | AmbientLux(lux: u16)
    | AckOn
    | AckOff
    | ActuationIncomplete(direction: SwitchDirection, cause: IncompleteCause)
    | TimerTick
    | ResetForIgnitionOff

  datatype HeadlampWarning = Incomplete(direction: SwitchDirection, cause: IncompleteCause) | Unresponsive

  datatype HeadlampOutcome = RequestOn | RequestOff | LogWarning(warning: HeadlampWarning)

  datatype HeadlampContext = HeadlampContext(state: HeadlampState, ackPendingSince: Option<Instant>)

  datatype HeadlampZoneReply = HeadlampZoneReply(ctx: HeadlampContext, outcomes: seq<HeadlampOutcome>)

  const DEFAULT_HEADLAMP := HeadlampContext(HeadlampState.Off, None)

  predicate Requested(state: HeadlampState) {
    state.OnRequested? || state.OffRequested?
  }

  /** The switch direction a pending request waits for. */
  predicate Awaits(state: HeadlampState, direction: SwitchDirection) {
    (state.OnRequested? && direction.SwitchOn?) || (state.OffRequested? && direction.SwitchOff?)
  }

  predicate AckWaitElapsed(since: Instant, now: Instant, wait: Duration) {
    DurationSince(now, since) >= wait
  }

  /** Where a failed request falls back to: the lamp keeps the state it physically had. */
  function Recovered(direction: SwitchDirection, cause: IncompleteCause): HeadlampZoneReply {
    HeadlampZoneReply(
      HeadlampContext(if direction.SwitchOn? then HeadlampState.Ready else HeadlampState.On, None),
      [LogWarning(Incomplete(direction, cause))])
  }

  /** Direction of the request whose acknowledgement a tick at `now` finds overdue. */
  function Overdue(ctx: HeadlampContext, now: Instant): Option<SwitchDirection> {
    if ctx.ackPendingSince.None? then
      None
    else if ctx.state.OnRequested? && AckWaitElapsed(ctx.ackPendingSince.value, now, FRONT_HEADLAMP_ON_ACK_WAIT) then
      Some(SwitchOn)
    else if ctx.state.OffRequested? && AckWaitElapsed(ctx.ackPendingSince.value, now, FRONT_HEADLAMP_OFF_ACK_WAIT) then
      Some(SwitchOff)
    else
      None
  }

  /** `HeadlampContext::on_receiving_message`: snapshot in, snapshot and egress out. */
  function OnReceivingMessage(ctx: HeadlampContext, msg: HeadlampMessage, now: Instant): HeadlampZoneReply {
    match msg
    case BecomeOn => HeadlampZoneReply(HeadlampContext(HeadlampState.Ready, None), [])
    case BecomeOff => HeadlampZoneReply(HeadlampContext(HeadlampState.Off, None), [])
    case AckOn => HeadlampZoneReply(HeadlampContext(HeadlampState.On, None), [])
    case AckOff => HeadlampZoneReply(HeadlampContext(HeadlampState.Ready, None), [])
    case ResetForIgnitionOff => HeadlampZoneReply(HeadlampContext(HeadlampState.Off, None), [])
    case AmbientLux(lux) =>
      if ctx.state.Ready? && lux <= LUX_ON_THRESHOLD then
        HeadlampZoneReply(HeadlampContext(OnRequested, Some(now)), [RequestOn])
      else if ctx.state.On? && lux >= LUX_OFF_THRESHOLD then
        HeadlampZoneReply(HeadlampContext(OffRequested, Some(now)), [RequestOff])
      else
        HeadlampZoneReply(ctx, [])
    case ActuationIncomplete(direction, cause) =>
      if Awaits(ctx.state, direction) then Recovered(direction, cause) else HeadlampZoneReply(ctx, [])
    case TimerTick =>
      var overdue := Overdue(ctx, now);
      if overdue.Some? then Recovered(overdue.value, TimedOut) else HeadlampZoneReply(ctx, [])
  }

  /** The zone as the program holds it: one object whose fields the handlers assign. */
  class HeadlampZone {
    var state: HeadlampState
    var ackPendingSince: Option<Instant>

    function Value(): HeadlampContext
      reads this
    {
      HeadlampContext(state, ackPendingSince)
    }

    constructor (ctx: HeadlampContext)
      ensures Value() == ctx
    {
      state := ctx.state;
      ackPendingSince := ctx.ackPendingSince;
    }

    method ApplyInPlace(msg: HeadlampMessage, prevState: HeadlampState, now: Instant) returns (outcomes: seq<HeadlampOutcome>)
      requires prevState == state
      modifies this
      ensures HeadlampZoneReply(Value(), outcomes) == OnReceivingMessage(old(Value()), msg, now)
    {
      outcomes := [];
      match msg {
        case BecomeOn => state, ackPendingSince := HeadlampState.Ready, None;
        case BecomeOff => state, ackPendingSince := HeadlampState.Off, None;
        case AmbientLux(lux) => outcomes := EvaluateLux(prevState, lux, now);
        case AckOn => state, ackPendingSince := HeadlampState.On, None;
        case AckOff => state, ackPendingSince := HeadlampState.Ready, None;
        case ActuationIncomplete(direction, cause) => outcomes := RecoverIncomplete(direction, cause);
        case TimerTick => outcomes := OnTimerTick(now);
        case ResetForIgnitionOff => state, ackPendingSince := HeadlampState.Off, None;
      }
    }

    method EvaluateLux(prevState: HeadlampState, lux: u16, now: Instant) returns (outcomes: seq<HeadlampOutcome>)
      requires prevState == state
      modifies this
      ensures HeadlampZoneReply(Value(), outcomes) == OnReceivingMessage(old(Value()), AmbientLux(lux), now)
    {
      outcomes := [];
      if prevState.Ready? && lux <= LUX_ON_THRESHOLD {
        state := OnRequested;
        ackPendingSince := Some(now);
        outcomes := outcomes + [RequestOn];
      } else if prevState.On? && lux >= LUX_OFF_THRESHOLD {
        state := OffRequested;
        ackPendingSince := Some(now);
        outcomes := outcomes + [RequestOff];
      }
    }

    method OnTimerTick(now: Instant) returns (outcomes: seq<HeadlampOutcome>)
      modifies this
      ensures HeadlampZoneReply(Value(), outcomes) == OnReceivingMessage(old(Value()), HeadlampMessage.TimerTick, now)
    {
      outcomes := [];
      if ackPendingSince.None? {
        return;
      }
      var since := ackPendingSince.value;
      if state.OnRequested? && AckWaitElapsed(since, now, FRONT_HEADLAMP_ON_ACK_WAIT) {
        outcomes := RecoverIncomplete(SwitchOn, TimedOut);
      } else if state.OffRequested? && AckWaitElapsed(since, now, FRONT_HEADLAMP_OFF_ACK_WAIT) {
        outcomes := RecoverIncomplete(SwitchOff, TimedOut);
      }
    }

    method RecoverIncomplete(direction: SwitchDirection, cause: IncompleteCause) returns (outcomes: seq<HeadlampOutcome>)
      modifies this
      ensures HeadlampZoneReply(Value(), outcomes)
              == if Awaits(old(state), direction) then Recovered(direction, cause)
                 else HeadlampZoneReply(old(Value()), [])
    {
      outcomes := [];
      if !Awaits(state, direction) {
        return;
      }
      ackPendingSince := None;
      match direction {
        case SwitchOn => state := HeadlampState.Ready;
        case SwitchOff => state := HeadlampState.On;
      }
      outcomes := outcomes + [LogWarning(Incomplete(direction, cause))];
    }
  }
}
