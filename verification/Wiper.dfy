/** Wiper zone (L1): three states, immediate transitions, no acknowledgement protocol. */
module Wiper {
  datatype WiperState = Off | Ready | Running

  datatype WiperMessage = BecomeOn | BecomeOff | Start | Stop

  datatype WiperOutcome = StartWiping | StopWiping | LogUnresponsive

  datatype WiperContext = WiperContext(state: WiperState)

  datatype WiperZoneReply = WiperZoneReply(ctx: WiperContext, outcomes: seq<WiperOutcome>)

  const DEFAULT_WIPER := WiperContext(WiperState.Off)

  /** `WiperContext::on_receiving_message`. */
  function OnReceivingMessage(ctx: WiperContext, msg: WiperMessage): WiperZoneReply {
    match (msg, ctx.state)
    case (BecomeOn, Off) => WiperZoneReply(WiperContext(WiperState.Ready), [])
    case (BecomeOff, _) => WiperZoneReply(WiperContext(WiperState.Off), [])
    case (Start, Ready) => WiperZoneReply(WiperContext(Running), [StartWiping])
    case (Stop, Running) => WiperZoneReply(WiperContext(WiperState.Ready), [StopWiping])
    case (_, _) => WiperZoneReply(ctx, [])
  }

  /** The snapshot after a whole sequence of messages. */
  function Fold(ctx: WiperContext, msgs: seq<WiperMessage>): WiperContext
    decreases |msgs|
  {
    if msgs == [] then ctx else Fold(OnReceivingMessage(ctx, msgs[0]).ctx, msgs[1..])
  }

  /** The wiper changes its motion exactly with the commands it asks for, except that `BecomeOff` stops it unasked. */
  lemma {:induction false} MotionFollowsCommands(ctx: WiperContext, msg: WiperMessage)
    ensures var reply := OnReceivingMessage(ctx, msg);
            && (reply.outcomes == [StartWiping] <==> !ctx.state.Running? && reply.ctx.state.Running?)
            && (reply.outcomes == [StopWiping] <==> ctx.state.Running? && !reply.ctx.state.Running? && !msg.BecomeOff?)
            && |reply.outcomes| <= 1 && LogUnresponsive !in reply.outcomes
  {
  }

  /** The states in messages alone: off until switched on, running from a start until a stop. */
  lemma {:induction false} StateFollowsMessages(ctx: WiperContext, msg: WiperMessage)
    ensures var next := OnReceivingMessage(ctx, msg).ctx.state;
            && (next.Off? <==> msg.BecomeOff? || (ctx.state.Off? && !msg.BecomeOn?))
            && (next.Running? <==> (ctx.state.Running? && !msg.Stop? && !msg.BecomeOff?) || (ctx.state.Ready? && msg.Start?))
  {
  }

  class WiperZone {
    var state: WiperState

    function Value(): WiperContext
      reads this
    {
      WiperContext(state)
    }

    constructor (ctx: WiperContext)
      ensures Value() == ctx
    {
      state := ctx.state;
    }

    method ApplyInPlace(msg: WiperMessage) returns (outcomes: seq<WiperOutcome>)
      modifies this
      ensures WiperZoneReply(Value(), outcomes) == OnReceivingMessage(old(Value()), msg)
    {
      outcomes := [];
      match msg {
        case BecomeOn =>
          if state.Off? {
            state := WiperState.Ready;
          }
        case BecomeOff => state := WiperState.Off;
        case Start =>
          if state.Ready? {
            state := Running;
            outcomes := [StartWiping];
          }
        case Stop =>
          if state.Running? {
            state := WiperState.Ready;
            outcomes := [StopWiping];
          }
      }
    }
  }
}
