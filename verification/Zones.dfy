/** Demultiplexing of one event to the zones, and the merge of zone replies into the vehicle context (L4). */
module Zones {
  import opened VehiclePhysics
  import opened Fsm
  import FrontHeadlamp
  import Wiper

  datatype ZoneMessage = ToHeadlamp(headlamp: FrontHeadlamp.HeadlampMessage) | ToWiper(wiper: Wiper.WiperMessage)

  datatype ZoneReply = FromHeadlamp(headlamp: FrontHeadlamp.HeadlampZoneReply) | FromWiper(wiper: Wiper.WiperZoneReply)

  type ZoneReplies = map<AssemblyId, ZoneReply>

  datatype Route = NoZone | Route(zone: AssemblyId, message: ZoneMessage)

  function UserEventToZoneTell(event: FsmEvent): Route {
    match event
    case UpdateAmbientLux(lux) => Route(HeadlampAssembly, ToHeadlamp(FrontHeadlamp.AmbientLux(lux)))
    case FrontHeadlampOnAck => Route(HeadlampAssembly, ToHeadlamp(FrontHeadlamp.AckOn))
    case FrontHeadlampOffAck => Route(HeadlampAssembly, ToHeadlamp(FrontHeadlamp.AckOff))
    case FrontHeadlampActuationIncomplete(direction, cause) =>
      Route(HeadlampAssembly, ToHeadlamp(FrontHeadlamp.ActuationIncomplete(direction, cause)))
    case RainsStarted => Route(WiperAssembly, ToWiper(Wiper.Start))
    case RainsStopped => Route(WiperAssembly, ToWiper(Wiper.Stop))
    case _ => NoZone
  }

  /** No zone is told anything for a user event while assemblies start or stop. */
  function ZoneMessageForEvent(event: FsmEvent, state: FsmState): Route {
    if state.Preparing() then NoZone else UserEventToZoneTell(event)
  }

  /** The headlamp message an event carries when it is applied locally. */
  function HeadlampMessageFor(event: FsmEvent): Option<FrontHeadlamp.HeadlampMessage> {
    match event
    case UpdateAmbientLux(lux) => Some(FrontHeadlamp.AmbientLux(lux))
    case FrontHeadlampOnAck => Some(FrontHeadlamp.AckOn)
    case FrontHeadlampOffAck => Some(FrontHeadlamp.AckOff)
    case FrontHeadlampActuationIncomplete(direction, cause) => Some(FrontHeadlamp.ActuationIncomplete(direction, cause))
    case TimerTick => Some(FrontHeadlamp.TimerTick)
    case _ => None
  }

  /** The wiper message an event carries when it is applied locally. */
  function WiperMessageFor(event: FsmEvent): Option<Wiper.WiperMessage> {
    match event
    case RainsStarted => Some(Wiper.Start)
    case RainsStopped => Some(Wiper.Stop)
    case _ => None
  }

  function HeadlampIngress(replies: ZoneReplies): Option<FrontHeadlamp.HeadlampZoneReply> {
    if HeadlampAssembly in replies && replies[HeadlampAssembly].FromHeadlamp?
    then Some(replies[HeadlampAssembly].headlamp) else None
  }

  function WiperIngress(replies: ZoneReplies): Option<Wiper.WiperZoneReply> {
    if WiperAssembly in replies && replies[WiperAssembly].FromWiper?
    then Some(replies[WiperAssembly].wiper) else None
  }

  /** What the headlamp zone contributes to the turn: a tell-back when there is one, else the local handler. */
  function HeadlampPart(ctx: VehicleContext, event: FsmEvent, now: Instant, replies: ZoneReplies)
    : FrontHeadlamp.HeadlampZoneReply
  {
    var ingress := HeadlampIngress(replies);
    var message := HeadlampMessageFor(event);
    if message.Some? then
      if ingress.Some? then ingress.value else FrontHeadlamp.OnReceivingMessage(ctx.headlamp, message.value, now)
    else if event == AssemblyZoneReady(HeadlampAssembly) && ingress.Some? then
      ingress.value
    else
      FrontHeadlamp.HeadlampZoneReply(ctx.headlamp, [])
  }

  function WiperPart(ctx: VehicleContext, event: FsmEvent, replies: ZoneReplies): Wiper.WiperZoneReply {
    var ingress := WiperIngress(replies);
    var message := WiperMessageFor(event);
    if message.Some? then
      if ingress.Some? then ingress.value else Wiper.OnReceivingMessage(ctx.wiper, message.value)
    else if event == AssemblyZoneReady(WiperAssembly) && ingress.Some? then
      ingress.value
    else
      Wiper.WiperZoneReply(ctx.wiper, [])
  }

  function HeadlampAction(outcome: FrontHeadlamp.HeadlampOutcome): DomainAction {
    match outcome
    case RequestOn => RequestFrontHeadlampOn
    case RequestOff => RequestFrontHeadlampOff
    case LogWarning(w) => DomainAction.LogWarning(HeadlampZoneWarning(w))
  }

  function WiperAction(outcome: Wiper.WiperOutcome): DomainAction {
    match outcome
    case StartWiping => RequestWiperStart
    case StopWiping => RequestWiperStop
    case LogUnresponsive => DomainAction.LogWarning(WiperZoneUnresponsive)
  }

  function HeadlampActions(outcomes: seq<FrontHeadlamp.HeadlampOutcome>): seq<DomainAction> {
    seq(|outcomes|, i requires 0 <= i < |outcomes| => HeadlampAction(outcomes[i]))
  }

  function WiperActions(outcomes: seq<Wiper.WiperOutcome>): seq<DomainAction> {
    seq(|outcomes|, i requires 0 <= i < |outcomes| => WiperAction(outcomes[i]))
  }

  datatype ZoneTurnResult = ZoneTurnResult(ctx: VehicleContext, actions: seq<DomainAction>)

  /**
   * `zone_turn` followed by the outcome map. At most one zone is touched by an event, so the
   * order of the two action groups never shows.
   */
  function ZoneTurn(ctx: VehicleContext, event: FsmEvent, state: FsmState, now: Instant, replies: ZoneReplies): ZoneTurnResult {
    var headlamp := HeadlampPart(ctx, event, now, replies);
    var wiper := WiperPart(ctx, event, replies);
    ZoneTurnResult(
      ctx.(powertrain := if event.UpdateRpm? then PowertrainAfter(event.rpm, state.Off?) else ctx.powertrain,
           ambientLux := if event.UpdateAmbientLux? then event.lux else ctx.ambientLux,
           headlamp := headlamp.ctx,
           wiper := wiper.ctx),
      HeadlampActions(headlamp.outcomes) + WiperActions(wiper.outcomes))
  }

  /** What is told to a zone is what the local handler would apply; only a tick is applied without being told. */
  lemma {:induction false} ToldIsAppliedLocally(event: FsmEvent, state: FsmState)
    requires !state.Preparing()
    ensures match ZoneMessageForEvent(event, state)
            case Route(HeadlampAssembly, message) => message.ToHeadlamp? && HeadlampMessageFor(event) == Some(message.headlamp)
            case Route(WiperAssembly, message) => message.ToWiper? && WiperMessageFor(event) == Some(message.wiper)
            case NoZone => WiperMessageFor(event) == None && (HeadlampMessageFor(event).Some? <==> event.TimerTick?)
  {
  }

  /** The tell-back of a twinlet that stands where the mirror stands. */
  function InStepReplies(ctx: VehicleContext, event: FsmEvent, now: Instant): ZoneReplies {
    var headlamp, wiper := HeadlampMessageFor(event), WiperMessageFor(event);
    if headlamp.Some? then map[HeadlampAssembly := FromHeadlamp(FrontHeadlamp.OnReceivingMessage(ctx.headlamp, headlamp.value, now))]
    else if wiper.Some? then map[WiperAssembly := FromWiper(Wiper.OnReceivingMessage(ctx.wiper, wiper.value))]
    else map[]
  }

  /** With twinlet and mirror in step, committing the tell-back is committing the local handler's result. */
  lemma {:induction false} InStepTellBackIsLocal(ctx: VehicleContext, event: FsmEvent, state: FsmState, now: Instant)
    ensures ZoneTurn(ctx, event, state, now, InStepReplies(ctx, event, now)) == ZoneTurn(ctx, event, state, now, map[])
  {
    hide HeadlampActions, WiperActions, PowertrainAfter;
  }

  /** A turn touches at most one zone: not both contexts move, and not both act. */
  lemma {:induction false} AtMostOneZone(ctx: VehicleContext, event: FsmEvent, now: Instant, replies: ZoneReplies)
    ensures HeadlampPart(ctx, event, now, replies) == FrontHeadlamp.HeadlampZoneReply(ctx.headlamp, [])
         || WiperPart(ctx, event, replies) == Wiper.WiperZoneReply(ctx.wiper, [])
  {
  }
}
