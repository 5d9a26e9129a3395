/**
 * What one ledger row says, in fields and numbers: the cut, the mode change and the actions an event
 * must lead to, stated apart from the functions that compute them, and met by every row of every turn.
 */
module RowLaws {
  import opened VehiclePhysics
  import opened Fsm
  import opened Zones
  import opened TwinTurn
  import opened Turns
  import FrontHeadlamp
  import Wiper

  const BOTH: set<AssemblyId> := {HeadlampAssembly, WiperAssembly}

  // ── the mode ─────────────────────────────────────────────────────────────

  /** The operational table, read off a row. */
  ghost predicate ModeLaw(r: TransitionRecord) {
    var next, speed, health := r.nextState, r.currentCtx.powertrain.speedKph, r.currentCtx.health;
    match r.oldState
    case Off =>
      next == if r.event.PowerOn? && health.fuelLevelPct > 5 && health.oilPressureKpa > 10 && health.tyrePressureOk
              then PreparingToStart(BOTH) else FsmState.Off
    case PreparingToStart(left) =>
      next == if !r.event.AssemblyZoneReady? then r.oldState
              else if left <= {r.event.assembly} then Idle
              else PreparingToStart(left - {r.event.assembly})
    case Idle =>
      next == if r.event.UpdateRpm? && r.event.rpm > 1000 then Driving
              else if r.event.PowerOff? then PreparingToStop(BOTH)
              else Idle
    case Driving =>
      next == if r.event.Internal? then DrivingDangerously
              else if r.event.PowerOff? then Driving
              else if speed > 160 then ExtremeOperationWarning(r.at)
              else if speed == 0 then Idle
              else Driving
    case DrivingDangerously =>
      next == if r.event.PowerOff? then DrivingDangerously
              else if speed == 0 then Idle
              else if r.currentCtx.headlamp.state.On? || r.currentCtx.ambientLux > 840 then Driving
              else DrivingDangerously
    case ExtremeOperationWarning(began) =>
      next == if r.event.TimerTick? && r.at >= began + 5_000_000_000 && speed <= 160
              then (if speed == 0 then Idle else Driving) else r.oldState
    case PreparingToStop(left) =>
      next == if !r.event.AssemblyZoneReady? then r.oldState
              else if left <= {r.event.assembly} then FsmState.Off
              else PreparingToStop(left - {r.event.assembly})
  }

  /** What the operational machine orders with a row: buzzer, warnings, state sync, rejection. */
  function ModeOrders(r: TransitionRecord): seq<DomainAction> {
    match (r.oldState, r.nextState)
    case (Driving, DrivingDangerously) => [StartBuzzer]
    case (Driving, ExtremeOperationWarning(_)) =>
      [StartBuzzer, LogWarning(SpeedThresholdWarning)]
      + (if r.currentCtx.powertrain.wheelRpm.frontLeft > 5500 then [LogWarning(ExtremeOperationActiveWarning)] else [])
    case (DrivingDangerously, Driving) => [StopBuzzer]
    case (DrivingDangerously, Idle) => [StopBuzzer]
    case (ExtremeOperationWarning(_), Driving) => [StopBuzzer]
    case (ExtremeOperationWarning(_), Idle) => [StopBuzzer]
    case (PreparingToStart(_), Idle) => [PublishStateSync]
    case (PreparingToStop(_), Off) => [PublishStateSync]
    case (Idle, Driving) => [PublishStateSync]
    case (Driving, Idle) => [PublishStateSync]
    case (old_, _) =>
      if r.event.PowerOff? && !old_.Idle? && !old_.PreparingToStart? && !old_.PreparingToStop?
      then [LogWarning(RejectedPowerOff(old_))] else []
  }

  // ── the zones ────────────────────────────────────────────────────────────

  /** The action a headlamp outcome asks for. */
  predicate HeadlampAsksFor(outcome: FrontHeadlamp.HeadlampOutcome, action: DomainAction) {
    match outcome
    case RequestOn => action == RequestFrontHeadlampOn
    case RequestOff => action == RequestFrontHeadlampOff
    case LogWarning(w) => action == DomainAction.LogWarning(HeadlampZoneWarning(w))
  }

  predicate WiperAsksFor(outcome: Wiper.WiperOutcome, action: DomainAction) {
    match outcome
    case StartWiping => action == RequestWiperStart
    case StopWiping => action == RequestWiperStop
    case LogUnresponsive => action == DomainAction.LogWarning(WiperZoneUnresponsive)
  }

  /** The zone ends with a reply's context and asks for exactly its outcomes, in order. */
  ghost predicate ShowsHeadlamp(reply: FrontHeadlamp.HeadlampZoneReply, after: FrontHeadlamp.HeadlampContext, actions: seq<DomainAction>) {
    && after == reply.ctx
    && |actions| == |reply.outcomes|
    && forall i :: 0 <= i < |actions| ==> HeadlampAsksFor(reply.outcomes[i], actions[i])
  }

  ghost predicate ShowsWiper(reply: Wiper.WiperZoneReply, after: Wiper.WiperContext, actions: seq<DomainAction>) {
    && after == reply.ctx
    && |actions| == |reply.outcomes|
    && forall i :: 0 <= i < |actions| ==> WiperAsksFor(reply.outcomes[i], actions[i])
  }

  predicate HeadlampListens(event: FsmEvent) {
    event.UpdateAmbientLux? || event.FrontHeadlampOnAck? || event.FrontHeadlampOffAck? || event.FrontHeadlampActuationIncomplete?
    || event.TimerTick? || event == AssemblyZoneReady(HeadlampAssembly)
  }

  predicate WiperListens(event: FsmEvent) {
    event.RainsStarted? || event.RainsStopped? || event == AssemblyZoneReady(WiperAssembly)
  }

  /** A tell-back is committed as it is; without one the local handler applies the event's own message. */
  ghost predicate HeadlampLaw(before: FrontHeadlamp.HeadlampContext, event: FsmEvent, now: Instant, replies: ZoneReplies,
                              after: FrontHeadlamp.HeadlampContext, actions: seq<DomainAction>)
  {
    if HeadlampListens(event) && HeadlampAssembly in replies && replies[HeadlampAssembly].FromHeadlamp? then
      ShowsHeadlamp(replies[HeadlampAssembly].headlamp, after, actions)
    else
      match event
      case UpdateAmbientLux(lux) =>
        ShowsHeadlamp(FrontHeadlamp.OnReceivingMessage(before, FrontHeadlamp.AmbientLux(lux), now), after, actions)
      case FrontHeadlampOnAck =>
        ShowsHeadlamp(FrontHeadlamp.OnReceivingMessage(before, FrontHeadlamp.AckOn, now), after, actions)
      case FrontHeadlampOffAck =>
        ShowsHeadlamp(FrontHeadlamp.OnReceivingMessage(before, FrontHeadlamp.AckOff, now), after, actions)
      case FrontHeadlampActuationIncomplete(direction, cause) =>
        ShowsHeadlamp(FrontHeadlamp.OnReceivingMessage(before, FrontHeadlamp.ActuationIncomplete(direction, cause), now), after, actions)
      case TimerTick =>
        ShowsHeadlamp(FrontHeadlamp.OnReceivingMessage(before, FrontHeadlamp.TimerTick, now), after, actions)
      case _ => after == before && actions == []
  }

  ghost predicate WiperLaw(before: Wiper.WiperContext, event: FsmEvent, replies: ZoneReplies,
                           after: Wiper.WiperContext, actions: seq<DomainAction>)
  {
    if WiperListens(event) && WiperAssembly in replies && replies[WiperAssembly].FromWiper? then
      ShowsWiper(replies[WiperAssembly].wiper, after, actions)
    else
      match event
      case RainsStarted => ShowsWiper(Wiper.OnReceivingMessage(before, Wiper.Start), after, actions)
      case RainsStopped => ShowsWiper(Wiper.OnReceivingMessage(before, Wiper.Stop), after, actions)
      case _ => after == before && actions == []
  }

  /** Wheels, speed, light and health: only a reading moves them, and speed is 0.114 times rpm to the nearest unit. */
  ghost predicate SensorLaw(before: VehicleContext, oldState: FsmState, event: FsmEvent, after: VehicleContext) {
    && after.health == before.health
    && after.ambientLux == (if event.UpdateAmbientLux? then event.lux else before.ambientLux)
    && (if !event.UpdateRpm? then after.powertrain == before.powertrain
        else
          && after.powertrain.wheelRpm == WheelRpm(event.rpm, event.rpm, event.rpm, event.rpm)
          && (if oldState.Off? then after.powertrain.speedKph == 0
              else 1000 * after.powertrain.speedKph - 500 <= 114 * event.rpm < 1000 * after.powertrain.speedKph + 500))
  }

  /** A row written for an event in a mode and a cut, with the replies at hand. */
  ghost predicate RowLaw(before: VehicleContext, r: TransitionRecord, replies: ZoneReplies) {
    && ModeLaw(r)
    && SensorLaw(before, r.oldState, r.event, r.currentCtx)
    && exists headlamp, wiper ::
         && HeadlampLaw(before.headlamp, r.event, r.at, replies, r.currentCtx.headlamp, headlamp)
         && WiperLaw(before.wiper, r.event, replies, r.currentCtx.wiper, wiper)
         && r.actions == headlamp + wiper + ModeOrders(r)
  }

  // ── every row obeys ──────────────────────────────────────────────────────

  lemma {:induction false} TransitionObeys(r: TransitionRecord)
    requires r.nextState == Transition(r.oldState, r.event, r.currentCtx, r.at).nextState
    ensures ModeLaw(r)
  {
  }

  /** Leaving out the hints is all that recording does. */
  lemma {:induction false} RecordingKeeps(actions: seq<DomainAction>)
    requires forall i :: 0 <= i < |actions| ==> !actions[i].StartAssemblies? && !actions[i].StopAssemblies?
    ensures Recorded(actions) == actions
  {
    if actions != [] {
      RecordingKeeps(actions[1..]);
    }
  }

  lemma {:induction false} RecordingDrops(before: seq<DomainAction>, hint: DomainAction, after: seq<DomainAction>)
    requires hint.StartAssemblies? || hint.StopAssemblies?
    ensures Recorded(before + [hint] + after) == Recorded(before) + Recorded(after)
  {
    assert before + [hint] + after == before + ([hint] + after);
    SelectConcat(before, [hint] + after, IsRecorded);
    assert ([hint] + after)[1..] == after;
  }

  lemma {:induction false} StepOrders(state: FsmState, ctx: VehicleContext, event: FsmEvent, now: Instant)
    ensures var result := Step(state, ctx, event, now);
            result.record.actions == ModeOrders(result.record)
  {
    var result := Step(state, ctx, event, now);
    hide Step, ModeOrders, Select;
    if Starts(state, ctx, event) || Stops(state, event) {
      HintActions(state, ctx, event, now);
      RecordingDrops([], result.actions[0], []);
      assert [] + [result.actions[0]] + [] == result.actions;
      RecordingKeeps([]);
    } else {
      TableActions(state, ctx, event, now);
      RecordingKeeps(result.actions);
    }
    RecordIsRecorded(state, ctx, event, now);
  }

  lemma {:induction false} RecordIsRecorded(state: FsmState, ctx: VehicleContext, event: FsmEvent, now: Instant)
    ensures Step(state, ctx, event, now).record.actions == Recorded(Step(state, ctx, event, now).actions)
  {
    hide Transition, Output;
  }

  lemma {:induction false} HintActions(state: FsmState, ctx: VehicleContext, event: FsmEvent, now: Instant)
    requires Starts(state, ctx, event) || Stops(state, event)
    ensures var result := Step(state, ctx, event, now);
            && |result.actions| == 1 && (result.actions[0].StartAssemblies? || result.actions[0].StopAssemblies?)
            && ModeOrders(result.record) == []
  {
    hide Recorded;
  }

  lemma {:induction false} TableActions(state: FsmState, ctx: VehicleContext, event: FsmEvent, now: Instant)
    requires !Starts(state, ctx, event) && !Stops(state, event)
    ensures var result := Step(state, ctx, event, now);
            && result.actions == ModeOrders(result.record)
            && forall i :: 0 <= i < |result.actions| ==> !result.actions[i].StartAssemblies? && !result.actions[i].StopAssemblies?
  {
    hide Recorded;
  }

  lemma {:induction false} ZonesObey(ctx: VehicleContext, event: FsmEvent, state: FsmState, now: Instant, replies: ZoneReplies)
    ensures var z := ZoneTurn(ctx, event, state, now, replies);
            && SensorLaw(ctx, state, event, z.ctx)
            && HeadlampLaw(ctx.headlamp, event, now, replies, z.ctx.headlamp, HeadlampActions(HeadlampPart(ctx, event, now, replies).outcomes))
            && WiperLaw(ctx.wiper, event, replies, z.ctx.wiper, WiperActions(WiperPart(ctx, event, replies).outcomes))
            && z.actions == HeadlampActions(HeadlampPart(ctx, event, now, replies).outcomes)
                            + WiperActions(WiperPart(ctx, event, replies).outcomes)
  {
    hide FrontHeadlamp.OnReceivingMessage, Wiper.OnReceivingMessage;
  }

  lemma {:induction false} ZoneActionsAreKept(actions: seq<DomainAction>, orders: seq<DomainAction>)
    requires forall i :: 0 <= i < |actions| ==> !actions[i].StartAssemblies? && !actions[i].StopAssemblies?
    ensures Recorded(actions + orders) == actions + Recorded(orders)
  {
    SelectConcat(actions, orders, IsRecorded);
    RecordingKeeps(actions);
  }

  /** The row and the cut of one hop. */
  ghost predicate HopShown(state: FsmState, before: VehicleContext, event: FsmEvent, now: Instant, replies: ZoneReplies, result: StepResult) {
    var r := result.record;
    && r.event == event && r.at == now && r.oldState == state
    && r.nextState == result.nextState && r.currentCtx == result.ctx
    && RowLaw(before, r, replies)
  }

  lemma {:induction false} HopObeys(state: FsmState, ctx: VehicleContext, event: FsmEvent, now: Instant, replies: ZoneReplies)
    ensures HopShown(state, ctx, event, now, replies, ApplySingleHop(state, ctx, event, now, replies))
  {
    hide Step, ZoneTurn, ModeLaw, ModeOrders, Recorded, SensorLaw, HeadlampLaw, WiperLaw;
    if event.Internal? {
      StepOrders(state, ctx, event, now);
      StepFields(state, ctx, event, now);
      QuietZones(ctx, event, state, now, replies);
      assert [] + [] + ModeOrders(Step(state, ctx, event, now).record) == ModeOrders(Step(state, ctx, event, now).record);
    } else {
      var z := ZoneTurn(ctx, event, state, now, replies);
      ZonesObey(ctx, event, state, now, replies);
      StepOrders(state, z.ctx, event, now);
      StepFields(state, z.ctx, event, now);
      RecordIsRecorded(state, z.ctx, event, now);
      ZoneActionsAreKept(z.actions, Step(state, z.ctx, event, now).actions);
      var result := ApplySingleHop(state, ctx, event, now, replies);
      SameFields(Step(state, z.ctx, event, now).record, result.record);
      var headlamp := HeadlampActions(HeadlampPart(ctx, event, now, replies).outcomes);
      var wiper := WiperActions(WiperPart(ctx, event, replies).outcomes);
      assert result.record.actions == headlamp + wiper + ModeOrders(result.record);
    }
  }

  lemma {:induction false} StepFields(state: FsmState, ctx: VehicleContext, event: FsmEvent, now: Instant)
    ensures var result := Step(state, ctx, event, now);
            var r := result.record;
            && r.event == event && r.at == now && r.oldState == state
            && r.nextState == result.nextState && r.currentCtx == ctx && result.ctx == ctx
            && ModeLaw(r)
  {
    hide Output, Transition, Select, ModeLaw;
    TransitionObeys(Step(state, ctx, event, now).record);
  }

  /** Mode change and orders of a row do not depend on the actions noted in it. */
  lemma {:induction false} SameFields(r: TransitionRecord, q: TransitionRecord)
    requires q == r.(actions := q.actions)
    ensures ModeLaw(q) == ModeLaw(r) && ModeOrders(q) == ModeOrders(r)
  {
  }

  lemma {:induction false} QuietZones(ctx: VehicleContext, event: FsmEvent, state: FsmState, now: Instant, replies: ZoneReplies)
    requires event.Internal?
    ensures SensorLaw(ctx, state, event, ctx)
    ensures HeadlampLaw(ctx.headlamp, event, now, replies, ctx.headlamp, []) && WiperLaw(ctx.wiper, event, replies, ctx.wiper, [])
  {
  }

  /** Driving below the switch-on threshold with a dark lamp that is not being switched on. */
  predicate DarkDriving(state: FsmState, ctx: VehicleContext) {
    state.Driving? && ctx.ambientLux <= 840 && (ctx.headlamp.state.Off? || ctx.headlamp.state.Ready?)
  }

  /** The one or two rows of a turn: the second is the detector's, there exactly when the first ends in the dark. */
  ghost predicate TurnShown(state: FsmState, before: VehicleContext, event: FsmEvent, now: Instant, replies: ZoneReplies, hops: seq<Hop>) {
    && 1 <= |hops| <= 2
    && HopShown(state, before, event, now, replies, hops[0].result)
    && (|hops| == 2 <==> DarkDriving(hops[0].result.nextState, hops[0].result.ctx))
    && (|hops| == 2 ==> HopShown(hops[0].result.nextState, hops[0].result.ctx, Internal(LightingUnsafe), now, map[], hops[1].result))
  }

  lemma {:induction false} TurnObeys(state: FsmState, ctx: VehicleContext, event: FsmEvent, now: Instant, replies: ZoneReplies)
    ensures TurnShown(state, ctx, event, now, replies, Quiesce(state, ctx, event, now, replies))
  {
    hide ApplySingleHop, HopShown;
    HopObeys(state, ctx, event, now, replies);
    var first := HopOf(state, ctx, event, now, replies).result;
    HopObeys(first.nextState, first.ctx, Internal(LightingUnsafe), now, map[]);
  }
}
