/** Operational vocabulary, transition table and the pure `step` (L2). */
module Fsm {
  import opened VehiclePhysics
  import FrontHeadlamp
  import Wiper

  type SwitchDirection = FrontHeadlamp.SwitchDirection
  type IncompleteCause = FrontHeadlamp.IncompleteCause

  datatype AssemblyId = HeadlampAssembly | WiperAssembly

  const ALL_ASSEMBLIES: seq<AssemblyId> := [HeadlampAssembly, WiperAssembly]
  const EVERY_ASSEMBLY: set<AssemblyId> := {HeadlampAssembly, WiperAssembly}

  datatype FsmState =
    | Off
    | PreparingToStart(remaining: set<AssemblyId>)
    | Idle
    | Driving
    | DrivingDangerously
    | ExtremeOperationWarning(beganAt: Instant)
    | PreparingToStop(remaining: set<AssemblyId>)
  {
    predicate Preparing() {
      PreparingToStart? || PreparingToStop?
    }

    /** The modes in which the buzzer sounds. */
    predicate Buzzing() {
      DrivingDangerously? || ExtremeOperationWarning?
    }
  }

  datatype Operational = LightingUnsafe

  datatype FsmEvent =
    | PowerOn
    | PowerOff
    | UpdateRpm(rpm: u16)
    | UpdateAmbientLux(lux: u16)
    | FrontHeadlampOnAck
    | FrontHeadlampOffAck
    | FrontHeadlampActuationIncomplete(direction: SwitchDirection, cause: IncompleteCause)
    | TimerTick
    | Internal(operational: Operational)
    | AssemblyZoneReady(assembly: AssemblyId)
    | RainsStarted
    | RainsStopped

  datatype Warning =
    | HeadlampZoneWarning(headlamp: FrontHeadlamp.HeadlampWarning)
    | WiperZoneUnresponsive
    | SpeedThresholdWarning
    | ExtremeOperationActiveWarning
    | RejectedPowerOff(state: FsmState)

  datatype DomainAction =
    | StartBuzzer
    | StopBuzzer
    | PublishStateSync
    | LogWarning(warning: Warning)
    | RequestFrontHeadlampOn
    | RequestFrontHeadlampOff
    | RequestWiperStart
    | RequestWiperStop
    | StartAssemblies(assemblies: seq<AssemblyId>)
    | StopAssemblies(assemblies: seq<AssemblyId>)

  datatype WheelRpm = WheelRpm(frontLeft: u16, frontRight: u16, rearLeft: u16, rearRight: u16)

  datatype PowertrainContext = PowertrainContext(wheelRpm: WheelRpm, speedKph: u16) {
    function PrimaryRpm(): u16 { wheelRpm.frontLeft }
    predicate IsStationary() { speedKph == 0 }
    predicate IsOperationalWarningActive() { OperationalWarningActive(PrimaryRpm(), speedKph) }
  }

  datatype HealthContext = HealthContext(fuelLevelPct: u8, oilPressureKpa: u8, tyrePressureOk: bool) {
    predicate IsHealthy() { fuelLevelPct > 5 && oilPressureKpa > 10 && tyrePressureOk }
  }

  datatype VehicleContext = VehicleContext(
    powertrain: PowertrainContext,
    health: HealthContext,
    ambientLux: u16,
    headlamp: FrontHeadlamp.HeadlampContext,
    wiper: Wiper.WiperContext)

  const DEFAULT_CONTEXT := VehicleContext(
    PowertrainContext(WheelRpm(0, 0, 0, 0), 0),
    HealthContext(85, 30, true),
    100,
    FrontHeadlamp.DEFAULT_HEADLAMP,
    Wiper.DEFAULT_WIPER)

  /** Powertrain after one bus reading; an `Off` car is held at standstill. */
  function PowertrainAfter(rpm: u16, off: bool): PowertrainContext {
    PowertrainContext(WheelRpm(rpm, rpm, rpm, rpm), if off then 0 else SpeedFromRpm(rpm))
  }

  class Powertrain {
    var wheelRpm: WheelRpm
    var speedKph: u16

    function Value(): PowertrainContext
      reads this
    {
      PowertrainContext(wheelRpm, speedKph)
    }

    constructor (ctx: PowertrainContext)
      ensures Value() == ctx
    {
      wheelRpm := ctx.wheelRpm;
      speedKph := ctx.speedKph;
    }

    method ApplyRpm(rpm: u16)
      modifies this`wheelRpm
      ensures wheelRpm == WheelRpm(rpm, rpm, rpm, rpm)
    {
      wheelRpm := WheelRpm(rpm, rpm, rpm, rpm);
    }

    method RefreshSpeed()
      modifies this`speedKph
      ensures speedKph == SpeedFromRpm(wheelRpm.frontLeft)
    {
      speedKph := SpeedFromRpm(wheelRpm.frontLeft);
    }

    method FreezeStandstill()
      modifies this`speedKph
      ensures speedKph == 0
    {
      speedKph := 0;
    }

    /** The `UpdateRpm` arm of the zone turn. */
    method OnRpm(rpm: u16, off: bool)
      modifies this
      ensures Value() == PowertrainAfter(rpm, off)
    {
      ApplyRpm(rpm);
      RefreshSpeed();
      if off {
        FreezeStandstill();
      }
    }
  }

  /** In a car that is not off, a reading decides alone: warnings from 1408 rpm on, standstill up to 4 rpm. */
  lemma {:induction false} ReadingDecides(rpm: u16)
    ensures PowertrainAfter(rpm, false).IsOperationalWarningActive() <==> rpm >= 1408
    ensures PowertrainAfter(rpm, false).IsStationary() <==> rpm <= 4
    ensures PowertrainAfter(rpm, true).IsStationary() && !PowertrainAfter(rpm, true).IsOperationalWarningActive()
  {
  }

  datatype TransitionResult = TransitionResult(nextState: FsmState, rejected: bool)

  function GoTo(state: FsmState): TransitionResult {
    TransitionResult(state, false)
  }

  predicate WarningRecoveryReady(beganAt: Instant, now: Instant, ctx: VehicleContext) {
    DurationSince(now, beganAt) >= RPM_STRESS_DURATION_THRESHOLD
    && !ctx.powertrain.IsOperationalWarningActive()
  }

  /** Operational mode transition table. */
  function Transition(state: FsmState, event: FsmEvent, ctx: VehicleContext, now: Instant): TransitionResult {
    match state
    case Off =>
      if event.PowerOn? && ctx.health.IsHealthy() then GoTo(PreparingToStart(EVERY_ASSEMBLY))
      else TransitionResult(FsmState.Off, event.PowerOff?)
    case PreparingToStart(remaining) =>
      if event.AssemblyZoneReady? then
        var left := remaining - {event.assembly};
        GoTo(if left == {} then Idle else PreparingToStart(left))
      else
        GoTo(state)
    case Idle =>
      if event.PowerOff? then GoTo(PreparingToStop(EVERY_ASSEMBLY))
      else if event.UpdateRpm? && event.rpm > RPM_DRIVING_THRESHOLD then GoTo(Driving)
      else GoTo(Idle)
    case Driving =>
      if event.Internal? then GoTo(DrivingDangerously)
      else if event.PowerOff? then TransitionResult(Driving, true)
      else if ctx.powertrain.IsOperationalWarningActive() then GoTo(ExtremeOperationWarning(now))
      else if ctx.powertrain.IsStationary() then GoTo(Idle)
      else GoTo(Driving)
    case DrivingDangerously =>
      if event.PowerOff? then TransitionResult(DrivingDangerously, true)
      else if ctx.powertrain.IsStationary() then GoTo(Idle)
      else if ctx.headlamp.state.On? then GoTo(Driving)
      else if ctx.ambientLux > LUX_ON_THRESHOLD then GoTo(Driving)
      else GoTo(DrivingDangerously)
    case ExtremeOperationWarning(beganAt) =>
      if event.TimerTick? && WarningRecoveryReady(beganAt, now, ctx) then
        GoTo(if ctx.powertrain.IsStationary() then Idle else Driving)
      else
        TransitionResult(state, event.PowerOff?)
    case PreparingToStop(remaining) =>
      if event.AssemblyZoneReady? then
        var left := remaining - {event.assembly};
        GoTo(if left == {} then FsmState.Off else PreparingToStop(left))
      else
        GoTo(state)
  }

  /** Actions of one mode change (the `FsmAction`s that map to a `DomainAction`). */
  function Output(old_: FsmState, new_: FsmState, ctx: VehicleContext): seq<DomainAction> {
    match (old_, new_)
    case (Off, PreparingToStart(_)) => [StartAssemblies(ALL_ASSEMBLIES)]
    case (Idle, PreparingToStop(_)) => [StopAssemblies(ALL_ASSEMBLIES)]
    case (PreparingToStart(_), PreparingToStart(_)) => []
    case (PreparingToStop(_), PreparingToStop(_)) => []
    case (Driving, DrivingDangerously) => [StartBuzzer]
    case (DrivingDangerously, Driving) => [StopBuzzer]
    case (DrivingDangerously, Idle) => [StopBuzzer]
    case (Driving, ExtremeOperationWarning(_)) =>
      [StartBuzzer]
      + (if SpeedThresholdExceeded(ctx.powertrain.speedKph) then [LogWarning(SpeedThresholdWarning)] else [])
      + (if ExtremeOperationActive(ctx.powertrain.PrimaryRpm(), ctx.powertrain.speedKph)
         then [LogWarning(ExtremeOperationActiveWarning)] else [])
    case (ExtremeOperationWarning(_), Driving) => [StopBuzzer]
    case (ExtremeOperationWarning(_), Idle) => [StopBuzzer]
    case (_, _) => if old_ != new_ then [PublishStateSync] else []
  }

  datatype TransitionRecord = TransitionRecord(
    at: Instant,
    event: FsmEvent,
    oldState: FsmState,
    nextState: FsmState,
    oldCtx: VehicleContext,
    currentCtx: VehicleContext,
    actions: seq<DomainAction>)

  datatype StepResult = StepResult(
    nextState: FsmState,
    ctx: VehicleContext,
    actions: seq<DomainAction>,
    record: TransitionRecord)

  /** The elements of `s` that satisfy `p`, in order. */
  function Select<T>(s: seq<T>, p: T -> bool): seq<T> {
    if s == [] then []
    else if p(s[0]) then [s[0]] + Select(s[1..], p)
    else Select(s[1..], p)
  }

  predicate IsCoordination(action: DomainAction) { action.StartAssemblies? || action.StopAssemblies? }
  predicate IsRecorded(action: DomainAction) { !IsCoordination(action) }
  predicate IsBuzzer(action: DomainAction) { action.StartBuzzer? || action.StopBuzzer? }

  /** The recorded part of an action list: everything but the coordination hints, in order. */
  function Recorded(actions: seq<DomainAction>): seq<DomainAction> {
    Select(actions, IsRecorded)
  }

  /** `step`: the operational machine only; the zones have already run. */
  function Step(state: FsmState, ctx: VehicleContext, event: FsmEvent, now: Instant): StepResult {
    var t := Transition(state, event, ctx, now);
    var actions := Output(state, t.nextState, ctx) + (if t.rejected then [LogWarning(RejectedPowerOff(state))] else []);
    StepResult(t.nextState, ctx, actions,
               TransitionRecord(now, event, state, t.nextState, ctx, ctx, Recorded(actions)))
  }
}
