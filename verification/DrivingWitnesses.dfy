/**
 * Runs from the initial state through all running modes: the car starts, drives, is warned and
 * recovers; and, in the dark with an idle lamp, drives dangerously.
 */
module DrivingWitnesses {
  import opened VehiclePhysics
  import opened Fsm
  import opened Zones
  import opened TwinTurn
  import opened TurnBarriers
  import opened BrainModel
  import opened Plant
  import opened RowLaws
  import opened LedgerLaws
  import opened WiperWitnesses

  /** An event that no zone hears, arriving in a running car with nothing queued: one turn, committed at once. */
  lemma {:induction false} QuietArrival(s: System, event: FsmEvent, now: Instant, clock: Clock) returns (r: TransitionRecord)
    requires s.brain.queue == [] && (event.UpdateRpm? || event.TimerTick?) && !s.brain.state.Preparing()
    ensures Enabled(s, Ingress(event, now))
    ensures var b, c := s.brain, Next(s, Ingress(event, now), clock).brain;
            && c.queue == [] && c.ctx == ZoneTurn(b.ctx, event, b.state, now, map[]).ctx
            && ModeLaw(r) && r.oldState == b.state && r.event == event && r.at == now && r.currentCtx == c.ctx
            && c.state == (if DarkDriving(r.nextState, c.ctx) then DrivingDangerously else r.nextState)
  {
    hide CommitResolved, ZoneTurn, SensorLaw, HeadlampLaw, WiperLaw, ModeLaw, Quiesce, ModeOrders;
    var b := BeginFsmTurn(s.brain, event, now);
    assert b.queue == [Passthrough(s.brain.nextTurnId, event, now)];
    var p := PopFront(b);
    assert p.queue == [];
    CommitRows(p, event, now, map[], clock);
    TurnCut(p.state, p.ctx, event, now, map[]);
    var hops := Quiesce(p.state, p.ctx, event, now, map[]);
    r := hops[0].result.record;
    PlainCommit(p, event, now, map[], clock);
    TellsOf(p);
    TellsOf(CommitFront(b, clock));
    DrainOne(b, clock);
    NothingToDrain(CommitFront(b, clock), clock);
    TwoRows(p.state, p.ctx, event, now, hops);
  }

  /** Where the two rows of a turn leave mode and cut. */
  lemma {:induction false} TwoRows(state: FsmState, ctx: VehicleContext, event: FsmEvent, now: Instant, hops: seq<Hop>)
    requires TurnShown(state, ctx, event, now, map[], hops)
    ensures var first := hops[0].result.record;
            && first.oldState == state && first.event == event && first.at == now && ModeLaw(first)
            && Final(hops).nextState == (if DarkDriving(first.nextState, first.currentCtx) then DrivingDangerously else first.nextState)
            && Final(hops).ctx == first.currentCtx
  {
    hide SensorLaw, HeadlampLaw, ModeOrders;
    if |hops| == 2 {
      var second := hops[1].result.record;
      InternalKeepsCut(hops[0].result.ctx, second);
    }
  }

  lemma {:induction false} InternalKeepsCut(before: VehicleContext, r: TransitionRecord)
    requires RowLaw(before, r, map[]) && r.event.Internal?
    ensures r.currentCtx == before
  {
  }

  // ── driving, a warning, and recovery ─────────────────────────────────────

  const DAYLIGHT := Passthrough(4, UpdateAmbientLux(1000), 0)

  /** Power on; daylight; both assemblies answer; 1200 rpm; 1500 rpm at 10 s; 1200 rpm at 12 s; a tick at 20 s. */
  const DRIVE: seq<Move> :=
    [Ingress(PowerOn, 0), Ingress(UpdateAmbientLux(1000), 0), HeadlampTakes(true), DeliverReady(HEADLAMP_ANSWER), WiperTakes(true),
     DeliverReady(WIPER_ANSWER), Ingress(UpdateRpm(1200), 5_000_000_000), Ingress(UpdateRpm(1500), 10_000_000_000),
     Ingress(UpdateRpm(1200), 12_000_000_000), Ingress(TimerTick, 20_000_000_000)]

  lemma {:induction false} LightArrives(s: System, at: Instant, clock: Clock)
    requires Starting(s, at, [])
    ensures Enabled(s, Ingress(UpdateAmbientLux(1000), 0)) && Starting(Next(s, Ingress(UpdateAmbientLux(1000), 0), clock), at, [DAYLIGHT])
  {
    hide Select, WiperStream;
    var b := BeginFsmTurn(s.brain, UpdateAmbientLux(1000), 0);
    assert b.queue == [Waiting(HeadlampSlot(at)), Waiting(WiperSlot(at))] + [DAYLIGHT];
    NothingToDrain(b, clock);
    assert WiperStream(b) == WiperStream(s.brain) by { SameTrace(s.brain, b); }
  }

  lemma {:induction false} SameTrace(b: Brain, c: Brain)
    requires b.trace == c.trace
    ensures WiperStream(b) == WiperStream(c)
  {
  }

  /** Idle, nothing queued, and the cut given. */
  ghost predicate Standing(s: System, cut: VehicleContext) {
    s.brain.state.Idle? && s.brain.queue == [] && s.brain.ctx == cut
  }

  lemma {:induction false} StandsInDaylight(s: System, at: Instant, clock: Clock)
    requires WiperAnswered(s, at, [DAYLIGHT])
    ensures Enabled(s, DeliverReady(WIPER_ANSWER)) && Standing(Next(s, DeliverReady(WIPER_ANSWER), clock), IDLE_CUT.(ambientLux := 1000))
  {
    hide SketchOf, Drain, OnZoneReady, CommitResolved, ModeLaw;
    TellsOf(s.brain);
    var c := WiperAcknowledged(s.brain, at, [DAYLIGHT], clock);
    TellsOf(c);
    LightCommitted(c, clock);
  }

  lemma {:induction false} LightCommitted(b: Brain, clock: Clock)
    requires b.state.Idle? && b.queue == [DAYLIGHT] && b.ctx == IDLE_CUT
    ensures var c := Drain(b, clock); c.state.Idle? && c.queue == [] && c.ctx == IDLE_CUT.(ambientLux := 1000)
  {
    hide CommitResolved, SensorLaw, HeadlampLaw, WiperLaw, Quiesce, ModeOrders, SketchOf;
    var p, event := PopFront(b), UpdateAmbientLux(1000);
    CommitRows(p, event, 0, map[], clock);
    PlainCommit(p, event, 0, map[], clock);
    TellsOf(p);
    TellsOf(CommitFront(b, clock));
    TwoRows(p.state, p.ctx, event, 0, Quiesce(p.state, p.ctx, event, 0, map[]));
    DrainOne(b, clock);
    NothingToDrain(CommitFront(b, clock), clock);
  }

  /** A car in daylight with both assemblies ready, in a mode and at a reading. */
  ghost predicate Cruising(s: System, state: FsmState, rpm: u16) {
    && s.brain.state == state && s.brain.queue == []
    && s.brain.ctx.powertrain == PowertrainAfter(rpm, false) && s.brain.ctx.ambientLux == 1000
  }

  lemma {:induction false} SpeedsUp(s: System, now: Instant, rpm: u16, next: FsmState, clock: Clock)
    requires s.brain.queue == [] && s.brain.ctx.ambientLux == 1000
    requires (s.brain.state.Idle? && rpm == 1200 && next == Driving)
          || (s.brain.state.Driving? && rpm == 1500 && next == ExtremeOperationWarning(now))
          || (s.brain.state.ExtremeOperationWarning? && rpm == 1200 && next == s.brain.state)
    ensures Enabled(s, Ingress(UpdateRpm(rpm), now)) && Cruising(Next(s, Ingress(UpdateRpm(rpm), now), clock), next, rpm)
  {
    hide Next, Enabled, HeadlampPart, WiperPart;
    var r := QuietArrival(s, UpdateRpm(rpm), now, clock);
  }

  lemma {:induction false} Recovers(s: System, now: Instant, began: Instant, clock: Clock)
    requires Cruising(s, ExtremeOperationWarning(began), 1200) && now >= began + 5_000_000_000
    ensures Enabled(s, Ingress(TimerTick, now)) && Cruising(Next(s, Ingress(TimerTick, now), clock), Driving, 1200)
  {
    hide Next, Enabled, HeadlampPart, WiperPart;
    var r := QuietArrival(s, TimerTick, now, clock);
  }

  /**
   * The run is valid, and along it the car stands idle with the headlamp's tell-back in its mirror,
   * drives, is warned with its warning anchored at 10 s, stays warned, and drives again.
   */
  lemma {:induction false} DrivesIsWarnedAndRecovers(clock: Clock)
    ensures ValidRun(INITIAL_SYSTEM, DRIVE, clock)
    ensures forall k :: 0 <= k <= |DRIVE| ==> ValidRun(INITIAL_SYSTEM, DRIVE[..k], clock)
    ensures var b := Run(INITIAL_SYSTEM, DRIVE[..6], clock).brain;
            b.state.Idle? && b.ctx.headlamp.state.Ready? && b.ctx.wiper.state.Ready? && b.ctx.ambientLux == 1000
    ensures Run(INITIAL_SYSTEM, DRIVE[..7], clock).brain.state.Driving?
    ensures Run(INITIAL_SYSTEM, DRIVE[..8], clock).brain.state == ExtremeOperationWarning(10_000_000_000)
    ensures Run(INITIAL_SYSTEM, DRIVE[..9], clock).brain.state == ExtremeOperationWarning(10_000_000_000)
    ensures Run(INITIAL_SYSTEM, DRIVE, clock).brain.state.Driving?
  {
    hide Next, Enabled, SketchOf, Starting, WiperAnswered, Run, ValidRun;
    var at := clock(2);
    PowerOnStep(clock);
    var s1 := Next(INITIAL_SYSTEM, DRIVE[0], clock);
    LightArrives(s1, at, clock);
    var s2 := Next(s1, DRIVE[1], clock);
    var s3, s4, s5 := StartsUp(s2, at, [DAYLIGHT], clock);
    StandsInDaylight(s5, at, clock);
    var s6 := Next(s5, DRIVE[5], clock);
    SpeedsUp(s6, 5_000_000_000, 1200, Driving, clock);
    var s7 := Next(s6, DRIVE[6], clock);
    SpeedsUp(s7, 10_000_000_000, 1500, ExtremeOperationWarning(10_000_000_000), clock);
    var s8 := Next(s7, DRIVE[7], clock);
    SpeedsUp(s8, 12_000_000_000, 1200, s8.brain.state, clock);
    var s9 := Next(s8, DRIVE[8], clock);
    Recovers(s9, 20_000_000_000, 10_000_000_000, clock);
    var s10 := Next(s9, DRIVE[9], clock);
    StepByStep([INITIAL_SYSTEM, s1, s2, s3, s4, s5, s6, s7, s8, s9, s10], DRIVE, 10, clock);
    assert DRIVE[..10] == DRIVE;
  }

  /** States that follow each other by the moves of a list are the states of its run. */
  lemma {:induction false} StepByStep(states: seq<System>, moves: seq<Move>, n: nat, clock: Clock)
    requires |states| == |moves| + 1 && n <= |moves|
    requires forall i :: 0 <= i < |moves| ==> Enabled(states[i], moves[i]) && states[i + 1] == Next(states[i], moves[i], clock)
    ensures forall k :: 0 <= k <= n ==> ValidRun(states[0], moves[..k], clock) && Run(states[0], moves[..k], clock) == states[k]
  {
    hide Next, Enabled;
    if n == 0 {
      assert moves[..0] == [];
    } else {
      StepByStep(states, moves, n - 1, clock);
      ExtendRun(states[0], moves[..n - 1], moves[n - 1], clock);
      assert moves[..n] == moves[..n - 1] + [moves[n - 1]];
    }
  }

  lemma {:induction false} ExtendRun(s: System, moves: seq<Move>, m: Move, clock: Clock)
    requires ValidRun(s, moves, clock) && Enabled(Run(s, moves, clock), m)
    ensures ValidRun(s, moves + [m], clock) && Run(s, moves + [m], clock) == Next(Run(s, moves, clock), m, clock)
    decreases |moves|
  {
    hide Next, Enabled;
    if moves == [] {
      assert [m][1..] == [] && [] + [m] == [m];
    } else {
      assert (moves + [m])[0] == moves[0] && (moves + [m])[1..] == moves[1..] + [m];
      ExtendRun(Next(s, moves[0], clock), moves[1..], m, clock);
    }
  }

  // ── driving in the dark ──────────────────────────────────────────────────

  /** Power on, both assemblies answer, and the car drives off at once: it is dark and the lamp has not been asked. */
  const DARK_DRIVE: seq<Move> :=
    [Ingress(PowerOn, 0), HeadlampTakes(true), DeliverReady(HEADLAMP_ANSWER), WiperTakes(true), DeliverReady(WIPER_ANSWER),
     Ingress(UpdateRpm(1200), 5_000_000_000)]

  lemma {:induction false} DrivesOffInTheDark(s: System, at: Instant, clock: Clock)
    requires Raining(s, [], StartTells(at), 4, Env(1, READY_WIPER, 1, multiset{}, {}, {}))
    ensures s.brain.state.Idle? && s.brain.ctx == IDLE_CUT
    ensures Enabled(s, Ingress(UpdateRpm(1200), 5_000_000_000))
    ensures Next(s, Ingress(UpdateRpm(1200), 5_000_000_000), clock).brain.state.DrivingDangerously?
  {
    hide Next, Enabled, SketchOf;
    TellsOf(s.brain);
    var r := QuietArrival(s, UpdateRpm(1200), 5_000_000_000, clock);
  }

  lemma {:induction false} DarkDriveIsDangerous(clock: Clock)
    ensures ValidRun(INITIAL_SYSTEM, DARK_DRIVE, clock)
    ensures Run(INITIAL_SYSTEM, DARK_DRIVE, clock).brain.state.DrivingDangerously?
  {
    hide Next, Enabled, SketchOf, Starting, WiperAnswered, Raining, Run, ValidRun;
    var at := clock(2);
    PowerOnStep(clock);
    var s1 := Next(INITIAL_SYSTEM, DARK_DRIVE[0], clock);
    var s2, s3, s4 := StartsUp(s1, at, [], clock);
    WiperDelivered(s4, at, clock);
    var s5 := Next(s4, DARK_DRIVE[4], clock);
    DrivesOffInTheDark(s5, at, clock);
    var s6 := Next(s5, DARK_DRIVE[5], clock);
    StepByStep([INITIAL_SYSTEM, s1, s2, s3, s4, s5, s6], DARK_DRIVE, 6, clock);
    assert DARK_DRIVE[..6] == DARK_DRIVE;
  }
}
