/** What one committed turn can do, whatever the replies: its mode change, its actions, its trace. */
module Turns {
  import opened VehiclePhysics
  import opened Fsm
  import opened Zones
  import opened TwinTurn

  lemma {:induction false} SelectConcat<T>(a: seq<T>, b: seq<T>, p: T -> bool)
    ensures Select(a + b, p) == Select(a, p) + Select(b, p)
  {
    if a == [] {
      assert a + b == b;
    } else {
      SelectConcat(a[1..], b, p);
      assert (a + b)[0] == a[0];
      assert (a + b)[1..] == a[1..] + b;
      var rest, tail := Select(a[1..], p), Select(b, p);
      if p(a[0]) {
        assert [a[0]] + (rest + tail) == [a[0]] + rest + tail;
      }
    }
  }

  lemma {:induction false} SelectNone<T>(s: seq<T>, p: T -> bool)
    requires forall i :: 0 <= i < |s| ==> !p(s[i])
    ensures Select(s, p) == []
  {
    if s != [] {
      SelectNone(s[1..], p);
    }
  }

  predicate Starts(state: FsmState, ctx: VehicleContext, event: FsmEvent) {
    state.Off? && event.PowerOn? && ctx.health.IsHealthy()
  }

  predicate Stops(state: FsmState, event: FsmEvent) {
    state.Idle? && event.PowerOff?
  }

  /** The coordination hints a turn carries. */
  function Hints(state: FsmState, ctx: VehicleContext, event: FsmEvent): seq<DomainAction> {
    if Starts(state, ctx, event) then [StartAssemblies(ALL_ASSEMBLIES)]
    else if Stops(state, event) then [StopAssemblies(ALL_ASSEMBLIES)]
    else []
  }

  /** A buzzer command sequence that strictly alternates when the buzzer is `on` before it. */
  ghost predicate AlternatesFrom(on: bool, commands: seq<DomainAction>) {
    forall i :: 0 <= i < |commands| ==> commands[i] == if (i % 2 == 0) == on then StopBuzzer else StartBuzzer
  }

  predicate Odd(n: nat) { n % 2 == 1 }

  /** The running modes, left only through a countdown. */
  predicate Running(state: FsmState) {
    state.Idle? || state.Driving? || state.DrivingDangerously? || state.ExtremeOperationWarning?
  }

  /** The mode a turn may end in, as far as the countdowns are concerned. */
  ghost predicate ModeStep(state: FsmState, ctx: VehicleContext, event: FsmEvent, next: FsmState) {
    match state
    case Off => next == if Starts(state, ctx, event) then PreparingToStart(EVERY_ASSEMBLY) else FsmState.Off
    case PreparingToStart(remaining) =>
      next == if !event.AssemblyZoneReady? then state
              else if remaining - {event.assembly} == {} then Idle
              else PreparingToStart(remaining - {event.assembly})
    case PreparingToStop(remaining) =>
      next == if !event.AssemblyZoneReady? then state
              else if remaining - {event.assembly} == {} then FsmState.Off
              else PreparingToStop(remaining - {event.assembly})
    case _ => if Stops(state, event) then next == PreparingToStop(EVERY_ASSEMBLY) else Running(next)
  }

  /** Actions and mode of one `Step`. */
  ghost predicate StepSummary(state: FsmState, ctx: VehicleContext, event: FsmEvent, result: StepResult) {
    && Select(result.actions, IsCoordination) == Hints(state, ctx, event)
    && ModeStep(state, ctx, event, result.nextState)
    && var buzzer := Select(result.actions, IsBuzzer);
    && AlternatesFrom(state.Buzzing(), buzzer)
    && result.nextState.Buzzing() == (state.Buzzing() != Odd(|buzzer|))
  }

  lemma {:induction false} OutputBuzzer(old_: FsmState, new_: FsmState, ctx: VehicleContext)
    ensures Select(Output(old_, new_, ctx), IsBuzzer)
         == match (old_, new_)
            case (Driving, DrivingDangerously) => [StartBuzzer]
            case (Driving, ExtremeOperationWarning(_)) => [StartBuzzer]
            case (DrivingDangerously, Driving) => [StopBuzzer]
            case (DrivingDangerously, Idle) => [StopBuzzer]
            case (ExtremeOperationWarning(_), Driving) => [StopBuzzer]
            case (ExtremeOperationWarning(_), Idle) => [StopBuzzer]
            case (_, _) => []
  {
    var speed := if SpeedThresholdExceeded(ctx.powertrain.speedKph) then [LogWarning(SpeedThresholdWarning)] else [];
    var extreme := if ExtremeOperationActive(ctx.powertrain.PrimaryRpm(), ctx.powertrain.speedKph)
                   then [LogWarning(ExtremeOperationActiveWarning)] else [];
    SelectConcat([StartBuzzer], speed, IsBuzzer);
    SelectConcat([StartBuzzer] + speed, extreme, IsBuzzer);
  }

  lemma {:induction false} OutputCoordination(old_: FsmState, new_: FsmState, ctx: VehicleContext)
    ensures Select(Output(old_, new_, ctx), IsCoordination)
         == match (old_, new_)
            case (Off, PreparingToStart(_)) => [StartAssemblies(ALL_ASSEMBLIES)]
            case (Idle, PreparingToStop(_)) => [StopAssemblies(ALL_ASSEMBLIES)]
            case (_, _) => []
  {
    var speed := if SpeedThresholdExceeded(ctx.powertrain.speedKph) then [LogWarning(SpeedThresholdWarning)] else [];
    var extreme := if ExtremeOperationActive(ctx.powertrain.PrimaryRpm(), ctx.powertrain.speedKph)
                   then [LogWarning(ExtremeOperationActiveWarning)] else [];
    SelectConcat([StartBuzzer], speed, IsCoordination);
    SelectConcat([StartBuzzer] + speed, extreme, IsCoordination);
  }

  /** A mode change is never silent, a countdown step and a mode kept always are. */
  lemma {:induction false} ModeChangesAreAnnounced(old_: FsmState, new_: FsmState, ctx: VehicleContext)
    ensures Output(old_, new_, ctx) == []
            <==> old_ == new_ || (old_.PreparingToStart? && new_.PreparingToStart?) || (old_.PreparingToStop? && new_.PreparingToStop?)
  {
  }

  /** Which modes the table connects when the buzzer is concerned. */
  lemma {:induction false} TransitionPairs(state: FsmState, event: FsmEvent, ctx: VehicleContext, now: Instant)
    ensures var next := Transition(state, event, ctx, now).nextState;
            && ModeStep(state, ctx, event, next)
            && (!state.Buzzing() && next.Buzzing() ==> state.Driving?)
            && (state.Buzzing() && !next.Buzzing() ==> next.Idle? || next.Driving?)
            && (state.Buzzing() && next.Buzzing() ==> next == state)
  {
  }

  /** A rejection note is neither a buzzer command nor a coordination hint. */
  lemma {:induction false} StepSelections(state: FsmState, ctx: VehicleContext, event: FsmEvent, now: Instant)
    ensures var result := Step(state, ctx, event, now);
            && Select(result.actions, IsBuzzer) == Select(Output(state, result.nextState, ctx), IsBuzzer)
            && Select(result.actions, IsCoordination) == Select(Output(state, result.nextState, ctx), IsCoordination)
  {
    hide Output, Transition, Select;
    var t := Transition(state, event, ctx, now);
    var note := if t.rejected then [LogWarning(RejectedPowerOff(state))] else [];
    SelectConcat(Output(state, t.nextState, ctx), note, IsBuzzer);
    SelectConcat(Output(state, t.nextState, ctx), note, IsCoordination);
    SelectNone(note, IsBuzzer);
    SelectNone(note, IsCoordination);
  }

  lemma {:induction false} StepSummarized(state: FsmState, ctx: VehicleContext, event: FsmEvent, now: Instant)
    ensures StepSummary(state, ctx, event, Step(state, ctx, event, now))
  {
    hide Output, Transition, Select;
    StepSelections(state, ctx, event, now);
    TransitionPairs(state, event, ctx, now);
    var next := Transition(state, event, ctx, now).nextState;
    OutputBuzzer(state, next, ctx);
    OutputCoordination(state, next, ctx);
  }

  // ── one hop ──────────────────────────────────────────────────────────────

  /** A ledger record tells exactly what its hop did. */
  ghost predicate RecordSound(state: FsmState, event: FsmEvent, now: Instant, result: StepResult) {
    var r := result.record;
    && r.at == now && r.event == event && r.oldState == state
    && r.nextState == result.nextState && r.currentCtx == result.ctx && r.oldCtx == result.ctx
    && r.actions == Recorded(result.actions)
    && Tabled(r)
  }

  ghost predicate HopSummary(state: FsmState, ctx: VehicleContext, event: FsmEvent, now: Instant, result: StepResult) {
    && StepSummary(state, ctx, event, result)
    && RecordSound(state, event, now, result)
    && result.ctx.health == ctx.health
  }

  lemma {:induction false} ZoneActionsArePlain(ctx: VehicleContext, event: FsmEvent, state: FsmState, now: Instant, replies: ZoneReplies)
    ensures var actions := ZoneTurn(ctx, event, state, now, replies).actions;
            Select(actions, IsBuzzer) == [] && Select(actions, IsCoordination) == []
    ensures ZoneTurn(ctx, event, state, now, replies).ctx.health == ctx.health
  {
    hide HeadlampPart, WiperPart;
    var actions := ZoneTurn(ctx, event, state, now, replies).actions;
    SelectNone(actions, IsBuzzer);
    SelectNone(actions, IsCoordination);
  }

  lemma {:induction false} HopSummarized(state: FsmState, ctx: VehicleContext, event: FsmEvent, now: Instant, replies: ZoneReplies)
    ensures HopSummary(state, ctx, event, now, ApplySingleHop(state, ctx, event, now, replies))
  {
    hide Step, StepSummary, ZoneTurn, HopSummary;
    if event.Internal? {
      InternalHopSummarized(state, ctx, event, now);
    } else {
      ZoneActionsArePlain(ctx, event, state, now, replies);
      ExternalHopSummarized(state, ctx, event, now, ZoneTurn(ctx, event, state, now, replies));
    }
  }

  lemma {:induction false} InternalHopSummarized(state: FsmState, ctx: VehicleContext, event: FsmEvent, now: Instant)
    ensures HopSummary(state, ctx, event, now, Step(state, ctx, event, now))
  {
    hide Transition, Output, StepSummary, Select;
    StepSummarized(state, ctx, event, now);
  }

  lemma {:induction false} ExternalHopSummarized(state: FsmState, ctx: VehicleContext, event: FsmEvent, now: Instant, zone: ZoneTurnResult)
    requires zone.ctx.health == ctx.health
    requires Select(zone.actions, IsBuzzer) == [] && Select(zone.actions, IsCoordination) == []
    ensures var result := Step(state, zone.ctx, event, now);
            var actions := zone.actions + result.actions;
            HopSummary(state, ctx, event, now,
                       result.(actions := actions, record := result.record.(actions := Recorded(actions))))
  {
    hide Output, Transition, Select;
    var result := Step(state, zone.ctx, event, now);
    StepSummarized(state, zone.ctx, event, now);
    SelectConcat(zone.actions, result.actions, IsBuzzer);
    SelectConcat(zone.actions, result.actions, IsCoordination);
    SelectConcat(zone.actions, result.actions, IsRecorded);
    assert Select(zone.actions + result.actions, IsBuzzer) == Select(result.actions, IsBuzzer);
    assert Select(zone.actions + result.actions, IsCoordination) == Select(result.actions, IsCoordination);
  }

  // ── one turn ─────────────────────────────────────────────────────────────

  /** The records of a turn, in the order they are published. */
  function RecordsOf(hops: seq<Hop>): seq<TransitionRecord> {
    seq(|hops|, i requires 0 <= i < |hops| => hops[i].result.record)
  }

  /** What the operational machine does for a record's event, in the record's mode and cut. */
  function TableStep(r: TransitionRecord): StepResult {
    Step(r.oldState, r.currentCtx, r.event, r.at)
  }

  predicate EndsWith<T(==)>(s: seq<T>, tail: seq<T>) {
    |tail| <= |s| && s[|s| - |tail|..] == tail
  }

  /** A record's mode change is the table's, and its actions end with the table's. */
  predicate Tabled(r: TransitionRecord) {
    r.nextState == TableStep(r).nextState && EndsWith(r.actions, Recorded(TableStep(r).actions))
  }

  /** The mode a sequence of records starting in `state` has reached before its `i`-th record. */
  function ModeBefore(state: FsmState, records: seq<TransitionRecord>, i: nat): FsmState
    requires i <= |records|
  {
    if i == 0 then state else records[i - 1].nextState
  }

  ghost predicate RowChained(state: FsmState, records: seq<TransitionRecord>, i: nat)
    requires i < |records|
  {
    records[i].oldState == ModeBefore(state, records, i) && Tabled(records[i])
  }

  /** Consecutive records meet: each starts in the mode the previous one ended in. */
  ghost predicate Chained(state: FsmState, records: seq<TransitionRecord>) {
    forall i: nat :: i < |records| ==> RowChained(state, records, i)
  }

  function RecordedActions(records: seq<TransitionRecord>): seq<DomainAction> {
    if records == [] then [] else records[0].actions + RecordedActions(records[1..])
  }

  ghost predicate TurnSummary(state: FsmState, ctx: VehicleContext, event: FsmEvent, now: Instant, hops: seq<Hop>) {
    && 1 <= |hops| <= 2
    && var end := Final(hops);
    var merged := MergedActions(hops);
    var records := RecordsOf(hops);
    var buzzer := Select(merged, IsBuzzer);
    && Select(merged, IsCoordination) == Hints(state, ctx, event)
    && ModeStep(state, ctx, event, end.nextState)
    && AlternatesFrom(state.Buzzing(), buzzer)
    && end.nextState.Buzzing() == (state.Buzzing() != Odd(|buzzer|))
    && end.ctx.health == ctx.health
    && !LightingUnsafeCut(end.nextState, end.ctx)
    && Chained(state, records)
    && records[0].event == event
    && (|hops| == 2 ==> records[1].event.Internal?)
    && (forall i :: 0 <= i < |records| ==> records[i].at == now)
    && records[|records| - 1].nextState == end.nextState && records[|records| - 1].currentCtx == end.ctx
    && RecordedActions(records) == Recorded(merged)
  }

  lemma {:induction false} OneHopTurn(state: FsmState, ctx: VehicleContext, event: FsmEvent, now: Instant, hop: Hop)
    requires hop.event == event && HopSummary(state, ctx, event, now, hop.result)
    requires !LightingUnsafeCut(hop.result.nextState, hop.result.ctx)
    ensures TurnSummary(state, ctx, event, now, [hop])
  {
    hide Transition, Starts, Hints, Tabled;
    assert MergedActions([hop]) == hop.result.actions + MergedActions([]) == hop.result.actions;
    var records := RecordsOf([hop]);
    assert RecordedActions(records) == records[0].actions + RecordedActions(records[1..]);
    assert records[1..] == [];
  }

  lemma {:induction false} TwoHopTurn(state: FsmState, ctx: VehicleContext, event: FsmEvent, now: Instant, first: Hop, second: Hop)
    requires first.event == event && HopSummary(state, ctx, event, now, first.result)
    requires first.result.nextState.Driving? && second.event.Internal?
    requires HopSummary(first.result.nextState, first.result.ctx, second.event, now, second.result)
    requires !LightingUnsafeCut(second.result.nextState, second.result.ctx)
    ensures TurnSummary(state, ctx, event, now, [first, second])
  {
    hide Transition, Tabled;
    var hops := [first, second];
    var a, b := first.result.actions, second.result.actions;
    assert MergedActions(hops) == a + b by {
      assert hops[1..] == [second];
      assert MergedActions([second]) == b + MergedActions([]) == b;
    }
    SelectConcat(a, b, IsCoordination);
    SelectConcat(a, b, IsBuzzer);
    SelectConcat(a, b, IsRecorded);
    var records := RecordsOf(hops);
    assert RecordedActions(records) == Recorded(a) + Recorded(b) by {
      assert records == [first.result.record, second.result.record];
      assert records[1..] == [second.result.record];
      assert RecordedActions(records[1..]) == second.result.record.actions + RecordedActions([]);
    }
    AlternatesConcat(state.Buzzing(), Select(a, IsBuzzer), Select(b, IsBuzzer));
  }

  lemma {:induction false} AlternatesConcat(on: bool, a: seq<DomainAction>, b: seq<DomainAction>)
    requires AlternatesFrom(on, a)
    requires AlternatesFrom(on != Odd(|a|), b)
    ensures AlternatesFrom(on, a + b)
    ensures Odd(|a + b|) == (Odd(|a|) != Odd(|b|))
  {
  }

  /** Every turn, for every mode, context, event and reply map. */
  lemma {:induction false} TurnSummarized(state: FsmState, ctx: VehicleContext, event: FsmEvent, now: Instant, replies: ZoneReplies)
    ensures TurnSummary(state, ctx, event, now, Quiesce(state, ctx, event, now, replies))
  {
    hide ApplySingleHop, HopSummary, TurnSummary;
    var first := HopOf(state, ctx, event, now, replies);
    HopSummarized(state, ctx, event, now, replies);
    if LightingUnsafeCut(first.result.nextState, first.result.ctx) {
      var second := HopOf(first.result.nextState, first.result.ctx, Internal(LightingUnsafe), now, map[]);
      HopSummarized(first.result.nextState, first.result.ctx, Internal(LightingUnsafe), now, map[]);
      InternalHopSettles(first.result.nextState, first.result.ctx, now);
      TwoHopTurn(state, ctx, event, now, first, second);
    } else {
      OneHopTurn(state, ctx, event, now, first);
    }
  }
}
