/**
 * Two runs that are not quiet, step by step from the initial state: rain that starts during a
 * countdown leaves mirror and twinlet apart, and a re-told start is committed without its command.
 */
module WiperWitnesses {
  import opened VehiclePhysics
  import opened Fsm
  import opened Zones
  import opened TwinTurn
  import opened TurnBarriers
  import opened BrainModel
  import opened Turns
  import opened Commits
  import opened BrainInvariants
  import opened BrainSafety
  import opened Twinlets
  import opened Plant
  import opened Deadlines
  import opened WiperRefinement
  import opened WiperRuns
  import FrontHeadlamp
  import Wiper

  // ── what one commit does to the parts looked at here ─────────────────────

  /** The wiper actions carried out so far. */
  function WiperStream(b: Brain): seq<DomainAction> { Select(ActionsOf(b.trace), IsWiperAction) }

  /** The parts of a brain these runs are about. */
  datatype Sketch = Sketch(state: FsmState, ctx: VehicleContext, queue: seq<Entry>, tells: seq<Tell>, nextTurnId: u64,
                           aborted: set<Timer>, stream: seq<DomainAction>)

  function SketchOf(b: Brain): Sketch {
    Sketch(b.state, b.ctx, b.queue, b.tells, b.nextTurnId, b.aborted, WiperStream(b))
  }

  lemma {:induction false} TurnStream(state: FsmState, ctx: VehicleContext, event: FsmEvent, now: Instant, replies: ZoneReplies)
    ensures Select(MergedActions(Quiesce(state, ctx, event, now, replies)), IsWiperAction)
            == WiperActions(WiperPart(ctx, event, replies).outcomes)
  {
    hide Quiesce, WiperPart, Select, ModeStep, AlternatesFrom, Hints, Chained, LightingUnsafeCut;
    var hops := Quiesce(state, ctx, event, now, replies);
    TurnSummarized(state, ctx, event, now, replies);
    TurnWiper(state, ctx, event, now, replies);
    RecordedKeepsWiper(MergedActions(hops));
    var records := RecordsOf(hops);
    if |records| == 1 {
      assert records == [records[0]];
      assert RecordedActions(records) == records[0].actions + RecordedActions([]) == records[0].actions;
    } else {
      assert records == [records[0], records[1]] && records[1..] == [records[1]];
      assert RecordedActions([records[1]]) == records[1].actions + RecordedActions([]) == records[1].actions;
      SelectConcat(records[0].actions, records[1].actions, IsWiperAction);
    }
  }

  /** A turn's cut is the zone turn's. */
  lemma {:induction false} TurnCut(state: FsmState, ctx: VehicleContext, event: FsmEvent, now: Instant, replies: ZoneReplies)
    requires !event.Internal?
    ensures Final(Quiesce(state, ctx, event, now, replies)).ctx == ZoneTurn(ctx, event, state, now, replies).ctx
  {
    hide ZoneTurn, Transition, Output, LightingUnsafeCut;
  }

  /** A commit that neither starts nor stops the assemblies. */
  lemma {:induction false} PlainCommit(b: Brain, event: FsmEvent, now: Instant, replies: ZoneReplies, clock: Clock)
    requires !Starts(b.state, b.ctx, event) && !Stops(b.state, event) && !event.Internal?
    ensures var c := CommitResolved(b, event, now, replies, clock);
            var part := WiperPart(b.ctx, event, replies);
            && SketchOf(c) == SketchOf(b).(state := c.state, ctx := ZoneTurn(b.ctx, event, b.state, now, replies).ctx,
                                           stream := WiperStream(b) + WiperActions(part.outcomes))
            && ModeStep(b.state, b.ctx, event, c.state)
  {
    TurnCut(b.state, b.ctx, event, now, replies);
    hide Quiesce, ZoneTurn, WiperPart, Select, AlternatesFrom, Hints, Chained, LightingUnsafeCut, TurnTrace, AdvanceBy, ModeStep, ActionsOf, Starts, Stops;
    CommitShape(b, event, now, replies, clock);
    var hops := Quiesce(b.state, b.ctx, event, now, replies);
    TurnWiper(b.state, b.ctx, event, now, replies);
    TurnStream(b.state, b.ctx, event, now, replies);
    TurnActions(b.trace, b.nextRecordSeq, hops);
    SelectConcat(ActionsOf(b.trace), MergedActions(hops), IsWiperAction);
  }

  /** The commit of a power-on in a healthy car that is off. */
  lemma {:induction false} StartCommit(b: Brain, now: Instant, clock: Clock)
    requires b.state.Off? && b.ctx.health.IsHealthy()
    ensures var c := CommitResolved(b, PowerOn, now, map[], clock);
            && c.state == PreparingToStart(EVERY_ASSEMBLY) && c.ctx == b.ctx && WiperStream(c) == WiperStream(b)
            && c.aborted == b.aborted
            && var both := PushBoth(b, true, clock(b.nextTurnId));
            c.queue == both.queue && c.tells == both.tells && c.nextTurnId == both.nextTurnId
  {
    PowerOnTurn(b.state, b.ctx, now);
    hide Quiesce, Select, AlternatesFrom, Hints, Chained, LightingUnsafeCut, TurnTrace, AdvanceBy, ActionsOf, ModeStep;
    CommitShape(b, PowerOn, now, map[], clock);
    var hops := Quiesce(b.state, b.ctx, PowerOn, now, map[]);
    TurnActions(b.trace, b.nextRecordSeq, hops);
    SelectConcat(ActionsOf(b.trace), MergedActions(hops), IsWiperAction);
  }

  lemma {:induction false} PowerOnTurn(state: FsmState, ctx: VehicleContext, now: Instant)
    requires state.Off? && ctx.health.IsHealthy()
    ensures var hops := Quiesce(state, ctx, PowerOn, now, map[]);
            && Final(hops).nextState == PreparingToStart(EVERY_ASSEMBLY) && Final(hops).ctx == ctx
            && Select(MergedActions(hops), IsWiperAction) == []
  {
    TurnSummarized(state, ctx, PowerOn, now, map[]);
    TurnCut(state, ctx, PowerOn, now, map[]);
    TurnStream(state, ctx, PowerOn, now, map[]);
    hide Quiesce, Select, AlternatesFrom, Hints, Chained, LightingUnsafeCut, MergedActions;
    assert WiperActions([]) == [];
  }

  /** A front that waits stops the drain. */
  lemma {:induction false} NothingToDrain(b: Brain, clock: Clock)
    requires !FrontComplete(b)
    ensures Drain(b, clock) == b
  {
  }

  lemma {:induction false} DrainOne(b: Brain, clock: Clock)
    requires FrontComplete(b)
    ensures Drain(b, clock) == Drain(CommitFront(b, clock), clock)
  {
    CommitFrontProgress(b, clock);
  }

  // ── the brain's steps ────────────────────────────────────────────────────

  /** The lifecycle slots of a start-up that was stamped `at`. */
  function HeadlampSlot(at: Instant): Barrier {
    NewBarrier(2, AssemblyZoneReady(HeadlampAssembly), at, HeadlampAssembly, LifecycleMessage(HeadlampAssembly, true))
  }

  function WiperSlot(at: Instant): Barrier {
    NewBarrier(3, AssemblyZoneReady(WiperAssembly), at, WiperAssembly, LifecycleMessage(WiperAssembly, true))
  }

  function StartTells(at: Instant): seq<Tell> {
    [Tell(HeadlampAssembly, 2, 0, LifecycleMessage(HeadlampAssembly, true), at),
     Tell(WiperAssembly, 3, 0, LifecycleMessage(WiperAssembly, true), at)]
  }

  const READY_WIPER := Wiper.WiperContext(Wiper.WiperState.Ready)
  const RUNNING_WIPER := Wiper.WiperContext(Wiper.Running)
  const READY_HEADLAMP := FrontHeadlamp.HeadlampZoneReply(FrontHeadlamp.HeadlampContext(FrontHeadlamp.HeadlampState.Ready, None), [])

  const HEADLAMP_ANSWER := ReadyMsg(HeadlampAssembly, 2, 0, FromHeadlamp(READY_HEADLAMP))
  const WIPER_ANSWER := ReadyMsg(WiperAssembly, 3, 0, FromWiper(Wiper.WiperZoneReply(READY_WIPER, [])))

  /** The cut after the headlamp's acknowledgement, and after the wiper's. */
  const HALF_STARTED_CUT := DEFAULT_CONTEXT.(headlamp := READY_HEADLAMP.ctx)
  const IDLE_CUT := HALF_STARTED_CUT.(wiper := READY_WIPER)

  const HEADLAMP_TIMER := Timer(HeadlampAssembly, 2, 0)
  const WIPER_TIMER := Timer(WiperAssembly, 3, 0)

  /** Power-on in the initial state: the countdown begins and both assemblies are told. */
  lemma {:induction false} PoweredOn(clock: Clock)
    ensures var b := Drain(BeginFsmTurn(INITIAL_BRAIN, PowerOn, 0), clock);
            && SketchOf(b) == Sketch(PreparingToStart(EVERY_ASSEMBLY), DEFAULT_CONTEXT,
                                     [Waiting(HeadlampSlot(clock(2))), Waiting(WiperSlot(clock(2)))], StartTells(clock(2)), 4, {}, [])
  {
    hide CommitResolved, Select;
    var b := BeginFsmTurn(INITIAL_BRAIN, PowerOn, 0);
    assert b.queue == [Passthrough(1, PowerOn, 0)];
    var p := PopFront(b);
    assert p.queue == [];
    StartCommit(p, 0, clock);
    DrainOne(b, clock);
    assert WiperStream(p) == [] by { EmptyStream(); }
    var both := PushBoth(p, true, clock(2));
    assert both.queue == [Waiting(HeadlampSlot(clock(2))), Waiting(WiperSlot(clock(2)))];
    assert both.tells == StartTells(clock(2));
    NothingToDrain(CommitFront(b, clock), clock);
  }

  lemma {:induction false} EmptyStream()
    ensures Select(ActionsOf([]), IsWiperAction) == []
  {
  }

  /** The headlamp acknowledges: the countdown goes on with the wiper, whatever is queued behind it. */
  lemma {:induction false} HeadlampAcknowledged(b: Brain, at: Instant, tail: seq<Entry>, clock: Clock)
    requires b.state == PreparingToStart(EVERY_ASSEMBLY) && b.queue == [Waiting(HeadlampSlot(at)), Waiting(WiperSlot(at))] + tail
    ensures var c := Drain(OnZoneReady(b, HeadlampAssembly, 2, 0, FromHeadlamp(READY_HEADLAMP)), clock);
            && SketchOf(c) == SketchOf(b).(state := PreparingToStart({WiperAssembly}), ctx := b.ctx.(headlamp := READY_HEADLAMP.ctx),
                                           queue := [Waiting(WiperSlot(at))] + tail, aborted := b.aborted + {HEADLAMP_TIMER})
  {
    hide CommitResolved, Select, ActionsOf;
    var filled := OnZoneReady(b, HeadlampAssembly, 2, 0, FromHeadlamp(READY_HEADLAMP));
    var e := filled.queue[0];
    assert e.IsComplete() && e.Event() == AssemblyZoneReady(HeadlampAssembly);
    var p := PopFront(filled);
    assert p.queue == [Waiting(WiperSlot(at))] + tail;
    PlainCommit(p, e.Event(), e.Now(), e.Replies(), clock);
    assert WiperActions([]) == [];
    assert EVERY_ASSEMBLY - {HeadlampAssembly} == {WiperAssembly};
    DrainOne(filled, clock);
    NothingToDrain(CommitFront(filled, clock), clock);
  }

  /** The wiper acknowledges: the car is idle, the mirror ready, and the drain goes on behind the countdown. */
  lemma {:induction false} WiperAcknowledged(b: Brain, at: Instant, tail: seq<Entry>, clock: Clock) returns (c: Brain)
    requires b.state == PreparingToStart({WiperAssembly}) && b.queue == [Waiting(WiperSlot(at))] + tail
    ensures Drain(OnZoneReady(b, WiperAssembly, 3, 0, WIPER_ANSWER.reply), clock) == Drain(c, clock)
    ensures SketchOf(c) == SketchOf(b).(state := Idle, ctx := b.ctx.(wiper := READY_WIPER), queue := tail, aborted := b.aborted + {WIPER_TIMER})
  {
    hide CommitResolved, Select, ActionsOf;
    var filled := OnZoneReady(b, WiperAssembly, 3, 0, WIPER_ANSWER.reply);
    var e := filled.queue[0];
    assert e.IsComplete() && e.Event() == AssemblyZoneReady(WiperAssembly);
    var p := PopFront(filled);
    assert p.queue == tail;
    PlainCommit(p, e.Event(), e.Now(), e.Replies(), clock);
    assert WiperActions([]) == [];
    assert {WiperAssembly} - {WiperAssembly} == {};
    DrainOne(filled, clock);
    c := CommitFront(filled, clock);
  }

  /** Rain behind the countdown is committed by the local handler. */
  lemma {:induction false} RainCommitted(b: Brain, clock: Clock)
    requires b.state == Idle && b.ctx.wiper == READY_WIPER && b.queue == [Passthrough(4, RainsStarted, 0)]
    ensures var c := Drain(b, clock);
            c.queue == [] && c.ctx.wiper == RUNNING_WIPER && c.tells == b.tells
  {
    hide CommitResolved, Select, ActionsOf;
    PlainCommit(PopFront(b), RainsStarted, 0, map[], clock);
    DrainOne(b, clock);
    NothingToDrain(CommitFront(b, clock), clock);
  }

  // ── the system's steps ───────────────────────────────────────────────────

  /** The parts of the environment these runs are about. */
  datatype Env = Env(wiperRead: nat, wiper: Wiper.WiperContext, headlampRead: nat, ready: multiset<ReadyMsg>,
                     fired: set<Timer>, timeouts: set<Timer>)

  function EnvOf(s: System): Env {
    Env(s.wiperRead, s.wiper, s.headlampRead, s.ready, s.fired, s.timeouts)
  }

  lemma {:induction false} StartMail(at: Instant)
    ensures TellsToHeadlamp(StartTells(at)) == [StartTells(at)[0]]
    ensures TellsToWiper(StartTells(at)) == [StartTells(at)[1]]
  {
    var h, w := StartTells(at)[0], StartTells(at)[1];
    assert StartTells(at) == [h] + [w];
    SelectConcat([h], [w], ForHeadlamp);
    SelectConcat([h], [w], ForWiper);
    assert [h][1..] == [] && [w][1..] == [];
  }

  /** A run given step by step from position `k` on. */
  lemma {:induction false} Prepend(s: System, moves: seq<Move>, k: nat, clock: Clock)
    requires k < |moves| && Enabled(s, moves[k]) && ValidRun(Next(s, moves[k], clock), moves[k + 1..], clock)
    ensures ValidRun(s, moves[k..], clock)
    ensures Run(s, moves[k..], clock) == Run(Next(s, moves[k], clock), moves[k + 1..], clock)
  {
    hide Next, Enabled;
    assert moves[k..][0] == moves[k] && moves[k..][1..] == moves[k + 1..];
  }

  /** Both assemblies told, nothing answered yet; `tail` is queued behind the countdown. */
  ghost predicate Starting(s: System, at: Instant, tail: seq<Entry>)
    requires |tail| <= 1
  {
    && SketchOf(s.brain) == Sketch(PreparingToStart(EVERY_ASSEMBLY), DEFAULT_CONTEXT,
                                   [Waiting(HeadlampSlot(at)), Waiting(WiperSlot(at))] + tail, StartTells(at), 4 + |tail|, {}, [])
    && EnvOf(s) == Env(0, Wiper.DEFAULT_WIPER, 0, multiset{}, {}, {})
  }

  lemma {:induction false} HeadlampAnswers(s: System, at: Instant, tail: seq<Entry>, clock: Clock)
    requires |tail| <= 1 && Starting(s, at, tail)
    ensures Enabled(s, HeadlampTakes(true))
    ensures var s' := Next(s, HeadlampTakes(true), clock);
            s'.brain == s.brain && EnvOf(s') == Env(0, Wiper.DEFAULT_WIPER, 1, multiset{HEADLAMP_ANSWER}, {}, {})
  {
    hide SketchOf, HeadlampApplied, TellsToHeadlamp;
    assert s.brain.tells == StartTells(at) by { TellsOf(s.brain); }
    StartMail(at);
  }

  lemma {:induction false} TellsOf(b: Brain)
    ensures SketchOf(b) == Sketch(b.state, b.ctx, b.queue, b.tells, b.nextTurnId, b.aborted, WiperStream(b))
  {
  }

  /** The headlamp's acknowledgement is committed; the wiper's slot is in front. */
  ghost predicate HalfStarted(s: System, at: Instant, tail: seq<Entry>)
    requires |tail| <= 1
  {
    && SketchOf(s.brain) == Sketch(PreparingToStart({WiperAssembly}), HALF_STARTED_CUT, [Waiting(WiperSlot(at))] + tail,
                                   StartTells(at), 4 + |tail|, {HEADLAMP_TIMER}, [])
    && EnvOf(s) == Env(0, Wiper.DEFAULT_WIPER, 1, multiset{}, {}, {})
  }

  lemma {:induction false} HeadlampDelivered(s: System, at: Instant, tail: seq<Entry>, clock: Clock)
    requires |tail| <= 1
    requires SketchOf(s.brain) == Sketch(PreparingToStart(EVERY_ASSEMBLY), DEFAULT_CONTEXT,
                                         [Waiting(HeadlampSlot(at)), Waiting(WiperSlot(at))] + tail, StartTells(at), 4 + |tail|, {}, [])
    requires EnvOf(s) == Env(0, Wiper.DEFAULT_WIPER, 1, multiset{HEADLAMP_ANSWER}, {}, {})
    ensures Enabled(s, DeliverReady(HEADLAMP_ANSWER)) && HalfStarted(Next(s, DeliverReady(HEADLAMP_ANSWER), clock), at, tail)
  {
    hide SketchOf, Drain, OnZoneReady;
    TellsOf(s.brain);
    HeadlampAcknowledged(s.brain, at, tail, clock);
    assert SketchOf(s.brain).aborted == {};
    assert multiset{HEADLAMP_ANSWER} - multiset{HEADLAMP_ANSWER} == multiset{};
    assert {} + {HEADLAMP_TIMER} == {HEADLAMP_TIMER};
  }

  /** The wiper twinlet has become ready and its answer is on its way. */
  ghost predicate WiperAnswered(s: System, at: Instant, tail: seq<Entry>)
    requires |tail| <= 1
  {
    && SketchOf(s.brain) == Sketch(PreparingToStart({WiperAssembly}), HALF_STARTED_CUT, [Waiting(WiperSlot(at))] + tail,
                                   StartTells(at), 4 + |tail|, {HEADLAMP_TIMER}, [])
    && EnvOf(s) == Env(1, READY_WIPER, 1, multiset{WIPER_ANSWER}, {}, {})
  }

  lemma {:induction false} WiperAnswers(s: System, at: Instant, tail: seq<Entry>, clock: Clock)
    requires |tail| <= 1 && HalfStarted(s, at, tail)
    ensures Enabled(s, WiperTakes(true)) && WiperAnswered(Next(s, WiperTakes(true), clock), at, tail)
  {
    hide SketchOf, TellsToWiper;
    TellsOf(s.brain);
    StartMail(at);
  }

  /** From both told to the wiper's answer: three steps, the same in both runs. */
  lemma {:induction false} StartsUp(s: System, at: Instant, tail: seq<Entry>, clock: Clock) returns (s1: System, s2: System, s3: System)
    requires |tail| <= 1 && Starting(s, at, tail)
    ensures Enabled(s, HeadlampTakes(true)) && s1 == Next(s, HeadlampTakes(true), clock)
    ensures Enabled(s1, DeliverReady(HEADLAMP_ANSWER)) && s2 == Next(s1, DeliverReady(HEADLAMP_ANSWER), clock)
    ensures Enabled(s2, WiperTakes(true)) && s3 == Next(s2, WiperTakes(true), clock)
    ensures WiperAnswered(s3, at, tail)
  {
    hide Next, Enabled, SketchOf;
    HeadlampAnswers(s, at, tail, clock);
    s1 := Next(s, HeadlampTakes(true), clock);
    HeadlampDelivered(s1, at, tail, clock);
    s2 := Next(s1, DeliverReady(HEADLAMP_ANSWER), clock);
    WiperAnswers(s2, at, tail, clock);
    s3 := Next(s2, WiperTakes(true), clock);
  }

  lemma {:induction false} PowerOnStep(clock: Clock)
    ensures Enabled(INITIAL_SYSTEM, Ingress(PowerOn, 0)) && Starting(Next(INITIAL_SYSTEM, Ingress(PowerOn, 0), clock), clock(2), [])
  {
    hide SketchOf, Drain, BeginFsmTurn;
    PoweredOn(clock);
    var slots := [Waiting(HeadlampSlot(clock(2))), Waiting(WiperSlot(clock(2)))];
    assert slots + [] == slots;
  }

  // ── rain in a countdown ──────────────────────────────────────────────────

  /** Power on, rain starts before the assemblies have answered, then both answer. */
  const RAIN_IN_COUNTDOWN: seq<Move> :=
    [Ingress(PowerOn, 0), Ingress(RainsStarted, 0), HeadlampTakes(true), DeliverReady(HEADLAMP_ANSWER), WiperTakes(true), DeliverReady(WIPER_ANSWER)]

  const UNTOLD_RAIN := Passthrough(4, RainsStarted, 0)

  lemma {:induction false} RainArrives(s: System, at: Instant, clock: Clock)
    requires Starting(s, at, [])
    ensures Enabled(s, Ingress(RainsStarted, 0)) && Starting(Next(s, Ingress(RainsStarted, 0), clock), at, [UNTOLD_RAIN])
  {
    hide Select, ActionsOf;
    var b := BeginFsmTurn(s.brain, RainsStarted, 0);
    assert b.queue == [Waiting(HeadlampSlot(at)), Waiting(WiperSlot(at))] + [UNTOLD_RAIN];
    NothingToDrain(b, clock);
  }

  lemma {:induction false} WiperDeliveredWithRain(s: System, at: Instant, clock: Clock)
    requires WiperAnswered(s, at, [UNTOLD_RAIN])
    ensures Enabled(s, DeliverReady(WIPER_ANSWER))
    ensures var end := Next(s, DeliverReady(WIPER_ANSWER), clock);
            && end.brain.queue == [] && end.brain.ctx.wiper == RUNNING_WIPER && end.wiper == READY_WIPER
            && end.ready == multiset{} && end.brain.tells == StartTells(at) && end.wiperRead == end.headlampRead == 1
  {
    hide SketchOf, Drain, OnZoneReady;
    TellsOf(s.brain);
    var c := WiperAcknowledged(s.brain, at, [UNTOLD_RAIN], clock);
    TellsOf(c);
    RainCommitted(c, clock);
    assert multiset{WIPER_ANSWER} - multiset{WIPER_ANSWER} == multiset{};
  }

  /**
   * A run of the system in which rain starts during the start-up countdown and every tell is answered
   * in time: it ends with nothing queued, told or on its way, the mirror running and the twinlet ready.
   */
  lemma {:induction false} RainInCountdownDiverges(clock: Clock)
    ensures ValidRun(INITIAL_SYSTEM, RAIN_IN_COUNTDOWN, clock) && AttentiveRun(RAIN_IN_COUNTDOWN)
    ensures var end := Run(INITIAL_SYSTEM, RAIN_IN_COUNTDOWN, clock);
            && end.brain.queue == [] && end.ready == multiset{}
            && end.wiperRead == |TellsToWiper(end.brain.tells)| && end.headlampRead == |TellsToHeadlamp(end.brain.tells)|
            && end.brain.ctx.wiper.state.Running? && end.wiper.state.Ready?
  {
    hide Next, Enabled, SketchOf, Starting, WiperAnswered, TellsToWiper, TellsToHeadlamp, Run, ValidRun;
    var moves := RAIN_IN_COUNTDOWN;
    PowerOnStep(clock);
    var s1 := Next(INITIAL_SYSTEM, moves[0], clock);
    RainArrives(s1, clock(2), clock);
    var s2 := Next(s1, moves[1], clock);
    var s3, s4, s5 := StartsUp(s2, clock(2), [UNTOLD_RAIN], clock);
    WiperDeliveredWithRain(s5, clock(2), clock);
    StartMail(clock(2));
    var s6 := Next(s5, moves[5], clock);
    EmptyRun(s6, moves[6..], clock);
    Prepend(s5, moves, 5, clock);
    Prepend(s4, moves, 4, clock);
    Prepend(s3, moves, 3, clock);
    Prepend(s2, moves, 2, clock);
    Prepend(s1, moves, 1, clock);
    Prepend(INITIAL_SYSTEM, moves, 0, clock);
    assert moves[0..] == moves;
  }

  lemma {:induction false} EmptyRun(s: System, moves: seq<Move>, clock: Clock)
    requires moves == []
    ensures ValidRun(s, moves, clock) && Run(s, moves, clock) == s
  {
  }

  // ── a start told twice ───────────────────────────────────────────────────

  const RAIN_TIMER := Timer(WiperAssembly, 4, 0)
  const STARTED := ReadyMsg(WiperAssembly, 4, 0, FromWiper(Wiper.WiperZoneReply(RUNNING_WIPER, [Wiper.StartWiping])))
  const STILL_RUNNING := ReadyMsg(WiperAssembly, 4, 1, FromWiper(Wiper.WiperZoneReply(RUNNING_WIPER, [])))

  /** Rain starts in an idle car; the twinlet's answer is slower than its deadline. */
  const START_TOLD_TWICE: seq<Move> :=
    [Ingress(PowerOn, 0), HeadlampTakes(true), DeliverReady(HEADLAMP_ANSWER), WiperTakes(true), DeliverReady(WIPER_ANSWER),
     Ingress(RainsStarted, 0), WiperTakes(true), FireTimer(RAIN_TIMER), DeliverTimeout(RAIN_TIMER), DeliverReady(STARTED),
     WiperTakes(true), DeliverReady(STILL_RUNNING)]

  function RainTell(attempt: u32): Tell { Tell(WiperAssembly, 4, attempt, ToWiper(Wiper.Start), 0) }

  function RainSlot(): Barrier { NewBarrier(4, RainsStarted, 0, WiperAssembly, ToWiper(Wiper.Start)) }

  function RetriedSlot(): Barrier {
    RainSlot().ActOnZoneTimeout(WiperAssembly, 0).StoreRetryTimer(WiperAssembly, Timer(WiperAssembly, 4, 1))
  }

  const ABORTED := {HEADLAMP_TIMER, WIPER_TIMER}

  /** An idle car with a ready wiper, and rain told or not. */
  ghost predicate Raining(s: System, queue: seq<Entry>, tells: seq<Tell>, next: u64, env: Env) {
    SketchOf(s.brain) == Sketch(Idle, IDLE_CUT, queue, tells, next, ABORTED, []) && EnvOf(s) == env
  }

  lemma {:induction false} WiperDelivered(s: System, at: Instant, clock: Clock)
    requires WiperAnswered(s, at, [])
    ensures Enabled(s, DeliverReady(WIPER_ANSWER))
    ensures Raining(Next(s, DeliverReady(WIPER_ANSWER), clock), [], StartTells(at), 4, Env(1, READY_WIPER, 1, multiset{}, {}, {}))
  {
    hide SketchOf, Drain, OnZoneReady;
    TellsOf(s.brain);
    var c := WiperAcknowledged(s.brain, at, [], clock);
    TellsOf(c);
    assert SketchOf(s.brain).aborted == {HEADLAMP_TIMER};
    assert {HEADLAMP_TIMER} + {WIPER_TIMER} == ABORTED;
    NothingToDrain(c, clock);
    assert multiset{WIPER_ANSWER} - multiset{WIPER_ANSWER} == multiset{};
  }

  lemma {:induction false} RainTold(s: System, at: Instant, env: Env, clock: Clock)
    requires Raining(s, [], StartTells(at), 4, env)
    ensures Enabled(s, Ingress(RainsStarted, 0))
    ensures Raining(Next(s, Ingress(RainsStarted, 0), clock), [Waiting(RainSlot())], StartTells(at) + [RainTell(0)], 5, env)
  {
    hide Select, ActionsOf;
    var b := BeginFsmTurn(s.brain, RainsStarted, 0);
    assert b.queue == [Waiting(RainSlot())];
    NothingToDrain(b, clock);
  }

  lemma {:induction false} RainMail(at: Instant)
    ensures TellsToWiper(StartTells(at) + [RainTell(0)]) == [StartTells(at)[1], RainTell(0)]
    ensures TellsToWiper(StartTells(at) + [RainTell(0)] + [RainTell(1)]) == [StartTells(at)[1], RainTell(0), RainTell(1)]
  {
    StartMail(at);
    MailAfterTell(StartTells(at), RainTell(0), 0);
    MailAfterTell(StartTells(at) + [RainTell(0)], RainTell(1), 0);
  }

  /** The first tell makes the twinlet start, and ask for it. */
  lemma {:induction false} TwinletStarts(s: System, at: Instant, clock: Clock)
    requires Raining(s, [Waiting(RainSlot())], StartTells(at) + [RainTell(0)], 5, Env(1, READY_WIPER, 1, multiset{}, {}, {}))
    ensures Enabled(s, WiperTakes(true))
    ensures Raining(Next(s, WiperTakes(true), clock), [Waiting(RainSlot())], StartTells(at) + [RainTell(0)], 5,
                    Env(2, RUNNING_WIPER, 1, multiset{STARTED}, {}, {}))
  {
    hide SketchOf, TellsToWiper;
    TellsOf(s.brain);
    RainMail(at);
  }

  lemma {:induction false} DeadlinePasses(s: System, at: Instant, clock: Clock)
    requires Raining(s, [Waiting(RainSlot())], StartTells(at) + [RainTell(0)], 5, Env(2, RUNNING_WIPER, 1, multiset{STARTED}, {}, {}))
    ensures Enabled(s, FireTimer(RAIN_TIMER))
    ensures Raining(Next(s, FireTimer(RAIN_TIMER), clock), [Waiting(RainSlot())], StartTells(at) + [RainTell(0)], 5,
                    Env(2, RUNNING_WIPER, 1, multiset{STARTED}, {RAIN_TIMER}, {RAIN_TIMER}))
  {
    hide SketchOf, Select;
    TellsOf(s.brain);
    TellAppended(StartTells(at), RainTell(0));
  }

  /** The brain tells again and from now on waits for the second attempt. */
  lemma {:induction false} ToldAgain(s: System, at: Instant, clock: Clock)
    requires Raining(s, [Waiting(RainSlot())], StartTells(at) + [RainTell(0)], 5,
                     Env(2, RUNNING_WIPER, 1, multiset{STARTED}, {RAIN_TIMER}, {RAIN_TIMER}))
    ensures Enabled(s, DeliverTimeout(RAIN_TIMER))
    ensures Raining(Next(s, DeliverTimeout(RAIN_TIMER), clock), [Waiting(RetriedSlot())], StartTells(at) + [RainTell(0)] + [RainTell(1)], 5,
                    Env(2, RUNNING_WIPER, 1, multiset{STARTED}, {RAIN_TIMER}, {}))
  {
    hide Select, ActionsOf;
    var b := OnZoneTimeout(s.brain, WiperAssembly, 4, 0);
    assert b.queue == [Waiting(RetriedSlot())];
    assert {RAIN_TIMER} - {RAIN_TIMER} == {};
    NothingToDrain(b, clock);
  }

  /** The answer that asks for the start comes too late. */
  lemma {:induction false} LateAnswerDropped(s: System, at: Instant, clock: Clock)
    requires Raining(s, [Waiting(RetriedSlot())], StartTells(at) + [RainTell(0)] + [RainTell(1)], 5,
                     Env(2, RUNNING_WIPER, 1, multiset{STARTED}, {RAIN_TIMER}, {}))
    ensures Enabled(s, DeliverReady(STARTED))
    ensures Raining(Next(s, DeliverReady(STARTED), clock), [Waiting(RetriedSlot())], StartTells(at) + [RainTell(0)] + [RainTell(1)], 5,
                    Env(2, RUNNING_WIPER, 1, multiset{}, {RAIN_TIMER}, {}))
  {
    hide Select, ActionsOf;
    assert OnZoneReady(s.brain, WiperAssembly, 4, 0, STARTED.reply) == s.brain;
    assert multiset{STARTED} - multiset{STARTED} == multiset{};
    NothingToDrain(s.brain, clock);
  }

  lemma {:induction false} TwinletAnswersAgain(s: System, at: Instant, clock: Clock)
    requires Raining(s, [Waiting(RetriedSlot())], StartTells(at) + [RainTell(0)] + [RainTell(1)], 5,
                     Env(2, RUNNING_WIPER, 1, multiset{}, {RAIN_TIMER}, {}))
    ensures Enabled(s, WiperTakes(true))
    ensures Raining(Next(s, WiperTakes(true), clock), [Waiting(RetriedSlot())], StartTells(at) + [RainTell(0)] + [RainTell(1)], 5,
                    Env(3, RUNNING_WIPER, 1, multiset{STILL_RUNNING}, {RAIN_TIMER}, {}))
  {
    hide SketchOf, TellsToWiper;
    TellsOf(s.brain);
    RainMail(at);
  }

  lemma {:induction false} CommittedWithoutCommand(s: System, at: Instant, clock: Clock)
    requires Raining(s, [Waiting(RetriedSlot())], StartTells(at) + [RainTell(0)] + [RainTell(1)], 5,
                     Env(3, RUNNING_WIPER, 1, multiset{STILL_RUNNING}, {RAIN_TIMER}, {}))
    ensures Enabled(s, DeliverReady(STILL_RUNNING))
    ensures var end := Next(s, DeliverReady(STILL_RUNNING), clock);
            && end.brain.queue == [] && end.brain.ctx.wiper == RUNNING_WIPER && end.wiper == RUNNING_WIPER
            && end.ready == multiset{} && end.timeouts == {} && WiperStream(end.brain) == []
            && end.brain.tells == StartTells(at) + [RainTell(0)] + [RainTell(1)] && end.wiperRead == 3
  {
    hide CommitResolved, Select, ActionsOf;
    var filled := OnZoneReady(s.brain, WiperAssembly, 4, 1, STILL_RUNNING.reply);
    var e := filled.queue[0];
    assert e.IsComplete() && e.Event() == RainsStarted;
    PlainCommit(PopFront(filled), e.Event(), e.Now(), e.Replies(), clock);
    assert WiperActions([]) == [];
    DrainOne(filled, clock);
    NothingToDrain(CommitFront(filled, clock), clock);
    assert multiset{STILL_RUNNING} - multiset{STILL_RUNNING} == multiset{};
  }

  /**
   * A run of the system in which the twinlet starts and asks for the start command once, in an answer
   * that arrives after its deadline: the brain tells again, the second answer asks for nothing, and
   * the turn is committed. Mirror and twinlet run, every tell is answered, no wiper action was ever carried out.
   */
  lemma {:induction false} RetoldStartLosesItsCommand(clock: Clock)
    ensures ValidRun(INITIAL_SYSTEM, START_TOLD_TWICE, clock)
    ensures DeliverReady(STARTED) in START_TOLD_TWICE && STARTED.reply.wiper.outcomes == [Wiper.StartWiping]
    ensures var end := Run(INITIAL_SYSTEM, START_TOLD_TWICE, clock);
            && end.brain.queue == [] && end.ready == multiset{} && end.timeouts == {}
            && end.wiperRead == |TellsToWiper(end.brain.tells)|
            && end.brain.ctx.wiper.state.Running? && end.wiper.state.Running?
            && WiperStream(end.brain) == [] && RequestWiperStart !in ActionsOf(end.brain.trace)
  {
    hide Next, Enabled, SketchOf, Starting, WiperAnswered, Raining, TellsToWiper, Run, ValidRun, RainSlot, RetriedSlot, Select, ActionsOf;
    var moves, at := START_TOLD_TWICE, clock(2);
    assert moves[9] == DeliverReady(STARTED);
    PowerOnStep(clock);
    var s1 := Next(INITIAL_SYSTEM, moves[0], clock);
    var s2, s3, s4 := StartsUp(s1, at, [], clock);
    WiperDelivered(s4, at, clock);
    var s5 := Next(s4, moves[4], clock);
    RainTold(s5, at, Env(1, READY_WIPER, 1, multiset{}, {}, {}), clock);
    var s6 := Next(s5, moves[5], clock);
    TwinletStarts(s6, at, clock);
    var s7 := Next(s6, moves[6], clock);
    DeadlinePasses(s7, at, clock);
    var s8 := Next(s7, moves[7], clock);
    ToldAgain(s8, at, clock);
    var s9 := Next(s8, moves[8], clock);
    LateAnswerDropped(s9, at, clock);
    var s10 := Next(s9, moves[9], clock);
    TwinletAnswersAgain(s10, at, clock);
    var s11 := Next(s10, moves[10], clock);
    CommittedWithoutCommand(s11, at, clock);
    var s12 := Next(s11, moves[11], clock);
    RainMail(at);
    NotSelected(ActionsOf(s12.brain.trace), RequestWiperStart);
    EmptyRun(s12, moves[12..], clock);
    Prepend(s11, moves, 11, clock);
    Prepend(s10, moves, 10, clock);
    Prepend(s9, moves, 9, clock);
    Prepend(s8, moves, 8, clock);
    Prepend(s7, moves, 7, clock);
    Prepend(s6, moves, 6, clock);
    Prepend(s5, moves, 5, clock);
    Prepend(s4, moves, 4, clock);
    Prepend(s3, moves, 3, clock);
    Prepend(s2, moves, 2, clock);
    Prepend(s1, moves, 1, clock);
    Prepend(INITIAL_SYSTEM, moves, 0, clock);
    assert moves[0..] == moves;
  }

  lemma {:induction false} NotSelected(actions: seq<DomainAction>, action: DomainAction)
    requires Select(actions, IsWiperAction) == [] && IsWiperAction(action)
    ensures action !in actions
  {
    if actions != [] {
      NotSelected(actions[1..], action);
    }
  }
}
