/** The invariants lifted to every state of every run. */
module Reachability {
  import opened VehiclePhysics
  import opened Fsm
  import opened Zones
  import opened TurnBarriers
  import opened BrainModel
  import opened BrainInvariants
  import opened HandlerSafety
  import opened Plant
  import opened Deadlines

  ghost predicate SystemOk(s: System) {
    && QueueOk(s.brain)
    && DeadlinesOk(s.brain, s.fired, s.timeouts)
    && !FrontComplete(s.brain)
  }

  /** The states of the runs in which neither counter has saturated. */
  ghost predicate Reachable(s: System, clock: Clock) {
    && Unsaturated(s.brain)
    && exists moves :: ValidRun(INITIAL_SYSTEM, moves, clock) && Run(INITIAL_SYSTEM, moves, clock) == s
  }

  lemma {:induction false} BeginGrows(b: Brain, event: FsmEvent, now: Instant)
    ensures CountersGrow(b, BeginFsmTurn(b, event, now))
  {
  }

  lemma {:induction false} TimeoutGrows(b: Brain, zone: AssemblyId, turnId: u64, attempt: u32)
    ensures CountersGrow(b, OnZoneTimeout(b, zone, turnId, attempt))
  {
  }

  lemma {:induction false} NextGrows(s: System, move: Move, clock: Clock)
    requires Enabled(s, move)
    ensures CountersGrow(s.brain, Next(s, move, clock).brain)
  {
    hide Drain, BeginFsmTurn, OnZoneTimeout, CommitResolved, WiperNext, HeadlampNext;
    match move
    case Ingress(event, now) =>
      BeginGrows(s.brain, event, now);
      DrainGrows(BeginFsmTurn(s.brain, event, now), clock);
    case DeliverReady(m) => DrainGrows(OnZoneReady(s.brain, m.zone, m.turnId, m.attempt, m.reply), clock);
    case DeliverTimeout(t) =>
      TimeoutGrows(s.brain, t.zone, t.turnId, t.attempt);
      DrainGrows(OnZoneTimeout(s.brain, t.zone, t.turnId, t.attempt), clock);
    case DeliverSpontaneous(index, now) =>
      var m := s.spontaneous[index];
      CommitGrows(s.brain, FrontHeadlampActuationIncomplete(m.direction, m.cause), now,
                  map[HeadlampAssembly := ZoneReply.FromHeadlamp(m.reply)], clock);
      DrainGrows(OnZoneSpontaneous(s.brain, m.direction, m.cause, m.reply, now, clock), clock);
    case WiperTakes(answers) => TakesKeepBrain(s, move, clock);
    case HeadlampTakes(answers) => TakesKeepBrain(s, move, clock);
    case _ =>
  }

  lemma {:induction false} TakesKeepBrain(s: System, move: Move, clock: Clock)
    requires Enabled(s, move) && (move.WiperTakes? || move.HeadlampTakes?)
    ensures var s' := Next(s, move, clock); s'.brain == s.brain && s'.fired == s.fired && s'.timeouts == s.timeouts
  {
  }

  /** Drained from an invariant state, the brain is again in one. */
  lemma {:induction false} DrainedOk(b: Brain, clock: Clock, fired: set<Timer>, timeouts: set<Timer>)
    requires QueueOk(b) && DeadlinesOk(b, fired, timeouts) && Drain(b, clock).nextTurnId < U64_MAX
    ensures var d := Drain(b, clock);
            QueueOk(d) && DeadlinesOk(d, fired, timeouts) && !FrontComplete(d)
  {
    hide QueueOk, DeadlinesOk;
    DrainKeepsQueue(b, clock);
    DrainDeadlines(b, clock, fired, timeouts);
    DrainSettles(b, clock);
  }

  lemma {:induction false} NextOk(s: System, move: Move, clock: Clock)
    requires SystemOk(s) && Enabled(s, move) && Unsaturated(Next(s, move, clock).brain)
    ensures SystemOk(Next(s, move, clock))
  {
    hide Ordered, EntriesOk, CountdownOk, HistoryOk, DeadlinesOk, Drain, BeginFsmTurn, OnZoneTimeout, OnZoneReady, CommitResolved, WiperNext, HeadlampNext;
    var b := s.brain;
    match move
    case Ingress(event, now) =>
      var next := BeginFsmTurn(b, event, now);
      DrainGrows(next, clock);
      BeginGrows(b, event, now);
      BeginKeeps(b, event, now);
      BeginDeadlines(b, event, now, s.fired, s.timeouts);
      DrainedOk(next, clock, s.fired, s.timeouts);
    case DeliverReady(m) =>
      var next := OnZoneReady(b, m.zone, m.turnId, m.attempt, m.reply);
      ReadyKeeps(b, m.zone, m.turnId, m.attempt, m.reply);
      ReadyDeadlines(b, m.zone, m.turnId, m.attempt, m.reply, s.fired, s.timeouts);
      DrainedOk(next, clock, s.fired, s.timeouts);
    case DeliverTimeout(t) =>
      TimeoutDeadlines(b, t, s.fired, s.timeouts);
      DrainedOk(OnZoneTimeout(b, t.zone, t.turnId, t.attempt), clock, s.fired, s.timeouts - {t});
    case DeliverSpontaneous(index, now) =>
      var m := s.spontaneous[index];
      var next := OnZoneSpontaneous(b, m.direction, m.cause, m.reply, now, clock);
      DrainGrows(next, clock);
      SpontaneousKeepsQueue(b, m.direction, m.cause, m.reply, now, clock);
      CommitDeadlines(b, FrontHeadlampActuationIncomplete(m.direction, m.cause), now,
                      map[HeadlampAssembly := ZoneReply.FromHeadlamp(m.reply)], clock, s.fired, s.timeouts);
      DrainedOk(next, clock, s.fired, s.timeouts);
    case FireTimer(timer) => FireDeadlines(b, timer, s.fired, s.timeouts);
    case WiperTakes(_) => TakesKeepBrain(s, move, clock);
    case HeadlampTakes(_) => TakesKeepBrain(s, move, clock);
    case _ =>
  }

  /** Arrivals, replies and timeouts leave the cut and the trace alone: only commits move them. */
  lemma {:induction false} OnlyCommitsMoveTheCut(b: Brain)
    ensures forall event, now :: CutOk(b) ==> CutOk(BeginFsmTurn(b, event, now))
    ensures forall zone, turnId, attempt, reply :: CutOk(b) ==> CutOk(OnZoneReady(b, zone, turnId, attempt, reply))
    ensures forall zone, turnId, attempt :: CutOk(b) ==> CutOk(OnZoneTimeout(b, zone, turnId, attempt))
  {
    hide TraceOk, Find, SyntheticReplyFor;
  }

  lemma {:induction false} NextKeepsCut(s: System, move: Move, clock: Clock)
    requires SystemOk(s) && CutOk(s.brain) && Enabled(s, move) && Unsaturated(Next(s, move, clock).brain)
    ensures CutOk(Next(s, move, clock).brain)
  {
    hide Ordered, EntriesOk, HistoryOk, LifecycleZones, LifecycleMessagesOk, Outstanding, CutOk, DeadlinesOk, Drain, BeginFsmTurn,
         OnZoneTimeout, OnZoneReady, CommitResolved, WiperNext, HeadlampNext, RemainingOk;
    var b := s.brain;
    OnlyCommitsMoveTheCut(b);
    match move
    case Ingress(event, now) =>
      var next := BeginFsmTurn(b, event, now);
      DrainGrows(next, clock);
      BeginGrows(b, event, now);
      BeginKeeps(b, event, now);
      DrainKeepsCut(next, clock);
    case DeliverReady(m) =>
      ReadyKeeps(b, m.zone, m.turnId, m.attempt, m.reply);
      DrainKeepsCut(OnZoneReady(b, m.zone, m.turnId, m.attempt, m.reply), clock);
    case DeliverTimeout(t) =>
      TimeoutDeadlines(b, t, s.fired, s.timeouts);
      DrainKeepsCut(OnZoneTimeout(b, t.zone, t.turnId, t.attempt), clock);
    case DeliverSpontaneous(index, now) =>
      var m := s.spontaneous[index];
      var next := OnZoneSpontaneous(b, m.direction, m.cause, m.reply, now, clock);
      DrainGrows(next, clock);
      SpontaneousKeepsQueue(b, m.direction, m.cause, m.reply, now, clock);
      SpontaneousKeepsCut(b, m.direction, m.cause, m.reply, now, clock);
      DrainKeepsCut(next, clock);
    case WiperTakes(_) => TakesKeepBrain(s, move, clock);
    case HeadlampTakes(_) => TakesKeepBrain(s, move, clock);
    case _ =>
  }

  lemma {:induction false} RunGrows(s: System, moves: seq<Move>, clock: Clock)
    requires ValidRun(s, moves, clock)
    ensures CountersGrow(s.brain, Run(s, moves, clock).brain)
    decreases |moves|
  {
    hide Next, Enabled;
    if moves != [] {
      NextGrows(s, moves[0], clock);
      RunGrows(Next(s, moves[0], clock), moves[1..], clock);
    }
  }

  lemma {:induction false} RunOk(s: System, moves: seq<Move>, clock: Clock)
    requires SystemOk(s) && ValidRun(s, moves, clock) && Unsaturated(Run(s, moves, clock).brain)
    ensures SystemOk(Run(s, moves, clock))
    decreases |moves|
  {
    hide Next, Enabled, SystemOk;
    if moves != [] {
      RunGrows(Next(s, moves[0], clock), moves[1..], clock);
      NextOk(s, moves[0], clock);
      RunOk(Next(s, moves[0], clock), moves[1..], clock);
    }
  }

  lemma {:induction false} RunKeepsCut(s: System, moves: seq<Move>, clock: Clock)
    requires SystemOk(s) && CutOk(s.brain) && ValidRun(s, moves, clock) && Unsaturated(Run(s, moves, clock).brain)
    ensures CutOk(Run(s, moves, clock).brain)
    decreases |moves|
  {
    hide Next, Enabled, SystemOk, CutOk;
    if moves != [] {
      RunGrows(Next(s, moves[0], clock), moves[1..], clock);
      NextOk(s, moves[0], clock);
      NextKeepsCut(s, moves[0], clock);
      RunKeepsCut(Next(s, moves[0], clock), moves[1..], clock);
    }
  }

  lemma {:induction false} ReachableOk(s: System, clock: Clock)
    requires Reachable(s, clock)
    ensures SystemOk(s) && CutOk(s.brain)
  {
    hide SystemOk, CutOk;
    InitialOk();
    var moves :| ValidRun(INITIAL_SYSTEM, moves, clock) && Run(INITIAL_SYSTEM, moves, clock) == s;
    RunOk(INITIAL_SYSTEM, moves, clock);
    RunKeepsCut(INITIAL_SYSTEM, moves, clock);
  }

  lemma {:induction false} InitialOk()
    ensures SystemOk(INITIAL_SYSTEM) && CutOk(INITIAL_SYSTEM.brain)
  {
    InitialBrainOk();
  }
}
