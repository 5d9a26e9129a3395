/**
 * The brain together with its environment: twinlet mailboxes, running deadlines and messages in
 * flight, as one transition system. A step is one handler run, taken atomically.
 */
module Plant {
  import opened VehiclePhysics
  import opened Fsm
  import opened Zones
  import opened TurnBarriers
  import opened BrainModel
  import opened Twinlets
  import FrontHeadlamp
  import Wiper

  datatype System = System(
    brain: Brain,
    fired: set<Timer>,              // deadlines that have gone off
    timeouts: set<Timer>,           // of those, the ones the brain has not handled yet
    ready: multiset<ReadyMsg>,      // tell-backs on their way
    wiperRead: nat,                 // how many of its tells the wiper twinlet has taken
    wiper: Wiper.WiperContext,
    headlampRead: nat,
    headlamp: HeadlampTwinlet,
    elapsed: seq<SwitchDirection>,  // acknowledgement deadlines the headlamp twinlet has not handled yet
    spontaneous: seq<SpontaneousMsg>)

  const INITIAL_SYSTEM := System(INITIAL_BRAIN, {}, {}, multiset{}, 0, Wiper.DEFAULT_WIPER, 0, INITIAL_HEADLAMP_TWINLET, [], [])

  /** The deadlines armed by a sequence of tells. */
  function ArmedBy(tells: seq<Tell>): set<Timer> {
    if tells == [] then {} else ArmedBy(tells[..|tells| - 1]) + {TimerOf(tells[|tells| - 1])}
  }

  function LiveTimers(s: System): set<Timer> {
    ArmedBy(s.brain.tells) - s.brain.aborted - s.fired
  }

  predicate ForWiper(tell: Tell) { tell.message.ToWiper? }
  predicate ForHeadlamp(tell: Tell) { tell.message.ToHeadlamp? }

  function TellsToWiper(tells: seq<Tell>): seq<Tell> { Select(tells, ForWiper) }
  function TellsToHeadlamp(tells: seq<Tell>): seq<Tell> { Select(tells, ForHeadlamp) }

  datatype Move =
    | Ingress(event: FsmEvent, now: Instant)
    | DeliverReady(msg: ReadyMsg)
    | DeliverTimeout(timer: Timer)
    | DeliverSpontaneous(index: nat, now: Instant)
    | FireTimer(timer: Timer)
    | WiperTakes(answers: bool)
    | HeadlampTakes(answers: bool)
    | FireAck(id: nat)
    | HeadlampElapsed(index: nat, now: Instant)

  /** What the projector and the controller put into the mailbox. */
  predicate External(event: FsmEvent) {
    !event.AssemblyZoneReady? && !event.Internal?
  }

  predicate Enabled(s: System, move: Move) {
    match move
    case Ingress(event, _) => External(event)
    case DeliverReady(msg) => msg in s.ready
    case DeliverTimeout(timer) => timer in s.timeouts
    case DeliverSpontaneous(index, _) => index < |s.spontaneous|
    case FireTimer(timer) => timer in LiveTimers(s)
    case WiperTakes(_) => s.wiperRead < |TellsToWiper(s.brain.tells)|
    case HeadlampTakes(_) => s.headlampRead < |TellsToHeadlamp(s.brain.tells)|
    case FireAck(id) => id in s.headlamp.running
    case HeadlampElapsed(index, _) => index < |s.elapsed|
  }

  function Without<T>(s: seq<T>, i: nat): seq<T>
    requires i < |s|
  {
    s[..i] + s[i + 1..]
  }

  /** The brain's part of a step: one handler followed by the drain. */
  function BrainNext(s: System, move: Move, clock: Clock): Brain
    requires Enabled(s, move)
  {
    match move
    case Ingress(event, now) => Drain(BeginFsmTurn(s.brain, event, now), clock)
    case DeliverReady(msg) => Drain(OnZoneReady(s.brain, msg.zone, msg.turnId, msg.attempt, msg.reply), clock)
    case DeliverTimeout(timer) => Drain(OnZoneTimeout(s.brain, timer.zone, timer.turnId, timer.attempt), clock)
    case DeliverSpontaneous(index, now) =>
      var msg := s.spontaneous[index];
      Drain(OnZoneSpontaneous(s.brain, msg.direction, msg.cause, msg.reply, now, clock), clock)
    case _ => s.brain
  }

  lemma {:induction false} SelectedBy<T>(s: seq<T>, p: T -> bool)
    ensures forall i :: 0 <= i < |Select(s, p)| ==> p(Select(s, p)[i])
  {
    if s != [] {
      SelectedBy(s[1..], p);
    }
  }

  /** The wiper twinlet takes the oldest tell it has not taken; a silent one swallows it. */
  function WiperNext(s: System, answers: bool): System
    requires s.wiperRead < |TellsToWiper(s.brain.tells)|
  {
    SelectedBy(s.brain.tells, ForWiper);
    var tell := TellsToWiper(s.brain.tells)[s.wiperRead];
    var taken := s.(wiperRead := s.wiperRead + 1);
    if !answers then taken
    else
      var reply := Wiper.OnReceivingMessage(s.wiper, tell.message.wiper);
      taken.(wiper := reply.ctx,
             ready := s.ready + multiset{ReadyMsg(WiperAssembly, tell.turnId, tell.attempt, FromWiper(reply))})
  }

  function HeadlampNext(s: System, answers: bool): System
    requires s.headlampRead < |TellsToHeadlamp(s.brain.tells)|
  {
    SelectedBy(s.brain.tells, ForHeadlamp);
    var tell := TellsToHeadlamp(s.brain.tells)[s.headlampRead];
    var taken := s.(headlampRead := s.headlampRead + 1);
    if !answers then taken
    else
      var reply := FrontHeadlamp.OnReceivingMessage(s.headlamp.ctx, tell.message.headlamp, tell.now);
      taken.(headlamp := HeadlampApplied(s.headlamp, tell.message.headlamp, tell.now),
             ready := s.ready + multiset{ReadyMsg(HeadlampAssembly, tell.turnId, tell.attempt, FromHeadlamp(reply))})
  }

  function Next(s: System, move: Move, clock: Clock): System
    requires Enabled(s, move)
  {
    match move
    case Ingress(_, _) => s.(brain := BrainNext(s, move, clock))
    case DeliverReady(msg) => s.(brain := BrainNext(s, move, clock), ready := s.ready - multiset{msg})
    case DeliverTimeout(timer) => s.(brain := BrainNext(s, move, clock), timeouts := s.timeouts - {timer})
    case DeliverSpontaneous(index, _) =>
      s.(brain := BrainNext(s, move, clock), spontaneous := Without(s.spontaneous, index))
    case FireTimer(timer) => s.(fired := s.fired + {timer}, timeouts := s.timeouts + {timer})
    case WiperTakes(answers) => WiperNext(s, answers)
    case HeadlampTakes(answers) => HeadlampNext(s, answers)
    case FireAck(id) =>
      s.(headlamp := s.headlamp.(running := s.headlamp.running - {id}), elapsed := s.elapsed + [s.headlamp.running[id]])
    case HeadlampElapsed(index, now) =>
      var direction := s.elapsed[index];
      s.(headlamp := AckElapsed(s.headlamp, direction, now),
         elapsed := Without(s.elapsed, index),
         spontaneous := if s.headlamp.brainKnown
                        then s.spontaneous + [SpontaneousMsg(direction, FrontHeadlamp.TimedOut, ElapsedReply(s.headlamp, direction, now))]
                        else s.spontaneous)
  }

  ghost predicate ValidRun(s: System, moves: seq<Move>, clock: Clock)
    decreases |moves|
  {
    moves != [] ==> Enabled(s, moves[0]) && ValidRun(Next(s, moves[0], clock), moves[1..], clock)
  }

  ghost function Run(s: System, moves: seq<Move>, clock: Clock): System
    requires ValidRun(s, moves, clock)
    decreases |moves|
  {
    if moves == [] then s else Run(Next(s, moves[0], clock), moves[1..], clock)
  }
}
