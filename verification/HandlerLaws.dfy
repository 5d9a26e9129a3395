/** What arrivals, lifecycle pushes and replies do to queue and tells, in the messages and fields themselves. */
module HandlerLaws {
  import opened VehiclePhysics
  import opened Fsm
  import opened Zones
  import opened TurnBarriers
  import opened BrainModel
  import opened Commits
  import FrontHeadlamp
  import Wiper

  /** Which zone hears which message for a user event. */
  predicate Concerns(event: FsmEvent, zone: AssemblyId, message: ZoneMessage) {
    match event
    case UpdateAmbientLux(lux) => zone == HeadlampAssembly && message == ToHeadlamp(FrontHeadlamp.AmbientLux(lux))
    case FrontHeadlampOnAck => zone == HeadlampAssembly && message == ToHeadlamp(FrontHeadlamp.AckOn)
    case FrontHeadlampOffAck => zone == HeadlampAssembly && message == ToHeadlamp(FrontHeadlamp.AckOff)
    case FrontHeadlampActuationIncomplete(direction, cause) =>
      zone == HeadlampAssembly && message == ToHeadlamp(FrontHeadlamp.ActuationIncomplete(direction, cause))
    case RainsStarted => zone == WiperAssembly && message == ToWiper(Wiper.Start)
    case RainsStopped => zone == WiperAssembly && message == ToWiper(Wiper.Stop)
    case _ => false
  }

  /** A slot just told: its zone pends on attempt 0 with both retries left, its message and deadline stored. */
  ghost predicate JustTold(e: Entry, turnId: u64, event: FsmEvent, now: Instant, zone: AssemblyId, message: ZoneMessage) {
    && e.Waiting?
    && var s := e.barrier;
    && s.turnId == turnId && s.event == event && s.now == now
    && s.pending == {zone} && s.replies == map[]
    && s.messages == map[zone := message]
    && s.waits == map[zone := TellBackWait(turnId, 0, 2)]
    && s.timers == map[zone := Timer(zone, turnId, 0)]
  }

  /** An arrival takes the next turn id and the last place; it is told exactly if it concerns a zone and no countdown runs. */
  lemma {:induction false} ArrivalIsQueued(b: Brain, event: FsmEvent, now: Instant)
    ensures var c := BeginFsmTurn(b, event, now);
            && |c.queue| == |b.queue| + 1 && c.queue[..|b.queue|] == b.queue
            && c == b.(queue := c.queue, tells := c.tells, nextTurnId := c.nextTurnId)
            && c.nextTurnId == (if b.nextTurnId < U64_MAX then b.nextTurnId + 1 else U64_MAX)
            && (forall zone, message :: !b.state.Preparing() && Concerns(event, zone, message) ==>
                  && c.tells == b.tells + [Tell(zone, b.nextTurnId, 0, message, now)]
                  && JustTold(c.queue[|b.queue|], b.nextTurnId, event, now, zone, message))
            && ((b.state.Preparing() || forall zone, message :: !Concerns(event, zone, message)) ==>
                  c.tells == b.tells && c.queue[|b.queue|] == Passthrough(b.nextTurnId, event, now))
  {
    if !b.state.Preparing() {
      match ZoneMessageForEvent(event, b.state)
      case Route(zone, message) => assert Concerns(event, zone, message);
      case NoZone =>
    }
  }

  /** Starting or stopping the assemblies tells the headlamp, then the wiper, and queues their acknowledgements in that order. */
  lemma {:induction false} LifecycleIsQueued(b: Brain, starting: bool, now: Instant)
    requires b.nextTurnId + 1 < U64_MAX
    ensures var c := PushAssemblies(b, ALL_ASSEMBLIES, starting, now);
            var headlamp := ToHeadlamp(if starting then FrontHeadlamp.BecomeOn else FrontHeadlamp.BecomeOff);
            var wiper := ToWiper(if starting then Wiper.BecomeOn else Wiper.BecomeOff);
            && c == b.(queue := c.queue, tells := c.tells, nextTurnId := b.nextTurnId + 2)
            && c.tells == b.tells + [Tell(HeadlampAssembly, b.nextTurnId, 0, headlamp, now), Tell(WiperAssembly, b.nextTurnId + 1, 0, wiper, now)]
            && |c.queue| == |b.queue| + 2 && c.queue[..|b.queue|] == b.queue
            && JustTold(c.queue[|b.queue|], b.nextTurnId, AssemblyZoneReady(HeadlampAssembly), now, HeadlampAssembly, headlamp)
            && JustTold(c.queue[|b.queue| + 1], b.nextTurnId + 1, AssemblyZoneReady(WiperAssembly), now, WiperAssembly, wiper)
  {
    PushAllIsPushBoth(b, starting, now);
  }

  /** A reply for the current attempt is filed: stored, no longer pending, its running deadline aborted; any other changes nothing. */
  lemma {:induction false} ReplyIsFiled(b: Brain, i: nat, zone: AssemblyId, attempt: u32, reply: ZoneReply)
    requires i < |b.queue| && b.queue[i].Waiting?
    requires forall j :: 0 <= j < |b.queue| && j != i ==> b.queue[j].TurnId() != b.queue[i].TurnId()
    ensures var s, c := b.queue[i].barrier, OnZoneReady(b, zone, b.queue[i].TurnId(), attempt, reply);
            if zone in s.waits && s.waits[zone].tellAttempt == attempt then
              && c == b.(queue := c.queue, aborted := c.aborted)
              && |c.queue| == |b.queue| && (forall j :: 0 <= j < |b.queue| && j != i ==> c.queue[j] == b.queue[j])
              && c.queue[i].Waiting?
              && var t := c.queue[i].barrier;
              && t.pending == s.pending - {zone} && zone in t.replies && t.replies[zone] == reply
              && (forall z :: z != zone ==> (z in t.replies <==> z in s.replies) && (z in s.replies ==> t.replies[z] == s.replies[z]))
              && t.turnId == s.turnId && t.event == s.event && t.now == s.now && t.waits == s.waits && t.messages == s.messages
              && c.aborted == b.aborted + (if zone in s.timers then {s.timers[zone]} else {})
              && zone !in t.timers
            else c == b
  {
    assert Find(b.queue, b.queue[i].TurnId()) == i;
  }

  /** A reply for a turn that is not queued, or not waiting, changes nothing. */
  lemma {:induction false} UnknownReplyIsDropped(b: Brain, zone: AssemblyId, turnId: u64, attempt: u32, reply: ZoneReply)
    requires forall j :: 0 <= j < |b.queue| && b.queue[j].TurnId() == turnId ==> b.queue[j].Passthrough?
    ensures OnZoneReady(b, zone, turnId, attempt, reply) == b && OnZoneTimeout(b, zone, turnId, attempt) == b
  {
  }
}
