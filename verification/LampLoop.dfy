/** The lamp's whole loop: reading, request, command, bytes, answer, event, and back into the zone. */
module LampLoop {
  import opened VehiclePhysics
  import opened HeadlampWire
  import opened HeadlampPolicy
  import opened Actuation
  import Zones
  import FrontHeadlamp

  /** The command a manager sends for what the zone asks, if it sends exactly one. */
  function CommandFor(m: Manager, outcomes: seq<FrontHeadlamp.HeadlampOutcome>): Option<ActuationCommand> {
    var after := ExecutedAll(m, Zones.HeadlampActions(outcomes));
    if |after.sent| == |m.sent| + 1 then Some(after.sent[|m.sent|]) else None
  }

  /** The zone message an accepted answer ends up as. */
  function MessageFor(decision: Decision): Option<FrontHeadlamp.HeadlampMessage> {
    if decision.Ignore? then None
    else
      var event := Project(decision.physical);
      if event.None? then None else Zones.HeadlampMessageFor(event.value)
  }

  lemma {:induction false} RequestBecomesCommand(m: Manager, on: bool)
    requires m.sourceKnown && m.hasChannel
    ensures var cmd := CommandFor(m, [if on then FrontHeadlamp.RequestOn else FrontHeadlamp.RequestOff]);
            cmd.Some? && cmd.value.ForHeadlamp() && cmd.value.SwitchFrontHeadlampOn? == on
  {
    var outcome := if on then FrontHeadlamp.RequestOn else FrontHeadlamp.RequestOff;
    var actions := Zones.HeadlampActions([outcome]);
    assert actions == [Zones.HeadlampAction(outcome)];
    var next := Executed(m, actions[0]);
    assert actions[1..] == [];
    assert ExecutedAll(m, actions) == ExecutedAll(next, []) == next;
  }

  /**
   * For every settled lamp, reading beyond its threshold, manager, pending command and both answers:
   * the zone asks for the other state, one command goes out, the actuator's answer to it is accepted,
   * and fed back it leaves the lamp on or ready as asked if acknowledged, and as it was, with a warning, if not.
   */
  lemma {:induction false} ReadingSwitchesLamp(ctx: FrontHeadlamp.HeadlampContext, lux: u16, now: Instant, m: Manager,
                                               before: Option<Pending>, acked: bool, later: Instant)
    requires m.sourceKnown && m.hasChannel
    requires (ctx.state.Ready? && lux <= 840) || (ctx.state.On? && lux >= 860)
    ensures var asked := FrontHeadlamp.OnReceivingMessage(ctx, FrontHeadlamp.AmbientLux(lux), now);
            var cmd := CommandFor(m, asked.outcomes);
            && cmd.Some? && cmd.value.ForHeadlamp()
            && var answer := AnswerTo(cmd.value, acked);
            && answer.Some?
            && var message := MessageFor(DecisionFor(AfterSend(before, cmd.value), answer.value));
            && message.Some?
            && var end := FrontHeadlamp.OnReceivingMessage(asked.ctx, message.value, later);
            && end.ctx.ackPendingSince == None
            && end.ctx.state == (if ctx.state.Ready? == acked then FrontHeadlamp.On else FrontHeadlamp.Ready)
            && end.outcomes == (if acked then [] else
                                [FrontHeadlamp.LogWarning(FrontHeadlamp.Incomplete(
                                   if ctx.state.Ready? then FrontHeadlamp.SwitchOn else FrontHeadlamp.SwitchOff, FrontHeadlamp.NegativeAck))])
  {
    hide AnswerTo, DecisionFor, CommandFor;
    var asked := FrontHeadlamp.OnReceivingMessage(ctx, FrontHeadlamp.AmbientLux(lux), now);
    var on := ctx.state.Ready?;
    assert asked.outcomes == [if on then FrontHeadlamp.RequestOn else FrontHeadlamp.RequestOff];
    RequestBecomesCommand(m, on);
    BusLoopRoundTrip(CommandFor(m, asked.outcomes).value, acked, before);
  }
}
