/** The headlamp zone over whole message runs: no request is repeated while one is outstanding. */
module HeadlampRuns {
  import opened VehiclePhysics
  import opened FrontHeadlamp

  datatype Delivery = Delivery(msg: HeadlampMessage, now: Instant)

  /** The snapshot before the `i`-th delivery of a run that starts in `ctx`. */
  function Before(ctx: HeadlampContext, run: seq<Delivery>, i: nat): HeadlampContext
    requires i <= |run|
  {
    if i == 0 then ctx
    else OnReceivingMessage(Before(ctx, run, i - 1), run[i - 1].msg, run[i - 1].now).ctx
  }

  function OutcomesAt(ctx: HeadlampContext, run: seq<Delivery>, i: nat): seq<HeadlampOutcome>
    requires i < |run|
  {
    OnReceivingMessage(Before(ctx, run, i), run[i].msg, run[i].now).outcomes
  }

  predicate IsRequest(outcome: HeadlampOutcome) { outcome.RequestOn? || outcome.RequestOff? }

  /** The `i`-th delivery makes the zone ask for a switch. */
  predicate RequestsAt(ctx: HeadlampContext, run: seq<Delivery>, i: nat)
    requires i < |run|
  {
    exists o :: o in OutcomesAt(ctx, run, i) && IsRequest(o)
  }

  /** What a state says about the lamp: lit, or being switched off. */
  predicate BelievedLit(state: HeadlampState) { state.On? || state.OffRequested? }

  /** A request is pending exactly while the time it was made is noted. */
  predicate PendingNoted(ctx: HeadlampContext) {
    ctx.ackPendingSince.Some? <==> Requested(ctx.state)
  }

  /** The messages that settle an outstanding request. */
  predicate Settles(ctx: HeadlampContext, msg: HeadlampMessage, now: Instant) {
    match msg
    case AmbientLux(_) => false
    case ActuationIncomplete(direction, _) => Awaits(ctx.state, direction)
    case TimerTick => Overdue(ctx, now).Some?
    case _ => true
  }

  lemma {:induction false} StepKeepsPendingNoted(ctx: HeadlampContext, msg: HeadlampMessage, now: Instant)
    requires PendingNoted(ctx)
    ensures PendingNoted(OnReceivingMessage(ctx, msg, now).ctx)
  {
    hide AckWaitElapsed;
  }

  lemma {:induction false} PendingAlwaysNoted(ctx: HeadlampContext, run: seq<Delivery>, i: nat)
    requires PendingNoted(ctx) && i <= |run|
    ensures PendingNoted(Before(ctx, run, i))
  {
    hide PendingNoted, OnReceivingMessage;
    if i > 0 {
      PendingAlwaysNoted(ctx, run, i - 1);
      StepKeepsPendingNoted(Before(ctx, run, i - 1), run[i - 1].msg, run[i - 1].now);
    }
  }

  /** An outstanding request ends with a settling message, and with nothing else. */
  lemma {:induction false} RequestEndsExactlyWhenSettled(ctx: HeadlampContext, msg: HeadlampMessage, now: Instant)
    requires PendingNoted(ctx) && Requested(ctx.state)
    ensures Settles(ctx, msg, now) <==> !Requested(OnReceivingMessage(ctx, msg, now).ctx.state)
    ensures !Settles(ctx, msg, now) ==> OnReceivingMessage(ctx, msg, now) == HeadlampZoneReply(ctx, [])
  {
    hide AckWaitElapsed;
  }

  /** A switch is requested exactly by a reading beyond the threshold of the lamp's settled state. */
  lemma {:induction false} RequestOnlyFromSettled(ctx: HeadlampContext, msg: HeadlampMessage, now: Instant)
    ensures var reply := OnReceivingMessage(ctx, msg, now);
            (exists o :: o in reply.outcomes && IsRequest(o))
            <==> msg.AmbientLux? && ((ctx.state.Ready? && msg.lux <= 840) || (ctx.state.On? && msg.lux >= 860))
    ensures var reply := OnReceivingMessage(ctx, msg, now);
            (exists o :: o in reply.outcomes && IsRequest(o)) ==>
              && reply.outcomes == [if BelievedLit(ctx.state) then RequestOff else RequestOn]
              && Awaits(reply.ctx.state, if BelievedLit(ctx.state) then SwitchOff else SwitchOn)
  {
    hide AckWaitElapsed, Overdue;
    var reply := OnReceivingMessage(ctx, msg, now);
    if msg.AmbientLux? {
      if ctx.state.Ready? && msg.lux <= LUX_ON_THRESHOLD {
        assert RequestOn in reply.outcomes;
      } else if ctx.state.On? && msg.lux >= LUX_OFF_THRESHOLD {
        assert RequestOff in reply.outcomes;
      }
    }
  }

  /** While nothing settles it, an outstanding request stays. */
  lemma {:induction false} RequestOutstanding(ctx: HeadlampContext, run: seq<Delivery>, i: nat, j: nat)
    requires PendingNoted(ctx) && i <= j <= |run| && Requested(Before(ctx, run, i).state)
    requires forall k :: i <= k < j ==> !Settles(Before(ctx, run, k), run[k].msg, run[k].now)
    ensures Before(ctx, run, j) == Before(ctx, run, i)
    decreases j - i
  {
    hide PendingNoted, OnReceivingMessage, Settles;
    if i < j {
      RequestOutstanding(ctx, run, i, j - 1);
      PendingAlwaysNoted(ctx, run, j - 1);
      RequestEndsExactlyWhenSettled(Before(ctx, run, j - 1), run[j - 1].msg, run[j - 1].now);
    }
  }

  /** Between two requests of a run there is a settling message. */
  lemma {:induction false} NoDuplicateRequest(ctx: HeadlampContext, run: seq<Delivery>, i: nat, j: nat)
    requires PendingNoted(ctx) && i < j < |run| && RequestsAt(ctx, run, i) && RequestsAt(ctx, run, j)
    ensures exists k :: i < k < j && Settles(Before(ctx, run, k), run[k].msg, run[k].now)
  {
    hide PendingNoted, Settles, Before, OnReceivingMessage;
    RequestOnlyFromSettled(Before(ctx, run, i), run[i].msg, run[i].now);
    RequestOnlyFromSettled(Before(ctx, run, j), run[j].msg, run[j].now);
    assert Before(ctx, run, i + 1) == OnReceivingMessage(Before(ctx, run, i), run[i].msg, run[i].now).ctx by { Unfold(ctx, run, i); }
    if forall k :: i < k < j ==> !Settles(Before(ctx, run, k), run[k].msg, run[k].now) {
      RequestOutstanding(ctx, run, i + 1, j);
    }
  }

  lemma {:induction false} Unfold(ctx: HeadlampContext, run: seq<Delivery>, i: nat)
    requires i < |run|
    ensures Before(ctx, run, i + 1) == OnReceivingMessage(Before(ctx, run, i), run[i].msg, run[i].now).ctx
  {
  }

  /** Readings strictly inside the deadband never make the zone ask for anything, whatever else arrives. */
  lemma {:induction false} DeadbandIsSilent(ctx: HeadlampContext, run: seq<Delivery>, i: nat)
    requires i < |run|
    requires forall k :: 0 <= k < |run| && run[k].msg.AmbientLux? ==> 840 < run[k].msg.lux < 860
    ensures !RequestsAt(ctx, run, i)
  {
    hide Before;
    RequestOnlyFromSettled(Before(ctx, run, i), run[i].msg, run[i].now);
  }

  /** What the lamp was last reported to be: acknowledgements report it, lifecycle messages start from dark. */
  function LastReport(lit: bool, run: seq<Delivery>, i: nat): bool
    requires i <= |run|
  {
    if i == 0 then lit
    else match run[i - 1].msg
         case AckOn => true
         case AckOff => false
         case BecomeOn => false
         case BecomeOff => false
         case ResetForIgnitionOff => false
         case _ => LastReport(lit, run, i - 1)
  }

  /** The zone believes of the lamp what was last reported: requests, refusals and timeouts never change it. */
  lemma {:induction false} BeliefFollowsReports(ctx: HeadlampContext, run: seq<Delivery>, i: nat)
    requires i <= |run|
    ensures BelievedLit(Before(ctx, run, i).state) == LastReport(BelievedLit(ctx.state), run, i)
  {
    hide AckWaitElapsed;
    if i > 0 {
      BeliefFollowsReports(ctx, run, i - 1);
    }
  }

  // ── the whole state, from the messages alone ─────────────────────────────

  /** Switched off: by a shutdown message that nothing has followed which brings the zone back. */
  function SwitchedOff(off: bool, run: seq<Delivery>, i: nat): bool
    requires i <= |run|
  {
    if i == 0 then off
    else match run[i - 1].msg
         case BecomeOff => true
         case ResetForIgnitionOff => true
         case BecomeOn => false
         case AckOn => false
         case AckOff => false
         case _ => SwitchedOff(off, run, i - 1)
  }

  /** The zone is off if and only if it was switched off and nothing brought it back. */
  lemma {:induction false} OffExactlyWhenSwitchedOff(ctx: HeadlampContext, run: seq<Delivery>, i: nat)
    requires i <= |run|
    ensures Before(ctx, run, i).state.Off? == SwitchedOff(ctx.state.Off?, run, i)
  {
    hide AckWaitElapsed;
    if i > 0 {
      OffExactlyWhenSwitchedOff(ctx, run, i - 1);
    }
  }

  /** With no request outstanding, history fixes the state: off, else on or ready by the last report. */
  lemma {:induction false} SettledState(ctx: HeadlampContext, run: seq<Delivery>, i: nat)
    requires i <= |run| && !Requested(Before(ctx, run, i).state)
    ensures Before(ctx, run, i).state
            == if SwitchedOff(ctx.state.Off?, run, i) then HeadlampState.Off
               else if LastReport(BelievedLit(ctx.state), run, i) then HeadlampState.On
               else HeadlampState.Ready
  {
    OffExactlyWhenSwitchedOff(ctx, run, i);
    BeliefFollowsReports(ctx, run, i);
    hide Before, SwitchedOff, LastReport;
  }

  /**
   * Settled and not switched off, the zone asks again for what a reading calls for, however often it
   * has asked before: on when dark and last reported dark, off when bright and last reported lit.
   */
  lemma {:induction false} SettledZoneAsksAgain(ctx: HeadlampContext, run: seq<Delivery>, i: nat, lux: u16)
    requires i < |run| && run[i].msg == AmbientLux(lux)
    requires !Requested(Before(ctx, run, i).state) && !SwitchedOff(ctx.state.Off?, run, i)
    ensures var lit := LastReport(BelievedLit(ctx.state), run, i);
            && (!lit && lux <= 840 ==>
                  OutcomesAt(ctx, run, i) == [RequestOn] && Before(ctx, run, i + 1) == HeadlampContext(OnRequested, Some(run[i].now)))
            && (lit && lux >= 860 ==>
                  OutcomesAt(ctx, run, i) == [RequestOff] && Before(ctx, run, i + 1) == HeadlampContext(OffRequested, Some(run[i].now)))
            && ((if lit then lux < 860 else lux > 840) ==>
                  OutcomesAt(ctx, run, i) == [] && Before(ctx, run, i + 1) == Before(ctx, run, i))
  {
    SettledState(ctx, run, i);
    Unfold(ctx, run, i);
    hide Before, SwitchedOff, LastReport;
  }

  /** A failed request: refused in its direction, or found two seconds old or more by a tick. */
  predicate Fails(ctx: HeadlampContext, msg: HeadlampMessage, now: Instant, direction: SwitchDirection, cause: IncompleteCause) {
    && ctx.state == (if direction.SwitchOn? then OnRequested else OffRequested)
    && (msg == ActuationIncomplete(direction, cause)
        || (msg.TimerTick? && cause.TimedOut? && ctx.ackPendingSince.Some? && now >= ctx.ackPendingSince.value + 2_000_000_000))
  }

  /** A failed request falls back to what the lamp is, with its warning; there is no other warning. */
  lemma {:induction false} FailureFallsBack(ctx: HeadlampContext, msg: HeadlampMessage, now: Instant)
    ensures forall direction, cause :: Fails(ctx, msg, now, direction, cause) ==>
      OnReceivingMessage(ctx, msg, now)
      == HeadlampZoneReply(HeadlampContext(if direction.SwitchOn? then HeadlampState.Ready else HeadlampState.On, None),
                           [LogWarning(Incomplete(direction, cause))])
    ensures forall w :: LogWarning(w) in OnReceivingMessage(ctx, msg, now).outcomes ==>
      w.Incomplete? && Fails(ctx, msg, now, w.direction, w.cause)
  {
  }

  /** The stamp of an outstanding request is the time of the reading that made the zone ask. */
  lemma {:induction false} StampIsRequestTime(ctx: HeadlampContext, run: seq<Delivery>, i: nat) returns (k: nat)
    requires ctx.ackPendingSince.None? && PendingNoted(ctx) && i <= |run| && Before(ctx, run, i).ackPendingSince.Some?
    ensures k < i && RequestsAt(ctx, run, k) && Before(ctx, run, i).ackPendingSince == Some(run[k].now)
    ensures forall j :: k < j < i ==> !Settles(Before(ctx, run, j), run[j].msg, run[j].now)
  {
    hide PendingNoted, Settles, OnReceivingMessage;
    var before := Before(ctx, run, i - 1);
    PendingAlwaysNoted(ctx, run, i - 1);
    StampStep(before, run[i - 1].msg, run[i - 1].now);
    if before.ackPendingSince.Some? && !Settles(before, run[i - 1].msg, run[i - 1].now) {
      k := StampIsRequestTime(ctx, run, i - 1);
    } else {
      k := i - 1;
    }
  }

  lemma {:induction false} StampStep(ctx: HeadlampContext, msg: HeadlampMessage, now: Instant)
    requires PendingNoted(ctx)
    ensures var reply := OnReceivingMessage(ctx, msg, now);
            reply.ctx.ackPendingSince.Some? ==>
              if ctx.ackPendingSince.Some? && !Settles(ctx, msg, now) then reply.ctx == ctx
              else reply.ctx.ackPendingSince == Some(now) && exists o :: o in reply.outcomes && IsRequest(o)
  {
    hide AckWaitElapsed;
    var reply := OnReceivingMessage(ctx, msg, now);
    if reply.outcomes != [] {
      assert reply.outcomes[0] in reply.outcomes;
    }
  }
}
