/**
 * The headlamp's request stamp, system-wide: in the twinlet, in the brain's mirror, in every reply
 * stored or on its way and in every ledger row it is set exactly while a request is outstanding.
 */
module HeadlampPlant {
  import opened VehiclePhysics
  import opened Fsm
  import opened Zones
  import opened TwinTurn
  import opened TurnBarriers
  import opened BrainModel
  import opened Turns
  import opened Commits
  import opened BrainInvariants
  import opened BrainSafety
  import opened Twinlets
  import opened Plant
  import opened Reachability
  import opened RowLaws
  import opened LedgerLaws
  import opened HeadlampRuns
  import FrontHeadlamp

  predicate NotedReply(reply: ZoneReply) {
    reply.FromHeadlamp? ==> PendingNoted(reply.headlamp.ctx)
  }

  /** A reply is of its zone's kind. */
  predicate Typed(zone: AssemblyId, reply: ZoneReply) {
    if zone.HeadlampAssembly? then reply.FromHeadlamp? else reply.FromWiper?
  }

  predicate NotedReplies(replies: ZoneReplies) {
    forall z :: z in replies ==> Typed(z, replies[z]) && NotedReply(replies[z])
  }

  ghost predicate NotedQueue(queue: seq<Entry>) {
    forall i :: 0 <= i < |queue| ==> NotedReplies(queue[i].Replies())
  }

  ghost predicate NotedLedger(ledger: seq<TransitionRecord>) {
    forall i :: 0 <= i < |ledger| ==> PendingNoted(ledger[i].currentCtx.headlamp)
  }

  ghost predicate BrainNoted(b: Brain) {
    && PendingNoted(b.ctx.headlamp) && NotedQueue(b.queue) && NotedLedger(LedgerOf(b.trace))
    && (forall i :: 0 <= i < |b.committed| ==> NotedReplies(b.committed[i].replies))
  }

  ghost predicate PlantNoted(s: System) {
    && BrainNoted(s.brain)
    && PendingNoted(s.headlamp.ctx) && AckTimerFits(s.headlamp)
    && (forall m :: m in s.ready ==> Typed(m.zone, m.reply) && NotedReply(m.reply))
    && (forall i :: 0 <= i < |s.spontaneous| ==> PendingNoted(s.spontaneous[i].reply.ctx))
  }

  lemma {:induction false} HeadlampPartNoted(ctx: VehicleContext, event: FsmEvent, now: Instant, replies: ZoneReplies)
    requires PendingNoted(ctx.headlamp) && NotedReplies(replies)
    ensures PendingNoted(HeadlampPart(ctx, event, now, replies).ctx)
  {
    hide PendingNoted;
    if HeadlampAssembly in replies {
      assert NotedReply(replies[HeadlampAssembly]);
    }
    var message := HeadlampMessageFor(event);
    if message.Some? {
      StepKeepsPendingNoted(ctx.headlamp, message.value, now);
    }
  }

  lemma {:induction false} TurnHeadlamp(state: FsmState, ctx: VehicleContext, event: FsmEvent, now: Instant, replies: ZoneReplies)
    ensures var hops := Quiesce(state, ctx, event, now, replies);
            forall i :: 0 <= i < |hops| ==>
              && hops[i].result.ctx.headlamp == HeadlampPart(ctx, event, now, replies).ctx
              && hops[i].result.record.currentCtx == hops[i].result.ctx
  {
    hide Transition, Output, WiperPart, LightingUnsafeCut;
  }

  lemma {:induction false} CommitNoted(b: Brain, event: FsmEvent, now: Instant, replies: ZoneReplies, clock: Clock)
    requires BrainNoted(b) && NotedReplies(replies)
    ensures BrainNoted(CommitResolved(b, event, now, replies, clock))
  {
    hide Quiesce, TurnSummary, TurnTrace, AdvanceBy, Starts, Stops, HeadlampPart, LedgerOf, PendingNoted;
    CommitShape(b, event, now, replies, clock);
    var hops := Quiesce(b.state, b.ctx, event, now, replies);
    TurnHeadlamp(b.state, b.ctx, event, now, replies);
    HeadlampPartNoted(b.ctx, event, now, replies);
    TurnLedger(b.trace, b.nextRecordSeq, hops);
    assert NotedLedger(RecordsOf(hops));
  }

  lemma {:induction false} DrainNoted(b: Brain, clock: Clock)
    requires BrainNoted(b)
    ensures BrainNoted(Drain(b, clock))
    decreases CompletePrefix(b.queue)
  {
    hide CommitResolved, PendingNoted, NotedReplies, LedgerOf;
    if FrontComplete(b) {
      CommitFrontProgress(b, clock);
      var e := b.queue[0];
      assert NotedReplies(e.Replies());
      CommitNoted(PopFront(b), e.Event(), e.Now(), e.Replies(), clock);
      DrainNoted(CommitFront(b, clock), clock);
    }
  }

  lemma {:induction false} ReadyNoted(b: Brain, zone: AssemblyId, turnId: u64, attempt: u32, reply: ZoneReply)
    requires BrainNoted(b) && Typed(zone, reply) && NotedReply(reply)
    ensures BrainNoted(OnZoneReady(b, zone, turnId, attempt, reply))
  {
    hide PendingNoted, NotedReply, LedgerOf;
    var i := FindWaiting(b, turnId);
    if i.Some? {
      assert NotedReplies(b.queue[i.value].Replies());
    }
  }

  lemma {:induction false} ReplyNoted(replies: ZoneReplies, zone: AssemblyId, reply: ZoneReply)
    requires NotedReplies(replies) && Typed(zone, reply) && NotedReply(reply)
    ensures NotedReplies(replies[zone := reply])
  {
  }

  lemma {:induction false} TimeoutNoted(b: Brain, zone: AssemblyId, turnId: u64, attempt: u32)
    requires BrainNoted(b)
    ensures BrainNoted(OnZoneTimeout(b, zone, turnId, attempt))
  {
    hide PendingNoted, LedgerOf, Find, NotedLedger, NotedReplies;
    var i := FindWaiting(b, turnId);
    if i.Some? {
      assert NotedReplies(b.queue[i.value].Replies());
      ReplyNoted(b.queue[i.value].Replies(), zone, SyntheticReplyFor(b.ctx, zone));
    }
  }

  lemma {:induction false} BrainNextNoted(s: System, move: Move, clock: Clock)
    requires PlantNoted(s) && Enabled(s, move)
    ensures BrainNoted(BrainNext(s, move, clock))
  {
    hide Drain, OnZoneTimeout, OnZoneReady, CommitResolved, PendingNoted, LedgerOf, TellsToWiper, TellsToHeadlamp, LiveTimers, Find;
    var b := s.brain;
    match move
    case Ingress(event, now) => DrainNoted(BeginFsmTurn(b, event, now), clock);
    case DeliverReady(m) =>
      ReadyNoted(b, m.zone, m.turnId, m.attempt, m.reply);
      DrainNoted(OnZoneReady(b, m.zone, m.turnId, m.attempt, m.reply), clock);
    case DeliverTimeout(t) =>
      TimeoutNoted(b, t.zone, t.turnId, t.attempt);
      DrainNoted(OnZoneTimeout(b, t.zone, t.turnId, t.attempt), clock);
    case DeliverSpontaneous(index, now) =>
      var m := s.spontaneous[index];
      CommitNoted(b, FrontHeadlampActuationIncomplete(m.direction, m.cause), now,
                  map[HeadlampAssembly := ZoneReply.FromHeadlamp(m.reply)], clock);
      DrainNoted(OnZoneSpontaneous(b, m.direction, m.cause, m.reply, now, clock), clock);
    case _ =>
  }

  lemma {:induction false} HeadlampNextNoted(s: System, answers: bool)
    requires PlantNoted(s) && s.headlampRead < |TellsToHeadlamp(s.brain.tells)|
    ensures PlantNoted(HeadlampNext(s, answers))
  {
    hide PendingNoted, BrainNoted, FrontHeadlamp.OnReceivingMessage;
    SelectedBy(s.brain.tells, ForHeadlamp);
    var tell := TellsToHeadlamp(s.brain.tells)[s.headlampRead];
    assert ForHeadlamp(tell);
    StepKeepsPendingNoted(s.headlamp.ctx, tell.message.headlamp, tell.now);
    hide AckTimerFits;
    MessageRearms(s.headlamp, tell.message.headlamp, tell.now);
  }

  lemma {:induction false} NextNoted(s: System, move: Move, clock: Clock)
    requires PlantNoted(s) && Enabled(s, move)
    ensures PlantNoted(Next(s, move, clock))
  {
    hide BrainNext, PendingNoted, BrainNoted, TellsToWiper, TellsToHeadlamp, LiveTimers, HeadlampNext, FrontHeadlamp.OnReceivingMessage;
    match move
    case HeadlampTakes(answers) => HeadlampNextNoted(s, answers);
    case HeadlampElapsed(index, now) =>
      StepKeepsPendingNoted(s.headlamp.ctx, FrontHeadlamp.ActuationIncomplete(s.elapsed[index], FrontHeadlamp.TimedOut), now);
      ElapsedWaitSettles(s.headlamp, s.elapsed[index], now);
    case _ => BrainNextNoted(s, move, clock);
  }

  lemma {:induction false} RunNoted(s: System, moves: seq<Move>, clock: Clock)
    requires PlantNoted(s) && ValidRun(s, moves, clock)
    ensures PlantNoted(Run(s, moves, clock))
    decreases |moves|
  {
    hide PlantNoted, Next, Enabled;
    if moves != [] {
      NextNoted(s, moves[0], clock);
      RunNoted(Next(s, moves[0], clock), moves[1..], clock);
    }
  }

  lemma {:induction false} InitialNoted()
    ensures PlantNoted(INITIAL_SYSTEM)
  {
  }

  /** In every run: mirror, twinlet and ledger note a request exactly while it is outstanding. */
  lemma {:induction false} RequestStampEverywhere(moves: seq<Move>, clock: Clock)
    requires ValidRun(INITIAL_SYSTEM, moves, clock)
    ensures var s := Run(INITIAL_SYSTEM, moves, clock);
            && (s.brain.ctx.headlamp.ackPendingSince.Some? <==> FrontHeadlamp.Requested(s.brain.ctx.headlamp.state))
            && (s.headlamp.ctx.ackPendingSince.Some? <==> FrontHeadlamp.Requested(s.headlamp.ctx.state))
            && NotedLedger(LedgerOf(s.brain.trace))
  {
    hide Next, Enabled, LedgerOf, ValidRun, Run;
    InitialNoted();
    RunNoted(INITIAL_SYSTEM, moves, clock);
  }

  /** In every run the acknowledgement timer the twinlet keeps, while it runs, runs for the direction the zone waits for. */
  lemma {:induction false} AckTimerFitsEverywhere(moves: seq<Move>, clock: Clock)
    requires ValidRun(INITIAL_SYSTEM, moves, clock)
    ensures AckTimerFits(Run(INITIAL_SYSTEM, moves, clock).headlamp)
  {
    hide Next, Enabled, BrainNoted, ValidRun, Run, AckTimerFits;
    InitialNoted();
    RunNoted(INITIAL_SYSTEM, moves, clock);
  }

  /** In every run, when the timer the twinlet keeps goes off, the wait that elapses is the one for the outstanding request. */
  lemma {:induction false} KeptTimerIsForRequest(moves: seq<Move>, clock: Clock, id: nat)
    requires ValidRun(INITIAL_SYSTEM, moves, clock)
    requires var s := Run(INITIAL_SYSTEM, moves, clock); s.headlamp.ackTimer == Some(id) && Enabled(s, FireAck(id))
    ensures var s := Run(INITIAL_SYSTEM, moves, clock);
            var next := Next(s, FireAck(id), clock);
            && |next.elapsed| == |s.elapsed| + 1 && s.elapsed <= next.elapsed
            && s.headlamp.ctx.state == (if next.elapsed[|s.elapsed|].SwitchOn? then FrontHeadlamp.OnRequested else FrontHeadlamp.OffRequested)
            && id !in next.headlamp.running
  {
    hide ValidRun, Run, LiveTimers, TellsToWiper, TellsToHeadlamp;
    AckTimerFitsEverywhere(moves, clock);
  }

  /**
   * In every run, each committed turn that had been told and that the headlamp hears holds a headlamp
   * reply, and its row shows that reply's context and, first among its actions, its outcomes.
   */
  lemma {:induction false} ToldHeadlampIsShown(moves: seq<Move>, clock: Clock, i: nat)
    requires ValidRun(INITIAL_SYSTEM, moves, clock) && Unsaturated(Run(INITIAL_SYSTEM, moves, clock).brain)
    requires var b := Run(INITIAL_SYSTEM, moves, clock).brain;
             i < |b.committed| && b.committed[i].told && HeadlampListens(b.committed[i].event)
    ensures var b := Run(INITIAL_SYSTEM, moves, clock).brain;
            var c := b.committed[i];
            && HeadlampAssembly in c.replies && c.replies[HeadlampAssembly].FromHeadlamp?
            && c.at < |b.trace| && b.trace[c.at].Row?
            && var r, reply := b.trace[c.at].record, c.replies[HeadlampAssembly].headlamp;
            && r.event == c.event && r.at == c.now && r.currentCtx.headlamp == reply.ctx
            && |reply.outcomes| <= |r.actions|
            && forall k :: 0 <= k < |reply.outcomes| ==> HeadlampAsksFor(reply.outcomes[k], r.actions[k])
  {
    hide Next, Enabled, ValidRun, Run, PendingNoted, Ordered, EntriesOk, CountdownOk, LedgerOf, ModeLaw, SensorLaw, WiperLaw,
         ModeOrders, CutOk, RowsFollow, AtLastRow;
    InitialNoted();
    RunNoted(INITIAL_SYSTEM, moves, clock);
    InitialOk();
    RunOk(INITIAL_SYSTEM, moves, clock);
    CommittedTurnsAreShown(moves, clock);
    var b := Run(INITIAL_SYSTEM, moves, clock).brain;
    var c := b.committed[i];
    assert Shown(c, b.trace) && NotedReplies(c.replies);
  }
}
