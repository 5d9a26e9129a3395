/**
 * The row laws over whole runs: every ledger row follows from the cut before it, every committed turn's
 * row carries its arrival stamp and shows the replies of its slot, and detector rows stand where they must.
 */
module LedgerLaws {
  import opened VehiclePhysics
  import opened Fsm
  import opened Zones
  import opened TwinTurn
  import opened TurnBarriers
  import opened BrainModel
  import opened Turns
  import opened Commits
  import opened BrainInvariants
  import opened BrainSafety
  import opened Plant
  import opened Reachability
  import opened RowLaws
  import opened TurnOrder
  import FrontHeadlamp

  /** The cut before the `i`-th row. */
  function CutAt(ledger: seq<TransitionRecord>, i: nat): VehicleContext
    requires i <= |ledger|
  {
    if i == 0 then DEFAULT_CONTEXT else ledger[i - 1].currentCtx
  }

  /** A row follows from the cut and the mode before it, and is the detector's exactly after a dark drive, with the same stamp. */
  ghost predicate RowFollows(ledger: seq<TransitionRecord>, i: nat)
    requires i < |ledger|
  {
    var r := ledger[i];
    && r.oldState == ModeBefore(FsmState.Off, ledger, i)
    && (exists replies :: RowLaw(CutAt(ledger, i), r, replies))
    && (r.event.Internal? <==> i > 0 && !ledger[i - 1].event.Internal? && DarkDriving(ledger[i - 1].nextState, ledger[i - 1].currentCtx))
    && (r.event.Internal? ==> r.at == ledger[i - 1].at)
  }

  ghost predicate RowsFollow(ledger: seq<TransitionRecord>) {
    forall i: nat :: i < |ledger| ==> RowFollows(ledger, i)
  }

  /** The brain stands at the exit of its last row, and no dark drive is left undetected. */
  ghost predicate AtLastRow(b: Brain) {
    var ledger := LedgerOf(b.trace);
    && b.ctx == CutAt(ledger, |ledger|)
    && b.state == ModeBefore(FsmState.Off, ledger, |ledger|)
    && (ledger != [] && DarkDriving(ledger[|ledger| - 1].nextState, ledger[|ledger| - 1].currentCtx) ==> ledger[|ledger| - 1].event.Internal?)
  }

  /** A committed turn's row: its event, its arrival stamp, and what the replies of its slot demand. */
  ghost predicate Shown(c: Commit, trace: seq<Effect>) {
    && c.at < |trace| && trace[c.at].Row?
    && var r := trace[c.at].record;
    && r.event == c.event && r.at == c.now
    && var before := LedgerOf(trace[..c.at]);
    RowLaw(CutAt(before, |before|), r, c.replies)
  }

  ghost predicate CommitsShown(committed: seq<Commit>, trace: seq<Effect>) {
    forall i :: 0 <= i < |committed| ==> Shown(committed[i], trace)
  }

  /** Detector events are never queued. */
  ghost predicate NoneInternal(queue: seq<Entry>) {
    forall i :: 0 <= i < |queue| ==> !queue[i].Event().Internal?
  }

  ghost predicate LedgerShown(b: Brain) {
    && AtLastRow(b)
    && RowsFollow(LedgerOf(b.trace))
    && CommitsShown(b.committed, b.trace)
    && NoneInternal(b.queue)
  }

  // ── one turn ─────────────────────────────────────────────────────────────

  lemma {:induction false} FirstRowFollows(ledger: seq<TransitionRecord>, more: seq<TransitionRecord>, replies: ZoneReplies)
    requires more != [] && !more[0].event.Internal?
    requires RowLaw(CutAt(ledger, |ledger|), more[0], replies) && more[0].oldState == ModeBefore(FsmState.Off, ledger, |ledger|)
    requires ledger != [] && DarkDriving(ledger[|ledger| - 1].nextState, ledger[|ledger| - 1].currentCtx) ==> ledger[|ledger| - 1].event.Internal?
    ensures RowFollows(ledger + more, |ledger|)
  {
    hide RowLaw, DarkDriving;
    var all, n := ledger + more, |ledger|;
    assert all[n] == more[0] && CutAt(all, n) == CutAt(ledger, n) && ModeBefore(FsmState.Off, all, n) == ModeBefore(FsmState.Off, ledger, n);
    assert RowLaw(CutAt(all, n), all[n], replies);
  }

  lemma {:induction false} SecondRowFollows(ledger: seq<TransitionRecord>, more: seq<TransitionRecord>)
    requires |more| == 2 && !more[0].event.Internal? && more[1].event.Internal?
    requires DarkDriving(more[0].nextState, more[0].currentCtx) && more[1].at == more[0].at && more[1].oldState == more[0].nextState
    requires RowLaw(more[0].currentCtx, more[1], map[])
    ensures RowFollows(ledger + more, |ledger| + 1)
  {
    hide RowLaw, DarkDriving;
    var all, n := ledger + more, |ledger| + 1;
    assert all[n] == more[1] && all[n - 1] == more[0];
    assert RowLaw(CutAt(all, n), all[n], map[]);
  }

  lemma {:induction false} EarlierRowFollows(ledger: seq<TransitionRecord>, more: seq<TransitionRecord>, i: nat)
    requires i < |ledger| && RowFollows(ledger, i)
    ensures RowFollows(ledger + more, i)
  {
    hide RowLaw, DarkDriving;
    var all := ledger + more;
    assert all[i] == ledger[i] && (i > 0 ==> all[i - 1] == ledger[i - 1]);
    var replies :| RowLaw(CutAt(ledger, i), ledger[i], replies);
    assert RowLaw(CutAt(all, i), all[i], replies);
  }

  /** The rows of a turn follow the rows before it. */
  lemma {:induction false} TurnFollows(ledger: seq<TransitionRecord>, event: FsmEvent, now: Instant, replies: ZoneReplies, hops: seq<Hop>)
    requires RowsFollow(ledger) && !event.Internal?
    requires TurnShown(ModeBefore(FsmState.Off, ledger, |ledger|), CutAt(ledger, |ledger|), event, now, replies, hops)
    requires ledger != [] && DarkDriving(ledger[|ledger| - 1].nextState, ledger[|ledger| - 1].currentCtx) ==> ledger[|ledger| - 1].event.Internal?
    ensures RowsFollow(ledger + RecordsOf(hops))
  {
    hide RowLaw, DarkDriving, RowFollows;
    var more := RecordsOf(hops);
    FirstRowFollows(ledger, more, replies);
    if |more| == 2 {
      SecondRowFollows(ledger, more);
    }
    forall i: nat | i < |ledger + more| ensures RowFollows(ledger + more, i) {
      if i < |ledger| {
        EarlierRowFollows(ledger, more, i);
      }
    }
  }

  lemma {:induction false} StillShown(committed: seq<Commit>, trace: seq<Effect>, more: seq<Effect>)
    requires CommitsShown(committed, trace)
    ensures CommitsShown(committed, trace + more)
  {
    hide RowLaw, LedgerOf;
    forall i | 0 <= i < |committed| ensures Shown(committed[i], trace + more) {
      assert (trace + more)[..committed[i].at] == trace[..committed[i].at];
    }
  }

  /** What a commit adds to the ledger, and where it leaves the brain. */
  lemma {:induction false} CommitRows(b: Brain, event: FsmEvent, now: Instant, replies: ZoneReplies, clock: Clock)
    ensures var hops := Quiesce(b.state, b.ctx, event, now, replies);
            var c := CommitResolved(b, event, now, replies, clock);
            && TurnShown(b.state, b.ctx, event, now, replies, hops)
            && c.trace == b.trace + TurnTrace(b.nextRecordSeq, hops)
            && LedgerOf(c.trace) == LedgerOf(b.trace) + RecordsOf(hops)
            && c.state == Final(hops).nextState && c.ctx == Final(hops).ctx && c.committed == b.committed
            && |c.trace| > |b.trace| && c.trace[|b.trace|] == Row(b.nextRecordSeq, hops[0].result.record)
            && b.queue <= c.queue && forall i :: |b.queue| <= i < |c.queue| ==> c.queue[i].Event().AssemblyZoneReady?
  {
    hide Quiesce, TurnSummary, TurnTrace, AdvanceBy, Starts, Stops, HopShown, LedgerOf;
    CommitShape(b, event, now, replies, clock);
    TurnObeys(b.state, b.ctx, event, now, replies);
    var hops := Quiesce(b.state, b.ctx, event, now, replies);
    TurnLedger(b.trace, b.nextRecordSeq, hops);
    FirstEffect(b.nextRecordSeq, hops);
  }

  lemma {:induction false} FirstEffect(first: u64, hops: seq<Hop>)
    requires 1 <= |hops| <= 2
    ensures TurnTrace(first, hops) != [] && TurnTrace(first, hops)[0] == Row(first, hops[0].result.record)
  {
    RowsOfTurn(first, hops);
  }

  lemma {:induction false} CommitLeavesBrain(b: Brain, event: FsmEvent, now: Instant, replies: ZoneReplies, clock: Clock)
    requires AtLastRow(b) && RowsFollow(LedgerOf(b.trace)) && NoneInternal(b.queue) && !event.Internal?
    ensures var c := CommitResolved(b, event, now, replies, clock);
            AtLastRow(c) && RowsFollow(LedgerOf(c.trace)) && NoneInternal(c.queue)
  {
    hide Quiesce, RowLaw, CommitResolved, RowFollows, RowsFollow, LedgerOf, TurnTrace;
    CommitRows(b, event, now, replies, clock);
    var hops := Quiesce(b.state, b.ctx, event, now, replies);
    TurnFollows(LedgerOf(b.trace), event, now, replies, hops);
    DetectedDrives(hops, b.state, b.ctx, event, now, replies);
    var c := CommitResolved(b, event, now, replies, clock);
    var ledger := LedgerOf(c.trace);
    assert ledger[|ledger| - 1] == RecordsOf(hops)[|hops| - 1] == Final(hops).record;
    assert forall i :: 0 <= i < |b.queue| ==> c.queue[i] == b.queue[i];
  }

  lemma {:induction false} DetectedDrives(hops: seq<Hop>, state: FsmState, ctx: VehicleContext, event: FsmEvent, now: Instant, replies: ZoneReplies)
    requires TurnShown(state, ctx, event, now, replies, hops)
    ensures var last := Final(hops);
            && last.record.nextState == last.nextState && last.record.currentCtx == last.ctx
            && (DarkDriving(last.nextState, last.ctx) ==> last.record.event.Internal?)
  {
    hide RowLaw, DarkDriving;
  }

  /** Committing the front: its row carries its stamp and shows its slot's replies. */
  lemma {:induction false} CommitFrontShown(b: Brain, clock: Clock)
    requires FrontComplete(b) && LedgerShown(b)
    ensures LedgerShown(CommitFront(b, clock))
  {
    hide CommitResolved, RowLaw, LedgerOf, RowsFollow, TurnTrace, Quiesce, AtLastRow;
    var e, p, c := b.queue[0], PopFront(b), CommitFront(b, clock);
    assert AtLastRow(p) by { SameLastRow(b, p); }
    assert NoneInternal(p.queue) by {
      assert forall i :: 0 <= i < |p.queue| ==> p.queue[i] == b.queue[i + 1];
    }
    CommitLeavesBrain(p, e.Event(), e.Now(), e.Replies(), clock);
    CommitRows(p, e.Event(), e.Now(), e.Replies(), clock);
    var hops := Quiesce(b.state, b.ctx, e.Event(), e.Now(), e.Replies());
    StillShown(b.committed, b.trace, TurnTrace(b.nextRecordSeq, hops));
    assert c.trace[..|b.trace|] == b.trace;
    assert b.ctx == CutAt(LedgerOf(b.trace), |LedgerOf(b.trace)|) by { CutOfBrain(b); }
    assert Shown(CommitOf(e, |b.trace|), c.trace);
  }

  lemma {:induction false} CutOfBrain(b: Brain)
    requires AtLastRow(b)
    ensures b.ctx == CutAt(LedgerOf(b.trace), |LedgerOf(b.trace)|)
  {
  }

  lemma {:induction false} SameLastRow(b: Brain, c: Brain)
    requires AtLastRow(b) && c.state == b.state && c.ctx == b.ctx && c.trace == b.trace
    ensures AtLastRow(c)
  {
  }

  // ── every step, every run ────────────────────────────────────────────────

  lemma {:induction false} DrainShown(b: Brain, clock: Clock)
    requires LedgerShown(b)
    ensures LedgerShown(Drain(b, clock))
    decreases CompletePrefix(b.queue)
  {
    hide CommitFront, LedgerShown;
    if FrontComplete(b) {
      CommitFrontProgress(b, clock);
      CommitFrontShown(b, clock);
      DrainShown(CommitFront(b, clock), clock);
    }
  }

  lemma {:induction false} HandlersShown(b: Brain)
    requires LedgerShown(b)
    ensures forall event: FsmEvent, now :: !event.Internal? ==> LedgerShown(BeginFsmTurn(b, event, now))
    ensures forall zone, turnId, attempt, reply :: LedgerShown(OnZoneReady(b, zone, turnId, attempt, reply))
    ensures forall zone, turnId, attempt :: LedgerShown(OnZoneTimeout(b, zone, turnId, attempt))
  {
    hide AtLastRow, RowsFollow, CommitsShown, Find, SyntheticReplyFor, LedgerOf;
    forall c: Brain | c.state == b.state && c.ctx == b.ctx && c.trace == b.trace ensures AtLastRow(c) {
      SameLastRow(b, c);
    }
  }

  lemma {:induction false} SpontaneousShown(b: Brain, direction: SwitchDirection, cause: IncompleteCause,
                                            reply: FrontHeadlamp.HeadlampZoneReply, now: Instant, clock: Clock)
    requires LedgerShown(b)
    ensures LedgerShown(OnZoneSpontaneous(b, direction, cause, reply, now, clock))
    ensures var c := OnZoneSpontaneous(b, direction, cause, reply, now, clock);
            && |c.trace| > |b.trace| && c.trace[|b.trace|].Row?
            && var r := c.trace[|b.trace|].record;
            && r.event == FrontHeadlampActuationIncomplete(direction, cause) && r.at == now
            && r.currentCtx.headlamp == reply.ctx
            && RowLaw(b.ctx, r, map[HeadlampAssembly := FromHeadlamp(reply)])
  {
    hide CommitResolved, LedgerOf, RowsFollow, TurnTrace, Quiesce, AtLastRow, ModeLaw, SensorLaw, WiperLaw;
    var event := FrontHeadlampActuationIncomplete(direction, cause);
    var replies := map[HeadlampAssembly := ZoneReply.FromHeadlamp(reply)];
    CommitLeavesBrain(b, event, now, replies, clock);
    CommitRows(b, event, now, replies, clock);
    StillShown(b.committed, b.trace, TurnTrace(b.nextRecordSeq, Quiesce(b.state, b.ctx, event, now, replies)));
  }

  lemma {:induction false} NextShown(s: System, move: Move, clock: Clock)
    requires LedgerShown(s.brain) && Enabled(s, move)
    ensures LedgerShown(Next(s, move, clock).brain)
  {
    hide Drain, BeginFsmTurn, OnZoneTimeout, OnZoneReady, OnZoneSpontaneous, WiperNext, HeadlampNext, LedgerShown, LiveTimers;
    HandlersShown(s.brain);
    match move
    case Ingress(event, now) => DrainShown(BeginFsmTurn(s.brain, event, now), clock);
    case DeliverReady(m) => DrainShown(OnZoneReady(s.brain, m.zone, m.turnId, m.attempt, m.reply), clock);
    case DeliverTimeout(t) => DrainShown(OnZoneTimeout(s.brain, t.zone, t.turnId, t.attempt), clock);
    case DeliverSpontaneous(index, now) =>
      var m := s.spontaneous[index];
      SpontaneousShown(s.brain, m.direction, m.cause, m.reply, now, clock);
      DrainShown(OnZoneSpontaneous(s.brain, m.direction, m.cause, m.reply, now, clock), clock);
    case WiperTakes(_) => TakesKeepBrain(s, move, clock);
    case HeadlampTakes(_) => TakesKeepBrain(s, move, clock);
    case _ =>
  }

  lemma {:induction false} RunShown(s: System, moves: seq<Move>, clock: Clock)
    requires LedgerShown(s.brain) && ValidRun(s, moves, clock)
    ensures LedgerShown(Run(s, moves, clock).brain)
    decreases |moves|
  {
    hide LedgerShown, Next, Enabled;
    if moves != [] {
      NextShown(s, moves[0], clock);
      RunShown(Next(s, moves[0], clock), moves[1..], clock);
    }
  }

  lemma {:induction false} InitialShown()
    ensures LedgerShown(INITIAL_SYSTEM.brain)
  {
  }

  // ── what a reader of the ledger may rely on ──────────────────────────────

  /**
   * Every row of every run: its mode change is the table's, its cut follows from the cut before it, its
   * actions are the zones' and the table's, and detector rows stand exactly behind dark drives.
   */
  lemma {:induction false} EveryRowFollows(moves: seq<Move>, clock: Clock)
    requires ValidRun(INITIAL_SYSTEM, moves, clock)
    ensures RowsFollow(LedgerOf(Run(INITIAL_SYSTEM, moves, clock).brain.trace))
  {
    hide RowsFollow, Run, ValidRun, LedgerOf;
    InitialShown();
    RunShown(INITIAL_SYSTEM, moves, clock);
  }

  /** The running table over the ledger, in fields and numbers. */
  lemma {:induction false} RunningTable(moves: seq<Move>, clock: Clock, n: nat)
    requires ValidRun(INITIAL_SYSTEM, moves, clock)
    requires n < |LedgerOf(Run(INITIAL_SYSTEM, moves, clock).brain.trace)|
    ensures var r := LedgerOf(Run(INITIAL_SYSTEM, moves, clock).brain.trace)[n];
            var speed := r.currentCtx.powertrain.speedKph;
            && (r.oldState.Idle? ==> (r.nextState.Driving? <==> r.event.UpdateRpm? && r.event.rpm > 1000))
            && (r.oldState.Driving? ==>
                  && (r.nextState.DrivingDangerously? <==> r.event.Internal?)
                  && (r.event.PowerOff? ==> r.nextState.Driving?)
                  && (!r.event.Internal? && !r.event.PowerOff? ==>
                        && (r.nextState == ExtremeOperationWarning(r.at) <==> speed > 160)
                        && (r.nextState.Idle? <==> speed == 0)
                        && (r.nextState.Driving? <==> 0 < speed <= 160)))
            && (r.oldState.DrivingDangerously? && !r.event.PowerOff? ==>
                  && (r.nextState.Idle? <==> speed == 0)
                  && (r.nextState.Driving? <==> speed > 0 && (r.currentCtx.headlamp.state.On? || r.currentCtx.ambientLux > 840))
                  && (r.nextState.Idle? || r.nextState.Driving? || r.nextState.DrivingDangerously?))
            && (r.oldState.ExtremeOperationWarning? ==>
                  && (r.nextState != r.oldState <==> r.event.TimerTick? && r.at - r.oldState.beganAt >= 5_000_000_000 && speed <= 160)
                  && (r.nextState != r.oldState ==> if speed == 0 then r.nextState.Idle? else r.nextState.Driving?))
  {
    hide RowsFollow, Run, ValidRun, LedgerOf, HeadlampLaw, WiperLaw, SensorLaw;
    EveryRowFollows(moves, clock);
    RowMode(LedgerOf(Run(INITIAL_SYSTEM, moves, clock).brain.trace), n);
  }

  lemma {:induction false} RowMode(ledger: seq<TransitionRecord>, n: nat)
    requires RowsFollow(ledger) && n < |ledger|
    ensures ModeLaw(ledger[n])
  {
    hide ModeLaw, SensorLaw, HeadlampLaw, WiperLaw;
    assert RowFollows(ledger, n);
  }

  /** Every committed turn of every run: its row, its arrival stamp, the replies of its slot. */
  lemma {:induction false} CommittedTurnsAreShown(moves: seq<Move>, clock: Clock)
    requires ValidRun(INITIAL_SYSTEM, moves, clock)
    ensures var b := Run(INITIAL_SYSTEM, moves, clock).brain; CommitsShown(b.committed, b.trace)
  {
    hide CommitsShown, RowsFollow, AtLastRow, Run, ValidRun, LedgerOf;
    InitialShown();
    RunShown(INITIAL_SYSTEM, moves, clock);
  }

  /**
   * An event that arrives with a stamp is committed with it: once its turn is committed, however long
   * after, its row carries the event and the stamp it arrived with.
   */
  lemma {:induction false} ArrivalStampIsCommitted(past: seq<Move>, event: FsmEvent, now: Instant, moves: seq<Move>, clock: Clock)
    requires ValidRun(INITIAL_SYSTEM, past, clock) && External(event)
    requires ValidRun(Next(Run(INITIAL_SYSTEM, past, clock), Ingress(event, now), clock), moves, clock)
    requires var s := Run(INITIAL_SYSTEM, past, clock);
             NextTurn(s.brain) < |Run(Next(s, Ingress(event, now), clock), moves, clock).brain.committed|
    ensures var s := Run(INITIAL_SYSTEM, past, clock);
            var end := Run(Next(s, Ingress(event, now), clock), moves, clock).brain;
            var at := end.committed[NextTurn(s.brain)].at;
            && at < |end.trace| && end.trace[at].Row?
            && end.trace[at].record.event == event && end.trace[at].record.at == now
  {
    var s := Run(INITIAL_SYSTEM, past, clock);
    var arrived := Next(s, Ingress(event, now), clock);
    hide Run, ValidRun, LedgerOf, RowLaw, AtLastRow, RowsFollow, BrainNext;
    InitialShown();
    RunShown(INITIAL_SYSTEM, past, clock);
    NextShown(s, Ingress(event, now), clock);
    RunShown(arrived, moves, clock);
    ArrivalExtends(s, event, now, moves, clock);
    var end := Run(arrived, moves, clock).brain;
    assert TurnsOf(end)[NextTurn(s.brain)] == Turn(end.committed[NextTurn(s.brain)].event, end.committed[NextTurn(s.brain)].now);
    assert Shown(end.committed[NextTurn(s.brain)], end.trace);
  }

  /** A headlamp tell-back is what one turn makes of the headlamp: its context, and its outcomes one by one. */
  lemma {:induction false} HeadlampTellBackIsMerged(ctx: VehicleContext, event: FsmEvent, state: FsmState, now: Instant, replies: ZoneReplies)
    requires HeadlampListens(event) && HeadlampAssembly in replies && replies[HeadlampAssembly].FromHeadlamp?
    ensures var z, reply := ZoneTurn(ctx, event, state, now, replies), replies[HeadlampAssembly].headlamp;
            && z.ctx.headlamp == reply.ctx
            && |z.actions| == |reply.outcomes|
            && forall i :: 0 <= i < |z.actions| ==> HeadlampAsksFor(reply.outcomes[i], z.actions[i])
  {
    hide SensorLaw, HeadlampPart, FrontHeadlamp.OnReceivingMessage;
    ZonesObey(ctx, event, state, now, replies);
  }

  /** The row of a front slot with a headlamp reply in it shows that reply, whatever the mirror was. */
  lemma {:induction false} FrontReplyIsShown(b: Brain, clock: Clock)
    requires FrontComplete(b) && b.queue[0].Waiting? && HeadlampListens(b.queue[0].barrier.event)
    requires HeadlampAssembly in b.queue[0].barrier.replies && b.queue[0].barrier.replies[HeadlampAssembly].FromHeadlamp?
    ensures var slot, c := b.queue[0].barrier, CommitFront(b, clock);
            && |c.trace| > |b.trace| && c.trace[|b.trace|].Row?
            && var r := c.trace[|b.trace|].record;
            && r.event == slot.event && r.at == slot.now
            && r.currentCtx.headlamp == slot.replies[HeadlampAssembly].headlamp.ctx
            && |slot.replies[HeadlampAssembly].headlamp.outcomes| <= |r.actions|
            && (forall i :: 0 <= i < |slot.replies[HeadlampAssembly].headlamp.outcomes| ==>
                  HeadlampAsksFor(slot.replies[HeadlampAssembly].headlamp.outcomes[i], r.actions[i]))
  {
    hide CommitResolved, LedgerOf, TurnTrace, Quiesce, ModeLaw, SensorLaw, WiperLaw, ModeOrders;
    var e := b.queue[0];
    CommitRows(PopFront(b), e.Event(), e.Now(), e.Replies(), clock);
  }
}
