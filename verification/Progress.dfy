/**
 * Progress: a queue with an uncommitted turn is never stuck, and once no event arrives any more
 * every run is finite and ends with an empty queue, whether or not the twinlets answer.
 */
module Progress {
  import opened VehiclePhysics
  import opened Fsm
  import opened Zones
  import opened TwinTurn
  import opened TurnBarriers
  import opened BrainModel
  import opened Turns
  import opened Commits
  import opened BrainInvariants
  import opened HandlerSafety
  import opened Twinlets
  import opened Plant
  import opened Deadlines
  import opened Reachability
  import FrontHeadlamp

  predicate IsPower(event: FsmEvent) { event.PowerOn? || event.PowerOff? }

  const RETRY_COST: nat := 8
  const TELL_COST: nat := 5
  const LIVE_COST: nat := 2
  const POWER_COST: nat := 60

  /** What a queued entry can still cause: retries, or a whole pair of lifecycle slots. */
  function EntryWeight(e: Entry): nat {
    match e
    case Waiting(s) =>
      if EventZone(s.event) in s.waits then RETRY_COST * s.waits[EventZone(s.event)].retriesRemaining else 0
    case Passthrough(_, event, _) => if IsPower(event) then POWER_COST else 0
  }

  function QueueWeight(queue: seq<Entry>): nat {
    if queue == [] then 0 else EntryWeight(queue[0]) + QueueWeight(queue[1..])
  }

  function BrainWeight(b: Brain, fired: set<Timer>): nat {
    QueueWeight(b.queue) + TELL_COST * |b.tells| + LIVE_COST * |ArmedBy(b.tells) - b.aborted - fired|
  }

  lemma {:induction false} WeightConcat(a: seq<Entry>, b: seq<Entry>)
    ensures QueueWeight(a + b) == QueueWeight(a) + QueueWeight(b)
  {
    if a == [] {
      assert a + b == b;
    } else {
      assert (a + b)[0] == a[0] && (a + b)[1..] == a[1..] + b;
      WeightConcat(a[1..], b);
    }
  }

  lemma {:induction false} WeightUpdate(queue: seq<Entry>, i: nat, e: Entry)
    requires i < |queue|
    ensures QueueWeight(queue[i := e]) == QueueWeight(queue) - EntryWeight(queue[i]) + EntryWeight(e)
  {
    assert queue == queue[..i] + ([queue[i]] + queue[i + 1..]);
    assert queue[i := e] == queue[..i] + ([e] + queue[i + 1..]);
    WeightConcat(queue[..i], [queue[i]] + queue[i + 1..]);
    WeightConcat(queue[..i], [e] + queue[i + 1..]);
  }

  lemma {:induction false} SubsetSize<T>(a: set<T>, b: set<T>)
    requires a <= b
    ensures |a| <= |b|
  {
    assert b == a + (b - a);
  }

  /** One more tell adds at most one live deadline. */
  lemma {:induction false} LiveAfterTell(tells: seq<Tell>, tell: Tell, aborted: set<Timer>, fired: set<Timer>)
    ensures |ArmedBy(tells + [tell]) - aborted - fired| <= |ArmedBy(tells) - aborted - fired| + 1
  {
    TellAppended(tells, tell);
    var before, after := ArmedBy(tells) - aborted - fired, ArmedBy(tells + [tell]) - aborted - fired;
    SubsetSize(after, before + {TimerOf(tell)});
  }

  lemma {:induction false} PushWaitingWeight(b: Brain, event: FsmEvent, zone: AssemblyId, message: ZoneMessage, now: Instant, fired: set<Timer>)
    requires zone == EventZone(event)
    ensures BrainWeight(PushWaiting(b, event, zone, message, now), fired) <= BrainWeight(b, fired) + 23
  {
    var e := Waiting(NewBarrier(b.nextTurnId, event, now, zone, message));
    WeightConcat(b.queue, [e]);
    assert QueueWeight([e]) == EntryWeight(e) + QueueWeight([]) == 16;
    LiveAfterTell(b.tells, Tell(zone, b.nextTurnId, 0, message, now), b.aborted, fired);
  }

  lemma {:induction false} PushBothWeight(b: Brain, starting: bool, now: Instant, fired: set<Timer>)
    ensures BrainWeight(PushBoth(b, starting, now), fired) <= BrainWeight(b, fired) + 46
  {
    hide BrainWeight;
    var h, w := AssemblyZoneReady(HeadlampAssembly), AssemblyZoneReady(WiperAssembly);
    var one := PushWaiting(b, h, HeadlampAssembly, LifecycleMessage(HeadlampAssembly, starting), now);
    PushWaitingWeight(b, h, HeadlampAssembly, LifecycleMessage(HeadlampAssembly, starting), now, fired);
    PushWaitingWeight(one, w, WiperAssembly, LifecycleMessage(WiperAssembly, starting), now, fired);
  }

  lemma {:induction false} CommitWeight(b: Brain, event: FsmEvent, now: Instant, replies: ZoneReplies, clock: Clock, fired: set<Timer>)
    ensures BrainWeight(CommitResolved(b, event, now, replies, clock), fired)
            <= BrainWeight(b, fired) + (if IsPower(event) then 46 else 0)
  {
    hide Quiesce, TurnSummary, TurnTrace, PushBoth, AdvanceBy;
    CommitShape(b, event, now, replies, clock);
    var done := Committed(b, Quiesce(b.state, b.ctx, event, now, replies));
    assert BrainWeight(done, fired) == BrainWeight(b, fired);
    PushBothWeight(done, true, clock(done.nextTurnId), fired);
    PushBothWeight(done, false, clock(done.nextTurnId), fired);
    hide BrainWeight;
  }

  lemma {:induction false} DrainWeight(b: Brain, clock: Clock, fired: set<Timer>)
    requires QueueOk(b) && Drain(b, clock).nextTurnId < U64_MAX
    ensures BrainWeight(Drain(b, clock), fired) <= BrainWeight(b, fired)
    decreases CompletePrefix(b.queue)
  {
    hide CommitResolved, HistoryOk, CountdownOk, Ordered, ArmedBy;
    if FrontComplete(b) {
      CommitFrontProgress(b, clock);
      DrainGrows(CommitFront(b, clock), clock);
      CommitFrontKeepsQueue(b, clock);
      var e := b.queue[0];
      CommitWeight(PopFront(b), e.Event(), e.Now(), e.Replies(), clock, fired);
      PowerEntryWeight(e) by { assert EntryOk(b.queue[0]); }
      DrainWeight(CommitFront(b, clock), clock, fired);
    }
  }

  /** Power events never wait for a zone. */
  lemma {:induction false} PowerEntryWeight(e: Entry)
    requires EntryOk(e)
    ensures IsPower(e.Event()) ==> EntryWeight(e) == POWER_COST
  {
  }

  // ── the measure ──────────────────────────────────────────────────────────

  /** No twinlet has taken more tells than were sent to it. */
  ghost predicate ReadsOk(s: System) {
    s.wiperRead <= |TellsToWiper(s.brain.tells)| && s.headlampRead <= |TellsToHeadlamp(s.brain.tells)|
  }

  lemma {:induction false} EveryTellIsRouted(tells: seq<Tell>)
    ensures |TellsToWiper(tells)| + |TellsToHeadlamp(tells)| == |tells|
  {
    if tells != [] {
      EveryTellIsRouted(tells[1..]);
    }
  }

  /** Everything that can still happen without a new event, weighted so that each step uses some of it up. */
  ghost function Measure(s: System): int {
    BrainWeight(s.brain, s.fired) - TELL_COST * (s.wiperRead + s.headlampRead)
    + |s.timeouts| + |s.ready| + 3 * |s.headlamp.running| + 2 * |s.elapsed| + |s.spontaneous|
  }

  lemma {:induction false} MeasureNonNegative(s: System)
    requires ReadsOk(s)
    ensures Measure(s) >= 0
  {
    EveryTellIsRouted(s.brain.tells);
  }

  lemma {:induction false} ReplyAtWeight(b: Brain, i: nat, zone: AssemblyId, reply: ZoneReply, fired: set<Timer>)
    requires i < |b.queue| && b.queue[i].Waiting?
    ensures BrainWeight(ReplyAt(b, i, zone, reply), fired) <= BrainWeight(b, fired)
  {
    var slot := b.queue[i].barrier;
    WeightUpdate(b.queue, i, Waiting(slot.ActOnZoneReply(zone, reply)));
    SubsetSize(ArmedBy(b.tells) - (b.aborted + slot.AbortedBy(zone)) - fired, ArmedBy(b.tells) - b.aborted - fired);
  }

  lemma {:induction false} ReadyWeight(b: Brain, zone: AssemblyId, turnId: u64, attempt: u32, reply: ZoneReply, fired: set<Timer>)
    ensures BrainWeight(OnZoneReady(b, zone, turnId, attempt, reply), fired) <= BrainWeight(b, fired)
  {
    hide BrainWeight, ReplyAt;
    var i := FindWaiting(b, turnId);
    if i.Some? {
      ReplyAtWeight(b, i.value, zone, reply, fired);
    }
  }

  /** A retry spends more budget than the tell and the deadline it sends out are worth. */
  lemma {:induction false} RetryWeight(b: Brain, i: nat, zone: AssemblyId, attempt: u32, fired: set<Timer>)
    requires i < |b.queue| && b.queue[i].Waiting? && SlotOk(b.queue[i].barrier)
    requires zone == EventZone(b.queue[i].barrier.event) && b.queue[i].barrier.Retries(zone, attempt)
    ensures BrainWeight(RetryAt(b, i, zone, attempt), fired) <= BrainWeight(b, fired) - 1
  {
    hide ArmedBy;
    var slot := b.queue[i].barrier;
    var next := NextAttempt(attempt);
    var stored := slot.ActOnZoneTimeout(zone, attempt).StoreRetryTimer(zone, Timer(zone, slot.turnId, next));
    var tell := Tell(zone, slot.turnId, next, slot.messages[zone], slot.now);
    assert EntryWeight(Waiting(stored)) == EntryWeight(Waiting(slot)) - RETRY_COST;
    WeightUpdate(b.queue, i, Waiting(stored));
    LiveAfterTell(b.tells, tell, b.aborted, fired);
    assert RetryAt(b, i, zone, attempt) == b.(queue := b.queue[i := Waiting(stored)], tells := b.tells + [tell]);
  }

  lemma {:induction false} GiveUpWeight(b: Brain, i: nat, zone: AssemblyId, attempt: u32, fired: set<Timer>)
    requires i < |b.queue| && b.queue[i].Waiting? && !b.queue[i].barrier.Retries(zone, attempt)
    ensures BrainWeight(GiveUpAt(b, i, zone, attempt), fired) <= BrainWeight(b, fired)
  {
    hide ArmedBy;
    var slot := b.queue[i].barrier;
    GiveUpShape(b, i, zone, attempt);
    WeightUpdate(b.queue, i, Waiting(slot.ActOnZoneTimeout(zone, attempt).ActOnZoneReply(zone, SyntheticReplyFor(b.ctx, zone))));
  }

  lemma {:induction false} TimeoutWeight(b: Brain, timer: Timer, fired: set<Timer>, timeouts: set<Timer>)
    requires DeadlinesOk(b, fired, timeouts) && timer in timeouts
    ensures BrainWeight(OnZoneTimeout(b, timer.zone, timer.turnId, timer.attempt), fired) <= BrainWeight(b, fired)
  {
    hide DeadlinesOk, RetryAt, GiveUpAt, BrainWeight, SlotOk;
    var i := FindWaiting(b, timer.turnId);
    if i.Some? {
      TimeoutIsCurrent(b, i.value, timer, fired, timeouts);
      if b.queue[i.value].barrier.Retries(timer.zone, timer.attempt) {
        RetryWeight(b, i.value, timer.zone, timer.attempt, fired);
      } else {
        GiveUpWeight(b, i.value, timer.zone, timer.attempt, fired);
      }
    }
  }

  // ── tells are only ever appended ─────────────────────────────────────────

  lemma {:induction false} CommitTells(b: Brain, event: FsmEvent, now: Instant, replies: ZoneReplies, clock: Clock)
    ensures b.tells <= CommitResolved(b, event, now, replies, clock).tells
  {
    hide Quiesce, TurnSummary, TurnTrace, AdvanceBy, Starts, Stops;
    CommitShape(b, event, now, replies, clock);
  }

  lemma {:induction false} DrainTells(b: Brain, clock: Clock)
    ensures b.tells <= Drain(b, clock).tells
    decreases CompletePrefix(b.queue)
  {
    hide CommitResolved;
    if FrontComplete(b) {
      CommitFrontProgress(b, clock);
      var e := b.queue[0];
      CommitTells(PopFront(b), e.Event(), e.Now(), e.Replies(), clock);
      DrainTells(CommitFront(b, clock), clock);
    }
  }

  lemma {:induction false} HandlerTells(b: Brain)
    ensures forall event, now :: b.tells <= BeginFsmTurn(b, event, now).tells
    ensures forall zone, turnId, attempt, reply :: b.tells <= OnZoneReady(b, zone, turnId, attempt, reply).tells
    ensures forall zone, turnId, attempt :: b.tells <= OnZoneTimeout(b, zone, turnId, attempt).tells
  {
  }

  lemma {:induction false} NextTells(s: System, move: Move, clock: Clock)
    requires Enabled(s, move)
    ensures s.brain.tells <= BrainNext(s, move, clock).tells
  {
    hide Drain, BeginFsmTurn, OnZoneTimeout, OnZoneReady, CommitResolved;
    HandlerTells(s.brain);
    match move
    case Ingress(event, now) => DrainTells(BeginFsmTurn(s.brain, event, now), clock);
    case DeliverReady(m) => DrainTells(OnZoneReady(s.brain, m.zone, m.turnId, m.attempt, m.reply), clock);
    case DeliverTimeout(t) => DrainTells(OnZoneTimeout(s.brain, t.zone, t.turnId, t.attempt), clock);
    case DeliverSpontaneous(index, now) =>
      var m := s.spontaneous[index];
      CommitTells(s.brain, FrontHeadlampActuationIncomplete(m.direction, m.cause), now,
                  map[HeadlampAssembly := ZoneReply.FromHeadlamp(m.reply)], clock);
      DrainTells(OnZoneSpontaneous(s.brain, m.direction, m.cause, m.reply, now, clock), clock);
    case _ =>
  }

  lemma {:induction false} MailGrows(tells: seq<Tell>, more: seq<Tell>)
    requires tells <= more
    ensures TellsToWiper(tells) <= TellsToWiper(more)
    ensures TellsToHeadlamp(tells) <= TellsToHeadlamp(more)
  {
    assert more == tells + more[|tells|..];
    SelectConcat(tells, more[|tells|..], ForWiper);
    SelectConcat(tells, more[|tells|..], ForHeadlamp);
  }

  lemma {:induction false} NextReads(s: System, move: Move, clock: Clock)
    requires Enabled(s, move) && ReadsOk(s)
    ensures ReadsOk(Next(s, move, clock))
  {
    hide BrainNext, TellsToWiper, TellsToHeadlamp;
    NextTells(s, move, clock);
    MailGrows(s.brain.tells, BrainNext(s, move, clock).tells);
    assert move.WiperTakes? || move.HeadlampTakes? || Next(s, move, clock).brain == BrainNext(s, move, clock) || move.FireTimer? || move.FireAck? || move.HeadlampElapsed?;
  }

  // ── every step without a new event uses up some of the measure ───────────

  lemma {:induction false} BrainDescends(s: System, move: Move, clock: Clock)
    requires SystemOk(s) && Enabled(s, move) && !move.Ingress? && Unsaturated(BrainNext(s, move, clock))
    ensures BrainWeight(BrainNext(s, move, clock), s.fired) <= BrainWeight(s.brain, s.fired)
  {
    hide Ordered, EntriesOk, CountdownOk, HistoryOk, DeadlinesOk, Drain, OnZoneTimeout, OnZoneReady, CommitResolved, BrainWeight;
    var b := s.brain;
    match move
    case DeliverReady(m) =>
      var next := OnZoneReady(b, m.zone, m.turnId, m.attempt, m.reply);
      ReadyKeeps(b, m.zone, m.turnId, m.attempt, m.reply);
      ReadyWeight(b, m.zone, m.turnId, m.attempt, m.reply, s.fired);
      DrainWeight(next, clock, s.fired);
    case DeliverTimeout(t) =>
      var next := OnZoneTimeout(b, t.zone, t.turnId, t.attempt);
      TimeoutDeadlines(b, t, s.fired, s.timeouts);
      TimeoutWeight(b, t, s.fired, s.timeouts);
      DrainWeight(next, clock, s.fired);
    case DeliverSpontaneous(index, now) =>
      var m := s.spontaneous[index];
      var next := OnZoneSpontaneous(b, m.direction, m.cause, m.reply, now, clock);
      DrainGrows(next, clock);
      SpontaneousKeepsQueue(b, m.direction, m.cause, m.reply, now, clock);
      CommitWeight(b, FrontHeadlampActuationIncomplete(m.direction, m.cause), now,
                   map[HeadlampAssembly := ZoneReply.FromHeadlamp(m.reply)], clock, s.fired);
      DrainWeight(next, clock, s.fired);
    case _ =>
  }

  lemma {:induction false} FireWeight(b: Brain, timer: Timer, fired: set<Timer>)
    requires timer in ArmedBy(b.tells) - b.aborted - fired
    ensures BrainWeight(b, fired + {timer}) == BrainWeight(b, fired) - LIVE_COST
  {
    var live := ArmedBy(b.tells) - b.aborted - fired;
    assert ArmedBy(b.tells) - b.aborted - (fired + {timer}) == live - {timer};
  }

  lemma {:induction false} HeadlampAppliedRunning(t: HeadlampTwinlet, msg: FrontHeadlamp.HeadlampMessage, now: Instant)
    ensures |HeadlampApplied(t, msg, now).running| <= |t.running| + 1
  {
    var cleared := AbortAck(t.(ctx := FrontHeadlamp.OnReceivingMessage(t.ctx, msg, now).ctx, brainKnown := true));
    SubsetSize(cleared.running.Keys, t.running.Keys);
    assert |cleared.running| == |cleared.running.Keys| && |t.running| == |t.running.Keys|;
    var after := HeadlampApplied(t, msg, now).running;
    SubsetSize(after.Keys, cleared.running.Keys + {t.armed});
    assert |after| == |after.Keys|;
  }

  lemma {:induction false} Descends(s: System, move: Move, clock: Clock)
    requires SystemOk(s) && Enabled(s, move) && !move.Ingress? && Unsaturated(Next(s, move, clock).brain)
    ensures Measure(Next(s, move, clock)) < Measure(s)
  {
    hide SystemOk, BrainNext, BrainWeight, WiperNext, HeadlampNext, LiveTimers;
    match move
    case DeliverReady(m) =>
      BrainDescends(s, move, clock);
    case DeliverTimeout(t) =>
      BrainDescends(s, move, clock);
    case DeliverSpontaneous(index, now) =>
      BrainDescends(s, move, clock);
    case FireTimer(timer) => FireDescends(s, timer, clock);
    case WiperTakes(answers) => WiperDescends(s, answers);
    case HeadlampTakes(answers) => HeadlampDescends(s, answers);
    case FireAck(id) =>
      assert |s.headlamp.running - {id}| == |s.headlamp.running| - 1 by {
        assert (s.headlamp.running - {id}).Keys == s.headlamp.running.Keys - {id};
        assert |(s.headlamp.running - {id}).Keys| == |s.headlamp.running.Keys| - 1;
      }
    case HeadlampElapsed(index, now) =>
  }

  lemma {:induction false} FireDescends(s: System, timer: Timer, clock: Clock)
    requires Enabled(s, FireTimer(timer))
    ensures Measure(Next(s, FireTimer(timer), clock)) < Measure(s)
  {
    FireWeight(s.brain, timer, s.fired);
    hide BrainWeight;
    assert |s.timeouts + {timer}| <= |s.timeouts| + 1;
  }

  lemma {:induction false} WiperDescends(s: System, answers: bool)
    requires s.wiperRead < |TellsToWiper(s.brain.tells)|
    ensures Measure(WiperNext(s, answers)) < Measure(s)
  {
    hide BrainWeight;
  }

  lemma {:induction false} HeadlampDescends(s: System, answers: bool)
    requires s.headlampRead < |TellsToHeadlamp(s.brain.tells)|
    ensures Measure(HeadlampNext(s, answers)) < Measure(s)
  {
    hide BrainWeight, HeadlampApplied;
    SelectedBy(s.brain.tells, ForHeadlamp);
    var tell := TellsToHeadlamp(s.brain.tells)[s.headlampRead];
    HeadlampAppliedRunning(s.headlamp, tell.message.headlamp, tell.now);
  }

  // ── the theorems ─────────────────────────────────────────────────────────

  /** Nothing new comes in. */
  ghost predicate NoIngress(moves: seq<Move>) {
    forall i :: 0 <= i < |moves| ==> !moves[i].Ingress?
  }

  /** Without new events a run has at most `Measure` steps. */
  lemma {:induction false} RunsAreFinite(s: System, moves: seq<Move>, clock: Clock)
    requires SystemOk(s) && ReadsOk(s) && NoIngress(moves)
    requires ValidRun(s, moves, clock) && Unsaturated(Run(s, moves, clock).brain)
    ensures |moves| <= Measure(s)
    decreases |moves|
  {
    hide SystemOk, Measure, Next, Enabled, ReadsOk;
    if moves == [] {
      MeasureNonNegative(s);
    } else {
      var next := Next(s, moves[0], clock);
      RunGrows(next, moves[1..], clock);
      Descends(s, moves[0], clock);
      NextOk(s, moves[0], clock);
      NextReads(s, moves[0], clock);
      RunsAreFinite(next, moves[1..], clock);
    }
  }

  /** While a turn is uncommitted, some deadline can still go off or be handled: no twinlet is needed. */
  lemma {:induction false} NeverStuck(s: System)
    requires SystemOk(s) && s.brain.queue != []
    ensures EntryOk(s.brain.queue[0]) && s.brain.queue[0].Waiting?
    ensures var timer := CurrentTimer(s.brain.queue[0].barrier);
            Enabled(s, FireTimer(timer)) || Enabled(s, DeliverTimeout(timer))
  {
    hide HistoryOk, CountdownOk, Ordered;
    var slot := s.brain.queue[0].barrier;
    assert !s.brain.queue[0].IsComplete();
    OneDeadline(s.brain, 0, s.fired, s.timeouts);
    var live := ArmedBy(s.brain.tells) - s.brain.aborted - s.fired;
    var mine := set t | t in live + s.timeouts && t.turnId == slot.turnId;
    assert CurrentTimer(slot) in mine;
  }

  lemma {:induction false} RunReads(s: System, moves: seq<Move>, clock: Clock)
    requires ReadsOk(s) && ValidRun(s, moves, clock)
    ensures ReadsOk(Run(s, moves, clock))
    decreases |moves|
  {
    hide Next, Enabled, ReadsOk;
    if moves != [] {
      NextReads(s, moves[0], clock);
      RunReads(Next(s, moves[0], clock), moves[1..], clock);
    }
  }

  /**
   * Once ingress stops, every run is finite, and every run that cannot be extended has committed
   * every turn: from any reachable state, with answering or silent twinlets.
   */
  lemma {:induction false} DrainsToEmpty(s: System, moves: seq<Move>, clock: Clock)
    requires Reachable(s, clock) && NoIngress(moves)
    requires ValidRun(s, moves, clock) && Unsaturated(Run(s, moves, clock).brain)
    ensures |moves| <= Measure(s)
    ensures (forall m: Move :: !m.Ingress? ==> !Enabled(Run(s, moves, clock), m)) ==> Run(s, moves, clock).brain.queue == []
  {
    hide SystemOk, Measure, Next, Enabled, ReadsOk;
    ReachableOk(s, clock);
    ReachableReads(s, clock);
    RunsAreFinite(s, moves, clock);
    RunOk(s, moves, clock);
    var end := Run(s, moves, clock);
    if end.brain.queue != [] {
      NeverStuck(end);
    }
  }

  lemma {:induction false} ReachableReads(s: System, clock: Clock)
    requires Reachable(s, clock)
    ensures ReadsOk(s)
  {
    hide Next, Enabled;
    var moves :| ValidRun(INITIAL_SYSTEM, moves, clock) && Run(INITIAL_SYSTEM, moves, clock) == s;
    RunReads(INITIAL_SYSTEM, moves, clock);
  }
}
