/**
 * Timed runs: handlers take no time and a deadline is handled the moment it is due. Then no turn
 * waits longer than three tell-back waits, however long the queue is.
 */
module TimedRuns {
  import opened VehiclePhysics
  import opened Fsm
  import opened Zones
  import opened TwinTurn
  import opened TurnBarriers
  import opened BrainModel
  import opened Turns
  import opened Commits
  import opened BrainInvariants
  import opened HandlerSafety
  import opened Plant
  import opened Deadlines
  import opened Reachability
  import opened Progress

  datatype Timed = Timed(sys: System, time: Instant)

  /** When each deadline is due, by its handle. */
  type Due = Timer -> Instant

  datatype TimedMove = Elapse(d: Duration) | Act(move: Move)

  /** Every clock reading a move carries is the current time. */
  predicate ReadsClock(move: Move, time: Instant) {
    match move
    case Ingress(_, now) => now == time
    case DeliverSpontaneous(_, now) => now == time
    case HeadlampElapsed(_, now) => now == time
    case _ => true
  }

  /** What goes on between two brains goes on at `time`: lifecycle readings, and deadlines armed. */
  ghost predicate At(b: Brain, b': Brain, time: Instant, clock: Clock, due: Due) {
    && (forall id: u64 :: b.nextTurnId <= id < b'.nextTurnId ==> clock(id) == time)
    && (forall k :: |b.tells| <= k < |b'.tells| ==> due(TimerOf(b'.tells[k])) == time + ZONE_TELL_BACK_WAIT)
  }

  ghost predicate TimedEnabled(t: Timed, move: TimedMove, clock: Clock, due: Due) {
    match move
    case Elapse(d) =>
      d >= 0 && t.sys.timeouts == {} && (forall h :: h in LiveTimers(t.sys) ==> t.time + d <= due(h))
    case Act(m) =>
      && Enabled(t.sys, m) && ReadsClock(m, t.time)
      && (m.FireTimer? ==> due(m.timer) == t.time)
      && At(t.sys.brain, Next(t.sys, m, clock).brain, t.time, clock, due)
  }

  function TimedNext(t: Timed, move: TimedMove, clock: Clock): Timed
    requires move.Act? ==> Enabled(t.sys, move.move)
  {
    match move
    case Elapse(d) => t.(time := t.time + d)
    case Act(m) => t.(sys := Next(t.sys, m, clock))
  }

  ghost predicate TimedRun(t: Timed, moves: seq<TimedMove>, clock: Clock, due: Due)
    decreases |moves|
  {
    moves != [] ==> TimedEnabled(t, moves[0], clock, due) && TimedRun(TimedNext(t, moves[0], clock), moves[1..], clock, due)
  }

  ghost function TimedEnd(t: Timed, moves: seq<TimedMove>, clock: Clock, due: Due): Timed
    requires TimedRun(t, moves, clock, due)
    decreases |moves|
  {
    if moves == [] then t else TimedEnd(TimedNext(t, moves[0], clock), moves[1..], clock, due)
  }

  // ── the invariant ────────────────────────────────────────────────────────

  /** When the current deadline of a slot that has been told `attempt + 1` times goes off. */
  ghost function SlotDue(s: Barrier): Instant
    requires SlotOk(s)
  {
    s.now + (s.waits[EventZone(s.event)].tellAttempt + 1) * ZONE_TELL_BACK_WAIT
  }

  ghost predicate SlotTimed(s: Barrier, time: Instant, due: Due)
    requires SlotOk(s)
  {
    s.pending != {} ==> due(CurrentTimer(s)) == SlotDue(s) && time <= SlotDue(s)
  }

  ghost predicate ArrivalsOk(queue: seq<Entry>, time: Instant) {
    && (forall i :: 0 <= i < |queue| ==> queue[i].Now() <= time)
    && (forall i, j :: 0 <= i < j < |queue| ==> queue[i].Now() <= queue[j].Now())
  }

  ghost predicate TimesOk(queue: seq<Entry>, time: Instant, due: Due) {
    && EntriesOk(queue)
    && ArrivalsOk(queue, time)
    && (forall i :: 0 <= i < |queue| && queue[i].Waiting? ==>
          (assert EntryOk(queue[i]); SlotTimed(queue[i].barrier, time, due)))
  }

  ghost predicate TimedOk(t: Timed, due: Due) {
    && SystemOk(t.sys)
    && TimesOk(t.sys.brain.queue, t.time, due)
    && (forall h :: h in t.sys.timeouts ==> due(h) == t.time)
    && (forall h :: h in LiveTimers(t.sys) ==> due(h) >= t.time)
  }

  // ── pushes and commits ───────────────────────────────────────────────────

  lemma {:induction false} AppendTimes(queue: seq<Entry>, e: Entry, time: Instant, due: Due)
    requires TimesOk(queue, time, due) && EntryOk(e) && e.Now() == time
    requires e.Waiting? ==> SlotTimed(e.barrier, time, due)
    ensures TimesOk(queue + [e], time, due)
  {
    hide SlotTimed, SlotOk;
    var q := queue + [e];
    forall i | 0 <= i < |q|
      ensures EntryOk(q[i]) && q[i].Now() <= time && (q[i].Waiting? ==> SlotTimed(q[i].barrier, time, due))
    {
      if i < |queue| {
        assert q[i] == queue[i] && EntryOk(queue[i]);
      }
    }
  }

  lemma {:induction false} PushWaitingTimes(b: Brain, event: FsmEvent, zone: AssemblyId, message: ZoneMessage, time: Instant, due: Due)
    requires TimesOk(b.queue, time, due) && zone == EventZone(event) && MessageFits(event, message)
    requires due(Timer(zone, b.nextTurnId, 0)) == time + ZONE_TELL_BACK_WAIT
    ensures TimesOk(PushWaiting(b, event, zone, message, time).queue, time, due)
  {
    var s := NewBarrier(b.nextTurnId, event, time, zone, message);
    assert SlotOk(s) && SlotTimed(s, time, due);
    hide SlotOk, SlotTimed, TimesOk;
    AppendTimes(b.queue, Waiting(s), time, due);
  }

  lemma {:induction false} BeginTimes(b: Brain, event: FsmEvent, time: Instant, clock: Clock, due: Due)
    requires TimesOk(b.queue, time, due) && External(event)
    requires At(b, BeginFsmTurn(b, event, time), time, clock, due)
    ensures TimesOk(BeginFsmTurn(b, event, time).queue, time, due)
  {
    hide TimesOk;
    match ZoneMessageForEvent(event, b.state)
    case Route(zone, message) =>
      var pushed := PushWaiting(b, event, zone, message, time);
      assert pushed.tells[|b.tells|] == Tell(zone, b.nextTurnId, 0, message, time);
      PushWaitingTimes(b, event, zone, message, time, due);
    case NoZone =>
      AppendTimes(b.queue, Passthrough(b.nextTurnId, event, time), time, due);
  }

  lemma {:induction false} PushBothTimes(b: Brain, starting: bool, time: Instant, clock: Clock, due: Due)
    requires TimesOk(b.queue, time, due) && b.nextTurnId < U64_MAX
    requires At(b, PushBoth(b, starting, clock(b.nextTurnId)), time, clock, due)
    ensures TimesOk(PushBoth(b, starting, clock(b.nextTurnId)).queue, time, due)
  {
    hide TimesOk;
    assert clock(b.nextTurnId) == time;
    var h, w := AssemblyZoneReady(HeadlampAssembly), AssemblyZoneReady(WiperAssembly);
    var one := PushWaiting(b, h, HeadlampAssembly, LifecycleMessage(HeadlampAssembly, starting), time);
    var both := PushBoth(b, starting, time);
    assert both.tells[|b.tells|].turnId == b.nextTurnId && both.tells[|b.tells| + 1].turnId == one.nextTurnId;
    PushWaitingTimes(b, h, HeadlampAssembly, LifecycleMessage(HeadlampAssembly, starting), time, due);
    PushWaitingTimes(one, w, WiperAssembly, LifecycleMessage(WiperAssembly, starting), time, due);
  }

  lemma {:induction false} CommitTimes(b: Brain, event: FsmEvent, now: Instant, replies: ZoneReplies, time: Instant, clock: Clock, due: Due)
    requires TimesOk(b.queue, time, due)
    requires CommitResolved(b, event, now, replies, clock).nextTurnId < U64_MAX
    requires At(b, CommitResolved(b, event, now, replies, clock), time, clock, due)
    ensures TimesOk(CommitResolved(b, event, now, replies, clock).queue, time, due)
  {
    hide Quiesce, TurnSummary, TurnTrace, TimesOk, PushBoth, AdvanceBy, Starts, Stops, At;
    CommitShape(b, event, now, replies, clock);
    CommitGrows(b, event, now, replies, clock);
    var done := Committed(b, Quiesce(b.state, b.ctx, event, now, replies));
    if Starts(b.state, b.ctx, event) || Stops(b.state, event) {
      var starting := Starts(b.state, b.ctx, event);
      assert At(done, PushBoth(done, starting, clock(done.nextTurnId)), time, clock, due) by {
        SameCounters(b, done, CommitResolved(b, event, now, replies, clock), time, clock, due);
      }
      PushBothTimes(done, starting, time, clock, due);
    }
  }

  lemma {:induction false} SameCounters(b: Brain, c: Brain, b': Brain, time: Instant, clock: Clock, due: Due)
    requires At(b, b', time, clock, due) && b.nextTurnId == c.nextTurnId && b.tells == c.tells
    ensures At(c, b', time, clock, due)
  {
  }

  /** What happens at one time can be cut in two. */
  lemma {:induction false} AtSplits(b: Brain, c: Brain, d: Brain, time: Instant, clock: Clock, due: Due)
    requires At(b, d, time, clock, due)
    requires b.tells <= c.tells <= d.tells && b.nextTurnId <= c.nextTurnId <= d.nextTurnId
    ensures At(b, c, time, clock, due) && At(c, d, time, clock, due)
  {
    forall k | |b.tells| <= k < |c.tells|
      ensures due(TimerOf(c.tells[k])) == time + ZONE_TELL_BACK_WAIT
    {
      assert c.tells[k] == d.tells[k];
    }
  }

  lemma {:induction false} PopTimes(b: Brain, time: Instant, due: Due)
    requires b.queue != [] && TimesOk(b.queue, time, due)
    ensures TimesOk(b.queue[1..], time, due)
  {
    hide SlotTimed, SlotOk;
    var q := b.queue[1..];
    forall i | 0 <= i < |q|
      ensures EntryOk(q[i]) && (q[i].Waiting? ==> SlotTimed(q[i].barrier, time, due))
    {
      assert q[i] == b.queue[i + 1] && EntryOk(b.queue[i + 1]);
    }
  }

  lemma {:induction false} DrainTimes(b: Brain, time: Instant, clock: Clock, due: Due)
    requires TimesOk(b.queue, time, due) && Unsaturated(Drain(b, clock)) && At(b, Drain(b, clock), time, clock, due)
    ensures TimesOk(Drain(b, clock).queue, time, due)
    decreases CompletePrefix(b.queue)
  {
    hide CommitResolved, TimesOk, At;
    if FrontComplete(b) {
      var e, p, c := b.queue[0], PopFront(b), CommitFront(b, clock);
      CommitFrontProgress(b, clock);
      CommitGrows(p, e.Event(), e.Now(), e.Replies(), clock);
      CommitTells(p, e.Event(), e.Now(), e.Replies(), clock);
      DrainGrows(c, clock);
      DrainTells(c, clock);
      AtSplits(b, c, Drain(b, clock), time, clock, due);
      SameCounters(b, p, c, time, clock, due);
      PopTimes(b, time, due);
      CommitTimes(p, e.Event(), e.Now(), e.Replies(), time, clock, due);
      DrainTimes(c, time, clock, due);
    }
  }

  // ── replies and timeouts ─────────────────────────────────────────────────

  lemma {:induction false} SlotReplacedTimes(queue: seq<Entry>, i: nat, slot: Barrier, time: Instant, due: Due)
    requires TimesOk(queue, time, due) && i < |queue| && queue[i].Waiting?
    requires SlotOk(slot) && SlotTimed(slot, time, due) && slot.now == queue[i].barrier.now
    ensures TimesOk(queue[i := Waiting(slot)], time, due)
  {
    hide SlotTimed, SlotOk;
    var q := queue[i := Waiting(slot)];
    forall j | 0 <= j < |q|
      ensures EntryOk(q[j]) && q[j].Now() == queue[j].Now() && (q[j].Waiting? ==> SlotTimed(q[j].barrier, time, due))
    {
      assert EntryOk(queue[j]);
    }
  }

  lemma {:induction false} ReadyTimes(b: Brain, zone: AssemblyId, turnId: u64, attempt: u32, reply: ZoneReply, time: Instant, due: Due)
    requires TimesOk(b.queue, time, due)
    ensures TimesOk(OnZoneReady(b, zone, turnId, attempt, reply).queue, time, due)
  {
    var at := FindWaiting(b, turnId);
    if at.Some? && b.queue[at.value].barrier.TellAttemptMatches(zone, attempt) {
      assert EntryOk(b.queue[at.value]);
      var slot := b.queue[at.value].barrier.ActOnZoneReply(zone, reply);
      assert SlotOk(slot) && slot.pending == {};
      hide TimesOk, SlotOk;
      SlotReplacedTimes(b.queue, at.value, slot, time, due);
    }
  }

  /** A retry that happens exactly when its deadline is due moves the next one by one whole wait. */
  lemma {:induction false} RetrySlotTimes(s: Barrier, timer: Timer, time: Instant, due: Due)
    requires SlotOk(s) && SlotTimed(s, time, due) && timer == CurrentTimer(s) && due(timer) == time
    requires s.Retries(timer.zone, timer.attempt)
    requires due(Timer(timer.zone, s.turnId, NextAttempt(timer.attempt))) == time + ZONE_TELL_BACK_WAIT
    ensures var next := s.ActOnZoneTimeout(timer.zone, timer.attempt)
                         .StoreRetryTimer(timer.zone, Timer(timer.zone, s.turnId, NextAttempt(timer.attempt)));
            SlotOk(next) && SlotTimed(next, time, due) && next.now == s.now
  {
    TimedOutSlotOk(s, timer.zone, timer.attempt);
  }

  lemma {:induction false} TimeoutTimes(b: Brain, timer: Timer, fired: set<Timer>, timeouts: set<Timer>, time: Instant, clock: Clock, due: Due)
    requires TimesOk(b.queue, time, due) && DeadlinesOk(b, fired, timeouts)
    requires timer in timeouts && due(timer) == time
    requires At(b, OnZoneTimeout(b, timer.zone, timer.turnId, timer.attempt), time, clock, due)
    ensures TimesOk(OnZoneTimeout(b, timer.zone, timer.turnId, timer.attempt).queue, time, due)
  {
    hide DeadlinesOk, SlotTimed;
    var at := FindWaiting(b, timer.turnId);
    if at.Some? {
      var i := at.value;
      var slot := b.queue[i].barrier;
      var zone, attempt := timer.zone, timer.attempt;
      TimeoutIsCurrent(b, i, timer, fired, timeouts);
      assert EntryOk(b.queue[i]);
      if slot.Retries(zone, attempt) {
        var retried := RetryAt(b, i, zone, attempt);
        MessageStored(slot);
        assert retried.tells[|b.tells|] == Tell(zone, slot.turnId, NextAttempt(attempt), slot.messages[zone], slot.now);
        RetrySlotTimes(slot, timer, time, due);
        var next := slot.ActOnZoneTimeout(zone, attempt).StoreRetryTimer(zone, Timer(zone, slot.turnId, NextAttempt(attempt)));
        assert retried.queue == b.queue[i := Waiting(next)];
        hide TimesOk, SlotOk;
        SlotReplacedTimes(b.queue, i, next, time, due);
      } else {
        GiveUpShape(b, i, zone, attempt);
        var next := slot.ActOnZoneTimeout(zone, attempt).ActOnZoneReply(zone, SyntheticReplyFor(b.ctx, zone));
        GaveUpSlotTimes(slot, timer, SyntheticReplyFor(b.ctx, zone), time, due);
        hide TimesOk, SlotOk;
        SlotReplacedTimes(b.queue, i, next, time, due);
      }
    }
  }

  lemma {:induction false} GaveUpSlotTimes(s: Barrier, timer: Timer, reply: ZoneReply, time: Instant, due: Due)
    requires SlotOk(s) && timer == CurrentTimer(s) && !s.Retries(timer.zone, timer.attempt)
    ensures var next := s.ActOnZoneTimeout(timer.zone, timer.attempt).ActOnZoneReply(timer.zone, reply);
            SlotOk(next) && SlotTimed(next, time, due) && next.now == s.now
  {
  }

  // ── runs ─────────────────────────────────────────────────────────────────

  lemma {:induction false} BrainTimes(t: Timed, m: Move, clock: Clock, due: Due)
    requires TimedOk(t, due) && TimedEnabled(t, Act(m), clock, due) && Unsaturated(Next(t.sys, m, clock).brain)
    ensures TimesOk(Next(t.sys, m, clock).brain.queue, t.time, due)
  {
    hide QueueOk, DeadlinesOk, Drain, BeginFsmTurn, OnZoneTimeout, OnZoneReady, CommitResolved, TimesOk, At, WiperNext, HeadlampNext;
    var b, time := t.sys.brain, t.time;
    match m
    case Ingress(event, now) =>
      var c := BeginFsmTurn(b, event, time);
      BeginGrows(b, event, time);
      HandlerTells(b);
      DrainGrows(c, clock);
      DrainTells(c, clock);
      AtSplits(b, c, Drain(c, clock), time, clock, due);
      BeginTimes(b, event, time, clock, due);
      DrainTimes(c, time, clock, due);
    case DeliverReady(msg) =>
      var c := OnZoneReady(b, msg.zone, msg.turnId, msg.attempt, msg.reply);
      HandlerTells(b);
      ReadyGrows(b, msg.zone, msg.turnId, msg.attempt, msg.reply);
      DrainGrows(c, clock);
      DrainTells(c, clock);
      AtSplits(b, c, Drain(c, clock), time, clock, due);
      ReadyTimes(b, msg.zone, msg.turnId, msg.attempt, msg.reply, time, due);
      DrainTimes(c, time, clock, due);
    case DeliverTimeout(h) =>
      var c := OnZoneTimeout(b, h.zone, h.turnId, h.attempt);
      HandlerTells(b);
      TimeoutGrows(b, h.zone, h.turnId, h.attempt);
      DrainGrows(c, clock);
      DrainTells(c, clock);
      AtSplits(b, c, Drain(c, clock), time, clock, due);
      TimeoutTimes(b, h, t.sys.fired, t.sys.timeouts, time, clock, due);
      DrainTimes(c, time, clock, due);
    case DeliverSpontaneous(index, now) =>
      var s := t.sys.spontaneous[index];
      var event := FrontHeadlampActuationIncomplete(s.direction, s.cause);
      var replies := map[HeadlampAssembly := ZoneReply.FromHeadlamp(s.reply)];
      var c := OnZoneSpontaneous(b, s.direction, s.cause, s.reply, now, clock);
      CommitGrows(b, event, now, replies, clock);
      CommitTells(b, event, now, replies, clock);
      DrainGrows(c, clock);
      DrainTells(c, clock);
      AtSplits(b, c, Drain(c, clock), time, clock, due);
      CommitTimes(b, event, now, replies, time, clock, due);
      DrainTimes(c, time, clock, due);
    case WiperTakes(_) => TakesKeepBrain(t.sys, m, clock);
    case HeadlampTakes(_) => TakesKeepBrain(t.sys, m, clock);
    case _ =>
  }

  lemma {:induction false} ReadyGrows(b: Brain, zone: AssemblyId, turnId: u64, attempt: u32, reply: ZoneReply)
    ensures CountersGrow(b, OnZoneReady(b, zone, turnId, attempt, reply))
  {
  }

  // ── running deadlines are never overdue ──────────────────────────────────

  lemma {:induction false} CommitAborts(b: Brain, event: FsmEvent, now: Instant, replies: ZoneReplies, clock: Clock)
    ensures CommitResolved(b, event, now, replies, clock).aborted == b.aborted
  {
    hide Quiesce, TurnSummary, TurnTrace, AdvanceBy, Starts, Stops;
    CommitShape(b, event, now, replies, clock);
  }

  lemma {:induction false} DrainAborts(b: Brain, clock: Clock)
    ensures Drain(b, clock).aborted == b.aborted
    decreases CompletePrefix(b.queue)
  {
    hide CommitResolved;
    if FrontComplete(b) {
      var e := b.queue[0];
      CommitFrontProgress(b, clock);
      CommitAborts(PopFront(b), e.Event(), e.Now(), e.Replies(), clock);
      DrainAborts(CommitFront(b, clock), clock);
    }
  }

  lemma {:induction false} HandlersAbort(b: Brain)
    ensures forall event, now :: b.aborted <= BeginFsmTurn(b, event, now).aborted
    ensures forall zone, turnId, attempt, reply :: b.aborted <= OnZoneReady(b, zone, turnId, attempt, reply).aborted
    ensures forall zone, turnId, attempt :: b.aborted <= OnZoneTimeout(b, zone, turnId, attempt).aborted
  {
    hide Find, SyntheticReplyFor;
  }

  /** No handle that was aborted comes back. */
  lemma {:induction false} AbortedStays(s: System, m: Move, clock: Clock)
    requires Enabled(s, m)
    ensures s.brain.aborted <= Next(s, m, clock).brain.aborted && s.fired <= Next(s, m, clock).fired
  {
    hide Drain, BeginFsmTurn, OnZoneTimeout, OnZoneReady, CommitResolved, WiperNext, HeadlampNext, LiveTimers;
    HandlersAbort(s.brain);
    match m
    case Ingress(event, now) => DrainAborts(BeginFsmTurn(s.brain, event, now), clock);
    case DeliverReady(r) => DrainAborts(OnZoneReady(s.brain, r.zone, r.turnId, r.attempt, r.reply), clock);
    case DeliverTimeout(h) => DrainAborts(OnZoneTimeout(s.brain, h.zone, h.turnId, h.attempt), clock);
    case DeliverSpontaneous(index, now) =>
      var r := s.spontaneous[index];
      CommitAborts(s.brain, FrontHeadlampActuationIncomplete(r.direction, r.cause), now,
                   map[HeadlampAssembly := ZoneReply.FromHeadlamp(r.reply)], clock);
      DrainAborts(OnZoneSpontaneous(s.brain, r.direction, r.cause, r.reply, now, clock), clock);
    case WiperTakes(_) => TakesKeepBrain(s, m, clock);
    case HeadlampTakes(_) => TakesKeepBrain(s, m, clock);
    case _ =>
  }

  /** A handle armed later on is that of a later tell. */
  lemma {:induction false} ArmedLater(tells: seq<Tell>, more: seq<Tell>, h: Timer)
    requires tells <= more && h in ArmedBy(more) && h !in ArmedBy(tells)
    ensures exists k :: |tells| <= k < |more| && TimerOf(more[k]) == h
    decreases |more|
  {
    assert |more| > |tells| || more == tells;
    if TimerOf(more[|more| - 1]) != h {
      var fewer := more[..|more| - 1];
      ArmedLater(tells, fewer, h);
      var k :| |tells| <= k < |fewer| && TimerOf(fewer[k]) == h;
      assert TimerOf(more[k]) == h;
    }
  }

  lemma {:induction false} LiveNotOverdue(t: Timed, m: Move, clock: Clock, due: Due)
    requires Enabled(t.sys, m) && At(t.sys.brain, Next(t.sys, m, clock).brain, t.time, clock, due)
    requires forall h :: h in LiveTimers(t.sys) ==> due(h) >= t.time
    ensures forall h :: h in LiveTimers(Next(t.sys, m, clock)) ==> due(h) >= t.time
  {
    NextTells(t.sys, m, clock);
    AbortedStays(t.sys, m, clock);
    hide Next, Enabled, ArmedBy, BrainNext;
    var before, after := t.sys.brain.tells, Next(t.sys, m, clock).brain.tells;
    assert before <= after by { NextTellsGrow(t.sys, m, clock); }
    forall h | h in LiveTimers(Next(t.sys, m, clock)) ensures due(h) >= t.time {
      if h in ArmedBy(before) {
        assert h in LiveTimers(t.sys);
      } else {
        ArmedLater(before, after, h);
      }
    }
  }

  lemma {:induction false} NextTellsGrow(s: System, m: Move, clock: Clock)
    requires Enabled(s, m)
    ensures s.brain.tells <= Next(s, m, clock).brain.tells
  {
    hide BrainNext, WiperNext, HeadlampNext;
    NextTells(s, m, clock);
    if m.WiperTakes? || m.HeadlampTakes? {
      TakesKeepBrain(s, m, clock);
    }
  }

  lemma {:induction false} ActKeepsTimes(t: Timed, m: Move, clock: Clock, due: Due)
    requires TimedOk(t, due) && TimedEnabled(t, Act(m), clock, due) && Unsaturated(Next(t.sys, m, clock).brain)
    ensures TimedOk(TimedNext(t, Act(m), clock), due)
  {
    NextOk(t.sys, m, clock);
    BrainTimes(t, m, clock, due);
    LiveNotOverdue(t, m, clock, due);
    hide SystemOk, TimesOk, At, BrainNext, WiperNext, HeadlampNext, LiveTimers;
    if m.WiperTakes? || m.HeadlampTakes? {
      TakesKeepBrain(t.sys, m, clock);
    }
  }

  /** Time passes only as far as the first deadline, so no pending slot is left behind. */
  lemma {:induction false} ElapseKeepsTimes(t: Timed, d: Duration, clock: Clock, due: Due)
    requires TimedOk(t, due) && TimedEnabled(t, Elapse(d), clock, due)
    ensures TimedOk(TimedNext(t, Elapse(d), clock), due)
  {
    hide HistoryOk, CountdownOk, Ordered, SlotOk;
    var q, b := t.sys.brain.queue, t.sys.brain;
    forall i | 0 <= i < |q| && q[i].Waiting?
      ensures EntryOk(q[i]) && SlotTimed(q[i].barrier, t.time + d, due)
    {
      assert EntryOk(q[i]) && SlotTimed(q[i].barrier, t.time, due);
      assert SlotDeadlines(q[i].barrier, b.tells, b.aborted, t.sys.fired, t.sys.timeouts);
      MessageStored(q[i].barrier);
      if q[i].barrier.pending != {} {
        assert CurrentTimer(q[i].barrier) in LiveTimers(t.sys);
      }
    }
  }

  lemma {:induction false} TimedGrows(t: Timed, moves: seq<TimedMove>, clock: Clock, due: Due)
    requires TimedRun(t, moves, clock, due)
    ensures CountersGrow(t.sys.brain, TimedEnd(t, moves, clock, due).sys.brain)
    decreases |moves|
  {
    hide Next, Enabled, At;
    if moves != [] {
      if moves[0].Act? {
        NextGrows(t.sys, moves[0].move, clock);
      }
      TimedGrows(TimedNext(t, moves[0], clock), moves[1..], clock, due);
    }
  }

  lemma {:induction false} TimedRunOk(t: Timed, moves: seq<TimedMove>, clock: Clock, due: Due)
    requires TimedOk(t, due) && TimedRun(t, moves, clock, due) && Unsaturated(TimedEnd(t, moves, clock, due).sys.brain)
    ensures TimedOk(TimedEnd(t, moves, clock, due), due)
    decreases |moves|
  {
    hide TimedOk, Next, Enabled, At;
    if moves != [] {
      var next := TimedNext(t, moves[0], clock);
      TimedGrows(next, moves[1..], clock, due);
      match moves[0] {
        case Elapse(d) => ElapseKeepsTimes(t, d, clock, due);
        case Act(m) => ActKeepsTimes(t, m, clock, due);
      }
      TimedRunOk(next, moves[1..], clock, due);
    }
  }

  lemma {:induction false} TimedFromStart(start: Instant, moves: seq<TimedMove>, clock: Clock, due: Due)
    requires TimedRun(Timed(INITIAL_SYSTEM, start), moves, clock, due)
    requires Unsaturated(TimedEnd(Timed(INITIAL_SYSTEM, start), moves, clock, due).sys.brain)
    ensures TimedOk(TimedEnd(Timed(INITIAL_SYSTEM, start), moves, clock, due), due)
  {
    hide Next, Enabled, SystemOk, TimedRun, TimedEnd;
    InitialOk();
    TimedRunOk(Timed(INITIAL_SYSTEM, start), moves, clock, due);
  }

  /** How long a turn can wait for its commit: the first tell and every retry. */
  const LONGEST_WAIT: Duration := (ZONE_TELL_BACK_MAX_RETRIES + 1) * ZONE_TELL_BACK_WAIT

  /**
   * A turn is still queued only while no more than three waits have passed since it arrived,
   * whatever stands before it in the queue. Handlers take no time, so this bounds its commit.
   */
  lemma {:induction false} BoundedHeadOfLineBlocking(start: Instant, moves: seq<TimedMove>, clock: Clock, due: Due, i: nat)
    requires TimedRun(Timed(INITIAL_SYSTEM, start), moves, clock, due)
    requires Unsaturated(TimedEnd(Timed(INITIAL_SYSTEM, start), moves, clock, due).sys.brain)
    requires i < |TimedEnd(Timed(INITIAL_SYSTEM, start), moves, clock, due).sys.brain.queue|
    ensures var end := TimedEnd(Timed(INITIAL_SYSTEM, start), moves, clock, due);
            end.sys.brain.queue[i].Now() <= end.time <= end.sys.brain.queue[i].Now() + 1_500_000_000
  {
    hide HistoryOk, CountdownOk, Ordered, DeadlinesOk, Next, Enabled, TimedRun, TimedEnd;
    TimedFromStart(start, moves, clock, due);
    var end := TimedEnd(Timed(INITIAL_SYSTEM, start), moves, clock, due);
    var q := end.sys.brain.queue;
    assert !q[0].IsComplete() && EntryOk(q[0]);
    assert SlotTimed(q[0].barrier, end.time, due);
    assert i > 0 ==> q[0].Now() <= q[i].Now();
  }

  // ── time is never locked ─────────────────────────────────────────────────

  /** The earliest of some due instants. */
  lemma {:induction false} EarliestDue(handles: set<Timer>, due: Due) returns (first: Timer)
    requires handles != {}
    ensures first in handles && forall h :: h in handles ==> due(first) <= due(h)
    decreases |handles|
  {
    first :| first in handles;
    var rest := handles - {first};
    if rest != {} {
      var other := EarliestDue(rest, due);
      if due(other) < due(first) {
        first := other;
      }
    }
  }

  /** Readings and due instants as before where they are already fixed, and as of `time` where they are not. */
  ghost predicate Continues(b: Brain, clock: Clock, due: Due, clock': Clock, due': Due) {
    && (forall id: u64 :: id < b.nextTurnId ==> clock'(id) == clock(id))
    && (forall h :: h in ArmedBy(b.tells) ==> due'(h) == due(h))
  }

  /** Between these two brains only handles are armed that were not armed before. */
  ghost predicate ArmsAnew(b: Brain, b': Brain) {
    b.tells <= b'.tells && forall k :: |b.tells| <= k < |b'.tells| ==> TimerOf(b'.tells[k]) !in ArmedBy(b.tells)
  }

  lemma {:induction false} CommitTellsNewTurns(b: Brain, event: FsmEvent, now: Instant, replies: ZoneReplies, clock: Clock)
    ensures var c := CommitResolved(b, event, now, replies, clock);
            forall k :: |b.tells| <= k < |c.tells| ==> c.tells[k].turnId >= b.nextTurnId
  {
    hide Quiesce, TurnSummary, TurnTrace, AdvanceBy, Starts, Stops;
    CommitShape(b, event, now, replies, clock);
  }

  lemma {:induction false} DrainTellsNewTurns(b: Brain, clock: Clock)
    ensures forall k :: |b.tells| <= k < |Drain(b, clock).tells| ==> Drain(b, clock).tells[k].turnId >= b.nextTurnId
    decreases CompletePrefix(b.queue)
  {
    hide CommitResolved;
    if FrontComplete(b) {
      var e, p, c, d := b.queue[0], PopFront(b), CommitFront(b, clock), Drain(b, clock);
      CommitFrontProgress(b, clock);
      CommitTells(p, e.Event(), e.Now(), e.Replies(), clock);
      CommitGrows(p, e.Event(), e.Now(), e.Replies(), clock);
      CommitTellsNewTurns(p, e.Event(), e.Now(), e.Replies(), clock);
      DrainTells(c, clock);
      DrainTellsNewTurns(c, clock);
      forall k | |b.tells| <= k < |d.tells| ensures d.tells[k].turnId >= b.nextTurnId {
        if k < |c.tells| {
          assert d.tells[k] == c.tells[k];
        }
      }
    }
  }

  /** Handling a timeout arms at most the next attempt of its slot, which has never been told before. */
  lemma {:induction false} TimeoutArmsAnew(b: Brain, h: Timer, fired: set<Timer>, timeouts: set<Timer>, clock: Clock)
    requires DeadlinesOk(b, fired, timeouts) && h in timeouts
    ensures ArmsAnew(b, Drain(OnZoneTimeout(b, h.zone, h.turnId, h.attempt), clock))
  {
    hide Drain, QueueDeadlines, ArmedBy;
    var c := OnZoneTimeout(b, h.zone, h.turnId, h.attempt);
    var d := Drain(c, clock);
    DrainTells(c, clock);
    DrainTellsNewTurns(c, clock);
    RetryArmsAnew(b, h, fired, timeouts);
    forall k | |b.tells| <= k < |d.tells| ensures TimerOf(d.tells[k]) !in ArmedBy(b.tells) {
      if k < |c.tells| {
        assert d.tells[k] == c.tells[k];
      }
    }
  }

  lemma {:induction false} RetryArmsAnew(b: Brain, h: Timer, fired: set<Timer>, timeouts: set<Timer>)
    requires DeadlinesOk(b, fired, timeouts) && h in timeouts
    ensures ArmsAnew(b, OnZoneTimeout(b, h.zone, h.turnId, h.attempt))
    ensures OnZoneTimeout(b, h.zone, h.turnId, h.attempt).nextTurnId == b.nextTurnId
  {
    var at := FindWaiting(b, h.turnId);
    if at.Some? {
      TimeoutIsCurrent(b, at.value, h, fired, timeouts);
      var slot := b.queue[at.value].barrier;
      assert SlotDeadlines(slot, b.tells, b.aborted, fired, timeouts);
      MessageStored(slot);
    }
  }

  /** With fresh readings for what is not fixed yet, whatever arms anew happens now. */
  lemma {:induction false} HappensNow(b: Brain, b': Brain, time: Instant, clock: Clock, due: Due)
    requires ArmsAnew(b, b')
    ensures At(b, b', time, (id: u64) => if id < b.nextTurnId then clock(id) else time,
               (h: Timer) => if h in ArmedBy(b.tells) then due(h) else time + ZONE_TELL_BACK_WAIT)
  {
    hide ArmedBy;
  }

  /**
   * Time is never locked, in any state the invariant allows: a deadline that has gone off can be
   * handled now, whatever was read and armed before; else one that is due now can go off; else time
   * can move on, and exactly to the next due instant if a deadline is running.
   */
  lemma {:induction false} NoTimeLock(t: Timed, clock: Clock, due: Due)
    requires TimedOk(t, due)
    ensures
      if t.sys.timeouts != {} then
        exists h, clock', due' :: h in t.sys.timeouts && Continues(t.sys.brain, clock, due, clock', due')
                                  && TimedEnabled(t, Act(DeliverTimeout(h)), clock', due')
      else if exists h :: h in LiveTimers(t.sys) && due(h) == t.time then
        exists h :: h in LiveTimers(t.sys) && TimedEnabled(t, Act(FireTimer(h)), clock, due)
      else
        exists d: Duration :: d > 0 && TimedEnabled(t, Elapse(d), clock, due)
                              && (LiveTimers(t.sys) != {} ==> exists h :: h in LiveTimers(t.sys) && due(h) == t.time + d)
  {
    hide QueueOk, TimesOk, LiveTimers, DeadlinesOk, BrainNext;
    if t.sys.timeouts != {} {
      var h :| h in t.sys.timeouts;
      HandledNow(t, h, clock, due);
    } else if exists h :: h in LiveTimers(t.sys) && due(h) == t.time {
      var h :| h in LiveTimers(t.sys) && due(h) == t.time;
      assert TimedEnabled(t, Act(FireTimer(h)), clock, due);
    } else if LiveTimers(t.sys) == {} {
      assert TimedEnabled(t, Elapse(1), clock, due);
    } else {
      var h := EarliestDue(LiveTimers(t.sys), due);
      assert TimedEnabled(t, Elapse(due(h) - t.time), clock, due);
    }
  }

  lemma {:induction false} HandledNow(t: Timed, h: Timer, clock: Clock, due: Due)
    requires SystemOk(t.sys) && h in t.sys.timeouts
    ensures exists clock', due' :: Continues(t.sys.brain, clock, due, clock', due') && TimedEnabled(t, Act(DeliverTimeout(h)), clock', due')
  {
    hide QueueOk, DeadlinesOk, ArmsAnew, At, OnZoneTimeout, Drain, ArmedBy;
    var b, time := t.sys.brain, t.time;
    var clock' := (id: u64) => if id < b.nextTurnId then clock(id) else time;
    var due' := (h: Timer) => if h in ArmedBy(b.tells) then due(h) else time + ZONE_TELL_BACK_WAIT;
    TimeoutArmsAnew(b, h, t.sys.fired, t.sys.timeouts, clock');
    HappensNow(b, Next(t.sys, DeliverTimeout(h), clock').brain, time, clock, due);
    assert TimedEnabled(t, Act(DeliverTimeout(h)), clock', due');
    assert Continues(b, clock, due, clock', due');
  }
}
