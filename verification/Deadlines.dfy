/** Tells, retries and deadlines: the retry budget is conserved and no slot is ever left without a deadline. */
module Deadlines {
  import opened VehiclePhysics
  import opened Fsm
  import opened Zones
  import opened TwinTurn
  import opened TurnBarriers
  import opened BrainModel
  import opened Turns
  import opened Commits
  import opened BrainInvariants
  import opened HandlerSafety
  import opened Plant

  /** How often a zone has been told for one turn. */
  function CountTells(tells: seq<Tell>, turnId: u64): nat {
    if tells == [] then 0
    else CountTells(tells[..|tells| - 1], turnId) + (if tells[|tells| - 1].turnId == turnId then 1 else 0)
  }

  lemma {:induction false} TellAppended(tells: seq<Tell>, tell: Tell)
    ensures ArmedBy(tells + [tell]) == ArmedBy(tells) + {TimerOf(tell)}
    ensures forall id: u64 :: CountTells(tells + [tell], id) == CountTells(tells, id) + (if tell.turnId == id then 1 else 0)
  {
    assert (tells + [tell])[..|tells|] == tells;
  }

  /** The deadline of a waiting slot's current attempt. */
  function CurrentTimer(s: Barrier): Timer
    requires EventZone(s.event) in s.waits
  {
    Timer(EventZone(s.event), s.turnId, s.waits[EventZone(s.event)].tellAttempt)
  }

  /** The deadlines of one waiting slot. */
  ghost predicate SlotDeadlines(s: Barrier, tells: seq<Tell>, aborted: set<Timer>, fired: set<Timer>, timeouts: set<Timer>)
    requires SlotOk(s)
  {
    var current := CurrentTimer(s);
    && current in ArmedBy(tells)
    && (forall t :: t in ArmedBy(tells) && t.turnId == s.turnId ==> t.zone == current.zone && t.attempt <= current.attempt)
    && (forall t :: t in ArmedBy(tells) && t.turnId == s.turnId && t.attempt < current.attempt ==> t in fired && t !in timeouts)
    && (s.pending != {} ==> current !in aborted && (current in fired ==> current in timeouts))
    && CountTells(tells, s.turnId) == current.attempt + 1
  }

  ghost predicate QueueDeadlines(queue: seq<Entry>, tells: seq<Tell>, aborted: set<Timer>, fired: set<Timer>, timeouts: set<Timer>)
    requires EntriesOk(queue)
  {
    forall i :: 0 <= i < |queue| && queue[i].Waiting? ==>
      (assert EntryOk(queue[i]); SlotDeadlines(queue[i].barrier, tells, aborted, fired, timeouts))
  }

  ghost predicate ToldOk(nextTurnId: u64, tells: seq<Tell>, aborted: set<Timer>, fired: set<Timer>, timeouts: set<Timer>) {
    && timeouts <= fired <= ArmedBy(tells)
    && aborted <= ArmedBy(tells)
    && (forall t :: t in ArmedBy(tells) ==> t.turnId < nextTurnId)
    && (forall id: u64 :: CountTells(tells, id) <= ZONE_TELL_BACK_MAX_RETRIES + 1)
    && (forall id: u64 :: id >= nextTurnId ==> CountTells(tells, id) == 0)
  }

  ghost predicate DeadlinesOk(b: Brain, fired: set<Timer>, timeouts: set<Timer>) {
    && EntriesOk(b.queue)
    && ToldOk(b.nextTurnId, b.tells, b.aborted, fired, timeouts)
    && QueueDeadlines(b.queue, b.tells, b.aborted, fired, timeouts)
  }

  // ── pushes ───────────────────────────────────────────────────────────────

  /** A tell for a turn that is not this slot's leaves the slot's deadlines alone. */
  lemma {:induction false} OtherTell(s: Barrier, tells: seq<Tell>, tell: Tell, aborted: set<Timer>, fired: set<Timer>, timeouts: set<Timer>)
    requires SlotOk(s) && SlotDeadlines(s, tells, aborted, fired, timeouts) && tell.turnId != s.turnId
    ensures SlotDeadlines(s, tells + [tell], aborted, fired, timeouts)
  {
    TellAppended(tells, tell);
  }

  lemma {:induction false} NewSlotDeadlines(b: Brain, event: FsmEvent, message: ZoneMessage, now: Instant, fired: set<Timer>, timeouts: set<Timer>)
    requires ToldOk(b.nextTurnId, b.tells, b.aborted, fired, timeouts) && MessageFits(event, message)
    ensures var zone := EventZone(event);
            var s := NewBarrier(b.nextTurnId, event, now, zone, message);
            && SlotOk(s)
            && SlotDeadlines(s, b.tells + [Tell(zone, b.nextTurnId, 0, message, now)], b.aborted, fired, timeouts)
  {
    TellAppended(b.tells, Tell(EventZone(event), b.nextTurnId, 0, message, now));
  }

  lemma {:induction false} PushWaitingDeadlines(b: Brain, event: FsmEvent, zone: AssemblyId, message: ZoneMessage, now: Instant,
                                                fired: set<Timer>, timeouts: set<Timer>)
    requires DeadlinesOk(b, fired, timeouts) && b.nextTurnId < U64_MAX
    requires forall i :: 0 <= i < |b.queue| ==> b.queue[i].TurnId() < b.nextTurnId
    requires zone == EventZone(event) && MessageFits(event, message)
    ensures DeadlinesOk(PushWaiting(b, event, zone, message, now), fired, timeouts)
  {
    hide SlotOk, SlotDeadlines;
    var tell := Tell(zone, b.nextTurnId, 0, message, now);
    var b' := PushWaiting(b, event, zone, message, now);
    TellAppended(b.tells, tell);
    NewSlotDeadlines(b, event, message, now, fired, timeouts);
    assert b'.queue[|b.queue|] == Waiting(NewBarrier(b.nextTurnId, event, now, zone, message));
    forall i | 0 <= i < |b'.queue| && b'.queue[i].Waiting?
      ensures EntryOk(b'.queue[i]) && SlotDeadlines(b'.queue[i].barrier, b'.tells, b.aborted, fired, timeouts)
    {
      if i < |b.queue| {
        assert b'.queue[i] == b.queue[i] && EntryOk(b.queue[i]);
        OtherTell(b.queue[i].barrier, b.tells, tell, b.aborted, fired, timeouts);
      }
    }
  }

  lemma {:induction false} PushBothDeadlines(b: Brain, starting: bool, now: Instant, fired: set<Timer>, timeouts: set<Timer>)
    requires Ordered(b.committed, b.queue, b.nextTurnId) && DeadlinesOk(b, fired, timeouts)
    requires PushBoth(b, starting, now).nextTurnId < U64_MAX
    ensures DeadlinesOk(PushBoth(b, starting, now), fired, timeouts)
  {
    hide DeadlinesOk;
    var h, w := AssemblyZoneReady(HeadlampAssembly), AssemblyZoneReady(WiperAssembly);
    var one := PushWaiting(b, h, HeadlampAssembly, LifecycleMessage(HeadlampAssembly, starting), now);
    PushWaitingDeadlines(b, h, HeadlampAssembly, LifecycleMessage(HeadlampAssembly, starting), now, fired, timeouts);
    PushWaitingDeadlines(one, w, WiperAssembly, LifecycleMessage(WiperAssembly, starting), now, fired, timeouts);
  }

  lemma {:induction false} BeginDeadlines(b: Brain, event: FsmEvent, now: Instant, fired: set<Timer>, timeouts: set<Timer>)
    requires Ordered(b.committed, b.queue, b.nextTurnId) && DeadlinesOk(b, fired, timeouts) && !event.AssemblyZoneReady? && b.nextTurnId < U64_MAX
    ensures DeadlinesOk(BeginFsmTurn(b, event, now), fired, timeouts)
  {
    hide SlotDeadlines, SlotOk;
    match ZoneMessageForEvent(event, b.state)
    case Route(zone, message) => PushWaitingDeadlines(b, event, zone, message, now, fired, timeouts);
    case NoZone =>
  }

  // ── commits ──────────────────────────────────────────────────────────────

  lemma {:induction false} CommitDeadlines(b: Brain, event: FsmEvent, now: Instant, replies: ZoneReplies, clock: Clock,
                                           fired: set<Timer>, timeouts: set<Timer>)
    requires Ordered(b.committed, b.queue, b.nextTurnId) && DeadlinesOk(b, fired, timeouts)
    requires CommitResolved(b, event, now, replies, clock).nextTurnId < U64_MAX
    ensures DeadlinesOk(CommitResolved(b, event, now, replies, clock), fired, timeouts)
  {
    hide Quiesce, TurnSummary, TurnTrace, Ordered, QueueDeadlines, ToldOk, PushBoth, AdvanceBy, Starts, Stops;
    CommitShape(b, event, now, replies, clock);
    var done := Committed(b, Quiesce(b.state, b.ctx, event, now, replies));
    assert DeadlinesOk(done, fired, timeouts);
    if Starts(b.state, b.ctx, event) {
      PushBothDeadlines(done, true, clock(done.nextTurnId), fired, timeouts);
    } else if Stops(b.state, event) {
      PushBothDeadlines(done, false, clock(done.nextTurnId), fired, timeouts);
    }
  }

  lemma {:induction false} DrainDeadlines(b: Brain, clock: Clock, fired: set<Timer>, timeouts: set<Timer>)
    requires QueueOk(b) && DeadlinesOk(b, fired, timeouts) && Drain(b, clock).nextTurnId < U64_MAX
    ensures DeadlinesOk(Drain(b, clock), fired, timeouts)
    decreases CompletePrefix(b.queue)
  {
    hide CommitResolved, HistoryOk, CountdownOk, ToldOk, SlotDeadlines, SlotOk;
    if FrontComplete(b) {
      CommitFrontProgress(b, clock);
      DrainGrows(CommitFront(b, clock), clock);
      CommitFrontKeepsQueue(b, clock);
      var p, e := PopFront(b), b.queue[0];
      PopDeadlines(b, fired, timeouts);
      CommitDeadlines(p, e.Event(), e.Now(), e.Replies(), clock, fired, timeouts);
      DrainDeadlines(CommitFront(b, clock), clock, fired, timeouts);
    }
  }

  lemma {:induction false} PopDeadlines(b: Brain, fired: set<Timer>, timeouts: set<Timer>)
    requires b.queue != [] && Ordered(b.committed, b.queue, b.nextTurnId) && DeadlinesOk(b, fired, timeouts)
    ensures var p := PopFront(b);
            Ordered(p.committed, p.queue, p.nextTurnId) && DeadlinesOk(p, fired, timeouts)
  {
    hide SlotDeadlines, SlotOk;
    assert forall i :: 0 <= i < |b.queue| - 1 ==> b.queue[1..][i] == b.queue[i + 1];
  }

  // ── replies and timeouts ─────────────────────────────────────────────────

  /** Replacing one slot: the others keep their deadlines if theirs are untouched. */
  lemma {:induction false} SlotReplacedDeadlines(queue: seq<Entry>, i: nat, slot: Barrier, tells: seq<Tell>, aborted: set<Timer>,
                                                 fired: set<Timer>, timeouts: set<Timer>)
    requires EntriesOk(queue) && i < |queue| && SlotOk(slot)
    requires SlotDeadlines(slot, tells, aborted, fired, timeouts)
    requires forall j :: 0 <= j < |queue| && j != i && queue[j].Waiting? ==>
      EntryOk(queue[j]) && SlotDeadlines(queue[j].barrier, tells, aborted, fired, timeouts)
    ensures EntriesOk(queue[i := Waiting(slot)])
    ensures QueueDeadlines(queue[i := Waiting(slot)], tells, aborted, fired, timeouts)
  {
    hide SlotDeadlines, SlotOk;
    var q := queue[i := Waiting(slot)];
    forall j | 0 <= j < |q|
      ensures EntryOk(q[j]) && (q[j].Waiting? ==> SlotDeadlines(q[j].barrier, tells, aborted, fired, timeouts))
    {
      if j != i {
        assert q[j] == queue[j];
      }
    }
  }

  lemma {:induction false} ReplyDeadlines(b: Brain, i: nat, reply: ZoneReply, fired: set<Timer>, timeouts: set<Timer>)
    requires Ordered(b.committed, b.queue, b.nextTurnId) && DeadlinesOk(b, fired, timeouts) && i < |b.queue| && b.queue[i].Waiting?
    ensures DeadlinesOk(ReplyAt(b, i, EventZone(b.queue[i].barrier.event), reply), fired, timeouts)
  {
    var slot := b.queue[i].barrier;
    var zone := EventZone(slot.event);
    assert EntryOk(b.queue[i]) && SlotDeadlines(slot, b.tells, b.aborted, fired, timeouts);
    var aborted := b.aborted + slot.AbortedBy(zone);
    assert slot.AbortedBy(zone) <= {CurrentTimer(slot)};
    assert SlotDeadlines(slot.ActOnZoneReply(zone, reply), b.tells, aborted, fired, timeouts);
    forall j | 0 <= j < |b.queue| && j != i && b.queue[j].Waiting?
      ensures EntryOk(b.queue[j]) && SlotDeadlines(b.queue[j].barrier, b.tells, aborted, fired, timeouts)
    {
      assert EntryOk(b.queue[j]);
      assert b.queue[j].TurnId() != b.queue[i].TurnId();
    }
    SlotReplacedDeadlines(b.queue, i, slot.ActOnZoneReply(zone, reply), b.tells, aborted, fired, timeouts);
  }

  lemma {:induction false} ReadyDeadlines(b: Brain, zone: AssemblyId, turnId: u64, attempt: u32, reply: ZoneReply,
                                          fired: set<Timer>, timeouts: set<Timer>)
    requires Ordered(b.committed, b.queue, b.nextTurnId) && DeadlinesOk(b, fired, timeouts)
    ensures DeadlinesOk(OnZoneReady(b, zone, turnId, attempt, reply), fired, timeouts)
  {
    hide ReplyAt, QueueDeadlines, ToldOk;
    var i := FindWaiting(b, turnId);
    if i.Some? && b.queue[i.value].barrier.TellAttemptMatches(zone, attempt) {
      assert EntryOk(b.queue[i.value]);
      ReplyDeadlines(b, i.value, reply, fired, timeouts);
    }
  }

  /** A handled timeout is for the slot's current attempt: the mismatch branches never run. */
  lemma {:induction false} TimeoutIsCurrent(b: Brain, i: nat, timer: Timer, fired: set<Timer>, timeouts: set<Timer>)
    requires DeadlinesOk(b, fired, timeouts) && timer in timeouts
    requires i < |b.queue| && b.queue[i].Waiting? && b.queue[i].barrier.turnId == timer.turnId
    ensures EntryOk(b.queue[i]) && timer == CurrentTimer(b.queue[i].barrier)
    ensures var s := b.queue[i].barrier; s.Retries(timer.zone, timer.attempt) <==> timer.attempt < ZONE_TELL_BACK_MAX_RETRIES
  {
    assert EntryOk(b.queue[i]);
    assert SlotDeadlines(b.queue[i].barrier, b.tells, b.aborted, fired, timeouts);
    assert timer in ArmedBy(b.tells);
  }

  lemma {:induction false} RetrySlotDeadlines(s: Barrier, tells: seq<Tell>, aborted: set<Timer>, fired: set<Timer>, timeouts: set<Timer>)
    requires SlotOk(s) && SlotDeadlines(s, tells, aborted, fired, timeouts)
    requires timeouts <= fired <= ArmedBy(tells) && aborted <= ArmedBy(tells)
    requires CurrentTimer(s) in timeouts && s.Retries(CurrentTimer(s).zone, CurrentTimer(s).attempt)
    ensures var zone, attempt := CurrentTimer(s).zone, CurrentTimer(s).attempt;
            var next := s.ActOnZoneTimeout(zone, attempt).StoreRetryTimer(zone, Timer(zone, s.turnId, NextAttempt(attempt)));
            && SlotOk(next)
            && CurrentTimer(next) == Timer(zone, s.turnId, attempt + 1)
            && attempt + 1 <= ZONE_TELL_BACK_MAX_RETRIES
            && SlotDeadlines(next, tells + [Tell(zone, s.turnId, NextAttempt(attempt), s.messages[zone], s.now)],
                             aborted, fired, timeouts - {CurrentTimer(s)})
  {
    var zone, attempt := CurrentTimer(s).zone, CurrentTimer(s).attempt;
    TimedOutSlotOk(s, zone, attempt);
    TellAppended(tells, Tell(zone, s.turnId, NextAttempt(attempt), s.messages[zone], s.now));
  }

  /** Receiving one timeout does not touch the deadlines of another turn's slot. */
  lemma {:induction false} OtherTimeout(s: Barrier, timer: Timer, tells: seq<Tell>, aborted: set<Timer>, fired: set<Timer>, timeouts: set<Timer>)
    requires SlotOk(s) && SlotDeadlines(s, tells, aborted, fired, timeouts) && timer.turnId != s.turnId
    ensures SlotDeadlines(s, tells, aborted, fired, timeouts - {timer})
  {
  }

  lemma {:induction false} RetryDeadlines(b: Brain, i: nat, timer: Timer, fired: set<Timer>, timeouts: set<Timer>)
    requires Ordered(b.committed, b.queue, b.nextTurnId) && DeadlinesOk(b, fired, timeouts) && timer in timeouts
    requires i < |b.queue| && b.queue[i].Waiting? && b.queue[i].barrier.turnId == timer.turnId
    requires b.queue[i].barrier.Retries(timer.zone, timer.attempt)
    ensures DeadlinesOk(RetryAt(b, i, timer.zone, timer.attempt), fired, timeouts - {timer})
  {
    hide SlotDeadlines, SlotOk;
    TimeoutIsCurrent(b, i, timer, fired, timeouts);
    var slot := b.queue[i].barrier;
    var zone, attempt := timer.zone, timer.attempt;
    RetrySlotDeadlines(slot, b.tells, b.aborted, fired, timeouts);
    var next := slot.ActOnZoneTimeout(zone, attempt).StoreRetryTimer(zone, Timer(zone, slot.turnId, NextAttempt(attempt)));
    assert zone in slot.messages by { MessageStored(slot); }
    var tell := Tell(zone, slot.turnId, NextAttempt(attempt), slot.messages[zone], slot.now);
    TellAppended(b.tells, tell);
    forall j | 0 <= j < |b.queue| && j != i && b.queue[j].Waiting?
      ensures EntryOk(b.queue[j]) && SlotDeadlines(b.queue[j].barrier, b.tells + [tell], b.aborted, fired, timeouts - {timer})
    {
      assert EntryOk(b.queue[j]);
      assert b.queue[j].TurnId() != b.queue[i].TurnId();
      OtherTell(b.queue[j].barrier, b.tells, tell, b.aborted, fired, timeouts);
      OtherTimeout(b.queue[j].barrier, timer, b.tells + [tell], b.aborted, fired, timeouts);
    }
    SlotReplacedDeadlines(b.queue, i, next, b.tells + [tell], b.aborted, fired, timeouts - {timer});
    assert RetryAt(b, i, zone, attempt).queue == b.queue[i := Waiting(next)];
    RetryCount(slot, b.tells, b.aborted, fired, timeouts);
  }

  lemma {:induction false} MessageStored(s: Barrier)
    requires SlotOk(s)
    ensures EventZone(s.event) in s.messages && EventZone(s.event) in s.waits
  {
  }

  lemma {:induction false} RetryCount(s: Barrier, tells: seq<Tell>, aborted: set<Timer>, fired: set<Timer>, timeouts: set<Timer>)
    requires SlotOk(s) && SlotDeadlines(s, tells, aborted, fired, timeouts)
    requires s.Retries(CurrentTimer(s).zone, CurrentTimer(s).attempt)
    ensures CountTells(tells, s.turnId) <= ZONE_TELL_BACK_MAX_RETRIES
  {
  }

  lemma {:induction false} GiveUpDeadlines(b: Brain, i: nat, timer: Timer, fired: set<Timer>, timeouts: set<Timer>)
    requires Ordered(b.committed, b.queue, b.nextTurnId) && DeadlinesOk(b, fired, timeouts) && timer in timeouts
    requires i < |b.queue| && b.queue[i].Waiting? && b.queue[i].barrier.turnId == timer.turnId
    requires !b.queue[i].barrier.Retries(timer.zone, timer.attempt)
    ensures DeadlinesOk(GiveUpAt(b, i, timer.zone, timer.attempt), fired, timeouts - {timer})
  {
    TimeoutIsCurrent(b, i, timer, fired, timeouts);
    var slot := b.queue[i].barrier;
    assert SlotDeadlines(slot, b.tells, b.aborted, fired, timeouts);
    var next := slot.ActOnZoneTimeout(timer.zone, timer.attempt).ActOnZoneReply(timer.zone, SyntheticReplyFor(b.ctx, timer.zone));
    assert SlotOk(next) && SlotDeadlines(next, b.tells, b.aborted, fired, timeouts - {timer});
    GiveUpShape(b, i, timer.zone, timer.attempt);
    hide SlotDeadlines, SlotOk;
    forall j | 0 <= j < |b.queue| && j != i && b.queue[j].Waiting?
      ensures EntryOk(b.queue[j]) && SlotDeadlines(b.queue[j].barrier, b.tells, b.aborted, fired, timeouts - {timer})
    {
      assert EntryOk(b.queue[j]);
      assert b.queue[j].TurnId() != b.queue[i].TurnId();
      OtherTimeout(b.queue[j].barrier, timer, b.tells, b.aborted, fired, timeouts);
    }
    SlotReplacedDeadlines(b.queue, i, next, b.tells, b.aborted, fired, timeouts - {timer});
  }

  /** Giving up aborts nothing: the only handle there was has just gone off. */
  lemma {:induction false} GiveUpShape(b: Brain, i: nat, zone: AssemblyId, attempt: u32)
    requires i < |b.queue| && b.queue[i].Waiting? && !b.queue[i].barrier.Retries(zone, attempt)
    ensures GiveUpAt(b, i, zone, attempt)
            == b.(queue := b.queue[i := Waiting(b.queue[i].barrier.ActOnZoneTimeout(zone, attempt)
                                                .ActOnZoneReply(zone, SyntheticReplyFor(b.ctx, zone)))])
  {
    var fired := TimedOutAt(b, i, zone, attempt);
    assert fired.queue[i].barrier.AbortedBy(zone) == {};
    assert b.aborted + {} == b.aborted;
    var last := Waiting(fired.queue[i].barrier.ActOnZoneReply(zone, SyntheticReplyFor(b.ctx, zone)));
    assert b.queue[i := fired.queue[i]][i := last] == b.queue[i := last];
  }

  lemma {:induction false} UnqueuedTimeout(b: Brain, timer: Timer, fired: set<Timer>, timeouts: set<Timer>)
    requires DeadlinesOk(b, fired, timeouts)
    requires forall i :: 0 <= i < |b.queue| && b.queue[i].Waiting? ==> b.queue[i].barrier.turnId != timer.turnId
    ensures DeadlinesOk(b, fired, timeouts - {timer})
  {
    hide SlotDeadlines, SlotOk;
    forall j | 0 <= j < |b.queue| && b.queue[j].Waiting?
      ensures EntryOk(b.queue[j]) && SlotDeadlines(b.queue[j].barrier, b.tells, b.aborted, fired, timeouts - {timer})
    {
      assert EntryOk(b.queue[j]);
      OtherTimeout(b.queue[j].barrier, timer, b.tells, b.aborted, fired, timeouts);
    }
  }

  /** With distinct turn ids, a missing waiting slot is missing everywhere. */
  lemma {:induction false} NotFound(b: Brain, turnId: u64)
    requires Ordered(b.committed, b.queue, b.nextTurnId) && FindWaiting(b, turnId).None?
    ensures forall i :: 0 <= i < |b.queue| && b.queue[i].Waiting? ==> b.queue[i].barrier.turnId != turnId
  {
    var k := Find(b.queue, turnId);
    forall i | 0 <= i < |b.queue| && b.queue[i].TurnId() == turnId
      ensures i == k
    {
      assert k <= i;
    }
  }

  lemma {:induction false} TimeoutDeadlines(b: Brain, timer: Timer, fired: set<Timer>, timeouts: set<Timer>)
    requires QueueOk(b) && DeadlinesOk(b, fired, timeouts) && timer in timeouts
    ensures QueueOk(OnZoneTimeout(b, timer.zone, timer.turnId, timer.attempt))
    ensures DeadlinesOk(OnZoneTimeout(b, timer.zone, timer.turnId, timer.attempt), fired, timeouts - {timer})
  {
    hide DeadlinesOk, RetryAt, GiveUpAt, SlotOk, Ordered, EntriesOk, CountdownOk, HistoryOk;
    var i := FindWaiting(b, timer.turnId);
    if i.None? {
      NotFound(b, timer.turnId);
      UnqueuedTimeout(b, timer, fired, timeouts);
    } else {
      TimeoutIsCurrent(b, i.value, timer, fired, timeouts);
      if b.queue[i.value].barrier.Retries(timer.zone, timer.attempt) {
        RetryDeadlines(b, i.value, timer, fired, timeouts);
      } else {
        GiveUpDeadlines(b, i.value, timer, fired, timeouts);
      }
    }
    TimeoutKeeps(b, timer.zone, timer.turnId, timer.attempt);
  }

  lemma {:induction false} FireDeadlines(b: Brain, timer: Timer, fired: set<Timer>, timeouts: set<Timer>)
    requires DeadlinesOk(b, fired, timeouts) && timer in ArmedBy(b.tells) - b.aborted - fired
    ensures DeadlinesOk(b, fired + {timer}, timeouts + {timer})
  {
    hide SlotOk;
    forall j | 0 <= j < |b.queue| && b.queue[j].Waiting?
      ensures EntryOk(b.queue[j]) && SlotDeadlines(b.queue[j].barrier, b.tells, b.aborted, fired + {timer}, timeouts + {timer})
    {
      assert EntryOk(b.queue[j]);
      assert SlotDeadlines(b.queue[j].barrier, b.tells, b.aborted, fired, timeouts);
    }
  }

  /** In every pending slot exactly one deadline is outstanding: running, or gone off and not yet handled. */
  lemma {:induction false} OneDeadline(b: Brain, i: nat, fired: set<Timer>, timeouts: set<Timer>)
    requires DeadlinesOk(b, fired, timeouts)
    requires i < |b.queue| && b.queue[i].Waiting? && b.queue[i].barrier.pending != {}
    ensures EntryOk(b.queue[i])
    ensures var s := b.queue[i].barrier;
            var live := ArmedBy(b.tells) - b.aborted - fired;
            && live !! timeouts
            && (set t | t in live + timeouts && t.turnId == s.turnId) == {CurrentTimer(s)}
  {
    assert EntryOk(b.queue[i]);
    assert SlotDeadlines(b.queue[i].barrier, b.tells, b.aborted, fired, timeouts);
  }
}
