/** Every mailbox handler, followed by its drain, keeps the brain invariant. */
module HandlerSafety {
  import opened VehiclePhysics
  import opened Fsm
  import opened Zones
  import opened TwinTurn
  import opened TurnBarriers
  import opened BrainModel
  import opened Turns
  import opened Commits
  import opened BrainInvariants
  import opened BrainSafety
  import FrontHeadlamp

  // ── commits ──────────────────────────────────────────────────────────────

  lemma {:induction false} AdvanceByGrows(n: u64, k: nat)
    ensures n <= AdvanceBy(n, k)
    decreases k
  {
    if k > 0 {
      AdvanceByGrows(SaturatingSucc(n), k - 1);
    }
  }

  lemma {:induction false} CommitGrows(b: Brain, event: FsmEvent, now: Instant, replies: ZoneReplies, clock: Clock)
    ensures CountersGrow(b, CommitResolved(b, event, now, replies, clock))
  {
    hide Quiesce, TurnSummary, TurnTrace, Starts, Stops;
    CommitShape(b, event, now, replies, clock);
    var hops := Quiesce(b.state, b.ctx, event, now, replies);
    AdvanceByGrows(b.nextRecordSeq, |hops|);
  }

  /** The effect of one turn on the queue, which has already been popped if it is going to be. */
  lemma {:induction false} CommitKeepsQueue(b: Brain, event: FsmEvent, now: Instant, replies: ZoneReplies, clock: Clock)
    requires Ordered(b.committed, b.queue, b.nextTurnId) && EntriesOk(b.queue)
    requires CountdownDue(b.state, event, b.queue)
    requires CommitResolved(b, event, now, replies, clock).nextTurnId < U64_MAX
    ensures var b' := CommitResolved(b, event, now, replies, clock);
            && Ordered(b'.committed, b'.queue, b'.nextTurnId) && EntriesOk(b'.queue)
            && CountdownOk(b'.state, b'.queue)
            && b'.committed == b.committed
            && |b'.trace| > |b.trace| && b'.trace[..|b.trace|] == b.trace
            && b'.trace[|b.trace|].Row? && b'.trace[|b.trace|].record.event == event
  {
    hide Quiesce, TurnSummary, Ordered, EntriesOk, CountdownOk, Starts, Stops, CountdownDue;
    CommitShape(b, event, now, replies, clock);
    var hops := Quiesce(b.state, b.ctx, event, now, replies);
    TurnKeepsQueue(b, event, now, hops, clock);
    FirstRow(b.state, b.ctx, event, now, b.nextRecordSeq, hops);
  }

  /** The effect of one turn on the cut and the trace. */
  lemma {:induction false} CommitKeepsCut(b: Brain, event: FsmEvent, now: Instant, replies: ZoneReplies, clock: Clock)
    requires RemainingOk(b.state) && Awaited(b.state, event) && CutOk(b)
    requires CommitResolved(b, event, now, replies, clock).nextRecordSeq < U64_MAX
    ensures CutOk(CommitResolved(b, event, now, replies, clock))
  {
    hide Quiesce, TurnSummary, TraceOk, Starts, Stops, Awaited, RemainingOk;
    CommitShape(b, event, now, replies, clock);
    TurnKeepsTrace(b.state, b.ctx, event, now, b.trace, b.nextRecordSeq, Quiesce(b.state, b.ctx, event, now, replies));
  }

  lemma {:induction false} FirstRow(state: FsmState, ctx: VehicleContext, event: FsmEvent, now: Instant, first: u64, hops: seq<Hop>)
    requires TurnSummary(state, ctx, event, now, hops)
    ensures var t := TurnTrace(first, hops); |t| > 0 && t[0].Row? && t[0].record.event == event
  {
    hide Chained, AlternatesFrom, ModeStep, Hints;
    RowsOfTurn(first, hops);
    assert hops[0].result.record == RecordsOf(hops)[0];
  }

  lemma {:induction false} CommitFrontKeepsQueue(b: Brain, clock: Clock)
    requires FrontComplete(b) && QueueOk(b) && CommitFront(b, clock).nextTurnId < U64_MAX
    ensures QueueOk(CommitFront(b, clock))
  {
    hide CommitResolved;
    var e, p := b.queue[0], PopFront(b);
    PoppedCountdown(b);
    assert Ordered(p.committed, p.queue, p.nextTurnId) && EntriesOk(p.queue);
    assert EntryOk(e);
    CommitKeepsQueue(p, e.Event(), e.Now(), e.Replies(), clock);
    HistoryExtended(b.committed, b.trace, p.committed[|b.committed|], CommitFront(b, clock).trace);
  }

  lemma {:induction false} CommitFrontKeepsCut(b: Brain, clock: Clock)
    requires FrontComplete(b) && CountdownOk(b.state, b.queue) && CutOk(b) && CommitFront(b, clock).nextRecordSeq < U64_MAX
    ensures CutOk(CommitFront(b, clock))
  {
    hide CommitResolved, TraceOk, CountdownOk, RemainingOk, Awaited;
    var e := b.queue[0];
    PoppedCountdown(b);
    CommitKeepsCut(PopFront(b), e.Event(), e.Now(), e.Replies(), clock);
  }

  lemma {:induction false} HistoryExtended(committed: seq<Commit>, trace: seq<Effect>, c: Commit, trace': seq<Effect>)
    requires HistoryOk(committed, trace) && c.at == |trace|
    requires |trace'| > |trace| && trace'[..|trace|] == trace
    requires trace'[c.at].Row? && trace'[c.at].record.event == c.event
    requires c.told ==> EventZone(c.event) in c.replies
    ensures HistoryOk(committed + [c], trace')
  {
    forall i | 0 <= i < |committed|
      ensures trace'[committed[i].at] == trace[committed[i].at]
    {
      assert trace'[..|trace|][committed[i].at] == trace[committed[i].at];
    }
  }

  lemma {:induction false} PoppedCountdown(b: Brain)
    requires b.queue != [] && CountdownOk(b.state, b.queue)
    ensures CountdownDue(b.state, b.queue[0].Event(), b.queue[1..])
  {
    hide Outstanding;
    assert b.queue == [b.queue[0]] + b.queue[1..];
    CollectConcat([b.queue[0]], b.queue[1..], LifecycleZone);
    CollectOne(b.queue[0], LifecycleZone);
  }

  lemma {:induction false} SpontaneousKeepsQueue(b: Brain, direction: SwitchDirection, cause: IncompleteCause,
                                                 reply: FrontHeadlamp.HeadlampZoneReply, now: Instant, clock: Clock)
    requires QueueOk(b) && OnZoneSpontaneous(b, direction, cause, reply, now, clock).nextTurnId < U64_MAX
    ensures QueueOk(OnZoneSpontaneous(b, direction, cause, reply, now, clock))
  {
    hide CommitResolved;
    var b' := OnZoneSpontaneous(b, direction, cause, reply, now, clock);
    CommitKeepsQueue(b, FrontHeadlampActuationIncomplete(direction, cause), now,
                     map[HeadlampAssembly := ZoneReply.FromHeadlamp(reply)], clock);
    HistoryFramed(b.committed, b.trace, b'.trace);
  }

  lemma {:induction false} SpontaneousKeepsCut(b: Brain, direction: SwitchDirection, cause: IncompleteCause,
                                               reply: FrontHeadlamp.HeadlampZoneReply, now: Instant, clock: Clock)
    requires RemainingOk(b.state) && CutOk(b)
    requires OnZoneSpontaneous(b, direction, cause, reply, now, clock).nextRecordSeq < U64_MAX
    ensures CutOk(OnZoneSpontaneous(b, direction, cause, reply, now, clock))
  {
    hide CommitResolved, TraceOk, RemainingOk;
    CommitKeepsCut(b, FrontHeadlampActuationIncomplete(direction, cause), now,
                   map[HeadlampAssembly := ZoneReply.FromHeadlamp(reply)], clock);
  }

  lemma {:induction false} HistoryFramed(committed: seq<Commit>, trace: seq<Effect>, trace': seq<Effect>)
    requires HistoryOk(committed, trace) && |trace'| >= |trace| && trace'[..|trace|] == trace
    ensures HistoryOk(committed, trace')
  {
    forall i | 0 <= i < |committed|
      ensures trace'[committed[i].at] == trace[committed[i].at]
    {
      assert trace'[..|trace|][committed[i].at] == trace[committed[i].at];
    }
  }

  // ── the drain ────────────────────────────────────────────────────────────

  lemma {:induction false} DrainGrows(b: Brain, clock: Clock)
    ensures CountersGrow(b, Drain(b, clock))
    decreases CompletePrefix(b.queue)
  {
    hide CommitResolved;
    if FrontComplete(b) {
      CommitFrontProgress(b, clock);
      CommitGrows(PopFront(b), b.queue[0].Event(), b.queue[0].Now(), b.queue[0].Replies(), clock);
      DrainGrows(CommitFront(b, clock), clock);
    }
  }

  lemma {:induction false} DrainKeepsQueue(b: Brain, clock: Clock)
    requires QueueOk(b) && Drain(b, clock).nextTurnId < U64_MAX
    ensures QueueOk(Drain(b, clock))
    decreases CompletePrefix(b.queue)
  {
    hide CommitFront, QueueOk;
    if FrontComplete(b) {
      CommitFrontProgress(b, clock);
      DrainGrows(CommitFront(b, clock), clock);
      CommitFrontKeepsQueue(b, clock);
      DrainKeepsQueue(CommitFront(b, clock), clock);
    }
  }

  lemma {:induction false} DrainKeepsCut(b: Brain, clock: Clock)
    requires QueueOk(b) && CutOk(b) && Unsaturated(Drain(b, clock))
    ensures CutOk(Drain(b, clock))
    decreases CompletePrefix(b.queue)
  {
    hide CommitFront, CutOk, Ordered, EntriesOk, CountdownOk, HistoryOk;
    if FrontComplete(b) {
      CommitFrontProgress(b, clock);
      DrainGrows(CommitFront(b, clock), clock);
      CommitFrontKeepsQueue(b, clock);
      CommitFrontKeepsCut(b, clock);
      DrainKeepsCut(CommitFront(b, clock), clock);
    }
  }

  /** After a drain nothing that could be committed is left. */
  lemma {:induction false} DrainSettles(b: Brain, clock: Clock)
    ensures !FrontComplete(Drain(b, clock))
    decreases CompletePrefix(b.queue)
  {
    hide CommitFront;
    if FrontComplete(b) {
      CommitFrontProgress(b, clock);
      DrainSettles(CommitFront(b, clock), clock);
    }
  }

  // ── arrivals, replies and deadlines ──────────────────────────────────────

  lemma {:induction false} BeginKeeps(b: Brain, event: FsmEvent, now: Instant)
    requires QueueOk(b) && !event.AssemblyZoneReady? && b.nextTurnId < U64_MAX
    ensures QueueOk(BeginFsmTurn(b, event, now))
  {
    hide HistoryOk, LifecycleZones, Outstanding, Ordered, EntriesOk;
    match ZoneMessageForEvent(event, b.state)
    case Route(zone, message) =>
      WaitingPushed(b, event, zone, message, now);
      var q := PushWaiting(b, event, zone, message, now).queue;
      assert forall i :: 0 <= i < |b.queue| ==> q[i] == b.queue[i];
    case NoZone =>
      PassthroughPushed(b, event, now);
      var q := PushPassthrough(b, event, now).queue;
      assert forall i :: 0 <= i < |b.queue| ==> q[i] == b.queue[i];
  }

  /** Replacing a slot by a well-formed one for the same turn, event and messages changes no invariant. */
  lemma {:induction false} SlotReplaced(b: Brain, i: nat, slot: Barrier)
    requires QueueOk(b) && i < |b.queue| && b.queue[i].Waiting?
    requires SlotOk(slot)
    requires var old_ := b.queue[i].barrier;
             slot.turnId == old_.turnId && slot.event == old_.event && slot.messages == old_.messages
    ensures QueueOk(b.(queue := b.queue[i := Waiting(slot)]))
  {
    hide HistoryOk, Outstanding, SlotOk;
    var q := b.queue[i := Waiting(slot)];
    SameLifecycle(b.queue, q);
    forall j | 0 <= j < |q| && q[j].Event().AssemblyZoneReady?
      ensures q[j].Waiting? && q[j].Event().assembly in q[j].barrier.messages
      ensures q[j].barrier.messages[q[j].Event().assembly]
              == LifecycleMessage(q[j].Event().assembly, b.state.PreparingToStart?)
    {
      assert b.queue[j].Event().AssemblyZoneReady?;
    }
  }

  lemma {:induction false} SameLifecycle(q: seq<Entry>, q': seq<Entry>)
    requires |q| == |q'| && forall i :: 0 <= i < |q| ==> q[i].Event() == q'[i].Event()
    ensures LifecycleZones(q) == LifecycleZones(q')
  {
    if q != [] {
      SameLifecycle(q[1..], q'[1..]);
    }
  }

  lemma {:induction false} ReplyAtKeeps(b: Brain, i: nat, zone: AssemblyId, reply: ZoneReply)
    requires QueueOk(b) && i < |b.queue| && b.queue[i].Waiting?
    requires zone == EventZone(b.queue[i].barrier.event)
    ensures QueueOk(ReplyAt(b, i, zone, reply))
  {
    hide HistoryOk, CountdownOk, Ordered;
    var slot := b.queue[i].barrier;
    assert EntryOk(b.queue[i]);
    assert SlotOk(slot.ActOnZoneReply(zone, reply));
    SlotReplaced(b, i, slot.ActOnZoneReply(zone, reply));
  }

  lemma {:induction false} TimedOutSlotOk(s: Barrier, zone: AssemblyId, attempt: u32)
    requires SlotOk(s) && zone == EventZone(s.event) && s.Retries(zone, attempt)
    ensures SlotOk(s.ActOnZoneTimeout(zone, attempt).StoreRetryTimer(zone, Timer(zone, s.turnId, NextAttempt(attempt))))
  {
  }

  lemma {:induction false} RetryAtKeeps(b: Brain, i: nat, zone: AssemblyId, attempt: u32)
    requires QueueOk(b) && i < |b.queue| && b.queue[i].Waiting? && b.queue[i].barrier.Retries(zone, attempt)
    requires zone == EventZone(b.queue[i].barrier.event)
    ensures QueueOk(RetryAt(b, i, zone, attempt))
  {
    hide HistoryOk, CountdownOk, Ordered;
    var slot := b.queue[i].barrier;
    assert EntryOk(b.queue[i]);
    TimedOutSlotOk(slot, zone, attempt);
    var next := slot.ActOnZoneTimeout(zone, attempt).StoreRetryTimer(zone, Timer(zone, slot.turnId, NextAttempt(attempt)));
    SlotReplaced(b, i, next);
    assert RetryAt(b, i, zone, attempt).queue == b.queue[i := Waiting(next)];
  }

  lemma {:induction false} GiveUpAtKeeps(b: Brain, i: nat, zone: AssemblyId, attempt: u32)
    requires QueueOk(b) && i < |b.queue| && b.queue[i].Waiting? && !b.queue[i].barrier.Retries(zone, attempt)
    requires zone == EventZone(b.queue[i].barrier.event)
    ensures QueueOk(GiveUpAt(b, i, zone, attempt))
  {
    hide HistoryOk, CountdownOk, Ordered;
    var slot := b.queue[i].barrier;
    assert EntryOk(b.queue[i]);
    var next := slot.ActOnZoneTimeout(zone, attempt).ActOnZoneReply(zone, SyntheticReplyFor(b.ctx, zone));
    assert SlotOk(next);
    SlotReplaced(b, i, next);
    assert GiveUpAt(b, i, zone, attempt).queue == b.queue[i := Waiting(next)];
  }

  lemma {:induction false} ReadyKeeps(b: Brain, zone: AssemblyId, turnId: u64, attempt: u32, reply: ZoneReply)
    requires QueueOk(b)
    ensures QueueOk(OnZoneReady(b, zone, turnId, attempt, reply))
  {
    hide HistoryOk, CountdownOk, Ordered, ReplyAt;
    var i := FindWaiting(b, turnId);
    if i.Some? && b.queue[i.value].barrier.TellAttemptMatches(zone, attempt) {
      assert EntryOk(b.queue[i.value]);
      ReplyAtKeeps(b, i.value, zone, reply);
    }
  }

  lemma {:induction false} TimeoutKeeps(b: Brain, zone: AssemblyId, turnId: u64, attempt: u32)
    requires QueueOk(b)
    requires var i := FindWaiting(b, turnId); i.Some? ==> zone == EventZone(b.queue[i.value].barrier.event)
    ensures QueueOk(OnZoneTimeout(b, zone, turnId, attempt))
  {
    hide QueueOk, RetryAt, GiveUpAt;
    var i := FindWaiting(b, turnId);
    if i.Some? {
      if b.queue[i.value].barrier.Retries(zone, attempt) {
        RetryAtKeeps(b, i.value, zone, attempt);
      } else {
        GiveUpAtKeeps(b, i.value, zone, attempt);
      }
    }
  }
}
