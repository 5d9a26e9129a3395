/**
 * Where committed replies come from: over every run, silent twinlets and re-tells included, a reply is the
 * zone handler's answer to a tell of that very turn, or the synthetic reply of a slot that gave up.
 */
module AnswerLaws {
  import opened VehiclePhysics
  import opened Fsm
  import opened Zones
  import opened TwinTurn
  import opened TurnBarriers
  import opened BrainModel
  import opened Turns
  import opened Commits
  import opened BrainInvariants
  import opened HandlerSafety
  import opened Twinlets
  import opened Plant
  import opened Deadlines
  import opened Reachability
  import opened TurnOrder
  import opened RowLaws
  import opened HandlerLaws
  import FrontHeadlamp
  import Wiper

  /** The zone's handler, in some state, makes this reply of the tell. */
  ghost predicate IsAnswerTo(reply: ZoneReply, tell: Tell) {
    match tell.message
    case ToHeadlamp(msg) =>
      reply.FromHeadlamp? && exists ctx :: reply.headlamp == FrontHeadlamp.OnReceivingMessage(ctx, msg, tell.now)
    case ToWiper(msg) =>
      reply.FromWiper? && exists ctx :: reply.wiper == Wiper.OnReceivingMessage(ctx, msg)
  }

  /** A synthetic reply does nothing but warn. */
  predicate GaveUp(zone: AssemblyId, reply: ZoneReply) {
    match zone
    case HeadlampAssembly => reply.FromHeadlamp? && reply.headlamp.outcomes == [FrontHeadlamp.LogWarning(FrontHeadlamp.Unresponsive)]
    case WiperAssembly => reply.FromWiper? && reply.wiper.outcomes == [Wiper.LogUnresponsive]
  }

  ghost predicate Answered(tells: seq<Tell>, zone: AssemblyId, turnId: u64, reply: ZoneReply) {
    exists k: nat :: k < |tells| && tells[k].zone == zone && tells[k].turnId == turnId && IsAnswerTo(reply, tells[k])
  }

  /** A tell-back on its way answers a tell of its turn and attempt. */
  ghost predicate MessageFounded(tells: seq<Tell>, m: ReadyMsg) {
    exists k: nat :: k < |tells| && TimerOf(tells[k]) == Timer(m.zone, m.turnId, m.attempt) && IsAnswerTo(m.reply, tells[k])
  }

  ghost predicate RepliesFounded(tells: seq<Tell>, turnId: u64, replies: ZoneReplies) {
    forall zone :: zone in replies ==> GaveUp(zone, replies[zone]) || Answered(tells, zone, turnId, replies[zone])
  }

  /** A tell carries its turn's stamp, and what the turn's event says to the one zone it concerns. */
  ghost predicate TellsFit(tells: seq<Tell>, turns: seq<Turn>) {
    forall k :: 0 <= k < |tells| ==>
      && 1 <= tells[k].turnId <= |turns|
      && var turn := turns[tells[k].turnId - 1];
      && tells[k].now == turn.now && tells[k].zone == EventZone(turn.event) && MessageFits(turn.event, tells[k].message)
  }

  ghost predicate BrainFounded(b: Brain) {
    && TellsFit(b.tells, TurnsOf(b))
    && (forall i :: 0 <= i < |b.queue| ==> RepliesFounded(b.tells, b.queue[i].TurnId(), b.queue[i].Replies()))
    && (forall i :: 0 <= i < |b.committed| ==> RepliesFounded(b.tells, b.committed[i].turnId, b.committed[i].replies))
  }

  /** A report on its way is what the handler makes of an overdue wait. */
  ghost predicate ReportFounded(msg: SpontaneousMsg) {
    && msg.cause == FrontHeadlamp.TimedOut
    && exists ctx, now ::
         msg.reply == FrontHeadlamp.OnReceivingMessage(ctx, FrontHeadlamp.ActuationIncomplete(msg.direction, FrontHeadlamp.TimedOut), now)
  }

  ghost predicate SystemFounded(s: System) {
    && BrainFounded(s.brain)
    && (forall m :: m in s.ready ==> MessageFounded(s.brain.tells, m))
    && (forall i :: 0 <= i < |s.spontaneous| ==> ReportFounded(s.spontaneous[i]))
  }

  /** The next turn id is the next place in the order. */
  predicate Counted(b: Brain) {
    b.nextTurnId == |b.committed| + |b.queue| + 1
  }

  lemma {:induction false} FoundedStays(tells: seq<Tell>, more: seq<Tell>, turnId: u64, replies: ZoneReplies)
    requires tells <= more && RepliesFounded(tells, turnId, replies)
    ensures RepliesFounded(more, turnId, replies)
  {
    forall zone | zone in replies && Answered(tells, zone, turnId, replies[zone]) ensures Answered(more, zone, turnId, replies[zone]) {
      AnsweredStays(tells, more, zone, turnId, replies[zone]);
    }
  }

  lemma {:induction false} AnsweredStays(tells: seq<Tell>, more: seq<Tell>, zone: AssemblyId, turnId: u64, reply: ZoneReply)
    requires tells <= more && Answered(tells, zone, turnId, reply)
    ensures Answered(more, zone, turnId, reply)
  {
    var k: nat :| k < |tells| && tells[k].zone == zone && tells[k].turnId == turnId && IsAnswerTo(reply, tells[k]);
    assert more[k] == tells[k];
  }

  lemma {:induction false} MessageStays(tells: seq<Tell>, more: seq<Tell>, m: ReadyMsg)
    requires tells <= more && MessageFounded(tells, m)
    ensures MessageFounded(more, m)
  {
    var k: nat :| k < |tells| && TimerOf(tells[k]) == Timer(m.zone, m.turnId, m.attempt) && IsAnswerTo(m.reply, tells[k]);
    assert more[k] == tells[k];
  }

  lemma {:induction false} MessageAnswers(tells: seq<Tell>, m: ReadyMsg)
    requires MessageFounded(tells, m)
    ensures Answered(tells, m.zone, m.turnId, m.reply)
  {
    var k: nat :| k < |tells| && TimerOf(tells[k]) == Timer(m.zone, m.turnId, m.attempt) && IsAnswerTo(m.reply, tells[k]);
    assert tells[k].zone == m.zone;
  }

  /** Queueing one more entry, with or without a tell for it. */
  lemma {:induction false} EntryFounded(b: Brain, c: Brain, e: Entry)
    requires BrainFounded(b) && Counted(b) && c.queue == b.queue + [e] && c.committed == b.committed
    requires e.Replies() == map[]
    requires c.tells == b.tells
             || (|c.tells| == |b.tells| + 1 && b.tells <= c.tells
                 && c.tells[|b.tells|].turnId == b.nextTurnId && c.tells[|b.tells|].now == e.Now()
                 && c.tells[|b.tells|].zone == EventZone(e.Event()) && MessageFits(e.Event(), c.tells[|b.tells|].message))
    ensures BrainFounded(c)
  {
    hide RepliesFounded, MessageFits, EventZone;
    assert TurnsOf(c) == TurnsOf(b) + [Turn(e.Event(), e.Now())];
    forall i | 0 <= i < |c.queue| ensures RepliesFounded(c.tells, c.queue[i].TurnId(), c.queue[i].Replies()) {
      if i < |b.queue| {
        FoundedStays(b.tells, c.tells, b.queue[i].TurnId(), b.queue[i].Replies());
      } else {
        NothingToFound(c.tells, e.TurnId());
      }
    }
    CommitsStayFounded(b, c);
  }

  lemma {:induction false} NothingToFound(tells: seq<Tell>, turnId: u64)
    ensures RepliesFounded(tells, turnId, map[])
  {
  }

  lemma {:induction false} CommitsStayFounded(b: Brain, c: Brain)
    requires BrainFounded(b) && b.tells <= c.tells && c.committed == b.committed
    ensures forall i :: 0 <= i < |c.committed| ==> RepliesFounded(c.tells, c.committed[i].turnId, c.committed[i].replies)
  {
    hide RepliesFounded, TellsFit;
    forall i | 0 <= i < |c.committed| ensures RepliesFounded(c.tells, c.committed[i].turnId, c.committed[i].replies) {
      FoundedStays(b.tells, c.tells, b.committed[i].turnId, b.committed[i].replies);
    }
  }

  lemma {:induction false} PushFounded(b: Brain, event: FsmEvent, zone: AssemblyId, message: ZoneMessage, now: Instant)
    requires BrainFounded(b) && Counted(b) && b.nextTurnId < U64_MAX
    requires zone == EventZone(event) && MessageFits(event, message)
    ensures var c := PushWaiting(b, event, zone, message, now); BrainFounded(c) && Counted(c) && b.tells <= c.tells
  {
    hide BrainFounded, MessageFits, EventZone;
    var c := PushWaiting(b, event, zone, message, now);
    EntryFounded(b, c, c.queue[|b.queue|]);
  }

  lemma {:induction false} BeginFounded(b: Brain, event: FsmEvent, now: Instant)
    requires BrainFounded(b) && Counted(b) && b.nextTurnId < U64_MAX && !event.AssemblyZoneReady?
    ensures var c := BeginFsmTurn(b, event, now); BrainFounded(c) && b.tells <= c.tells
  {
    hide BrainFounded;
    match ZoneMessageForEvent(event, b.state)
    case Route(zone, message) => PushFounded(b, event, zone, message, now);
    case NoZone => EntryFounded(b, PushPassthrough(b, event, now), Passthrough(b.nextTurnId, event, now));
  }

  lemma {:induction false} CommitFounded(b: Brain, event: FsmEvent, now: Instant, replies: ZoneReplies, clock: Clock)
    requires BrainFounded(b) && Counted(b) && CommitResolved(b, event, now, replies, clock).nextTurnId < U64_MAX
    ensures var c := CommitResolved(b, event, now, replies, clock); BrainFounded(c) && b.tells <= c.tells
  {
    hide Quiesce, TurnSummary, TurnTrace, AdvanceBy, Starts, Stops, PushWaiting, TellsFit, RepliesFounded;
    CommitShape(b, event, now, replies, clock);
    var done := Committed(b, Quiesce(b.state, b.ctx, event, now, replies));
    assert TurnsOf(done) == TurnsOf(b);
    if Starts(b.state, b.ctx, event) {
      PushBothFounded(done, true, clock(done.nextTurnId));
    } else if Stops(b.state, event) {
      PushBothFounded(done, false, clock(done.nextTurnId));
    }
  }

  lemma {:induction false} PushBothFounded(b: Brain, starting: bool, now: Instant)
    requires BrainFounded(b) && Counted(b) && PushBoth(b, starting, now).nextTurnId < U64_MAX
    ensures var c := PushBoth(b, starting, now); BrainFounded(c) && b.tells <= c.tells
  {
    hide BrainFounded, NewBarrier;
    var headlamp := LifecycleMessage(HeadlampAssembly, starting);
    PushFounded(b, AssemblyZoneReady(HeadlampAssembly), HeadlampAssembly, headlamp, now);
    PushFounded(PushWaiting(b, AssemblyZoneReady(HeadlampAssembly), HeadlampAssembly, headlamp, now),
                AssemblyZoneReady(WiperAssembly), WiperAssembly, LifecycleMessage(WiperAssembly, starting), now);
  }

  lemma {:induction false} PopFounded(b: Brain)
    requires BrainFounded(b) && b.queue != []
    ensures BrainFounded(PopFront(b))
  {
    hide RepliesFounded, TellsFit;
    assert TurnsOf(PopFront(b)) == TurnsOf(b);
  }

  lemma {:induction false} DrainFounded(b: Brain, clock: Clock)
    requires BrainFounded(b) && QueueOk(b) && Drain(b, clock).nextTurnId < U64_MAX
    ensures BrainFounded(Drain(b, clock)) && b.tells <= Drain(b, clock).tells
    decreases CompletePrefix(b.queue)
  {
    hide CommitResolved, EntriesOk, CountdownOk, HistoryOk, BrainFounded;
    if FrontComplete(b) {
      var e := b.queue[0];
      CommitFrontProgress(b, clock);
      DrainGrows(CommitFront(b, clock), clock);
      CommitFrontKeepsQueue(b, clock);
      PopFounded(b);
      CommitFounded(PopFront(b), e.Event(), e.Now(), e.Replies(), clock);
      DrainFounded(CommitFront(b, clock), clock);
    }
  }

  /** Filing a founded reply in a slot. */
  lemma {:induction false} SlotFounded(b: Brain, c: Brain, i: nat)
    requires BrainFounded(b) && i < |b.queue| && b.queue[i].Waiting? && b.tells <= c.tells && c.committed == b.committed
    requires |c.queue| == |b.queue| && (forall j :: 0 <= j < |b.queue| && j != i ==> c.queue[j] == b.queue[j])
    requires c.queue[i].Event() == b.queue[i].Event() && c.queue[i].Now() == b.queue[i].Now()
    requires RepliesFounded(c.tells, c.queue[i].TurnId(), c.queue[i].Replies()) && TellsFit(c.tells, TurnsOf(b))
    ensures BrainFounded(c)
  {
    hide RepliesFounded, TellsFit;
    assert TurnsOf(c) == TurnsOf(b);
    forall j | 0 <= j < |c.queue| ensures RepliesFounded(c.tells, c.queue[j].TurnId(), c.queue[j].Replies()) {
      if j != i {
        FoundedStays(b.tells, c.tells, b.queue[j].TurnId(), b.queue[j].Replies());
      }
    }
    CommitsStayFounded(b, c);
  }

  lemma {:induction false} ReadyFounded(b: Brain, zone: AssemblyId, turnId: u64, attempt: u32, reply: ZoneReply)
    requires BrainFounded(b) && Answered(b.tells, zone, turnId, reply)
    ensures var c := OnZoneReady(b, zone, turnId, attempt, reply); BrainFounded(c) && c.tells == b.tells
  {
    hide TellsFit, Answered;
    var i := FindWaiting(b, turnId);
    if i.Some? && b.queue[i.value].barrier.TellAttemptMatches(zone, attempt) {
      assert RepliesFounded(b.tells, turnId, b.queue[i.value].Replies());
      SlotFounded(b, OnZoneReady(b, zone, turnId, attempt, reply), i.value);
    }
  }

  lemma {:induction false} QueuedTurn(b: Brain, i: nat)
    requires Ordered(b.committed, b.queue, b.nextTurnId) && i < |b.queue|
    ensures var id := b.queue[i].TurnId(); 1 <= id <= |TurnsOf(b)| && TurnsOf(b)[id - 1] == Turn(b.queue[i].Event(), b.queue[i].Now())
  {
    assert |b.committed| + i - |b.committed| == i;
  }

  lemma {:induction false} RetryFounded(b: Brain, i: nat, zone: AssemblyId, attempt: u32)
    requires BrainFounded(b) && QueueOk(b) && i < |b.queue| && b.queue[i].Waiting? && b.queue[i].barrier.Retries(zone, attempt)
    ensures var c := RetryAt(b, i, zone, attempt); BrainFounded(c) && b.tells <= c.tells
  {
    hide Answered, HistoryOk, CountdownOk, MessageFits, EventZone, TurnsOf;
    var slot, c := b.queue[i].barrier, RetryAt(b, i, zone, attempt);
    assert EntryOk(b.queue[i]);
    assert RepliesFounded(b.tells, slot.turnId, slot.replies) by { assert b.queue[i].Replies() == slot.replies; }
    QueuedTurn(b, i);
    FoundedStays(b.tells, c.tells, slot.turnId, slot.replies);
    hide BrainFounded, RepliesFounded;
    SlotFounded(b, c, i);
  }

  lemma {:induction false} GiveUpFounded(b: Brain, i: nat, zone: AssemblyId, attempt: u32)
    requires BrainFounded(b) && i < |b.queue| && b.queue[i].Waiting? && !b.queue[i].barrier.Retries(zone, attempt)
    ensures var c := GiveUpAt(b, i, zone, attempt); BrainFounded(c) && b.tells <= c.tells
  {
    hide Answered, TellsFit;
    var slot, c := b.queue[i].barrier, GiveUpAt(b, i, zone, attempt);
    assert RepliesFounded(b.tells, slot.turnId, slot.replies) by { assert b.queue[i].Replies() == slot.replies; }
    SlotFounded(b, c, i);
  }

  lemma {:induction false} TimeoutFounded(b: Brain, zone: AssemblyId, turnId: u64, attempt: u32)
    requires BrainFounded(b) && QueueOk(b)
    ensures var c := OnZoneTimeout(b, zone, turnId, attempt); BrainFounded(c) && b.tells <= c.tells
  {
    hide BrainFounded, QueueOk, RetryAt, GiveUpAt;
    var i := FindWaiting(b, turnId);
    if i.Some? {
      if b.queue[i.value].barrier.Retries(zone, attempt) {
        RetryFounded(b, i.value, zone, attempt);
      } else {
        GiveUpFounded(b, i.value, zone, attempt);
      }
    }
  }

  lemma {:induction false} SelectedIsFound<T>(s: seq<T>, p: T -> bool, i: nat) returns (k: nat)
    requires i < |Select(s, p)|
    ensures k < |s| && s[k] == Select(s, p)[i]
  {
    if p(s[0]) && i == 0 {
      k := 0;
    } else {
      k := SelectedIsFound(s[1..], p, if p(s[0]) then i - 1 else i);
      k := k + 1;
    }
  }

  /** A twinlet answers the tell it takes. */
  lemma {:induction false} WiperAnswers(s: System, answers: bool)
    requires SystemFounded(s) && s.wiperRead < |TellsToWiper(s.brain.tells)|
    ensures SystemFounded(WiperNext(s, answers))
  {
    hide BrainFounded, ReportFounded, Wiper.OnReceivingMessage;
    SelectedBy(s.brain.tells, ForWiper);
    var k := SelectedIsFound(s.brain.tells, ForWiper, s.wiperRead);
    TellOfItsZone(s.brain, k);
    forall m | m in WiperNext(s, answers).ready ensures MessageFounded(s.brain.tells, m) {
      if m !in s.ready {
        assert IsAnswerTo(m.reply, s.brain.tells[k]);
      }
    }
  }

  lemma {:induction false} HeadlampAnswers(s: System, answers: bool)
    requires SystemFounded(s) && s.headlampRead < |TellsToHeadlamp(s.brain.tells)|
    ensures SystemFounded(HeadlampNext(s, answers))
  {
    hide BrainFounded, ReportFounded, FrontHeadlamp.OnReceivingMessage;
    SelectedBy(s.brain.tells, ForHeadlamp);
    var k := SelectedIsFound(s.brain.tells, ForHeadlamp, s.headlampRead);
    TellOfItsZone(s.brain, k);
    forall m | m in HeadlampNext(s, answers).ready ensures MessageFounded(s.brain.tells, m) {
      if m !in s.ready {
        assert IsAnswerTo(m.reply, s.brain.tells[k]);
      }
    }
  }

  lemma {:induction false} TellOfItsZone(b: Brain, k: nat)
    requires BrainFounded(b) && k < |b.tells|
    ensures b.tells[k].zone == if b.tells[k].message.ToWiper? then WiperAssembly else HeadlampAssembly
  {
    hide RepliesFounded;
  }

  // ── every step, every run ────────────────────────────────────────────────

  /** Whatever the handler did, messages already on their way stay founded. */
  lemma {:induction false} BrainStepFounded(s: System, next: System)
    requires SystemFounded(s) && BrainFounded(next.brain) && s.brain.tells <= next.brain.tells
    requires next.ready <= s.ready
    requires forall i :: 0 <= i < |next.spontaneous| ==> ReportFounded(next.spontaneous[i])
    ensures SystemFounded(next)
  {
    hide BrainFounded, ReportFounded, MessageFounded;
    forall m | m in next.ready ensures MessageFounded(next.brain.tells, m) {
      assert m in s.ready;
      MessageStays(s.brain.tells, next.brain.tells, m);
    }
  }

  lemma {:induction false} BrainNextFounded(s: System, move: Move, clock: Clock)
    requires SystemFounded(s) && SystemOk(s) && Enabled(s, move) && Unsaturated(BrainNext(s, move, clock))
    ensures var c := BrainNext(s, move, clock); BrainFounded(c) && s.brain.tells <= c.tells
  {
    hide BrainFounded, Drain, BeginFsmTurn, OnZoneTimeout, OnZoneReady, CommitResolved, EntriesOk, CountdownOk, HistoryOk,
         DeadlinesOk, LiveTimers, TellsToWiper, TellsToHeadlamp;
    var b := s.brain;
    match move
    case Ingress(event, now) =>
      DrainGrows(BeginFsmTurn(b, event, now), clock);
      BeginGrows(b, event, now);
      BeginKeeps(b, event, now);
      BeginFounded(b, event, now);
      DrainFounded(BeginFsmTurn(b, event, now), clock);
    case DeliverReady(m) =>
      ReadyKeeps(b, m.zone, m.turnId, m.attempt, m.reply);
      MessageAnswers(b.tells, m);
      ReadyFounded(b, m.zone, m.turnId, m.attempt, m.reply);
      DrainFounded(OnZoneReady(b, m.zone, m.turnId, m.attempt, m.reply), clock);
    case DeliverTimeout(t) =>
      TimeoutDeadlines(b, t, s.fired, s.timeouts);
      TimeoutFounded(b, t.zone, t.turnId, t.attempt);
      DrainFounded(OnZoneTimeout(b, t.zone, t.turnId, t.attempt), clock);
    case DeliverSpontaneous(index, now) =>
      var m := s.spontaneous[index];
      var next := OnZoneSpontaneous(b, m.direction, m.cause, m.reply, now, clock);
      DrainGrows(next, clock);
      SpontaneousKeepsQueue(b, m.direction, m.cause, m.reply, now, clock);
      CommitFounded(b, FrontHeadlampActuationIncomplete(m.direction, m.cause), now,
                    map[HeadlampAssembly := ZoneReply.FromHeadlamp(m.reply)], clock);
      DrainFounded(next, clock);
    case _ =>
  }

  lemma {:induction false} NextFounded(s: System, move: Move, clock: Clock)
    requires SystemFounded(s) && SystemOk(s) && Enabled(s, move) && Unsaturated(Next(s, move, clock).brain)
    ensures SystemFounded(Next(s, move, clock))
  {
    hide BrainFounded, BrainNext, SystemOk, WiperNext, HeadlampNext, MessageFounded, FrontHeadlamp.OnReceivingMessage, LiveTimers,
         TellsToWiper, TellsToHeadlamp;
    match move
    case WiperTakes(answers) => WiperAnswers(s, answers);
    case HeadlampTakes(answers) => HeadlampAnswers(s, answers);
    case FireTimer(_) => BrainStepFounded(s, Next(s, move, clock));
    case FireAck(_) => BrainStepFounded(s, Next(s, move, clock));
    case HeadlampElapsed(_, _) => BrainStepFounded(s, Next(s, move, clock));
    case _ =>
      BrainNextFounded(s, move, clock);
      BrainStepFounded(s, Next(s, move, clock));
  }

  lemma {:induction false} RunFounded(s: System, moves: seq<Move>, clock: Clock)
    requires SystemFounded(s) && SystemOk(s) && ValidRun(s, moves, clock) && Unsaturated(Run(s, moves, clock).brain)
    ensures SystemFounded(Run(s, moves, clock))
    decreases |moves|
  {
    hide Next, Enabled, SystemOk, SystemFounded;
    if moves != [] {
      RunGrows(Next(s, moves[0], clock), moves[1..], clock);
      NextOk(s, moves[0], clock);
      NextFounded(s, moves[0], clock);
      RunFounded(Next(s, moves[0], clock), moves[1..], clock);
    }
  }

  lemma {:induction false} InitialFounded()
    ensures SystemFounded(INITIAL_SYSTEM)
  {
  }

  lemma {:induction false} ReachableFounded(s: System, clock: Clock)
    requires Reachable(s, clock)
    ensures SystemFounded(s)
  {
    hide SystemOk, SystemFounded;
    InitialOk();
    InitialFounded();
    var moves :| ValidRun(INITIAL_SYSTEM, moves, clock) && Run(INITIAL_SYSTEM, moves, clock) == s;
    RunFounded(INITIAL_SYSTEM, moves, clock);
  }

  lemma {:induction false} FitsIsConcern(event: FsmEvent, message: ZoneMessage)
    requires MessageFits(event, message)
    ensures if event.AssemblyZoneReady? then event.assembly == EventZone(event) else Concerns(event, EventZone(event), message)
  {
  }

  /** The zone's own answer to a tell of turn `c`, with the turn's stamp and what its event says to the zone. */
  ghost predicate AnswersTurn(tell: Tell, c: Commit, zone: AssemblyId) {
    && tell.turnId == c.turnId && tell.zone == zone && tell.now == c.now
    && zone in c.replies && IsAnswerTo(c.replies[zone], tell)
    && (if c.event.AssemblyZoneReady? then c.event.assembly == zone else Concerns(c.event, zone, tell.message))
  }

  lemma {:induction false} ListeningZone(event: FsmEvent)
    ensures EventZone(event) == if WiperListens(event) then WiperAssembly else HeadlampAssembly
  {
  }

  lemma {:induction false} CommittedTurn(b: Brain, i: nat)
    requires QueueOk(b) && i < |b.committed| && b.committed[i].told
    ensures var c := b.committed[i];
            && c.turnId == i + 1 && i < |TurnsOf(b)| && TurnsOf(b)[i] == Turn(c.event, c.now)
            && (if WiperListens(c.event) then WiperAssembly else HeadlampAssembly) in c.replies
  {
    hide EntriesOk, CountdownOk, EventZone, WiperListens;
    ListeningZone(b.committed[i].event);
  }

  lemma {:induction false} TellFits(b: Brain, k: nat, c: Commit)
    requires BrainFounded(b) && k < |b.tells|
    requires 1 <= b.tells[k].turnId <= |TurnsOf(b)| && TurnsOf(b)[b.tells[k].turnId - 1] == Turn(c.event, c.now)
    ensures b.tells[k].now == c.now && b.tells[k].zone == EventZone(c.event)
    ensures if c.event.AssemblyZoneReady? then c.event.assembly == b.tells[k].zone else Concerns(c.event, b.tells[k].zone, b.tells[k].message)
  {
    hide RepliesFounded, TurnsOf, Concerns, MessageFits, EventZone;
    FitsIsConcern(c.event, b.tells[k].message);
  }

  lemma {:induction false} CommitFoundation(b: Brain, i: nat)
    requires BrainFounded(b) && QueueOk(b) && i < |b.committed| && b.committed[i].told
    ensures var c := b.committed[i];
            var zone := if WiperListens(c.event) then WiperAssembly else HeadlampAssembly;
            && zone in c.replies
            && (GaveUp(zone, c.replies[zone]) || exists k: nat :: k < |b.tells| && AnswersTurn(b.tells[k], c, zone))
  {
    hide QueueOk, TurnsOf, IsAnswerTo, Concerns, TellsFit, EventZone, WiperListens;
    var c := b.committed[i];
    var zone := if WiperListens(c.event) then WiperAssembly else HeadlampAssembly;
    CommittedTurn(b, i);
    assert RepliesFounded(b.tells, c.turnId, c.replies);
    hide RepliesFounded;
    if !GaveUp(zone, c.replies[zone]) {
      assert Answered(b.tells, zone, c.turnId, c.replies[zone]) by { ReplyIsAnswer(b.tells, c.turnId, c.replies, zone); }
      var k: nat :| k < |b.tells| && b.tells[k].zone == zone && b.tells[k].turnId == c.turnId && IsAnswerTo(c.replies[zone], b.tells[k]);
      TellFits(b, k, c);
      assert AnswersTurn(b.tells[k], c, zone);
    }
  }

  lemma {:induction false} ReplyIsAnswer(tells: seq<Tell>, turnId: u64, replies: ZoneReplies, zone: AssemblyId)
    requires RepliesFounded(tells, turnId, replies) && zone in replies && !GaveUp(zone, replies[zone])
    ensures Answered(tells, zone, turnId, replies[zone])
  {
  }

  /**
   * In every reachable state, twinlets silent or not, deadlines met or not: a told turn was committed with
   * a reply of the zone that listens to it, and that is the handler's answer to a tell of this very turn, made with the
   * turn's stamp from what its event says to the zone, or a give-up that only warns.
   */
  lemma {:induction false} CommittedReplyAnswersItsTell(s: System, clock: Clock, i: nat)
    requires Reachable(s, clock) && i < |s.brain.committed| && s.brain.committed[i].told
    ensures var b, c := s.brain, s.brain.committed[i];
            var zone := if WiperListens(c.event) then WiperAssembly else HeadlampAssembly;
            && zone in c.replies
            && (GaveUp(zone, c.replies[zone]) || exists k: nat :: k < |b.tells| && AnswersTurn(b.tells[k], c, zone))
  {
    hide QueueOk, CutOk, DeadlinesOk, BrainFounded, Reachable;
    ReachableOk(s, clock);
    ReachableFounded(s, clock);
    CommitFoundation(s.brain, i);
  }

  /** In every reachable state a tell-back on its way is its zone's answer to the tell of that turn and attempt. */
  lemma {:induction false} TellBacksAnswerTheirTell(s: System, clock: Clock, m: ReadyMsg)
    requires Reachable(s, clock) && m in s.ready
    ensures exists k: nat :: k < |s.brain.tells|
              && s.brain.tells[k].zone == m.zone && s.brain.tells[k].turnId == m.turnId && s.brain.tells[k].attempt == m.attempt
              && IsAnswerTo(m.reply, s.brain.tells[k])
  {
    hide BrainFounded, IsAnswerTo, Reachable;
    ReachableFounded(s, clock);
    assert MessageFounded(s.brain.tells, m);
    var k: nat :| k < |s.brain.tells| && TimerOf(s.brain.tells[k]) == Timer(m.zone, m.turnId, m.attempt) && IsAnswerTo(m.reply, s.brain.tells[k]);
    assert s.brain.tells[k].zone == m.zone;
  }

  /** What the brain hears unasked is always an overdue wait, worked off by the zone's own handler. */
  lemma {:induction false} ReportsAreOverdueWaits(s: System, clock: Clock, i: nat)
    requires Reachable(s, clock) && i < |s.spontaneous|
    ensures var m := s.spontaneous[i];
            && m.cause.TimedOut?
            && exists ctx, now ::
                 m.reply == FrontHeadlamp.OnReceivingMessage(ctx, FrontHeadlamp.ActuationIncomplete(m.direction, FrontHeadlamp.TimedOut), now)
  {
    ReachableFounded(s, clock);
  }

  /** An elapsed wait is always reported to a known brain, with the state it left the zone in and the warning if there was a request to end. */
  lemma {:induction false} ElapsedWaitIsReported(s: System, index: nat, now: Instant, clock: Clock)
    requires Enabled(s, HeadlampElapsed(index, now)) && s.headlamp.brainKnown
    ensures var next, direction := Next(s, HeadlampElapsed(index, now), clock), s.elapsed[index];
            var awaited := s.headlamp.ctx.state == if direction.SwitchOn? then FrontHeadlamp.OnRequested else FrontHeadlamp.OffRequested;
            && |next.spontaneous| == |s.spontaneous| + 1 && s.spontaneous <= next.spontaneous
            && var m := next.spontaneous[|s.spontaneous|];
            && m.direction == direction && m.cause.TimedOut? && m.reply.ctx == next.headlamp.ctx
            && m.reply.outcomes == (if awaited then [FrontHeadlamp.LogWarning(FrontHeadlamp.Incomplete(direction, FrontHeadlamp.TimedOut))] else [])
            && |next.elapsed| == |s.elapsed| - 1 && next.brain == s.brain
  {
    hide LiveTimers, TellsToWiper, TellsToHeadlamp;
  }
}
