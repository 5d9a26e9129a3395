/** What every reachable state guarantees, stated for a reader of the system. */
module Theorems {
  import opened VehiclePhysics
  import opened Fsm
  import opened Zones
  import opened TwinTurn
  import opened TurnBarriers
  import opened BrainModel
  import opened Turns
  import opened BrainInvariants
  import opened BrainSafety
  import opened Plant
  import opened Deadlines
  import opened Reachability
  import opened VirtualCarActor
  import FrontHeadlamp
  import Wiper

  /** Committed turns, then queued turns, are the allocated ids in order; nothing complete is left waiting. */
  lemma {:induction false} InOrderExactlyOnce(s: System, clock: Clock)
    requires Reachable(s, clock)
    ensures var b := s.brain;
            && (forall i :: 0 <= i < |b.committed| ==> b.committed[i].turnId == i + 1)
            && (forall i :: 0 <= i < |b.queue| ==> b.queue[i].TurnId() == |b.committed| + i + 1)
            && b.nextTurnId == |b.committed| + |b.queue| + 1
            && (b.queue == [] || !b.queue[0].IsComplete())
            && HistoryOk(b.committed, b.trace)
  {
    hide CutOk, EntriesOk, CountdownOk, HistoryOk, DeadlinesOk;
    ReachableOk(s, clock);
  }

  /** The countdown set is the queued lifecycle slots, one each, with messages that all say the same. */
  lemma {:induction false} CountdownMatchesQueue(s: System, clock: Clock)
    requires Reachable(s, clock)
    ensures var b := s.brain;
            && (if b.state.Preparing()
                then b.state.remaining != {} && multiset(LifecycleZones(b.queue)) == multiset(b.state.remaining)
                else LifecycleZones(b.queue) == [])
            && (forall i :: 0 <= i < |b.queue| && b.queue[i].Event() == AssemblyZoneReady(HeadlampAssembly) ==>
                  b.queue[i].Waiting? && HeadlampAssembly in b.queue[i].barrier.messages
                  && b.queue[i].barrier.messages[HeadlampAssembly]
                     == ToHeadlamp(if b.state.PreparingToStart? then FrontHeadlamp.BecomeOn else FrontHeadlamp.BecomeOff))
            && (forall i :: 0 <= i < |b.queue| && b.queue[i].Event() == AssemblyZoneReady(WiperAssembly) ==>
                  b.queue[i].Waiting? && WiperAssembly in b.queue[i].barrier.messages
                  && b.queue[i].barrier.messages[WiperAssembly]
                     == ToWiper(if b.state.PreparingToStart? then Wiper.BecomeOn else Wiper.BecomeOff))
  {
    hide CutOk, EntriesOk, Ordered, HistoryOk, DeadlinesOk, LifecycleZones;
    ReachableOk(s, clock);
    var state := s.brain.state;
    OutstandingCases(state);
    hide Outstanding;
    if state.Preparing() {
      assert state.remaining == EVERY_ASSEMBLY ==> multiset(state.remaining) == multiset{HeadlampAssembly, WiperAssembly};
    }
  }

  /** No reachable cut drives in the dark with a lamp that is neither on nor requested. */
  lemma {:induction false} NeverDrivesInTheDark(s: System, clock: Clock)
    requires Reachable(s, clock)
    ensures !(s.brain.state.Driving? && s.brain.ctx.ambientLux <= LUX_ON_THRESHOLD
              && (s.brain.ctx.headlamp.state.Off? || s.brain.ctx.headlamp.state.Ready?))
  {
    hide MarksOk, BuzzerOk, LedgerOk, EntriesOk, Ordered, HistoryOk, DeadlinesOk, CountdownOk;
    ReachableOk(s, clock);
  }

  /** The commands the buzzer has been given. */
  function BuzzerCommands(b: Brain): seq<DomainAction> { Select(ActionsOf(b.trace), IsBuzzer) }

  /** Starts and stops alternate, the first is a start, and it sounds exactly in the two dangerous modes. */
  lemma {:induction false} BuzzerDiscipline(s: System, clock: Clock)
    requires Reachable(s, clock)
    ensures var commands := BuzzerCommands(s.brain);
            && (forall i :: 0 <= i < |commands| ==> commands[i] == if i % 2 == 0 then StartBuzzer else StopBuzzer)
            && (s.brain.state.Buzzing() <==> commands != [] && commands[|commands| - 1] == StartBuzzer)
  {
    hide MarksOk, LedgerOk, EntriesOk, Ordered, HistoryOk, DeadlinesOk, CountdownOk, LightingUnsafeCut, ActionsOf, Select;
    ReachableOk(s, clock);
    var commands := BuzzerCommands(s.brain);
    assert AlternatesFrom(false, commands);
    if commands != [] {
      assert Odd(|commands|) == ((|commands| - 1) % 2 == 0);
    }
  }

  /**
   * The life cycle so far is a prefix of: start, headlamp ready, wiper ready, stop, headlamp ready,
   * wiper ready, and again. The mode says how far into the cycle it is.
   */
  lemma {:induction false} StartStopBracketing(s: System, clock: Clock)
    requires Reachable(s, clock)
    ensures var marks := MarksOf(s.brain.trace);
            && (forall i :: 0 <= i < |marks| ==> marks[i] == CycleMark(i))
            && |marks| % 6 == Phase(s.brain.state)
  {
    hide BuzzerOk, LedgerOk, EntriesOk, Ordered, HistoryOk, DeadlinesOk, CountdownOk, LightingUnsafeCut, MarksOf, Phase;
    ReachableOk(s, clock);
  }

  lemma {:induction false} ReachableLedger(s: System, clock: Clock)
    requires Reachable(s, clock)
    ensures LedgerOk(s.brain.state, s.brain.ctx, s.brain.trace, s.brain.nextRecordSeq)
  {
    hide BuzzerOk, MarksOk, EntriesOk, Ordered, HistoryOk, DeadlinesOk, CountdownOk, LightingUnsafeCut, LedgerOk;
    ReachableOk(s, clock);
  }

  /** Rows are numbered from 1 without gaps, each starts where the previous one ended, and tells what was done. */
  lemma {:induction false} LedgerIsContiguous(s: System, clock: Clock)
    requires Reachable(s, clock)
    ensures var ledger, seqNos := LedgerOf(s.brain.trace), SeqNosOf(s.brain.trace);
            && |seqNos| == |ledger|
            && (forall i :: 0 <= i < |seqNos| ==> seqNos[i] == i + 1)
            && Chained(FsmState.Off, ledger)
            && RecordedActions(ledger) == Recorded(ActionsOf(s.brain.trace))
  {
    hide LedgerOf, SeqNosOf, ActionsOf, Recorded, RecordedActions, Tabled, Reachable;
    ReachableLedger(s, clock);
  }

  /** A snapshot stamped `asOfSeq` is the exit cut of the row with that number. */
  lemma {:induction false} SnapshotAgreesWithLedger(s: System, clock: Clock)
    requires Reachable(s, clock)
    ensures var ledger, snapshot := LedgerOf(s.brain.trace), SnapshotOf(s.brain);
            && snapshot.asOfSeq == |ledger| == |SeqNosOf(s.brain.trace)|
            && (ledger == [] ==> snapshot.state == FsmState.Off && snapshot.ctx == DEFAULT_CONTEXT)
            && (ledger != [] ==>
                  && SeqNosOf(s.brain.trace)[|ledger| - 1] == snapshot.asOfSeq
                  && snapshot.state == ledger[|ledger| - 1].nextState
                  && snapshot.ctx == ledger[|ledger| - 1].currentCtx)
  {
    hide LedgerOf, SeqNosOf, ActionsOf, Recorded, RecordedActions, Tabled, Reachable;
    ReachableLedger(s, clock);
  }

  // ── the retry budget ─────────────────────────────────────────────────────

  /** Attempts used plus retries left is the budget, and the zone has been told once per attempt. */
  lemma {:induction false} RetryBudgetConserved(s: System, clock: Clock, i: nat)
    requires Reachable(s, clock) && i < |s.brain.queue| && s.brain.queue[i].Waiting?
    ensures var slot := s.brain.queue[i].barrier;
            var zone := EventZone(slot.event);
            && zone in slot.waits
            && slot.waits[zone].tellAttempt + slot.waits[zone].retriesRemaining == ZONE_TELL_BACK_MAX_RETRIES
            && CountTells(s.brain.tells, slot.turnId) == slot.waits[zone].tellAttempt + 1
  {
    hide CutOk, Ordered, HistoryOk, CountdownOk, ToldOk;
    ReachableOk(s, clock);
    assert EntryOk(s.brain.queue[i]);
    assert SlotDeadlines(s.brain.queue[i].barrier, s.brain.tells, s.brain.aborted, s.fired, s.timeouts);
  }

  /** Every slot that waits has exactly one deadline outstanding, for its current attempt: running, or gone off and unhandled. */
  lemma {:induction false} ExactlyOneDeadline(s: System, clock: Clock, i: nat)
    requires Reachable(s, clock) && i < |s.brain.queue| && !s.brain.queue[i].IsComplete()
    ensures s.brain.queue[i].Waiting? && EntryOk(s.brain.queue[i])
    ensures LiveTimers(s) !! s.timeouts
    ensures (set t | t in LiveTimers(s) + s.timeouts && t.turnId == s.brain.queue[i].TurnId())
            == {CurrentTimer(s.brain.queue[i].barrier)}
  {
    hide CutOk, Ordered, HistoryOk, CountdownOk, ToldOk, QueueDeadlines, SlotOk;
    ReachableOk(s, clock);
    OneDeadline(s.brain, i, s.fired, s.timeouts);
  }

  /** No turn, queued or long committed, was ever told more than three times. */
  lemma {:induction false} ToldAtMostThrice(s: System, clock: Clock, turnId: u64)
    requires Reachable(s, clock)
    ensures CountTells(s.brain.tells, turnId) <= ZONE_TELL_BACK_MAX_RETRIES + 1
  {
    hide CutOk, Ordered, HistoryOk, CountdownOk, QueueDeadlines, EntriesOk;
    ReachableOk(s, clock);
  }

  /**
   * Every timeout that still finds its slot is for the slot's current attempt, and what the handler
   * does is what the pure policy decides: the same next wait, or the same synthetic reply.
   */
  lemma {:induction false} TimeoutFollowsPolicy(s: System, clock: Clock, timer: Timer)
    requires Reachable(s, clock) && timer in s.timeouts && FindWaiting(s.brain, timer.turnId).Some?
    ensures var i := FindWaiting(s.brain, timer.turnId).value;
            var slot := s.brain.queue[i].barrier;
            && timer.zone in slot.waits && slot.waits[timer.zone].tellAttempt == timer.attempt
            && var after := OnZoneTimeout(s.brain, timer.zone, timer.turnId, timer.attempt);
            && |after.queue| == |s.brain.queue| && after.queue[i].Waiting? && after.aborted == s.brain.aborted
            && match OnTellBackTimeout(s.brain.ctx.headlamp, slot.waits[timer.zone])
               case RetryWith(wait) =>
                 && after.queue[i].barrier.waits == map[timer.zone := wait]
                 && after.queue[i].barrier.pending == slot.pending
                 && timer.zone in slot.messages
                 && after.tells == s.brain.tells + [Tell(timer.zone, timer.turnId, wait.tellAttempt, slot.messages[timer.zone], slot.now)]
               case Exhausted(reply) =>
                 && after.queue[i].barrier.IsComplete()
                 && after.queue[i].barrier.replies
                    == map[timer.zone := if timer.zone.HeadlampAssembly? then FromHeadlamp(reply)
                                         else FromWiper(Wiper.WiperZoneReply(s.brain.ctx.wiper, [Wiper.LogUnresponsive]))]
                 && reply == FrontHeadlamp.HeadlampZoneReply(s.brain.ctx.headlamp, [FrontHeadlamp.LogWarning(FrontHeadlamp.Unresponsive)])
                 && after.tells == s.brain.tells
  {
    hide CutOk, Ordered, HistoryOk, CountdownOk, ToldOk, QueueDeadlines, SlotDeadlines;
    ReachableOk(s, clock);
    var i := FindWaiting(s.brain, timer.turnId).value;
    TimeoutIsCurrent(s.brain, i, timer, s.fired, s.timeouts);
    hide DeadlinesOk;
    SlotAfterTimeout(s.brain, i, timer);
  }

  lemma {:induction false} SlotAfterTimeout(b: Brain, i: nat, timer: Timer)
    requires i < |b.queue| && b.queue[i].Waiting? && FindWaiting(b, timer.turnId) == Some(i)
    requires SlotOk(b.queue[i].barrier) && timer == CurrentTimer(b.queue[i].barrier)
    ensures var slot := b.queue[i].barrier;
            var after := OnZoneTimeout(b, timer.zone, timer.turnId, timer.attempt);
            && |after.queue| == |b.queue| && after.queue[i].Waiting? && after.aborted == b.aborted
            && match OnTellBackTimeout(b.ctx.headlamp, slot.waits[timer.zone])
               case RetryWith(wait) =>
                 && after.queue[i].barrier.waits == map[timer.zone := wait]
                 && after.queue[i].barrier.pending == slot.pending
                 && timer.zone in slot.messages
                 && after.tells == b.tells + [Tell(timer.zone, timer.turnId, wait.tellAttempt, slot.messages[timer.zone], slot.now)]
               case Exhausted(reply) =>
                 && after.queue[i].barrier.IsComplete()
                 && after.queue[i].barrier.replies
                    == map[timer.zone := if timer.zone.HeadlampAssembly? then FromHeadlamp(reply)
                                         else FromWiper(SyntheticWiperReply(b.ctx.wiper))]
                 && after.tells == b.tells
  {
    hide Find, FindWaiting, MessageFits, EventZone;
    var slot := b.queue[i].barrier;
    if !slot.Retries(timer.zone, timer.attempt) {
      GiveUpShape(b, i, timer.zone, timer.attempt);
    }
  }

  // ── the warning dwell ────────────────────────────────────────────────────

  /** A row that enters the warning mode from outside it. */
  predicate EntersWarning(r: TransitionRecord) {
    r.nextState.ExtremeOperationWarning? && !r.oldState.ExtremeOperationWarning?
  }

  /** Rows `i` to `n - 1` are one stay: entered by row `i`, never left since, always with its anchor. */
  ghost predicate OneStay(ledger: seq<TransitionRecord>, i: nat, n: nat) {
    && i < n <= |ledger|
    && EntersWarning(ledger[i])
    && (forall k :: i <= k < n ==> ledger[k].nextState == ExtremeOperationWarning(ledger[i].at))
  }

  /** The table keeps the anchor of a warning and stamps a new one with the row's time. */
  lemma {:induction false} AnchorOfRow(r: TransitionRecord)
    requires Tabled(r) && r.nextState.ExtremeOperationWarning?
    ensures r.nextState == if r.oldState.ExtremeOperationWarning? then r.oldState else ExtremeOperationWarning(r.at)
  {
    hide WarningRecoveryReady, Output, Select;
  }

  /** A stay goes on with every row that ends in the warning mode again. */
  lemma {:induction false} StayGoesOn(ledger: seq<TransitionRecord>, i: nat, n: nat)
    requires OneStay(ledger, i, n) && n < |ledger| && Tabled(ledger[n]) && ledger[n].oldState == ledger[n - 1].nextState
    requires ledger[n].nextState.ExtremeOperationWarning?
    ensures OneStay(ledger, i, n + 1)
  {
    hide Tabled, EntersWarning;
    AnchorOfRow(ledger[n]);
  }

  /** A row that ends in the warning mode belongs to a stay that began with an entering row. */
  lemma {:induction false} StayHasEntry(ledger: seq<TransitionRecord>, n: nat) returns (i: nat)
    requires Chained(FsmState.Off, ledger) && 0 < n <= |ledger| && ledger[n - 1].nextState.ExtremeOperationWarning?
    ensures OneStay(ledger, i, n)
  {
    hide Tabled, OneStay;
    var last := ledger[n - 1];
    assert RowChained(FsmState.Off, ledger, n - 1);
    if last.oldState.ExtremeOperationWarning? {
      i := StayHasEntry(ledger, n - 1);
      StayGoesOn(ledger, i, n - 1);
    } else {
      AnchorOfRow(last);
      i := n - 1;
      StayBegins(ledger, i);
    }
  }

  lemma {:induction false} StayBegins(ledger: seq<TransitionRecord>, i: nat)
    requires i < |ledger| && EntersWarning(ledger[i]) && ledger[i].nextState == ExtremeOperationWarning(ledger[i].at)
    ensures OneStay(ledger, i, i + 1)
  {
  }

  /** The table leaves a warning only on a tick that finds it over. */
  lemma {:induction false} LeavingRow(r: TransitionRecord)
    requires Tabled(r) && r.oldState.ExtremeOperationWarning? && !r.nextState.ExtremeOperationWarning?
    ensures r.event.TimerTick? && r.at >= r.oldState.beganAt + RPM_STRESS_DURATION_THRESHOLD
    ensures !r.currentCtx.powertrain.IsOperationalWarningActive()
  {
    hide Output, Select;
    assert WarningRecoveryReady(r.oldState.beganAt, r.at, r.currentCtx);
  }

  /** How a stay ends, if the next row ends it: a tick, five seconds on, with no warning active. */
  lemma {:induction false} StayEnds(ledger: seq<TransitionRecord>, i: nat, n: nat)
    requires Chained(FsmState.Off, ledger) && OneStay(ledger, i, n) && n < |ledger|
    ensures ledger[n].oldState == ExtremeOperationWarning(ledger[i].at)
    ensures if ledger[n].nextState.ExtremeOperationWarning? then OneStay(ledger, i, n + 1)
            else ledger[n].event.TimerTick?
                 && ledger[n].at >= ledger[i].at + RPM_STRESS_DURATION_THRESHOLD
                 && !ledger[n].currentCtx.powertrain.IsOperationalWarningActive()
  {
    hide Tabled;
    assert RowChained(FsmState.Off, ledger, n);
    if ledger[n].nextState.ExtremeOperationWarning? {
      StayGoesOn(ledger, i, n);
    } else {
      LeavingRow(ledger[n]);
    }
  }

  /**
   * Warning dwell over the ledger: any row that leaves the warning mode ends a stay that began with
   * a row whose timestamp was the anchor throughout, is a tick at least five seconds after it, and
   * finds no warning active. While the mode is a warning now, its anchor is that of an open stay.
   */
  lemma {:induction false} WarningDwell(s: System, clock: Clock)
    requires Reachable(s, clock)
    ensures var ledger := LedgerOf(s.brain.trace);
            && (forall n :: 0 <= n < |ledger| && ledger[n].oldState.ExtremeOperationWarning?
                            && !ledger[n].nextState.ExtremeOperationWarning? ==>
                  exists i: nat :: OneStay(ledger, i, n)
                              && ledger[n].event.TimerTick?
                              && ledger[n].at >= ledger[i].at + RPM_STRESS_DURATION_THRESHOLD
                              && !ledger[n].currentCtx.powertrain.IsOperationalWarningActive())
            && (s.brain.state.ExtremeOperationWarning? ==>
                  exists i: nat :: OneStay(ledger, i, |ledger|) && s.brain.state.beganAt == ledger[i].at)
  {
    hide LedgerOf, SeqNosOf, ActionsOf, Recorded, RecordedActions, Tabled, Reachable;
    ReachableLedger(s, clock);
    var ledger := LedgerOf(s.brain.trace);
    forall n | 0 <= n < |ledger| && ledger[n].oldState.ExtremeOperationWarning? && !ledger[n].nextState.ExtremeOperationWarning?
      ensures exists i: nat :: OneStay(ledger, i, n)
                          && ledger[n].event.TimerTick?
                          && ledger[n].at >= ledger[i].at + RPM_STRESS_DURATION_THRESHOLD
                          && !ledger[n].currentCtx.powertrain.IsOperationalWarningActive()
    {
      assert RowChained(FsmState.Off, ledger, n);
      var i := StayHasEntry(ledger, n);
      StayEnds(ledger, i, n);
    }
    if s.brain.state.ExtremeOperationWarning? {
      var i := StayHasEntry(ledger, |ledger|);
    }
  }

  // ── power-off ────────────────────────────────────────────────────────────

  /**
   * No power-off goes unanswered: an idle car begins the shutdown countdown, a car in a countdown
   * lets it run, and in every other mode the row keeps its mode and reports the rejection.
   */
  lemma {:induction false} PowerOffIsAnswered(s: System, clock: Clock, n: nat)
    requires Reachable(s, clock) && n < |LedgerOf(s.brain.trace)| && LedgerOf(s.brain.trace)[n].event.PowerOff?
    ensures var r := LedgerOf(s.brain.trace)[n];
            if r.oldState.Idle? then r.nextState == PreparingToStop(EVERY_ASSEMBLY)
            else r.nextState == r.oldState
                 && (!r.oldState.Preparing() ==> r.actions != [] && r.actions[|r.actions| - 1] == LogWarning(RejectedPowerOff(r.oldState)))
  {
    hide LedgerOf, SeqNosOf, ActionsOf, Recorded, RecordedActions, Tabled, Reachable;
    ReachableLedger(s, clock);
    assert RowChained(FsmState.Off, LedgerOf(s.brain.trace), n);
    PowerOffRow(LedgerOf(s.brain.trace)[n]);
  }

  /** The car leaves `Off` only into the start-up countdown, reaches `Off` only out of the shutdown one. */
  lemma {:induction false} NoDirectPowerCycle(s: System, clock: Clock, n: nat)
    requires Reachable(s, clock) && n < |LedgerOf(s.brain.trace)|
    ensures var r := LedgerOf(s.brain.trace)[n];
            && (r.oldState.Off? && !r.nextState.Off? ==> r.event.PowerOn? && r.nextState == PreparingToStart(EVERY_ASSEMBLY))
            && (Running(r.oldState) && !Running(r.nextState) ==>
                  r.oldState.Idle? && r.event.PowerOff? && r.nextState == PreparingToStop(EVERY_ASSEMBLY))
            && (r.oldState.Preparing() && !r.nextState.Preparing() ==>
                  r.event.AssemblyZoneReady? && (if r.oldState.PreparingToStart? then r.nextState.Idle? else r.nextState.Off?))
  {
    hide LedgerOf, SeqNosOf, ActionsOf, Recorded, RecordedActions, Reachable, Transition, Output;
    ReachableLedger(s, clock);
    var r := LedgerOf(s.brain.trace)[n];
    assert RowChained(FsmState.Off, LedgerOf(s.brain.trace), n);
    TransitionPairs(r.oldState, r.event, r.currentCtx, r.at);
  }

  lemma {:induction false} PowerOffRow(r: TransitionRecord)
    requires Tabled(r) && r.event.PowerOff?
    ensures if r.oldState.Idle? then r.nextState == PreparingToStop(EVERY_ASSEMBLY)
            else r.nextState == r.oldState
                 && (!r.oldState.Preparing() ==> r.actions != [] && r.actions[|r.actions| - 1] == LogWarning(RejectedPowerOff(r.oldState)))
  {
    if !r.oldState.Idle? && !r.oldState.Preparing() {
      var note := LogWarning(RejectedPowerOff(r.oldState));
      assert TableStep(r).actions == [note] || EndsWith(TableStep(r).actions, [note]);
      SelectOne(note);
    }
  }

  lemma {:induction false} SelectOne(action: DomainAction)
    requires IsRecorded(action)
    ensures Recorded([action]) == [action]
  {
    assert [action][1..] == [];
    assert Select([action], IsRecorded) == [action] + Select([action][1..], IsRecorded);
  }
}
