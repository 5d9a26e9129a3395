/** Every handler keeps every brain invariant. */
module BrainSafety {
  import opened VehiclePhysics
  import opened Fsm
  import opened Zones
  import opened TwinTurn
  import opened TurnBarriers
  import opened BrainModel
  import opened Turns
  import opened Commits
  import opened BrainInvariants

  // ── the trace of a turn ──────────────────────────────────────────────────

  lemma {:induction false} RowsOfTurn(first: u64, hops: seq<Hop>)
    requires 1 <= |hops| <= 2
    ensures var rows := NumberedRows(first, hops);
            && |rows| == |hops| && rows[0] == Row(first, hops[0].result.record)
            && (|hops| == 2 ==> rows[1] == Row(SaturatingSucc(first), hops[1].result.record))
    ensures AdvanceBy(first, |hops|) == if |hops| == 1 then SaturatingSucc(first) else SaturatingSucc(SaturatingSucc(first))
  {
    assert NumberedRows(first, hops) == [Row(first, hops[0].result.record)] + NumberedRows(SaturatingSucc(first), hops[1..]);
    assert AdvanceBy(first, 1) == AdvanceBy(SaturatingSucc(first), 0);
    assert AdvanceBy(first, 2) == AdvanceBy(SaturatingSucc(first), 1) == AdvanceBy(SaturatingSucc(SaturatingSucc(first)), 0);
  }

  /** What the rows of a turn contribute to each projection. */
  lemma {:induction false} RowProjections<U>(first: u64, hops: seq<Hop>, f: Effect -> Option<U>)
    requires 1 <= |hops| <= 2
    ensures Collect(NumberedRows(first, hops), f)
            == AsSeq(f(Row(first, hops[0].result.record)))
               + (if |hops| == 1 then [] else AsSeq(f(Row(SaturatingSucc(first), hops[1].result.record))))
  {
    RowsOfTurn(first, hops);
    var rows := NumberedRows(first, hops);
    if |hops| == 1 {
      assert rows == [rows[0]];
      CollectOne(rows[0], f);
    } else {
      assert rows == [rows[0]] + [rows[1]];
      CollectConcat([rows[0]], [rows[1]], f);
      CollectOne(rows[0], f);
      CollectOne(rows[1], f);
    }
  }

  lemma {:induction false} TurnActions(trace: seq<Effect>, first: u64, hops: seq<Hop>)
    requires 1 <= |hops| <= 2
    ensures ActionsOf(trace + TurnTrace(first, hops)) == ActionsOf(trace) + MergedActions(hops)
  {
    var rows, acted := NumberedRows(first, hops), ActedAll(MergedActions(hops));
    CollectConcat(trace, rows + acted, ActionOf);
    CollectConcat(rows, acted, ActionOf);
    RowProjections(first, hops, ActionOf);
    ActedActions(MergedActions(hops));
  }

  lemma {:induction false} TurnLedger(trace: seq<Effect>, first: u64, hops: seq<Hop>)
    requires 1 <= |hops| <= 2
    ensures LedgerOf(trace + TurnTrace(first, hops)) == LedgerOf(trace) + RecordsOf(hops)
    ensures SeqNosOf(trace + TurnTrace(first, hops))
            == SeqNosOf(trace) + (if |hops| == 1 then [first] else [first, SaturatingSucc(first)])
  {
    var rows, acted := NumberedRows(first, hops), ActedAll(MergedActions(hops));
    CollectConcat(trace, rows + acted, RecordOf);
    CollectConcat(rows, acted, RecordOf);
    RowProjections(first, hops, RecordOf);
    CollectNone(acted, RecordOf);
    CollectConcat(trace, rows + acted, SeqNoOf);
    CollectConcat(rows, acted, SeqNoOf);
    RowProjections(first, hops, SeqNoOf);
    CollectNone(acted, SeqNoOf);
    assert RecordsOf(hops) == if |hops| == 1 then [hops[0].result.record] else [hops[0].result.record, hops[1].result.record];
  }

  /** The marks one turn leaves. */
  function TurnMarks(state: FsmState, ctx: VehicleContext, event: FsmEvent): seq<Mark> {
    if event.AssemblyZoneReady? then [Readied(event.assembly)]
    else if Starts(state, ctx, event) then [Started(ALL_ASSEMBLIES)]
    else if Stops(state, event) then [Stopped(ALL_ASSEMBLIES)]
    else []
  }

  lemma {:induction false} TurnLeavesMarks(state: FsmState, ctx: VehicleContext, event: FsmEvent, trace: seq<Effect>, first: u64, hops: seq<Hop>)
    requires 1 <= |hops| <= 2
    requires Select(MergedActions(hops), IsCoordination) == Hints(state, ctx, event)
    requires hops[0].result.record.event == event
    requires |hops| == 2 ==> hops[1].result.record.event.Internal?
    ensures MarksOf(trace + TurnTrace(first, hops)) == MarksOf(trace) + TurnMarks(state, ctx, event)
  {
    var rows, acted := NumberedRows(first, hops), ActedAll(MergedActions(hops));
    CollectConcat(trace, rows + acted, MarkOf);
    CollectConcat(rows, acted, MarkOf);
    RowProjections(first, hops, MarkOf);
    assert MarksOf(rows) == if event.AssemblyZoneReady? then [Readied(event.assembly)] else [];
    ActedMarks(MergedActions(hops));
    HintMarks(state, ctx, event);
    assert MarksOf(rows) + MarksOf(acted) == TurnMarks(state, ctx, event);
  }

  lemma {:induction false} HintMarks(state: FsmState, ctx: VehicleContext, event: FsmEvent)
    ensures MarksOf(ActedAll(Hints(state, ctx, event)))
            == if event.AssemblyZoneReady? then [] else TurnMarks(state, ctx, event)
  {
    var hints := Hints(state, ctx, event);
    if hints != [] {
      assert ActedAll(hints) == [Acted(hints[0])];
      CollectOne(Acted(hints[0]), MarkOf);
    }
  }

  // ── one commit, invariant by invariant ───────────────────────────────────

  lemma {:induction false} BuzzerKept(state: FsmState, trace: seq<Effect>, first: u64, hops: seq<Hop>)
    requires 1 <= |hops| <= 2 && BuzzerOk(state, trace)
    requires var buzzer := Select(MergedActions(hops), IsBuzzer);
             && AlternatesFrom(state.Buzzing(), buzzer)
             && Final(hops).nextState.Buzzing() == (state.Buzzing() != Odd(|buzzer|))
    ensures BuzzerOk(Final(hops).nextState, trace + TurnTrace(first, hops))
  {
    hide AlternatesFrom, TurnTrace;
    TurnActions(trace, first, hops);
    SelectConcat(ActionsOf(trace), MergedActions(hops), IsBuzzer);
    AlternatesConcat(false, Select(ActionsOf(trace), IsBuzzer), Select(MergedActions(hops), IsBuzzer));
  }

  /** An acknowledgement is committed only when the countdown waits for exactly that assembly next. */
  predicate Awaited(state: FsmState, event: FsmEvent) {
    event.AssemblyZoneReady? ==> Outstanding(state) != [] && Outstanding(state)[0] == event.assembly
  }

  lemma {:induction false} OutstandingCases(state: FsmState)
    requires RemainingOk(state)
    ensures Outstanding(state)
            == if !state.Preparing() then []
               else if state.remaining == EVERY_ASSEMBLY then [HeadlampAssembly, WiperAssembly]
               else [WiperAssembly]
  {
    if state.Preparing() {
      var p := (a: AssemblyId) => a in state.remaining;
      assert Select([WiperAssembly], p) == [WiperAssembly] + Select([], p);
      assert ALL_ASSEMBLIES[1..] == [WiperAssembly];
    }
  }

  lemma {:induction false} MarksKept(state: FsmState, trace: seq<Effect>, next: FsmState, more: seq<Effect>, marks: seq<Mark>)
    requires MarksOk(state, trace) && MarksOf(trace + more) == MarksOf(trace) + marks
    requires |marks| <= 1 && (marks != [] ==> marks[0] == CycleMark(Phase(state)))
    requires Phase(next) == (Phase(state) + |marks|) % 6
    ensures MarksOk(next, trace + more)
  {
    hide MarksOf, Phase;
    var before, after := MarksOf(trace), MarksOf(trace + more);
    assert |after| == |before| + |marks|;
    if marks != [] {
      assert after[|before|] == marks[0];
      assert CycleMark(|before|) == CycleMark(|before| % 6);
    }
  }

  /** The mode moves along the life cycle exactly by the marks the turn leaves. */
  lemma {:induction false} NextPhase(state: FsmState, ctx: VehicleContext, event: FsmEvent, next: FsmState)
    requires RemainingOk(state) && Awaited(state, event) && ModeStep(state, ctx, event, next)
    ensures var marks := TurnMarks(state, ctx, event);
            && |marks| <= 1
            && (marks != [] ==> marks[0] == CycleMark(Phase(state)))
            && Phase(next) == (Phase(state) + |marks|) % 6
    ensures RemainingOk(next)
    ensures Outstanding(next)
            == if event.AssemblyZoneReady? then Outstanding(state)[1..]
               else if Starts(state, ctx, event) || Stops(state, event) then ALL_ASSEMBLIES
               else Outstanding(state)
  {
    OutstandingCases(state);
    if state.Preparing() && event.AssemblyZoneReady? {
      assert EVERY_ASSEMBLY - {HeadlampAssembly} == {WiperAssembly};
      assert {WiperAssembly} - {WiperAssembly} == {};
    }
    assert WiperAssembly in EVERY_ASSEMBLY && HeadlampAssembly in EVERY_ASSEMBLY;
    OutstandingCases(next);
    hide Outstanding;
  }

  lemma {:induction false} SeqNosKept(seqNos: seq<u64>, first: u64, n: nat)
    requires 1 <= n <= 2 && first == |seqNos| + 1
    requires forall i :: 0 <= i < |seqNos| ==> seqNos[i] == i + 1
    requires (if n == 1 then SaturatingSucc(first) else SaturatingSucc(SaturatingSucc(first))) < U64_MAX
    ensures var next := seqNos + (if n == 1 then [first] else [first, SaturatingSucc(first)]);
            && (forall i :: 0 <= i < |next| ==> next[i] == i + 1)
            && |next| == |seqNos| + n
    ensures (if n == 1 then SaturatingSucc(first) else SaturatingSucc(SaturatingSucc(first))) == first + n
  {
  }

  lemma {:induction false} LedgerKept(state: FsmState, ctx: VehicleContext, trace: seq<Effect>, first: u64, hops: seq<Hop>)
    requires 1 <= |hops| <= 2
    requires Chained(state, RecordsOf(hops))
    requires var last := Final(hops); last.record.nextState == last.nextState && last.record.currentCtx == last.ctx
    requires RecordedActions(RecordsOf(hops)) == Recorded(MergedActions(hops))
    requires LedgerOk(state, ctx, trace, first)
    requires AdvanceBy(first, |hops|) < U64_MAX
    ensures LedgerOk(Final(hops).nextState, Final(hops).ctx, trace + TurnTrace(first, hops), AdvanceBy(first, |hops|))
  {
    hide TurnTrace, Chained, Recorded, RecordedActions, LedgerOf, SeqNosOf, ActionsOf, MergedActions, AdvanceBy;
    RowsOfTurn(first, hops);
    TurnLedger(trace, first, hops);
    TurnActions(trace, first, hops);
    SeqNosKept(SeqNosOf(trace), first, |hops|);
    RecordedAppend(ActionsOf(trace), MergedActions(hops));
    RecordedConcat(LedgerOf(trace), RecordsOf(hops));
    ChainedConcat(LedgerOf(trace), state, RecordsOf(hops));
  }

  lemma {:induction false} RecordedAppend(a: seq<DomainAction>, b: seq<DomainAction>)
    ensures Recorded(a + b) == Recorded(a) + Recorded(b)
  {
    SelectConcat(a, b, IsRecorded);
  }

  lemma {:induction false} RecordedConcat(a: seq<TransitionRecord>, b: seq<TransitionRecord>)
    ensures RecordedActions(a + b) == RecordedActions(a) + RecordedActions(b)
  {
    if a == [] {
      assert a + b == b;
    } else {
      RecordedConcat(a[1..], b);
      assert (a + b)[0] == a[0];
      assert (a + b)[1..] == a[1..] + b;
      assert a[0].actions + (RecordedActions(a[1..]) + RecordedActions(b))
          == a[0].actions + RecordedActions(a[1..]) + RecordedActions(b);
    }
  }

  lemma {:induction false} ChainedConcat(a: seq<TransitionRecord>, state: FsmState, b: seq<TransitionRecord>)
    requires Chained(FsmState.Off, a)
    requires state == ModeBefore(FsmState.Off, a, |a|)
    requires Chained(state, b)
    ensures Chained(FsmState.Off, a + b)
  {
    hide Tabled;
    var c, n := a + b, |a|;
    forall i: nat | i < |c|
      ensures RowChained(FsmState.Off, c, i)
    {
      if i < n {
        assert c[i] == a[i] && RowChained(FsmState.Off, a, i);
      } else {
        assert c[i] == b[i - n] && RowChained(state, b, i - n);
      }
    }
  }

  /** What the life cycle needs to know of a turn. */
  lemma {:induction false} MarksOfTurn(state: FsmState, ctx: VehicleContext, event: FsmEvent, now: Instant, hops: seq<Hop>)
    requires TurnSummary(state, ctx, event, now, hops)
    ensures 1 <= |hops| <= 2 && Select(MergedActions(hops), IsCoordination) == Hints(state, ctx, event)
    ensures hops[0].result.record.event == event && (|hops| == 2 ==> hops[1].result.record.event.Internal?)
    ensures ModeStep(state, ctx, event, Final(hops).nextState)
  {
    hide Chained, AlternatesFrom, ModeStep, Hints, LightingUnsafeCut, Recorded, RecordedActions, Select, MergedActions;
    assert hops[0].result.record == RecordsOf(hops)[0];
  }

  lemma {:induction false} TurnKeepsMarks(state: FsmState, ctx: VehicleContext, event: FsmEvent, now: Instant,
                                          trace: seq<Effect>, first: u64, hops: seq<Hop>)
    requires TurnSummary(state, ctx, event, now, hops) && RemainingOk(state) && Awaited(state, event) && MarksOk(state, trace)
    ensures MarksOk(Final(hops).nextState, trace + TurnTrace(first, hops))
  {
    hide TurnSummary, ModeStep, Hints, Awaited, RemainingOk, MarksOk, TurnTrace, TurnMarks, MarksOf;
    MarksOfTurn(state, ctx, event, now, hops);
    TurnLeavesMarks(state, ctx, event, trace, first, hops);
    NextPhase(state, ctx, event, Final(hops).nextState);
    MarksKept(state, trace, Final(hops).nextState, TurnTrace(first, hops), TurnMarks(state, ctx, event));
  }

  lemma {:induction false} TurnKeepsBuzzer(state: FsmState, ctx: VehicleContext, event: FsmEvent, now: Instant,
                                           trace: seq<Effect>, first: u64, hops: seq<Hop>)
    requires TurnSummary(state, ctx, event, now, hops) && BuzzerOk(state, trace)
    ensures BuzzerOk(Final(hops).nextState, trace + TurnTrace(first, hops))
  {
    hide Chained, AlternatesFrom, ModeStep, Hints, BuzzerOk, TurnTrace, LightingUnsafeCut;
    BuzzerKept(state, trace, first, hops);
  }

  lemma {:induction false} TurnKeepsLedger(state: FsmState, ctx: VehicleContext, event: FsmEvent, now: Instant,
                                           trace: seq<Effect>, first: u64, hops: seq<Hop>)
    requires TurnSummary(state, ctx, event, now, hops) && LedgerOk(state, ctx, trace, first)
    requires AdvanceBy(first, |hops|) < U64_MAX
    ensures LedgerOk(Final(hops).nextState, Final(hops).ctx, trace + TurnTrace(first, hops), AdvanceBy(first, |hops|))
  {
    hide Chained, AlternatesFrom, ModeStep, Hints, LedgerOk, TurnTrace, LightingUnsafeCut, AdvanceBy;
    assert Final(hops).record == RecordsOf(hops)[|hops| - 1];
    LedgerKept(state, ctx, trace, first, hops);
  }

  lemma {:induction false} TurnKeepsTrace(state: FsmState, ctx: VehicleContext, event: FsmEvent, now: Instant,
                                          trace: seq<Effect>, first: u64, hops: seq<Hop>)
    requires TurnSummary(state, ctx, event, now, hops)
    requires TraceOk(state, ctx, trace, first)
    requires RemainingOk(state) && Awaited(state, event) && AdvanceBy(first, |hops|) < U64_MAX
    ensures TraceOk(Final(hops).nextState, Final(hops).ctx, trace + TurnTrace(first, hops), AdvanceBy(first, |hops|))
  {
    TurnKeepsMarks(state, ctx, event, now, trace, first, hops);
    TurnKeepsBuzzer(state, ctx, event, now, trace, first, hops);
    TurnKeepsLedger(state, ctx, event, now, trace, first, hops);
    hide Chained, AlternatesFrom, ModeStep, Hints, Awaited, RemainingOk, BuzzerOk, MarksOk, LedgerOk, AdvanceBy, TurnTrace,
         LightingUnsafeCut, Recorded, RecordsOf, MergedActions, RecordedActions, Select;
  }

  // ── the queue ────────────────────────────────────────────────────────────

  lemma {:induction false} WaitingPushed(b: Brain, event: FsmEvent, zone: AssemblyId, message: ZoneMessage, now: Instant)
    requires Ordered(b.committed, b.queue, b.nextTurnId) && EntriesOk(b.queue) && b.nextTurnId < U64_MAX
    requires zone == EventZone(event) && MessageFits(event, message)
    ensures var b' := PushWaiting(b, event, zone, message, now);
            && Ordered(b'.committed, b'.queue, b'.nextTurnId) && EntriesOk(b'.queue)
            && LifecycleZones(b'.queue)
               == LifecycleZones(b.queue) + (if event.AssemblyZoneReady? then [event.assembly] else [])
  {
    var e := Waiting(NewBarrier(b.nextTurnId, event, now, zone, message));
    CollectConcat(b.queue, [e], LifecycleZone);
    CollectOne(e, LifecycleZone);
    assert EntryOk(e);
  }

  lemma {:induction false} PassthroughPushed(b: Brain, event: FsmEvent, now: Instant)
    requires Ordered(b.committed, b.queue, b.nextTurnId) && EntriesOk(b.queue) && b.nextTurnId < U64_MAX
    requires !event.AssemblyZoneReady?
    ensures var b' := PushPassthrough(b, event, now);
            && Ordered(b'.committed, b'.queue, b'.nextTurnId) && EntriesOk(b'.queue)
            && LifecycleZones(b'.queue) == LifecycleZones(b.queue)
  {
    var e := Passthrough(b.nextTurnId, event, now);
    CollectConcat(b.queue, [e], LifecycleZone);
    CollectOne(e, LifecycleZone);
  }

  lemma {:induction false} BothPushed(b: Brain, starting: bool, now: Instant)
    requires Ordered(b.committed, b.queue, b.nextTurnId) && EntriesOk(b.queue)
    requires PushBoth(b, starting, now).nextTurnId < U64_MAX
    requires LifecycleZones(b.queue) == []
    requires b.state == if starting then PreparingToStart(EVERY_ASSEMBLY) else PreparingToStop(EVERY_ASSEMBLY)
    ensures var b' := PushBoth(b, starting, now);
            && Ordered(b'.committed, b'.queue, b'.nextTurnId) && EntriesOk(b'.queue)
            && CountdownOk(b'.state, b'.queue)
  {
    var h, w := AssemblyZoneReady(HeadlampAssembly), AssemblyZoneReady(WiperAssembly);
    var one := PushWaiting(b, h, HeadlampAssembly, LifecycleMessage(HeadlampAssembly, starting), now);
    var two := PushWaiting(one, w, WiperAssembly, LifecycleMessage(WiperAssembly, starting), now);
    WaitingPushed(b, h, HeadlampAssembly, LifecycleMessage(HeadlampAssembly, starting), now);
    WaitingPushed(one, w, WiperAssembly, LifecycleMessage(WiperAssembly, starting), now);
    OutstandingCases(b.state);
    hide Outstanding, LifecycleZones, Ordered, EntriesOk;
    assert LifecycleZones(two.queue) == [HeadlampAssembly] + [WiperAssembly];
    forall i | 0 <= i < |two.queue| && two.queue[i].Event().AssemblyZoneReady?
      ensures i >= |b.queue|
    {
      if i < |b.queue| {
        assert two.queue[i] == b.queue[i];
        NoLifecycle(b.queue, i);
      }
    }
  }

  lemma {:induction false} NoLifecycle(queue: seq<Entry>, i: nat)
    requires i < |queue| && LifecycleZones(queue) == []
    ensures !queue[i].Event().AssemblyZoneReady?
  {
    if i > 0 {
      NoLifecycle(queue[1..], i - 1);
    }
  }

  /** After an entry for `event` left the queue, or none did, the countdown is one turn behind. */
  ghost predicate CountdownDue(state: FsmState, event: FsmEvent, queue: seq<Entry>) {
    && RemainingOk(state)
    && Awaited(state, event)
    && LifecycleZones(queue) == (if event.AssemblyZoneReady? then Outstanding(state)[1..] else Outstanding(state))
    && LifecycleMessagesOk(state, queue)
  }

  lemma {:induction false} TurnKeepsQueue(b: Brain, event: FsmEvent, now: Instant, hops: seq<Hop>, clock: Clock)
    requires TurnSummary(b.state, b.ctx, event, now, hops)
    requires Ordered(b.committed, b.queue, b.nextTurnId) && EntriesOk(b.queue) && CountdownDue(b.state, event, b.queue)
    requires WithLifecycle(Committed(b, hops), b.state, b.ctx, event, clock).nextTurnId < U64_MAX
    ensures var b' := WithLifecycle(Committed(b, hops), b.state, b.ctx, event, clock);
            && Ordered(b'.committed, b'.queue, b'.nextTurnId) && EntriesOk(b'.queue)
            && CountdownOk(b'.state, b'.queue)
  {
    hide Chained, AlternatesFrom, Hints, Ordered, EntriesOk, TurnTrace, AdvanceBy, PushBoth, Outstanding;
    var done := Committed(b, hops);
    NextPhase(b.state, b.ctx, event, done.state);
    if Starts(b.state, b.ctx, event) {
      OutstandingCases(b.state);
      BothPushed(done, true, clock(done.nextTurnId));
    } else if Stops(b.state, event) {
      OutstandingCases(b.state);
      BothPushed(done, false, clock(done.nextTurnId));
    } else {
      OutstandingCases(b.state);
      if LifecycleZones(b.queue) == [] {
        forall i | 0 <= i < |b.queue| ensures !b.queue[i].Event().AssemblyZoneReady? { NoLifecycle(b.queue, i); }
      }
    }
  }
}
