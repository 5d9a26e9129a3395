/** What holds of the brain in every reachable state, as predicates on its parts. */
module BrainInvariants {
  import opened VehiclePhysics
  import opened Fsm
  import opened Zones
  import opened TwinTurn
  import opened TurnBarriers
  import opened BrainModel
  import opened Turns
  import opened Commits

  // ── slots ────────────────────────────────────────────────────────────────

  /** The one zone a waiting slot for `event` depends on. */
  function EventZone(event: FsmEvent): AssemblyId {
    if event.AssemblyZoneReady? then event.assembly
    else match UserEventToZoneTell(event)
         case Route(zone, _) => zone
         case NoZone => HeadlampAssembly
  }

  predicate MessageFits(event: FsmEvent, message: ZoneMessage) {
    if event.AssemblyZoneReady?
    then message == LifecycleMessage(event.assembly, true) || message == LifecycleMessage(event.assembly, false)
    else UserEventToZoneTell(event) == Route(EventZone(event), message)
  }

  /** Retry budget and bookkeeping of one waiting slot. */
  ghost predicate SlotOk(s: Barrier) {
    var z := EventZone(s.event);
    && s.waits.Keys == {z} && s.messages.Keys == {z}
    && s.waits[z].turnId == s.turnId
    && s.waits[z].tellAttempt + s.waits[z].retriesRemaining == ZONE_TELL_BACK_MAX_RETRIES
    && MessageFits(s.event, s.messages[z])
    && (s.pending == {} || s.pending == {z})
    && s.replies.Keys == (if s.pending == {} then {z} else {})
    && s.timers.Keys <= {z}
    && (z in s.timers ==> s.timers[z] == Timer(z, s.turnId, s.waits[z].tellAttempt))
    && (s.pending != {} ==> z in s.timers)
  }

  ghost predicate EntryOk(e: Entry) {
    match e
    case Waiting(s) => SlotOk(s)
    case Passthrough(_, event, _) => !event.AssemblyZoneReady?
  }

  ghost predicate EntriesOk(queue: seq<Entry>) {
    forall i :: 0 <= i < |queue| ==> EntryOk(queue[i])
  }

  // ── order ────────────────────────────────────────────────────────────────

  /** Committed turns followed by queued turns are exactly the allocated ids 1, 2, 3, ... in order. */
  ghost predicate Ordered(committed: seq<Commit>, queue: seq<Entry>, nextTurnId: u64) {
    && nextTurnId == |committed| + |queue| + 1
    && (forall i :: 0 <= i < |committed| ==> committed[i].turnId == i + 1)
    && (forall i :: 0 <= i < |queue| ==> queue[i].TurnId() == |committed| + i + 1)
  }

  // ── countdown ────────────────────────────────────────────────────────────

  /** What `f` finds in the elements of `s`, in order. */
  function Collect<T, U>(s: seq<T>, f: T -> Option<U>): seq<U> {
    if s == [] then []
    else
      var rest := Collect(s[1..], f);
      if f(s[0]).Some? then [f(s[0]).value] + rest else rest
  }

  function AsSeq<T>(o: Option<T>): seq<T> {
    if o.Some? then [o.value] else []
  }

  function LifecycleZone(e: Entry): Option<AssemblyId> {
    if e.Event().AssemblyZoneReady? then Some(e.Event().assembly) else None
  }

  /** The assemblies whose lifecycle slots are queued, in queue order. */
  function LifecycleZones(queue: seq<Entry>): seq<AssemblyId> { Collect(queue, LifecycleZone) }

  /** The assemblies a mode still waits for, in the order their slots were queued. */
  function Outstanding(state: FsmState): seq<AssemblyId> {
    match state
    case PreparingToStart(remaining) => Select(ALL_ASSEMBLIES, a => a in remaining)
    case PreparingToStop(remaining) => Select(ALL_ASSEMBLIES, a => a in remaining)
    case _ => []
  }

  predicate RemainingOk(state: FsmState) {
    state.Preparing() ==> state.remaining == EVERY_ASSEMBLY || state.remaining == {WiperAssembly}
  }

  ghost predicate LifecycleMessagesOk(state: FsmState, queue: seq<Entry>) {
    forall i :: 0 <= i < |queue| && queue[i].Event().AssemblyZoneReady? ==>
      && queue[i].Waiting?
      && var zone := queue[i].Event().assembly;
      && zone in queue[i].barrier.messages
      && queue[i].barrier.messages[zone] == LifecycleMessage(zone, state.PreparingToStart?)
  }

  /** The countdown set and the queued lifecycle slots are the same thing. */
  ghost predicate CountdownOk(state: FsmState, queue: seq<Entry>) {
    && RemainingOk(state)
    && LifecycleZones(queue) == Outstanding(state)
    && LifecycleMessagesOk(state, queue)
  }

  // ── the trace ────────────────────────────────────────────────────────────

  function ActionOf(effect: Effect): Option<DomainAction> { if effect.Acted? then Some(effect.action) else None }
  function RecordOf(effect: Effect): Option<TransitionRecord> { if effect.Row? then Some(effect.record) else None }
  function SeqNoOf(effect: Effect): Option<u64> { if effect.Row? then Some(effect.seqNo) else None }

  /** The executed action stream. */
  function ActionsOf(trace: seq<Effect>): seq<DomainAction> { Collect(trace, ActionOf) }

  /** The published ledger, and the sequence numbers stamped on it. */
  function LedgerOf(trace: seq<Effect>): seq<TransitionRecord> { Collect(trace, RecordOf) }
  function SeqNosOf(trace: seq<Effect>): seq<u64> { Collect(trace, SeqNoOf) }

  datatype Mark = Started(assemblies: seq<AssemblyId>) | Stopped(assemblies: seq<AssemblyId>) | Readied(zone: AssemblyId)

  function MarkOf(effect: Effect): Option<Mark> {
    match effect
    case Row(_, record) => if record.event.AssemblyZoneReady? then Some(Readied(record.event.assembly)) else None
    case Acted(action) =>
      match action
      case StartAssemblies(assemblies) => Some(Started(assemblies))
      case StopAssemblies(assemblies) => Some(Stopped(assemblies))
      case _ => None
  }

  /** The life-cycle history: starts, stops and assembly acknowledgements, in order. */
  function MarksOf(trace: seq<Effect>): seq<Mark> { Collect(trace, MarkOf) }

  /** The one history there can be. */
  function CycleMark(i: nat): Mark {
    match i % 6
    case 0 => Started(ALL_ASSEMBLIES)
    case 1 => Readied(HeadlampAssembly)
    case 2 => Readied(WiperAssembly)
    case 3 => Stopped(ALL_ASSEMBLIES)
    case 4 => Readied(HeadlampAssembly)
    case _ => Readied(WiperAssembly)
  }

  /** Where in the cycle a mode stands. */
  function Phase(state: FsmState): nat {
    match state
    case Off => 0
    case PreparingToStart(remaining) => if remaining == EVERY_ASSEMBLY then 1 else 2
    case PreparingToStop(remaining) => if remaining == EVERY_ASSEMBLY then 4 else 5
    case _ => 3
  }

  ghost predicate MarksOk(state: FsmState, trace: seq<Effect>) {
    var marks := MarksOf(trace);
    && |marks| % 6 == Phase(state)
    && (forall i :: 0 <= i < |marks| ==> marks[i] == CycleMark(i))
  }

  ghost predicate BuzzerOk(state: FsmState, trace: seq<Effect>) {
    var commands := Select(ActionsOf(trace), IsBuzzer);
    && AlternatesFrom(false, commands)
    && state.Buzzing() == Odd(|commands|)
  }

  ghost predicate LedgerOk(state: FsmState, ctx: VehicleContext, trace: seq<Effect>, nextRecordSeq: u64) {
    var ledger, seqNos := LedgerOf(trace), SeqNosOf(trace);
    && |seqNos| == |ledger|
    && nextRecordSeq == |ledger| + 1
    && (forall i :: 0 <= i < |seqNos| ==> seqNos[i] == i + 1)
    && Chained(FsmState.Off, ledger)
    && state == ModeBefore(FsmState.Off, ledger, |ledger|)
    && ctx == (if ledger == [] then DEFAULT_CONTEXT else ledger[|ledger| - 1].currentCtx)
    && RecordedActions(ledger) == Recorded(ActionsOf(trace))
  }

  /** Each committed turn wrote its own row, and they did so in order. */
  ghost predicate HistoryOk(committed: seq<Commit>, trace: seq<Effect>) {
    && (forall i :: 0 <= i < |committed| ==>
          && committed[i].at < |trace|
          && trace[committed[i].at].Row?
          && trace[committed[i].at].record.event == committed[i].event
          && (committed[i].told ==> EventZone(committed[i].event) in committed[i].replies))
    && (forall i, j :: 0 <= i < j < |committed| ==> committed[i].at < committed[j].at)
  }

  /** Everything about the cut and the trace. */
  ghost predicate TraceOk(state: FsmState, ctx: VehicleContext, trace: seq<Effect>, nextRecordSeq: u64) {
    && ctx.health.IsHealthy()
    && !LightingUnsafeCut(state, ctx)
    && MarksOk(state, trace)
    && BuzzerOk(state, trace)
    && LedgerOk(state, ctx, trace, nextRecordSeq)
  }

  /** Everything about turns and slots. */
  ghost predicate QueueOk(b: Brain) {
    && Ordered(b.committed, b.queue, b.nextTurnId)
    && EntriesOk(b.queue)
    && CountdownOk(b.state, b.queue)
    && HistoryOk(b.committed, b.trace)
  }

  /** The brain's cut and trace. */
  ghost predicate CutOk(b: Brain) {
    TraceOk(b.state, b.ctx, b.trace, b.nextRecordSeq)
  }

  /** Below the point where the two counters would stop advancing. */
  predicate Unsaturated(b: Brain) {
    b.nextTurnId < U64_MAX && b.nextRecordSeq < U64_MAX
  }

  /** Neither counter ever goes back. */
  predicate CountersGrow(b: Brain, b': Brain) {
    b.nextTurnId <= b'.nextTurnId && b.nextRecordSeq <= b'.nextRecordSeq
  }

  lemma {:induction false} InitialBrainOk()
    ensures QueueOk(INITIAL_BRAIN) && CutOk(INITIAL_BRAIN)
  {
  }

  // ── projections of a concatenated trace ──────────────────────────────────

  lemma {:induction false} CollectConcat<T, U>(a: seq<T>, b: seq<T>, f: T -> Option<U>)
    ensures Collect(a + b, f) == Collect(a, f) + Collect(b, f)
  {
    if a == [] {
      assert a + b == b;
    } else {
      CollectConcat(a[1..], b, f);
      assert (a + b)[0] == a[0];
      assert (a + b)[1..] == a[1..] + b;
      var rest, tail := Collect(a[1..], f), Collect(b, f);
      if f(a[0]).Some? {
        assert [f(a[0]).value] + (rest + tail) == [f(a[0]).value] + rest + tail;
      }
    }
  }

  lemma {:induction false} CollectNone<T, U>(s: seq<T>, f: T -> Option<U>)
    requires forall i :: 0 <= i < |s| ==> f(s[i]).None?
    ensures Collect(s, f) == []
  {
    if s != [] {
      CollectNone(s[1..], f);
    }
  }

  lemma {:induction false} CollectOne<T, U>(x: T, f: T -> Option<U>)
    ensures Collect([x], f) == AsSeq(f(x))
  {
    assert [x][1..] == [];
  }

  lemma {:induction false} ActedActions(actions: seq<DomainAction>)
    ensures ActionsOf(ActedAll(actions)) == actions
  {
    if actions != [] {
      assert ActedAll(actions)[1..] == ActedAll(actions[1..]);
      ActedActions(actions[1..]);
    }
  }

  /** Only the hints leave marks among the actions. */
  lemma {:induction false} ActedMarks(actions: seq<DomainAction>)
    ensures MarksOf(ActedAll(actions)) == MarksOf(ActedAll(Select(actions, IsCoordination)))
  {
    if actions != [] {
      var hints := Select(actions[1..], IsCoordination);
      ActedMarks(actions[1..]);
      assert ActedAll(actions) == [Acted(actions[0])] + ActedAll(actions[1..]);
      CollectConcat([Acted(actions[0])], ActedAll(actions[1..]), MarkOf);
      if IsCoordination(actions[0]) {
        assert Select(actions, IsCoordination) == [actions[0]] + hints;
        assert ActedAll([actions[0]] + hints) == [Acted(actions[0])] + ActedAll(hints);
        CollectConcat([Acted(actions[0])], ActedAll(hints), MarkOf);
      } else {
        assert Select(actions, IsCoordination) == hints;
        CollectOne(Acted(actions[0]), MarkOf);
      }
    }
  }
}
