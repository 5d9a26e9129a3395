/** The actor object: its fields are updated in place, and every handler is proved equal to `BrainModel`. */
module VirtualCarActor {
  import opened VehiclePhysics
  import opened Fsm
  import opened Zones
  import opened TwinTurn
  import opened TurnBarriers
  import opened BrainModel
  import FrontHeadlamp

  /** The twin capsule; `ApplyStep` is its only mutator. */
  class DigitalTwinCar {
    var currentState: FsmState
    var context: VehicleContext

    constructor (state: FsmState, ctx: VehicleContext)
      ensures currentState == state && context == ctx
    {
      currentState, context := state, ctx;
    }

    method ApplyStep(nextState: FsmState, ctx: VehicleContext)
      modifies this
      ensures currentState == nextState && context == ctx
    {
      currentState := nextState;
      context := ctx;
    }
  }

  datatype CarSnapshot = CarSnapshot(state: FsmState, ctx: VehicleContext, asOfSeq: u64)

  /** What a status request is answered with: the cut, stamped with the last published sequence number. */
  function SnapshotOf(b: Brain): CarSnapshot {
    CarSnapshot(b.state, b.ctx, if b.nextRecordSeq == 0 then 0 else b.nextRecordSeq - 1)
  }

  datatype BarrierEntry = WaitingEntry(barrier: TurnBarrier) | PassthroughEntry(turnId: u64, event: FsmEvent, now: Instant)
  {
    function Slot(): set<TurnBarrier> {
      if WaitingEntry? then {barrier} else {}
    }

    function Value(): Entry
      reads Slot()
    {
      if WaitingEntry? then Waiting(barrier.Value()) else Passthrough(turnId, event, now)
    }
  }

  ghost function SlotsOf(queue: seq<BarrierEntry>): set<TurnBarrier> {
    set e | e in queue && e.WaitingEntry? :: e.barrier
  }

  ghost function Values(queue: seq<BarrierEntry>): (values: seq<Entry>)
    reads SlotsOf(queue)
    ensures |values| == |queue|
    ensures forall i :: 0 <= i < |queue| ==> values[i] == queue[i].Value()
  {
    seq(|queue|, i requires 0 <= i < |queue| reads SlotsOf(queue) => assert queue[i] in queue; queue[i].Value())
  }

  lemma {:induction false} FindAt(queue: seq<Entry>, turnId: u64, i: nat)
    requires i <= |queue|
    requires i < |queue| ==> queue[i].TurnId() == turnId
    requires forall j :: 0 <= j < i ==> queue[j].TurnId() != turnId
    ensures Find(queue, turnId) == i
  {
  }

  class VirtualCar {
    const twinCar: DigitalTwinCar
    var barrierQueue: seq<BarrierEntry>
    var nextTurnId: u64
    var nextRecordSeq: u64
    // what has been handed to the transition sink and the actuation manager, to the twinlets
    // (each tell with its deadline), and to the timers as aborts
    var trace: seq<Effect>
    var tells: seq<Tell>
    var aborted: set<Timer>
    ghost var committed: seq<Commit>

    ghost predicate Valid()
      reads this
    {
      forall i, j :: 0 <= i < j < |barrierQueue| && barrierQueue[i].WaitingEntry? && barrierQueue[j].WaitingEntry?
        ==> barrierQueue[i].barrier != barrierQueue[j].barrier
    }

    ghost function Slots(): set<TurnBarrier>
      reads this
    {
      SlotsOf(barrierQueue)
    }

    /** The abstract value of the whole actor. */
    ghost function View(): Brain
      reads this, twinCar, Slots()
    {
      Brain(twinCar.currentState, twinCar.context, Values(barrierQueue), nextTurnId, nextRecordSeq,
            trace, tells, aborted, committed)
    }

    constructor ()
      ensures Valid() && View() == INITIAL_BRAIN
      ensures fresh(twinCar) && Slots() == {}
    {
      twinCar := new DigitalTwinCar(FsmState.Off, DEFAULT_CONTEXT);
      barrierQueue, nextTurnId, nextRecordSeq := [], 1, 1;
      trace, tells, aborted := [], [], {};
      committed := [];
    }

    method AllocTurnId() returns (id: u64)
      modifies this`nextTurnId
      ensures id == old(nextTurnId) && nextTurnId == SaturatingSucc(old(nextTurnId))
    {
      id := nextTurnId;
      nextTurnId := SaturatingSucc(nextTurnId);
    }

    /** Tell a zone and arm the deadline; both go out together. */
    method TellZone(zone: AssemblyId, message: ZoneMessage, turnId: u64, attempt: u32, now: Instant) returns (timer: Timer)
      modifies this`tells
      ensures tells == old(tells) + [Tell(zone, turnId, attempt, message, now)]
      ensures timer == Timer(zone, turnId, attempt)
    {
      tells := tells + [Tell(zone, turnId, attempt, message, now)];
      timer := Timer(zone, turnId, attempt);
    }

    method PushWaitingSlot(event: FsmEvent, zone: AssemblyId, message: ZoneMessage, now: Instant)
      requires Valid()
      modifies this`nextTurnId, this`tells, this`barrierQueue
      ensures Valid() && fresh(Slots() - old(Slots()))
      ensures View() == PushWaiting(old(View()), event, zone, message, now)
    {
      hide NewBarrier;
      var turnId := AllocTurnId();
      var timer := TellZone(zone, message, turnId, 0, now);
      var barrier := NewWaitingBarrier(turnId, event, now, zone, message, timer);
      barrierQueue := barrierQueue + [WaitingEntry(barrier)];
      EntryAppended(WaitingEntry(barrier));
    }

    static method NewWaitingBarrier(turnId: u64, event: FsmEvent, now: Instant, zone: AssemblyId, message: ZoneMessage,
                                    timer: Timer)
      returns (barrier: TurnBarrier)
      requires timer == Timer(zone, turnId, 0)
      ensures fresh(barrier) && barrier.Value() == NewBarrier(turnId, event, now, zone, message)
    {
      barrier := new TurnBarrier(turnId, event, now);
      barrier.AddPendingZone(zone, message, NewWait(turnId), timer);
    }

    /** Assign a turn id, tell the zone the event needs, if any, and queue the slot. */
    method BeginTurn(event: FsmEvent, now: Instant)
      requires Valid()
      modifies this`nextTurnId, this`tells, this`barrierQueue
      ensures Valid() && fresh(Slots() - old(Slots()))
      ensures View() == BeginFsmTurn(old(View()), event, now)
    {
      var route := ZoneMessageForEvent(event, twinCar.currentState);
      if route.Route? {
        PushWaitingSlot(event, route.zone, route.message, now);
        return;
      }
      var turnId := AllocTurnId();
      barrierQueue := barrierQueue + [PassthroughEntry(turnId, event, now)];
      EntryAppended(PassthroughEntry(turnId, event, now));
    }

    /** Linear search of the queue by turn id. */
    method FindSlot(turnId: u64) returns (i: nat, slot: Option<TurnBarrier>)
      requires Valid()
      ensures slot.Some? <==> FindWaiting(View(), turnId).Some?
      ensures slot.Some? ==>
        && FindWaiting(View(), turnId) == Some(i)
        && i < |barrierQueue| && barrierQueue[i] == WaitingEntry(slot.value)
        && slot.value in Slots()
    {
      i := 0;
      while i < |barrierQueue|
        invariant i <= |barrierQueue|
        invariant forall j :: 0 <= j < i ==> Values(barrierQueue)[j].TurnId() != turnId
      {
        var e := barrierQueue[i];
        var id := if e.WaitingEntry? then e.barrier.turnId else e.turnId;
        if id == turnId {
          FindAt(Values(barrierQueue), turnId, i);
          slot := if e.WaitingEntry? then Some(e.barrier) else None;
          return;
        }
        i := i + 1;
      }
      FindAt(Values(barrierQueue), turnId, i);
      slot := None;
    }

    /** Appending an entry with a fresh slot leaves the values of the others alone. */
    twostate lemma {:induction false} EntryAppended(new e: BarrierEntry)
      requires old(Valid()) && barrierQueue == old(barrierQueue) + [e]
      requires e.WaitingEntry? ==> e.barrier !in old(Slots())
      requires forall s :: s in old(Slots()) ==> unchanged(s)
      ensures Valid() && Slots() == old(Slots()) + e.Slot()
      ensures Values(barrierQueue) == old(Values(barrierQueue)) + [e.Value()]
    {
      forall j | 0 <= j < |old(barrierQueue)|
        ensures Values(barrierQueue)[j] == old(Values(barrierQueue))[j]
        ensures barrierQueue[j].WaitingEntry? ==> barrierQueue[j].barrier in old(Slots())
      {
        assert old(barrierQueue)[j] in old(barrierQueue);
        if barrierQueue[j].WaitingEntry? {
          assert barrierQueue[j].barrier in old(Slots());
        }
      }
    }

    /** Updating one slot object changes the queue's value at that slot and nowhere else. */
    twostate lemma {:induction false} OneSlotChanged(i: nat)
      requires old(Valid()) && barrierQueue == old(barrierQueue)
      requires i < |barrierQueue| && barrierQueue[i].WaitingEntry?
      requires forall s :: s in Slots() && s != barrierQueue[i].barrier ==> unchanged(s)
      ensures Valid()
      ensures Values(barrierQueue) == old(Values(barrierQueue))[i := Waiting(barrierQueue[i].barrier.Value())]
    {
      forall j | 0 <= j < |barrierQueue| && j != i
        ensures Values(barrierQueue)[j] == old(Values(barrierQueue))[j]
      {
        assert barrierQueue[j] in barrierQueue;
        if barrierQueue[j].WaitingEntry? {
          assert barrierQueue[j].barrier in Slots();
          assert barrierQueue[j].barrier != barrierQueue[i].barrier;
        }
      }
    }

    method ZoneReady(zone: AssemblyId, turnId: u64, attempt: u32, reply: ZoneReply)
      requires Valid()
      modifies this`aborted, Slots()
      ensures Valid()
      ensures View() == OnZoneReady(old(View()), zone, turnId, attempt, reply)
    {
      var i, slot := FindSlot(turnId);
      if slot.None? {
        return;
      }
      var barrier := slot.value;
      if !(zone in barrier.zoneWaits && barrier.zoneWaits[zone].tellAttempt == attempt) {
        return;
      }
      ReplyInSlot(i, barrier, zone, reply);
    }

    /** Returns false when a retry finds no stored message, which the program reports as an error. */
    method ZoneTellBackTimeout(zone: AssemblyId, turnId: u64, attempt: u32) returns (ok: bool)
      requires Valid()
      modifies this`aborted, this`tells, Slots()
      ensures Valid()
      ensures View() == OnZoneTimeout(old(View()), zone, turnId, attempt)
      ensures !ok <==> var i := FindWaiting(old(View()), turnId);
                       && i.Some?
                       && var slot := old(View()).queue[i.value].barrier;
                       slot.Retries(zone, attempt) && zone !in slot.messages
    {
      ok := true;
      var i, slot := FindSlot(turnId);
      if slot.None? {
        return;
      }
      var barrier := slot.value;
      var outcome := barrier.ActOnZoneTimeout(zone, attempt);
      OneSlotChanged(i);
      match outcome {
        case Retry(nextAttempt) => ok := RetrySlot(i, barrier, zone, nextAttempt);
        case GaveUp => ReplyInSlot(i, barrier, zone, SyntheticReplyFor(twinCar.context, zone));
      }
    }

    method RetrySlot(ghost i: nat, barrier: TurnBarrier, zone: AssemblyId, nextAttempt: u32) returns (ok: bool)
      requires Valid() && i < |barrierQueue| && barrierQueue[i] == WaitingEntry(barrier) && barrier in Slots()
      modifies this`tells, barrier
      ensures Valid()
      ensures ok <==> zone in old(barrier.Value()).messages
      ensures View() == if ok then Retold(old(View()), i, zone, nextAttempt) else old(View())
    {
      ok := zone in barrier.zoneMessages;
      if ok {
        var timer := TellZone(zone, barrier.zoneMessages[zone], barrier.turnId, nextAttempt, barrier.now);
        barrier.StoreRetryTimer(zone, timer);
      }
      OneSlotChanged(i);
    }

    method ReplyInSlot(ghost i: nat, barrier: TurnBarrier, zone: AssemblyId, reply: ZoneReply)
      requires Valid() && i < |barrierQueue| && barrierQueue[i] == WaitingEntry(barrier) && barrier in Slots()
      modifies this`aborted, barrier
      ensures Valid()
      ensures View() == ReplyAt(old(View()), i, zone, reply)
    {
      var handles := barrier.ActOnZoneReply(zone, reply);
      aborted := aborted + handles;
      OneSlotChanged(i);
    }

    method ExecuteActions(actions: seq<DomainAction>, clock: Clock)
      requires Valid()
      modifies this`nextTurnId, this`tells, this`barrierQueue, this`trace
      ensures Valid() && fresh(Slots() - old(Slots()))
      ensures View() == ExecuteAll(old(View()), actions, clock)
    {
      ghost var start := View();
      for k := 0 to |actions|
        invariant Valid() && fresh(Slots() - old(Slots()))
        invariant ExecuteAll(View(), actions[k..], clock) == ExecuteAll(start, actions, clock)
      {
        assert actions[k..][0] == actions[k] && actions[k..][1..] == actions[k + 1..];
        ExecuteOne(actions[k], clock);
      }
    }

    method ExecuteOne(action: DomainAction, clock: Clock)
      requires Valid()
      modifies this`nextTurnId, this`tells, this`barrierQueue, this`trace
      ensures Valid() && fresh(Slots() - old(Slots()))
      ensures View() == Execute(old(View()), action, clock)
    {
      hide PushAssemblies;
      ghost var start := View();
      trace := trace + [Acted(action)];
      assert View() == start.(trace := start.trace + [Acted(action)]);
      match action {
        case StartAssemblies(assemblies) => PushLifecycle(assemblies, true, clock(nextTurnId));
        case StopAssemblies(assemblies) => PushLifecycle(assemblies, false, clock(nextTurnId));
        case _ =>
      }
    }

    method PushLifecycle(assemblies: seq<AssemblyId>, starting: bool, now: Instant)
      requires Valid()
      modifies this`nextTurnId, this`tells, this`barrierQueue
      ensures Valid() && fresh(Slots() - old(Slots()))
      ensures View() == PushAssemblies(old(View()), assemblies, starting, now)
    {
      ghost var start := View();
      for k := 0 to |assemblies|
        invariant Valid() && fresh(Slots() - old(Slots()))
        invariant PushAssemblies(View(), assemblies[k..], starting, now) == PushAssemblies(start, assemblies, starting, now)
      {
        assert assemblies[k..][0] == assemblies[k] && assemblies[k..][1..] == assemblies[k + 1..];
        var zone := assemblies[k];
        PushWaitingSlot(AssemblyZoneReady(zone), zone, LifecycleMessage(zone, starting), now);
      }
    }

    method EmitTransitionRecords(hops: seq<Hop>)
      modifies this`nextRecordSeq, this`trace
      ensures View() == EmitRows(old(View()), hops)
    {
      ghost var start := View();
      for k := 0 to |hops|
        invariant EmitRows(View(), hops[k..]) == EmitRows(start, hops)
      {
        assert hops[k..][0] == hops[k] && hops[k..][1..] == hops[k + 1..];
        ghost var before := View();
        trace := trace + [Row(nextRecordSeq, hops[k].result.record)];
        nextRecordSeq := SaturatingSucc(nextRecordSeq);
        assert View() == before.(trace := before.trace + [Row(before.nextRecordSeq, hops[k].result.record)],
                                 nextRecordSeq := SaturatingSucc(before.nextRecordSeq));
      }
    }

    static method MergeActions(hops: seq<Hop>) returns (merged: seq<DomainAction>)
      ensures merged == MergedActions(hops)
    {
      merged := [];
      for k := 0 to |hops|
        invariant merged + MergedActions(hops[k..]) == MergedActions(hops)
      {
        assert hops[k..][0] == hops[k] && hops[k..][1..] == hops[k + 1..];
        merged := merged + hops[k].result.actions;
      }
      assert merged + MergedActions([]) == merged;
    }

    method ApplyCommittedQuiescence(hops: seq<Hop>, clock: Clock)
      requires Valid() && hops != []
      modifies this`nextTurnId, this`tells, this`barrierQueue, this`trace, this`nextRecordSeq, twinCar
      ensures Valid() && fresh(Slots() - old(Slots()))
      ensures View() == ApplyQuiescence(old(View()), hops, clock)
    {
      hide EmitRows, ExecuteAll, MergedActions;
      EmitTransitionRecords(hops);
      ghost var rows := View();
      var last := hops[|hops| - 1].result;
      twinCar.ApplyStep(last.nextState, last.ctx);
      assert View() == rows.(state := Final(hops).nextState, ctx := Final(hops).ctx);
      var merged := MergeActions(hops);
      assert View() == rows.(state := Final(hops).nextState, ctx := Final(hops).ctx);
      ExecuteActions(merged, clock);
    }

    method CommitResolvedTurn(ingress: FsmEvent, now: Instant, replies: ZoneReplies, clock: Clock)
      requires Valid()
      modifies this`nextTurnId, this`tells, this`barrierQueue, this`trace, this`nextRecordSeq, twinCar
      ensures Valid() && fresh(Slots() - old(Slots()))
      ensures View() == CommitResolved(old(View()), ingress, now, replies, clock)
    {
      hide Quiesce, ApplyQuiescence;
      var hops := RunToQuiescence(twinCar.currentState, twinCar.context, ingress, now, replies);
      ApplyCommittedQuiescence(hops, clock);
    }

    method CommitFrontEntry(clock: Clock)
      requires Valid() && FrontComplete(View())
      modifies this, twinCar
      ensures Valid() && fresh(Slots() - old(Slots()))
      ensures View() == CommitFront(old(View()), clock)
    {
      hide CommitResolved;
      var front := barrierQueue[0];
      assert View().queue[0] == front.Value();
      committed := committed + [CommitOf(front.Value(), |trace|)];
      barrierQueue := barrierQueue[1..];
      FrontPopped();
      if front.WaitingEntry? {
        CommitResolvedTurn(front.barrier.event, front.barrier.now, front.barrier.zoneReplies, clock);
      } else {
        CommitResolvedTurn(front.event, front.now, map[], clock);
      }
    }

    twostate lemma {:induction false} FrontPopped()
      requires old(Valid()) && |old(barrierQueue)| > 0 && barrierQueue == old(barrierQueue)[1..]
      requires forall s :: s in old(Slots()) ==> unchanged(s)
      ensures Valid() && Slots() <= old(Slots())
      ensures Values(barrierQueue) == old(Values(barrierQueue))[1..]
    {
      forall j | 0 <= j < |barrierQueue|
        ensures Values(barrierQueue)[j] == old(Values(barrierQueue))[j + 1]
      {
        assert barrierQueue[j] == old(barrierQueue)[j + 1];
        assert barrierQueue[j] in old(barrierQueue);
        if barrierQueue[j].WaitingEntry? {
          assert barrierQueue[j].barrier in old(Slots());
        }
      }
    }

    /** Commit all complete entries from the front of the queue. */
    method TryDrainBarrierQueue(clock: Clock)
      requires Valid()
      modifies this, twinCar
      ensures Valid() && fresh(Slots() - old(Slots()))
      ensures View() == Drain(old(View()), clock)
    {
      hide CommitFront;
      ghost var start := View();
      while barrierQueue != []
        invariant Valid() && fresh(Slots() - old(Slots()))
        invariant Drain(View(), clock) == Drain(start, clock)
        decreases CompletePrefix(Values(barrierQueue))
      {
        var front := barrierQueue[0];
        assert View().queue[0] == front.Value();
        if front.WaitingEntry? && front.barrier.pending != {} {
          break;
        }
        assert FrontComplete(View());
        CommitFrontProgress(View(), clock);
        CommitFrontEntry(clock);
      }
    }

    // ── the mailbox ──────────────────────────────────────────────────────────

    method HandleFsm(event: FsmEvent, now: Instant, clock: Clock)
      requires Valid()
      modifies this, twinCar
      ensures Valid()
      ensures View() == Drain(BeginFsmTurn(old(View()), event, now), clock)
    {
      BeginTurn(event, now);
      TryDrainBarrierQueue(clock);
    }

    method HandleZoneReady(zone: AssemblyId, turnId: u64, attempt: u32, reply: ZoneReply, clock: Clock)
      requires Valid()
      modifies this, twinCar, Slots()
      ensures Valid()
      ensures View() == Drain(OnZoneReady(old(View()), zone, turnId, attempt, reply), clock)
    {
      ZoneReady(zone, turnId, attempt, reply);
      TryDrainBarrierQueue(clock);
    }

    method HandleZoneTellBackTimeout(zone: AssemblyId, turnId: u64, attempt: u32, clock: Clock) returns (ok: bool)
      requires Valid()
      modifies this, twinCar, Slots()
      ensures Valid()
      ensures ok ==> View() == Drain(OnZoneTimeout(old(View()), zone, turnId, attempt), clock)
      ensures !ok ==> View() == OnZoneTimeout(old(View()), zone, turnId, attempt)
      ensures !ok <==> var i := FindWaiting(old(View()), turnId);
                       && i.Some?
                       && var slot := old(View()).queue[i.value].barrier;
                       slot.Retries(zone, attempt) && zone !in slot.messages
    {
      ok := ZoneTellBackTimeout(zone, turnId, attempt);
      if ok {
        TryDrainBarrierQueue(clock);
      }
    }

    method HandleZoneSpontaneous(direction: SwitchDirection, cause: IncompleteCause,
                                 reply: FrontHeadlamp.HeadlampZoneReply, now: Instant, clock: Clock)
      requires Valid()
      modifies this, twinCar
      ensures Valid()
      ensures View() == Drain(OnZoneSpontaneous(old(View()), direction, cause, reply, now, clock), clock)
    {
      CommitResolvedTurn(FrontHeadlampActuationIncomplete(direction, cause), now,
                         map[HeadlampAssembly := FromHeadlamp(reply)], clock);
      TryDrainBarrierQueue(clock);
    }

    /** A snapshot stamped with the sequence number of the last published row. */
    method GetStatus() returns (snapshot: CarSnapshot)
      ensures snapshot == SnapshotOf(View())
    {
      snapshot := CarSnapshot(twinCar.currentState, twinCar.context,
                              if nextRecordSeq == 0 then 0 else nextRecordSeq - 1);
    }

    /** Teardown: abort every stored deadline, and nothing else, drop the queue, and stop the twinlets, named in order. */
    method PostStop() returns (stopped: seq<AssemblyId>)
      requires Valid()
      modifies this`aborted, this`barrierQueue, Slots()
      ensures barrierQueue == [] && stopped == [HeadlampAssembly, WiperAssembly]
      ensures forall s :: s in old(Slots()) ==> old(s.zoneTimers).Values <= aborted && s.zoneTimers == map[]
      ensures forall t :: t in aborted ==> t in old(aborted) || exists s :: s in old(Slots()) && t in old(s.zoneTimers).Values
      ensures old(aborted) <= aborted
    {
      ghost var start := barrierQueue;
      for k := 0 to |barrierQueue|
        invariant barrierQueue == start
        invariant old(aborted) <= aborted
        invariant forall j :: 0 <= j < k && start[j].WaitingEntry? ==>
          old(start[j].barrier.zoneTimers).Values <= aborted && start[j].barrier.zoneTimers == map[]
        invariant forall j :: k <= j < |start| && start[j].WaitingEntry? ==> unchanged(start[j].barrier)
        invariant forall t :: t in aborted ==> t in old(aborted) || exists s :: s in old(Slots()) && t in old(s.zoneTimers).Values
      {
        if barrierQueue[k].WaitingEntry? {
          assert start[k] in start;
          assert start[k].barrier in old(Slots());
          var handles := barrierQueue[k].barrier.AbortAllTimers();
          aborted := aborted + handles;
        }
      }
      barrierQueue := [];
      stopped := [HeadlampAssembly, WiperAssembly];
    }
  }
}
