/**
 * The digital twin's actor as a function on values: what each mailbox handler does to the twin,
 * the reorder queue, the counters and the outgoing messages. The class in VirtualCarActor.dfy is
 * proved to do exactly this in place.
 */
module BrainModel {
  import opened VehiclePhysics
  import opened Fsm
  import opened Zones
  import opened TwinTurn
  import opened TurnBarriers
  import FrontHeadlamp
  import Wiper

  /** One observable effect of a commit: a published ledger row, or an action carried out. */
  datatype Effect = Row(seqNo: u64, record: TransitionRecord) | Acted(action: DomainAction)

  /** One tell, sent together with the deadline `TimerOf` arms for it. */
  datatype Tell = Tell(zone: AssemblyId, turnId: u64, attempt: u32, message: ZoneMessage, now: Instant)

  /**
   * History: which turn was committed, its event and arrival stamp, how long the trace was then,
   * whether a zone had been told, and the replies in its slot.
   */
  datatype Commit = Commit(turnId: u64, event: FsmEvent, now: Instant, at: nat, told: bool, replies: ZoneReplies)

  datatype Brain = Brain(
    state: FsmState,
    ctx: VehicleContext,
    queue: seq<Entry>,
    nextTurnId: u64,
    nextRecordSeq: u64,
    trace: seq<Effect>,
    tells: seq<Tell>,
    aborted: set<Timer>,
    committed: seq<Commit>)

  const INITIAL_BRAIN := Brain(FsmState.Off, DEFAULT_CONTEXT, [], 1, 1, [], [], {}, [])

  /** The clock readings taken while assemblies are started or stopped, by the first turn id allocated. */
  type Clock = u64 -> Instant

  function TimerOf(tell: Tell): Timer {
    Timer(tell.zone, tell.turnId, tell.attempt)
  }

  function LifecycleMessage(zone: AssemblyId, starting: bool): ZoneMessage {
    match zone
    case HeadlampAssembly => ToHeadlamp(if starting then FrontHeadlamp.BecomeOn else FrontHeadlamp.BecomeOff)
    case WiperAssembly => ToWiper(if starting then Wiper.BecomeOn else Wiper.BecomeOff)
  }

  /** Allocate a turn id, tell `zone`, arm its deadline and queue the waiting slot. */
  function PushWaiting(b: Brain, event: FsmEvent, zone: AssemblyId, message: ZoneMessage, now: Instant): Brain {
    b.(nextTurnId := SaturatingSucc(b.nextTurnId),
       tells := b.tells + [Tell(zone, b.nextTurnId, 0, message, now)],
       queue := b.queue + [Waiting(NewBarrier(b.nextTurnId, event, now, zone, message))])
  }

  function PushPassthrough(b: Brain, event: FsmEvent, now: Instant): Brain {
    b.(nextTurnId := SaturatingSucc(b.nextTurnId),
       queue := b.queue + [Passthrough(b.nextTurnId, event, now)])
  }

  function PushAssemblies(b: Brain, zones: seq<AssemblyId>, starting: bool, now: Instant): Brain
    decreases |zones|
  {
    if zones == [] then b
    else PushAssemblies(
        PushWaiting(b, AssemblyZoneReady(zones[0]), zones[0], LifecycleMessage(zones[0], starting), now),
        zones[1..], starting, now)
  }

  function Execute(b: Brain, action: DomainAction, clock: Clock): Brain {
    var acted := b.(trace := b.trace + [Acted(action)]);
    match action
    case StartAssemblies(zones) => PushAssemblies(acted, zones, true, clock(b.nextTurnId))
    case StopAssemblies(zones) => PushAssemblies(acted, zones, false, clock(b.nextTurnId))
    case _ => acted
  }

  function ExecuteAll(b: Brain, actions: seq<DomainAction>, clock: Clock): Brain
    decreases |actions|
  {
    if actions == [] then b else ExecuteAll(Execute(b, actions[0], clock), actions[1..], clock)
  }

  function EmitRows(b: Brain, hops: seq<Hop>): Brain
    decreases |hops|
  {
    if hops == [] then b
    else EmitRows(b.(trace := b.trace + [Row(b.nextRecordSeq, hops[0].result.record)],
                     nextRecordSeq := SaturatingSucc(b.nextRecordSeq)), hops[1..])
  }

  /** Publish every hop, apply the final cut once, then carry out the merged actions. */
  function ApplyQuiescence(b: Brain, hops: seq<Hop>, clock: Clock): Brain
    requires hops != []
  {
    var rows := EmitRows(b, hops);
    ExecuteAll(rows.(state := Final(hops).nextState, ctx := Final(hops).ctx), MergedActions(hops), clock)
  }

  function CommitResolved(b: Brain, ingress: FsmEvent, now: Instant, replies: ZoneReplies, clock: Clock): Brain {
    ApplyQuiescence(b, Quiesce(b.state, b.ctx, ingress, now, replies), clock)
  }

  predicate FrontComplete(b: Brain) {
    b.queue != [] && b.queue[0].IsComplete()
  }

  function CommitOf(e: Entry, at: nat): Commit {
    Commit(e.TurnId(), e.Event(), e.Now(), at, e.Waiting?, e.Replies())
  }

  function PopFront(b: Brain): Brain
    requires b.queue != []
  {
    b.(queue := b.queue[1..],
       committed := b.committed + [CommitOf(b.queue[0], |b.trace|)])
  }

  function CommitFront(b: Brain, clock: Clock): Brain
    requires FrontComplete(b)
  {
    var e := b.queue[0];
    CommitResolved(PopFront(b), e.Event(), e.Now(), e.Replies(), clock)
  }

  /** How many entries from the front are already complete. */
  function CompletePrefix(queue: seq<Entry>): nat {
    if queue == [] || !queue[0].IsComplete() then 0 else 1 + CompletePrefix(queue[1..])
  }

  /** Commits only ever append to the queue, and only entries that still wait. */
  ghost predicate AppendsWaiting(b: Brain, b': Brain) {
    && |b.queue| <= |b'.queue|
    && b'.queue[..|b.queue|] == b.queue
    && (forall i :: |b.queue| <= i < |b'.queue| ==> !b'.queue[i].IsComplete())
  }

  lemma {:induction false} PushAssembliesAppends(b: Brain, zones: seq<AssemblyId>, starting: bool, now: Instant)
    ensures AppendsWaiting(b, PushAssemblies(b, zones, starting, now))
    decreases |zones|
  {
    if zones != [] {
      var next := PushWaiting(b, AssemblyZoneReady(zones[0]), zones[0], LifecycleMessage(zones[0], starting), now);
      PushAssembliesAppends(next, zones[1..], starting, now);
    }
  }

  lemma {:induction false} ExecuteAllAppends(b: Brain, actions: seq<DomainAction>, clock: Clock)
    ensures AppendsWaiting(b, ExecuteAll(b, actions, clock))
    decreases |actions|
  {
    if actions != [] {
      var next := Execute(b, actions[0], clock);
      if IsCoordination(actions[0]) {
        PushAssembliesAppends(b.(trace := b.trace + [Acted(actions[0])]), actions[0].assemblies,
                              actions[0].StartAssemblies?, clock(b.nextTurnId));
      }
      assert AppendsWaiting(b, next);
      ExecuteAllAppends(next, actions[1..], clock);
    }
  }

  lemma {:induction false} EmitRowsQueue(b: Brain, hops: seq<Hop>)
    ensures EmitRows(b, hops).queue == b.queue
    decreases |hops|
  {
    if hops != [] {
      EmitRowsQueue(b.(trace := b.trace + [Row(b.nextRecordSeq, hops[0].result.record)],
                       nextRecordSeq := SaturatingSucc(b.nextRecordSeq)), hops[1..]);
    }
  }

  lemma {:induction false} CompletePrefixAppend(queue: seq<Entry>, more: seq<Entry>)
    requires forall i :: 0 <= i < |more| ==> !more[i].IsComplete()
    ensures CompletePrefix(queue + more) == CompletePrefix(queue)
  {
    if queue == [] {
      assert queue + more == more;
    } else {
      assert (queue + more)[1..] == queue[1..] + more;
      CompletePrefixAppend(queue[1..], more);
    }
  }

  lemma {:induction false} ApplyQuiescenceAppends(b: Brain, hops: seq<Hop>, clock: Clock)
    requires hops != []
    ensures AppendsWaiting(b, ApplyQuiescence(b, hops, clock))
  {
    EmitRowsQueue(b, hops);
    var rows := EmitRows(b, hops);
    ExecuteAllAppends(rows.(state := Final(hops).nextState, ctx := Final(hops).ctx), MergedActions(hops), clock);
  }

  /** Each pass of the drain loop pops a complete entry and pushes none. */
  lemma {:induction false} CommitFrontProgress(b: Brain, clock: Clock)
    requires FrontComplete(b)
    ensures AppendsWaiting(PopFront(b), CommitFront(b, clock))
    ensures CompletePrefix(CommitFront(b, clock).queue) == CompletePrefix(b.queue) - 1
  {
    var e := b.queue[0];
    var hops := Quiesce(b.state, b.ctx, e.Event(), e.Now(), e.Replies());
    ApplyQuiescenceAppends(PopFront(b), hops, clock);
    var q := CommitFront(b, clock).queue;
    var n := |b.queue| - 1;
    assert q == b.queue[1..] + q[n..];
    CompletePrefixAppend(b.queue[1..], q[n..]);
  }

  /** Commit from the front for as long as the front is complete. */
  function Drain(b: Brain, clock: Clock): Brain
    decreases CompletePrefix(b.queue)
  {
    if !FrontComplete(b) then b
    else
      CommitFrontProgress(b, clock);
      Drain(CommitFront(b, clock), clock)
  }

  // ── mailbox handlers ─────────────────────────────────────────────────────

  function BeginFsmTurn(b: Brain, event: FsmEvent, now: Instant): Brain {
    match ZoneMessageForEvent(event, b.state)
    case Route(zone, message) => PushWaiting(b, event, zone, message, now)
    case NoZone => PushPassthrough(b, event, now)
  }

  /** Index of the first entry with `turnId`, or the queue's length. */
  function Find(queue: seq<Entry>, turnId: u64): (i: nat)
    ensures i <= |queue|
    ensures i < |queue| ==> queue[i].TurnId() == turnId
    ensures forall j :: 0 <= j < i ==> queue[j].TurnId() != turnId
  {
    if queue == [] || queue[0].TurnId() == turnId then 0 else 1 + Find(queue[1..], turnId)
  }

  /** The queue position of the waiting slot for `turnId`, if it is still queued. */
  function FindWaiting(b: Brain, turnId: u64): Option<nat> {
    var i := Find(b.queue, turnId);
    if i < |b.queue| && b.queue[i].Waiting? then Some(i) else None
  }

  function ReplyAt(b: Brain, i: nat, zone: AssemblyId, reply: ZoneReply): Brain
    requires i < |b.queue| && b.queue[i].Waiting?
  {
    var slot := b.queue[i].barrier;
    b.(queue := b.queue[i := Waiting(slot.ActOnZoneReply(zone, reply))],
       aborted := b.aborted + slot.AbortedBy(zone))
  }

  function OnZoneReady(b: Brain, zone: AssemblyId, turnId: u64, attempt: u32, reply: ZoneReply): Brain {
    var i := FindWaiting(b, turnId);
    if i.Some? && b.queue[i.value].barrier.TellAttemptMatches(zone, attempt)
    then ReplyAt(b, i.value, zone, reply) else b
  }

  function SyntheticReplyFor(ctx: VehicleContext, zone: AssemblyId): ZoneReply {
    match zone
    case HeadlampAssembly => FromHeadlamp(SyntheticHeadlampReply(ctx.headlamp))
    case WiperAssembly => FromWiper(SyntheticWiperReply(ctx.wiper))
  }

  /** The slot after its deadline fired, before the caller acts on the outcome. */
  function TimedOutAt(b: Brain, i: nat, zone: AssemblyId, attempt: u32): Brain
    requires i < |b.queue| && b.queue[i].Waiting?
  {
    b.(queue := b.queue[i := Waiting(b.queue[i].barrier.ActOnZoneTimeout(zone, attempt))])
  }

  /** Tell the zone again, with the stored message and the original arrival stamp, and arm a new deadline. */
  function Retold(b: Brain, i: nat, zone: AssemblyId, next: u32): Brain
    requires i < |b.queue| && b.queue[i].Waiting? && zone in b.queue[i].barrier.messages
  {
    var slot := b.queue[i].barrier;
    b.(queue := b.queue[i := Waiting(slot.StoreRetryTimer(zone, Timer(zone, slot.turnId, next)))],
       tells := b.tells + [Tell(zone, slot.turnId, next, slot.messages[zone], slot.now)])
  }

  /** A retry that finds no stored message is an error: the attempt has been advanced, nothing is sent. */
  function RetryAt(b: Brain, i: nat, zone: AssemblyId, attempt: u32): Brain
    requires i < |b.queue| && b.queue[i].Waiting? && b.queue[i].barrier.Retries(zone, attempt)
  {
    var fired := TimedOutAt(b, i, zone, attempt);
    if zone in b.queue[i].barrier.messages
    then Retold(fired, i, zone, NextAttempt(attempt)) else fired
  }

  function GiveUpAt(b: Brain, i: nat, zone: AssemblyId, attempt: u32): Brain
    requires i < |b.queue| && b.queue[i].Waiting? && !b.queue[i].barrier.Retries(zone, attempt)
  {
    ReplyAt(TimedOutAt(b, i, zone, attempt), i, zone, SyntheticReplyFor(b.ctx, zone))
  }

  function OnZoneTimeout(b: Brain, zone: AssemblyId, turnId: u64, attempt: u32): Brain {
    var i := FindWaiting(b, turnId);
    if i.None? then b
    else if b.queue[i.value].barrier.Retries(zone, attempt) then RetryAt(b, i.value, zone, attempt)
    else GiveUpAt(b, i.value, zone, attempt)
  }

  function OnZoneSpontaneous(b: Brain, direction: SwitchDirection, cause: IncompleteCause,
                             reply: FrontHeadlamp.HeadlampZoneReply, now: Instant, clock: Clock): Brain {
    CommitResolved(b, FrontHeadlampActuationIncomplete(direction, cause), now,
                   map[HeadlampAssembly := FromHeadlamp(reply)], clock)
  }
}
