/**
 * The asynchronous wiper protocol against the local sequential handler. As long as the wiper answers
 * and none of its tells times out, there is one state, the base, from which the queued wiper messages
 * lead to where twinlet and mailbox stand, and from which the rain committed untold since the last
 * told wiper commit leads to the brain's mirror. Without untold rain the base is the mirror.
 */
module WiperRefinement {
  import opened VehiclePhysics
  import opened Fsm
  import opened Zones
  import opened TwinTurn
  import opened TurnBarriers
  import opened BrainModel
  import opened Turns
  import opened Commits
  import opened BrainInvariants
  import opened BrainSafety
  import opened HandlerSafety
  import opened Twinlets
  import opened Plant
  import FrontHeadlamp
  import Wiper

  predicate IsWiperSlot(e: Entry) {
    e.Waiting? && EventZone(e.barrier.event) == WiperAssembly
    && WiperAssembly in e.barrier.messages && e.barrier.messages[WiperAssembly].ToWiper?
  }

  function WiperMessageOf(e: Entry): Wiper.WiperMessage
    requires IsWiperSlot(e)
  {
    e.barrier.messages[WiperAssembly].wiper
  }

  /** The first tell of a wiper slot. */
  function WiperTell(e: Entry): Option<Tell> {
    if IsWiperSlot(e)
    then Some(Tell(WiperAssembly, e.barrier.turnId, 0, e.barrier.messages[WiperAssembly], e.barrier.now)) else None
  }

  function QueuedWiperTells(queue: seq<Entry>): seq<Tell> { Collect(queue, WiperTell) }

  function WiperText(tell: Tell): Option<Wiper.WiperMessage> {
    if tell.message.ToWiper? then Some(tell.message.wiper) else None
  }

  function Texts(tells: seq<Tell>): seq<Wiper.WiperMessage> { Collect(tells, WiperText) }

  /** The wiper messages waiting in the queue, in order. */
  function QueuedWiperMessages(queue: seq<Entry>): seq<Wiper.WiperMessage> { Texts(QueuedWiperTells(queue)) }

  /** What the local handler would make of the slot at `i`, applied after everything queued before it. */
  function LocalReply(base: Wiper.WiperContext, queue: seq<Entry>, i: nat): Wiper.WiperZoneReply
    requires i < |queue| && IsWiperSlot(queue[i])
  {
    Wiper.OnReceivingMessage(Wiper.Fold(base, QueuedWiperMessages(queue[..i])), WiperMessageOf(queue[i]))
  }

  /** The message answers the wiper slot at `i`. */
  predicate Answers(m: ReadyMsg, queue: seq<Entry>, i: int) {
    0 <= i < |queue| && IsWiperSlot(queue[i]) && queue[i].TurnId() == m.turnId
  }

  predicate IsRain(event: FsmEvent) { event.RainsStarted? || event.RainsStopped? }

  /** A stored or travelling wiper reply is the local one, and answers a tell that has been taken. */
  ghost predicate RepliesAreLocal(queue: seq<Entry>, nextTurnId: u64, base: Wiper.WiperContext,
                                  ready: multiset<ReadyMsg>, mail: seq<Tell>)
  {
    && (forall i :: 0 <= i < |queue| && IsWiperSlot(queue[i]) && queue[i].IsComplete() ==>
          && queue[i].barrier.replies == map[WiperAssembly := FromWiper(LocalReply(base, queue, i))]
          && (forall j :: 0 <= j < |mail| ==> mail[j].turnId != queue[i].TurnId()))
    && (forall m, i :: m in ready && m.zone == WiperAssembly && Answers(m, queue, i)
          ==> m.reply == FromWiper(LocalReply(base, queue, i)))
    && (forall m, j :: m in ready && m.zone == WiperAssembly && 0 <= j < |mail| ==> mail[j].turnId != m.turnId)
    && (forall m :: m in ready && m.zone == WiperAssembly ==> m.turnId < nextTurnId)
  }

  /** The mailbox is the untaken rest of the queued tells; the twinlet stands where the taken ones lead. */
  ghost predicate TwinletInStep(queue: seq<Entry>, base: Wiper.WiperContext, mail: seq<Tell>, wiper: Wiper.WiperContext) {
    var tells := QueuedWiperTells(queue);
    && |mail| <= |tells|
    && mail == tells[|tells| - |mail|..]
    && wiper == Wiper.Fold(base, Texts(tells[..|tells| - |mail|]))
  }

  // ── rain nobody told the wiper ───────────────────────────────────────────

  predicate UntoldRain(c: Commit) { !c.told && IsRain(c.event) }

  predicate ToldWiper(c: Commit) { c.told && (IsRain(c.event) || c.event == AssemblyZoneReady(WiperAssembly)) }

  function RainMessage(event: FsmEvent): Wiper.WiperMessage {
    if event.RainsStarted? then Wiper.Start else Wiper.Stop
  }

  /** The rain committed without a tell since the last commit the wiper was told of, in order. */
  function Untold(commits: seq<Commit>): seq<Wiper.WiperMessage> {
    if commits == [] then []
    else
      var rest, last := Untold(commits[..|commits| - 1]), commits[|commits| - 1];
      if ToldWiper(last) then []
      else if UntoldRain(last) then rest + [RainMessage(last.event)]
      else rest
  }

  /** The wiper has been told of all rain: committed, and queued. */
  ghost predicate AllRainTold(b: Brain) {
    && (forall i :: 0 <= i < |b.committed| ==> !UntoldRain(b.committed[i]))
    && (forall i :: 0 <= i < |b.queue| && b.queue[i].Passthrough? ==> !IsRain(b.queue[i].event))
  }

  lemma {:induction false} NothingUntold(commits: seq<Commit>)
    requires forall i :: 0 <= i < |commits| ==> !UntoldRain(commits[i])
    ensures Untold(commits) == []
  {
    if commits != [] {
      NothingUntold(commits[..|commits| - 1]);
    }
  }

  // ── the ledger ───────────────────────────────────────────────────────────

  /** What the local handler makes of one committed event. */
  function LocalStep(before: Wiper.WiperContext, event: FsmEvent, starting: bool): Wiper.WiperZoneReply {
    match event
    case RainsStarted => Wiper.OnReceivingMessage(before, Wiper.Start)
    case RainsStopped => Wiper.OnReceivingMessage(before, Wiper.Stop)
    case AssemblyZoneReady(zone) =>
      if zone == WiperAssembly
      then Wiper.OnReceivingMessage(before, if starting then Wiper.BecomeOn else Wiper.BecomeOff)
      else Wiper.WiperZoneReply(before, [])
    case _ => Wiper.WiperZoneReply(before, [])
  }

  predicate IsWiperAction(action: DomainAction) {
    action.RequestWiperStart? || action.RequestWiperStop? || action == LogWarning(WiperZoneUnresponsive)
  }

  /** A ledger row shows the local handler's state and exactly the wiper actions it asks for. */
  ghost predicate RowIsLocal(before: Wiper.WiperContext, r: TransitionRecord) {
    var local := LocalStep(before, r.event, r.oldState.PreparingToStart?);
    r.currentCtx.wiper == local.ctx && Select(r.actions, IsWiperAction) == WiperActions(local.outcomes)
  }

  function WiperBefore(ledger: seq<TransitionRecord>, i: nat): Wiper.WiperContext
    requires i <= |ledger|
  {
    if i == 0 then Wiper.DEFAULT_WIPER else ledger[i - 1].currentCtx.wiper
  }

  /** The ledger, row by row, is a run of the local wiper handler. */
  ghost predicate LedgerIsLocal(ledger: seq<TransitionRecord>) {
    forall i :: 0 <= i < |ledger| ==> RowIsLocal(WiperBefore(ledger, i), ledger[i])
  }

  /** Mirror and ledger: the mirror is the last row's, and the base followed by what was never told. */
  ghost predicate MirrorOk(b: Brain, base: Wiper.WiperContext) {
    && b.ctx.wiper == WiperBefore(LedgerOf(b.trace), |LedgerOf(b.trace)|)
    && b.ctx.wiper == Wiper.Fold(base, Untold(b.committed))
    && (AllRainTold(b) ==> LedgerIsLocal(LedgerOf(b.trace)))
  }

  ghost predicate WiperOk(b: Brain, base: Wiper.WiperContext, ready: multiset<ReadyMsg>, mail: seq<Tell>, wiper: Wiper.WiperContext) {
    && RepliesAreLocal(b.queue, b.nextTurnId, base, ready, mail)
    && TwinletInStep(b.queue, base, mail, wiper)
    && MirrorOk(b, base)
  }

  // ── sequences of wiper messages ──────────────────────────────────────────

  lemma {:induction false} FoldConcat(c: Wiper.WiperContext, a: seq<Wiper.WiperMessage>, b: seq<Wiper.WiperMessage>)
    ensures Wiper.Fold(c, a + b) == Wiper.Fold(Wiper.Fold(c, a), b)
    decreases |a|
  {
    if a == [] {
      assert a + b == b;
    } else {
      assert (a + b)[0] == a[0] && (a + b)[1..] == a[1..] + b;
      FoldConcat(Wiper.OnReceivingMessage(c, a[0]).ctx, a[1..], b);
    }
  }

  lemma {:induction false} FoldOne(c: Wiper.WiperContext, m: Wiper.WiperMessage)
    ensures Wiper.Fold(c, [m]) == Wiper.OnReceivingMessage(c, m).ctx
  {
    assert [m][1..] == [];
  }

  lemma {:induction false} TellsAreForWiper(queue: seq<Entry>)
    ensures forall i :: 0 <= i < |QueuedWiperTells(queue)| ==>
      QueuedWiperTells(queue)[i].message.ToWiper? && QueuedWiperTells(queue)[i].zone == WiperAssembly
  {
    if queue != [] {
      TellsAreForWiper(queue[1..]);
      assert QueuedWiperTells(queue) == AsSeq(WiperTell(queue[0])) + QueuedWiperTells(queue[1..]);
    }
  }

  /** Where a wiper slot's tell stands among the queued tells. */
  lemma {:induction false} TellPosition(queue: seq<Entry>, i: nat)
    requires i < |queue| && IsWiperSlot(queue[i])
    ensures var n, tells := |QueuedWiperTells(queue[..i])|, QueuedWiperTells(queue);
            && n < |tells| && tells[n] == WiperTell(queue[i]).value && tells[..n] == QueuedWiperTells(queue[..i])
  {
    assert queue == queue[..i] + ([queue[i]] + queue[i + 1..]);
    CollectConcat(queue[..i], [queue[i]] + queue[i + 1..], WiperTell);
    CollectConcat([queue[i]], queue[i + 1..], WiperTell);
    CollectOne(queue[i], WiperTell);
  }

  /** Queued tells carry increasing turn ids. */
  lemma {:induction false} TellsIncrease(queue: seq<Entry>, first: nat)
    requires forall i :: 0 <= i < |queue| ==> queue[i].TurnId() == first + i
    ensures var tells := QueuedWiperTells(queue);
            && (forall i :: 0 <= i < |tells| ==> first <= tells[i].turnId < first + |queue|)
            && (forall i, j :: 0 <= i < j < |tells| ==> tells[i].turnId < tells[j].turnId)
  {
    if queue != [] {
      TellsIncrease(queue[1..], first + 1);
      assert QueuedWiperTells(queue) == AsSeq(WiperTell(queue[0])) + QueuedWiperTells(queue[1..]);
      assert WiperTell(queue[0]).Some? ==> WiperTell(queue[0]).value.turnId == first;
    }
  }

  lemma {:induction false} SameTells(q: seq<Entry>, q': seq<Entry>)
    requires |q| == |q'| && forall i :: 0 <= i < |q| ==> WiperTell(q[i]) == WiperTell(q'[i])
    ensures QueuedWiperTells(q) == QueuedWiperTells(q')
  {
    if q != [] {
      SameTells(q[1..], q'[1..]);
    }
  }

  /** Slots that only changed their bookkeeping keep every local reply. */
  lemma {:induction false} SameLocalReplies(base: Wiper.WiperContext, q: seq<Entry>, q': seq<Entry>)
    requires |q| == |q'| && forall i :: 0 <= i < |q| ==> WiperTell(q[i]) == WiperTell(q'[i])
    ensures QueuedWiperTells(q) == QueuedWiperTells(q')
    ensures forall i :: 0 <= i < |q| && IsWiperSlot(q[i]) ==> IsWiperSlot(q'[i]) && LocalReply(base, q, i) == LocalReply(base, q', i)
  {
    SameTells(q, q');
    forall i | 0 <= i < |q| && IsWiperSlot(q[i])
      ensures IsWiperSlot(q'[i]) && LocalReply(base, q, i) == LocalReply(base, q', i)
    {
      assert WiperTell(q[i]) == WiperTell(q'[i]);
      SameTells(q[..i], q'[..i]);
    }
  }

  // ── pushes ───────────────────────────────────────────────────────────────

  /** A new entry at the back leaves every local reply alone. */
  lemma {:induction false} AppendKeepsReplies(base: Wiper.WiperContext, q: seq<Entry>, e: Entry)
    ensures QueuedWiperTells(q + [e]) == QueuedWiperTells(q) + AsSeq(WiperTell(e))
    ensures forall i :: 0 <= i < |q| && IsWiperSlot(q[i]) ==> LocalReply(base, q + [e], i) == LocalReply(base, q, i)
  {
    CollectConcat(q, [e], WiperTell);
    CollectOne(e, WiperTell);
    forall i | 0 <= i < |q| && IsWiperSlot(q[i])
      ensures LocalReply(base, q + [e], i) == LocalReply(base, q, i)
    {
      assert (q + [e])[..i] == q[..i];
    }
  }

  lemma {:induction false} MailAfterTell(tells: seq<Tell>, tell: Tell, read: nat)
    requires read <= |TellsToWiper(tells)|
    ensures read <= |TellsToWiper(tells + [tell])|
    ensures TellsToWiper(tells + [tell])[read..] == TellsToWiper(tells)[read..] + (if ForWiper(tell) then [tell] else [])
  {
    SelectConcat(tells, [tell], ForWiper);
    assert [tell][1..] == [];
  }

  lemma {:induction false} PushKeepsTwinlet(queue: seq<Entry>, e: Entry, base: Wiper.WiperContext, mail: seq<Tell>, wiper: Wiper.WiperContext)
    requires TwinletInStep(queue, base, mail, wiper)
    ensures TwinletInStep(queue + [e], base, mail + AsSeq(WiperTell(e)), wiper)
  {
    AppendKeepsReplies(base, queue, e);
    hide QueuedWiperTells, Texts;
    var before, after := QueuedWiperTells(queue), QueuedWiperTells(queue + [e]);
    var mail' := mail + AsSeq(WiperTell(e));
    assert after[..|after| - |mail'|] == before[..|before| - |mail|];
    assert mail' == after[|after| - |mail'|..];
  }

  lemma {:induction false} PushKeepsReplies(queue: seq<Entry>, e: Entry, next: u64, base: Wiper.WiperContext,
                                            ready: multiset<ReadyMsg>, mail: seq<Tell>)
    requires RepliesAreLocal(queue, next, base, ready, mail) && e.TurnId() == next < U64_MAX
    requires IsWiperSlot(e) ==> !e.IsComplete()
    requires forall i :: 0 <= i < |queue| ==> queue[i].TurnId() < next
    ensures RepliesAreLocal(queue + [e], next + 1, base, ready, mail + AsSeq(WiperTell(e)))
  {
    AppendKeepsReplies(base, queue, e);
    hide LocalReply, QueuedWiperTells;
    var mail' := mail + AsSeq(WiperTell(e));
    assert forall j :: 0 <= j < |mail'| ==> (if j < |mail| then mail'[j] == mail[j] else mail'[j].turnId == next);
  }

  /** The brain after one push. */
  function Pushed(b: Brain, e: Entry, more: seq<Tell>): Brain {
    b.(queue := b.queue + [e], nextTurnId := SaturatingSucc(b.nextTurnId), tells := b.tells + more)
  }

  lemma {:induction false} PushKeepsMirror(b: Brain, e: Entry, more: seq<Tell>, base: Wiper.WiperContext)
    requires MirrorOk(b, base)
    ensures MirrorOk(Pushed(b, e, more), base)
  {
    hide LedgerIsLocal, LedgerOf, Untold;
    var b' := Pushed(b, e, more);
    assert forall i :: 0 <= i < |b.queue| ==> b'.queue[i] == b.queue[i];
  }

  /** One push, seen from the wiper: its own slot and tell, or nothing. */
  lemma {:induction false} PushKeepsWiper(b: Brain, e: Entry, more: seq<Tell>, base: Wiper.WiperContext,
                                          ready: multiset<ReadyMsg>, mail: seq<Tell>, wiper: Wiper.WiperContext)
    requires WiperOk(b, base, ready, mail, wiper) && e.TurnId() == b.nextTurnId < U64_MAX
    requires IsWiperSlot(e) ==> !e.IsComplete()
    requires forall i :: 0 <= i < |b.queue| ==> b.queue[i].TurnId() < b.nextTurnId
    ensures WiperOk(Pushed(b, e, more), base, ready, mail + AsSeq(WiperTell(e)), wiper)
  {
    hide RepliesAreLocal, TwinletInStep, MirrorOk;
    PushKeepsTwinlet(b.queue, e, base, mail, wiper);
    PushKeepsReplies(b.queue, e, b.nextTurnId, base, ready, mail);
    PushKeepsMirror(b, e, more, base);
  }

  // ── the invariant on the whole system ────────────────────────────────────

  /** The tells the wiper twinlet has not taken yet. */
  function MailOf(tells: seq<Tell>, read: nat): seq<Tell>
    requires read <= |TellsToWiper(tells)|
  {
    TellsToWiper(tells)[read..]
  }

  ghost predicate WiperInStep(b: Brain, base: Wiper.WiperContext, ready: multiset<ReadyMsg>, read: nat, wiper: Wiper.WiperContext) {
    && read <= |TellsToWiper(b.tells)|
    && WiperOk(b, base, ready, MailOf(b.tells, read), wiper)
  }

  lemma {:induction false} PushWaitingInStep(b: Brain, event: FsmEvent, zone: AssemblyId, message: ZoneMessage, now: Instant,
                                             base: Wiper.WiperContext, ready: multiset<ReadyMsg>, read: nat, wiper: Wiper.WiperContext)
    requires WiperInStep(b, base, ready, read, wiper)
    requires zone == EventZone(event) && MessageFits(event, message)
    requires b.nextTurnId < U64_MAX && forall i :: 0 <= i < |b.queue| ==> b.queue[i].TurnId() < b.nextTurnId
    ensures WiperInStep(PushWaiting(b, event, zone, message, now), base, ready, read, wiper)
  {
    hide WiperOk, TellsToWiper;
    var e := Waiting(NewBarrier(b.nextTurnId, event, now, zone, message));
    var tell := Tell(zone, b.nextTurnId, 0, message, now);
    assert WiperTell(e) == if ForWiper(tell) then Some(tell) else None;
    MailAfterTell(b.tells, tell, read);
    PushKeepsWiper(b, e, [tell], base, ready, MailOf(b.tells, read), wiper);
  }

  lemma {:induction false} PushPassthroughInStep(b: Brain, event: FsmEvent, now: Instant,
                                                 base: Wiper.WiperContext, ready: multiset<ReadyMsg>, read: nat, wiper: Wiper.WiperContext)
    requires WiperInStep(b, base, ready, read, wiper)
    requires b.nextTurnId < U64_MAX && forall i :: 0 <= i < |b.queue| ==> b.queue[i].TurnId() < b.nextTurnId
    ensures WiperInStep(PushPassthrough(b, event, now), base, ready, read, wiper)
  {
    hide WiperOk, TellsToWiper;
    var e := Passthrough(b.nextTurnId, event, now);
    PushKeepsWiper(b, e, [], base, ready, MailOf(b.tells, read), wiper);
    assert MailOf(b.tells, read) + AsSeq(WiperTell(e)) == MailOf(b.tells, read);
    assert b.tells + [] == b.tells;
  }

  lemma {:induction false} BeginInStep(b: Brain, event: FsmEvent, now: Instant, base: Wiper.WiperContext, ready: multiset<ReadyMsg>, read: nat,
                                       wiper: Wiper.WiperContext)
    requires WiperInStep(b, base, ready, read, wiper) && Ordered(b.committed, b.queue, b.nextTurnId) && b.nextTurnId < U64_MAX
    requires External(event)
    ensures WiperInStep(BeginFsmTurn(b, event, now), base, ready, read, wiper)
  {
    hide WiperInStep;
    match ZoneMessageForEvent(event, b.state)
    case Route(zone, message) => PushWaitingInStep(b, event, zone, message, now, base, ready, read, wiper);
    case NoZone => PushPassthroughInStep(b, event, now, base, ready, read, wiper);
  }

  lemma {:induction false} PushBothInStep(b: Brain, starting: bool, now: Instant, base: Wiper.WiperContext, ready: multiset<ReadyMsg>, read: nat,
                                          wiper: Wiper.WiperContext)
    requires WiperInStep(b, base, ready, read, wiper) && Ordered(b.committed, b.queue, b.nextTurnId)
    requires PushBoth(b, starting, now).nextTurnId < U64_MAX
    ensures WiperInStep(PushBoth(b, starting, now), base, ready, read, wiper)
  {
    hide WiperInStep;
    var h, w := AssemblyZoneReady(HeadlampAssembly), AssemblyZoneReady(WiperAssembly);
    var one := PushWaiting(b, h, HeadlampAssembly, LifecycleMessage(HeadlampAssembly, starting), now);
    PushWaitingInStep(b, h, HeadlampAssembly, LifecycleMessage(HeadlampAssembly, starting), now, base, ready, read, wiper);
    PushWaitingInStep(one, w, WiperAssembly, LifecycleMessage(WiperAssembly, starting), now, base, ready, read, wiper);
  }

  // ── pops ─────────────────────────────────────────────────────────────────

  /** The base after the front entry has been committed. */
  function BaseAfter(base: Wiper.WiperContext, queue: seq<Entry>): Wiper.WiperContext
    requires queue != []
  {
    if IsWiperSlot(queue[0]) then LocalReply(base, queue, 0).ctx else base
  }

  lemma {:induction false} FrontTells(queue: seq<Entry>, i: nat)
    requires 0 < i <= |queue|
    ensures QueuedWiperTells(queue[..i]) == AsSeq(WiperTell(queue[0])) + QueuedWiperTells(queue[1..][..i - 1])
  {
    assert queue[..i] == [queue[0]] + queue[1..][..i - 1];
    CollectConcat([queue[0]], queue[1..][..i - 1], WiperTell);
    CollectOne(queue[0], WiperTell);
  }

  lemma {:induction false} FrontText(e: Entry, tells: seq<Tell>)
    ensures Texts(AsSeq(WiperTell(e)) + tells) == (if IsWiperSlot(e) then [WiperMessageOf(e)] else []) + Texts(tells)
  {
    CollectConcat(AsSeq(WiperTell(e)), tells, WiperText);
    if IsWiperSlot(e) {
      CollectOne(WiperTell(e).value, WiperText);
    }
  }

  /** The rest of the queue is read from the new base exactly as it was from the old one. */
  lemma {:induction false} FoldAfterFront(base: Wiper.WiperContext, queue: seq<Entry>, tells: seq<Tell>)
    requires queue != []
    ensures Wiper.Fold(base, Texts(AsSeq(WiperTell(queue[0])) + tells)) == Wiper.Fold(BaseAfter(base, queue), Texts(tells))
  {
    FrontText(queue[0], tells);
    if IsWiperSlot(queue[0]) {
      var m := WiperMessageOf(queue[0]);
      FoldConcat(base, [m], Texts(tells));
      FoldOne(base, m);
      assert queue[..0] == [];
      assert QueuedWiperMessages([]) == [];
    } else {
      assert [] + Texts(tells) == Texts(tells);
    }
  }

  lemma {:induction false} LocalReplyShifts(base: Wiper.WiperContext, queue: seq<Entry>, i: nat)
    requires 0 < i < |queue| && IsWiperSlot(queue[i])
    ensures LocalReply(base, queue, i) == LocalReply(BaseAfter(base, queue), queue[1..], i - 1)
  {
    FrontTells(queue, i);
    FoldAfterFront(base, queue, QueuedWiperTells(queue[1..][..i - 1]));
  }

  lemma {:induction false} PopKeepsReplies(queue: seq<Entry>, next: u64, base: Wiper.WiperContext, ready: multiset<ReadyMsg>, mail: seq<Tell>)
    requires queue != [] && RepliesAreLocal(queue, next, base, ready, mail)
    ensures RepliesAreLocal(queue[1..], next, BaseAfter(base, queue), ready, mail)
  {
    hide LocalReply, BaseAfter, IsWiperSlot;
    var rest, base' := queue[1..], BaseAfter(base, queue);
    forall i | 0 <= i < |rest| && IsWiperSlot(rest[i])
      ensures rest[i] == queue[i + 1] && LocalReply(base, queue, i + 1) == LocalReply(base', rest, i)
    {
      LocalReplyShifts(base, queue, i + 1);
    }
    forall m, i | m in ready && m.zone == WiperAssembly && Answers(m, rest, i)
      ensures m.reply == FromWiper(LocalReply(base', rest, i))
    {
      assert Answers(m, queue, i + 1);
    }
  }

  /** A suffix that does not reach the front is a suffix of the rest. */
  lemma {:induction false} SuffixOfRest(front: seq<Tell>, rest: seq<Tell>, mail: seq<Tell>)
    requires |front| <= 1 && |mail| <= |front + rest| && mail == (front + rest)[|front + rest| - |mail|..]
    requires front != [] && mail != [] ==> mail[0] != front[0]
    ensures |mail| <= |rest| && mail == rest[|rest| - |mail|..]
    ensures (front + rest)[..|front + rest| - |mail|] == front + rest[..|rest| - |mail|]
  {
  }

  lemma {:induction false} PopKeepsTwinlet(queue: seq<Entry>, next: u64, base: Wiper.WiperContext, ready: multiset<ReadyMsg>,
                                           mail: seq<Tell>, wiper: Wiper.WiperContext)
    requires queue != [] && queue[0].IsComplete()
    requires RepliesAreLocal(queue, next, base, ready, mail) && TwinletInStep(queue, base, mail, wiper)
    ensures TwinletInStep(queue[1..], BaseAfter(base, queue), mail, wiper)
  {
    hide LocalReply, BaseAfter, Texts, QueuedWiperTells;
    var n := |queue|;
    assert queue[..n] == queue && queue[1..][..n - 1] == queue[1..];
    FrontTells(queue, n);
    var front, rest := AsSeq(WiperTell(queue[0])), QueuedWiperTells(queue[1..]);
    assert front != [] && mail != [] ==> mail[0].turnId != queue[0].TurnId();
    SuffixOfRest(front, rest, mail);
    FoldAfterFront(base, queue, rest[..|rest| - |mail|]);
  }

  // ── commits ──────────────────────────────────────────────────────────────

  lemma {:induction false} SelectAll<T>(s: seq<T>, p: T -> bool)
    requires forall i :: 0 <= i < |s| ==> p(s[i])
    ensures Select(s, p) == s
  {
    if s != [] {
      SelectAll(s[1..], p);
    }
  }

  lemma {:induction false} RecordedKeepsWiper(actions: seq<DomainAction>)
    ensures Select(Recorded(actions), IsWiperAction) == Select(actions, IsWiperAction)
  {
    if actions != [] {
      RecordedKeepsWiper(actions[1..]);
      if IsRecorded(actions[0]) {
        assert Recorded(actions)[1..] == Recorded(actions[1..]);
      }
    }
  }

  /** The operational machine never touches the wiper. */
  lemma {:induction false} OutputHasNoWiper(old_: FsmState, new_: FsmState, ctx: VehicleContext)
    ensures forall a :: a in Output(old_, new_, ctx) ==> !IsWiperAction(a)
  {
  }

  lemma {:induction false} StepHasNoWiper(state: FsmState, ctx: VehicleContext, event: FsmEvent, now: Instant)
    ensures Select(Step(state, ctx, event, now).actions, IsWiperAction) == []
    ensures Select(Step(state, ctx, event, now).record.actions, IsWiperAction) == []
  {
    hide Output, Transition;
    OutputHasNoWiper(state, Transition(state, event, ctx, now).nextState, ctx);
    SelectNone(Step(state, ctx, event, now).actions, IsWiperAction);
    RecordedKeepsWiper(Step(state, ctx, event, now).actions);
  }

  lemma {:induction false} ZoneWiperActions(ctx: VehicleContext, event: FsmEvent, state: FsmState, now: Instant, replies: ZoneReplies)
    ensures Select(ZoneTurn(ctx, event, state, now, replies).actions, IsWiperAction)
            == WiperActions(WiperPart(ctx, event, replies).outcomes)
  {
    hide HeadlampPart, WiperPart;
    var headlamp := HeadlampActions(HeadlampPart(ctx, event, now, replies).outcomes);
    var wiper := WiperActions(WiperPart(ctx, event, replies).outcomes);
    SelectConcat(headlamp, wiper, IsWiperAction);
    SelectNone(headlamp, IsWiperAction);
    SelectAll(wiper, IsWiperAction);
  }

  lemma {:induction false} HopWiperActions(state: FsmState, ctx: VehicleContext, event: FsmEvent, now: Instant, replies: ZoneReplies)
    ensures Select(ApplySingleHop(state, ctx, event, now, replies).record.actions, IsWiperAction)
            == WiperActions(WiperPart(ctx, event, replies).outcomes)
  {
    hide ZoneTurn, Step;
    if event.Internal? {
      StepHasNoWiper(state, ctx, event, now);
    } else {
      hide WiperPart;
      var zone := ZoneTurn(ctx, event, state, now, replies);
      var result := Step(state, zone.ctx, event, now);
      ZoneWiperActions(ctx, event, state, now, replies);
      StepHasNoWiper(state, zone.ctx, event, now);
      SelectConcat(zone.actions, result.actions, IsWiperAction);
      RecordedKeepsWiper(zone.actions + result.actions);
    }
  }

  lemma {:induction false} HopWiper(state: FsmState, ctx: VehicleContext, event: FsmEvent, now: Instant, replies: ZoneReplies)
    ensures var result := ApplySingleHop(state, ctx, event, now, replies);
            && result.ctx.wiper == WiperPart(ctx, event, replies).ctx
            && result.record.currentCtx == result.ctx && result.record.event == event && result.record.oldState == state
  {
    hide Transition, Output, HeadlampPart;
  }

  /** A turn changes the wiper in its first hop only: the zone's contribution, and its actions. */
  lemma {:induction false} TurnWiper(state: FsmState, ctx: VehicleContext, event: FsmEvent, now: Instant, replies: ZoneReplies)
    ensures var hops := Quiesce(state, ctx, event, now, replies);
            var records := RecordsOf(hops);
            && records[0].event == event && records[0].oldState == state
            && records[0].currentCtx.wiper == WiperPart(ctx, event, replies).ctx == Final(hops).ctx.wiper
            && Select(records[0].actions, IsWiperAction) == WiperActions(WiperPart(ctx, event, replies).outcomes)
            && (|records| == 2 ==> RowIsLocal(records[0].currentCtx.wiper, records[1]))
            && records[|records| - 1].currentCtx.wiper == WiperPart(ctx, event, replies).ctx
  {
    hide ApplySingleHop, WiperPart, LightingUnsafeCut;
    HopWiper(state, ctx, event, now, replies);
    HopWiperActions(state, ctx, event, now, replies);
    var hops := Quiesce(state, ctx, event, now, replies);
    if |hops| == 2 {
      var first := hops[0].result;
      InternalRow(first.nextState, first.ctx, now);
    }
  }

  lemma {:induction false} InternalRow(state: FsmState, ctx: VehicleContext, now: Instant)
    ensures var result := ApplySingleHop(state, ctx, Internal(LightingUnsafe), now, map[]);
            result.ctx == ctx && result.record.currentCtx == ctx && RowIsLocal(ctx.wiper, result.record)
  {
    hide Select, Transition, Output;
    StepHasNoWiper(state, ctx, Internal(LightingUnsafe), now);
  }

  /** The zone contributes to the turn on `event` what the local handler would. */
  ghost predicate CommitsLocally(state: FsmState, ctx: VehicleContext, event: FsmEvent, replies: ZoneReplies) {
    WiperPart(ctx, event, replies) == LocalStep(ctx.wiper, event, state.PreparingToStart?)
  }

  lemma {:induction false} LedgerStaysLocal(ledger: seq<TransitionRecord>, records: seq<TransitionRecord>, wiper: Wiper.WiperContext)
    requires LedgerIsLocal(ledger) && wiper == WiperBefore(ledger, |ledger|)
    requires 1 <= |records| <= 2 && RowIsLocal(wiper, records[0])
    requires |records| == 2 ==> RowIsLocal(records[0].currentCtx.wiper, records[1])
    ensures LedgerIsLocal(ledger + records)
  {
    hide RowIsLocal;
    var all := ledger + records;
    forall i | 0 <= i < |all|
      ensures RowIsLocal(WiperBefore(all, i), all[i])
    {
      if i < |ledger| {
        assert all[i] == ledger[i] && WiperBefore(all, i) == WiperBefore(ledger, i);
      } else {
        assert all[i] == records[i - |ledger|];
      }
    }
  }

  /** Mirror and ledger after a turn that brings the zone to `base` followed by what is untold. */
  lemma {:induction false} TurnKeepsMirror(b: Brain, base: Wiper.WiperContext, event: FsmEvent, now: Instant, replies: ZoneReplies)
    requires b.ctx.wiper == WiperBefore(LedgerOf(b.trace), |LedgerOf(b.trace)|)
    requires WiperPart(b.ctx, event, replies).ctx == Wiper.Fold(base, Untold(b.committed))
    requires AllRainTold(b) ==> LedgerIsLocal(LedgerOf(b.trace)) && CommitsLocally(b.state, b.ctx, event, replies)
    ensures MirrorOk(Committed(b, Quiesce(b.state, b.ctx, event, now, replies)), base)
  {
    hide Quiesce, TurnTrace, AdvanceBy, WiperPart, LedgerOf, LocalStep, Select, Untold;
    var hops := Quiesce(b.state, b.ctx, event, now, replies);
    TurnWiper(b.state, b.ctx, event, now, replies);
    TurnLedger(b.trace, b.nextRecordSeq, hops);
    if AllRainTold(b) {
      LedgerStaysLocal(LedgerOf(b.trace), RecordsOf(hops), b.ctx.wiper);
    }
  }

  /** One turn on a queue that is already popped. */
  lemma {:induction false} TurnInStep(b: Brain, base: Wiper.WiperContext, event: FsmEvent, now: Instant, replies: ZoneReplies,
                                      clock: Clock, ready: multiset<ReadyMsg>, read: nat, wiper: Wiper.WiperContext)
    requires Ordered(b.committed, b.queue, b.nextTurnId)
    requires CommitResolved(b, event, now, replies, clock).nextTurnId < U64_MAX
    requires read <= |TellsToWiper(b.tells)|
    requires RepliesAreLocal(b.queue, b.nextTurnId, base, ready, MailOf(b.tells, read))
    requires TwinletInStep(b.queue, base, MailOf(b.tells, read), wiper)
    requires b.ctx.wiper == WiperBefore(LedgerOf(b.trace), |LedgerOf(b.trace)|)
    requires WiperPart(b.ctx, event, replies).ctx == Wiper.Fold(base, Untold(b.committed))
    requires AllRainTold(b) ==> LedgerIsLocal(LedgerOf(b.trace)) && CommitsLocally(b.state, b.ctx, event, replies)
    ensures WiperInStep(CommitResolved(b, event, now, replies, clock), base, ready, read, wiper)
  {
    hide Quiesce, TurnSummary, TurnTrace, Ordered, PushBoth, AdvanceBy, Starts, Stops, WiperPart, LedgerOf, Untold, AllRainTold,
         RepliesAreLocal, TwinletInStep, MirrorOk, TellsToWiper, CommitsLocally, LedgerIsLocal;
    CommitShape(b, event, now, replies, clock);
    var done := Committed(b, Quiesce(b.state, b.ctx, event, now, replies));
    TurnKeepsMirror(b, base, event, now, replies);
    assert WiperInStep(done, base, ready, read, wiper);
    if Starts(b.state, b.ctx, event) {
      PushBothInStep(done, true, clock(done.nextTurnId), base, ready, read, wiper);
    } else if Stops(b.state, event) {
      PushBothInStep(done, false, clock(done.nextTurnId), base, ready, read, wiper);
    }
  }

  /** How one more commit changes what is untold. */
  lemma {:induction false} UntoldAfter(commits: seq<Commit>, c: Commit)
    ensures Untold(commits + [c]) == if ToldWiper(c) then []
                                     else if UntoldRain(c) then Untold(commits) + [RainMessage(c.event)]
                                     else Untold(commits)
  {
    assert (commits + [c])[..|commits|] == commits;
  }

  /** A told wiper slot moves base and mirror together, untold rain moves the mirror alone, anything else neither. */
  lemma {:induction false} FrontMovesMirror(b: Brain, base: Wiper.WiperContext, ready: multiset<ReadyMsg>, mail: seq<Tell>)
    requires FrontComplete(b) && EntryOk(b.queue[0]) && CountdownOk(b.state, b.queue)
    requires RepliesAreLocal(b.queue, b.nextTurnId, base, ready, mail)
    requires b.ctx.wiper == Wiper.Fold(base, Untold(b.committed))
    ensures var e := b.queue[0];
            && WiperPart(b.ctx, e.Event(), e.Replies()).ctx
               == Wiper.Fold(BaseAfter(base, b.queue), Untold(PopFront(b).committed))
            && (AllRainTold(b) ==> CommitsLocally(b.state, b.ctx, e.Event(), e.Replies()))
  {
    hide Outstanding, LifecycleZones, Untold;
    var e := b.queue[0];
    UntoldAfter(b.committed, PopFront(b).committed[|b.committed|]);
    assert b.queue[..0] == [];
    assert QueuedWiperMessages([]) == [];
    if IsWiperSlot(e) {
      assert LocalReply(base, b.queue, 0) == Wiper.OnReceivingMessage(base, WiperMessageOf(e));
      if AllRainTold(b) {
        NothingUntold(b.committed);
      }
    } else if e.Passthrough? && IsRain(e.event) {
      FoldConcat(base, Untold(b.committed), [RainMessage(e.event)]);
      FoldOne(b.ctx.wiper, RainMessage(e.event));
    }
  }

  lemma {:induction false} PopHearsLess(b: Brain)
    requires b.queue != [] && AllRainTold(PopFront(b))
    ensures AllRainTold(b)
  {
    var p := PopFront(b);
    assert !UntoldRain(p.committed[|b.committed|]);
    forall i | 0 <= i < |b.committed| ensures !UntoldRain(b.committed[i]) {
      assert p.committed[i] == b.committed[i];
    }
    forall i | 0 <= i < |b.queue| && b.queue[i].Passthrough? ensures !IsRain(b.queue[i].event) {
      assert i > 0 ==> p.queue[i - 1] == b.queue[i];
    }
  }

  lemma {:induction false} CommitFrontInStep(b: Brain, clock: Clock, base: Wiper.WiperContext, ready: multiset<ReadyMsg>, read: nat,
                                             wiper: Wiper.WiperContext)
    requires FrontComplete(b) && QueueOk(b) && CommitFront(b, clock).nextTurnId < U64_MAX
    requires WiperInStep(b, base, ready, read, wiper)
    ensures WiperInStep(CommitFront(b, clock), BaseAfter(base, b.queue), ready, read, wiper)
  {
    hide CommitResolved, LedgerOf, TellsToWiper, WiperPart, CountdownOk, EntryOk, HistoryOk, CommitsLocally, RepliesAreLocal, TwinletInStep,
         BaseAfter, Untold, AllRainTold, LedgerIsLocal;
    var e, p := b.queue[0], PopFront(b);
    var mail := MailOf(b.tells, read);
    assert EntryOk(e);
    FrontMovesMirror(b, base, ready, mail);
    PopKeepsReplies(b.queue, b.nextTurnId, base, ready, mail);
    PopKeepsTwinlet(b.queue, b.nextTurnId, base, ready, mail, wiper);
    if AllRainTold(p) {
      PopHearsLess(b);
    }
    assert Ordered(p.committed, p.queue, p.nextTurnId);
    TurnInStep(p, BaseAfter(base, b.queue), e.Event(), e.Now(), e.Replies(), clock, ready, read, wiper);
  }

  lemma {:induction false} SpontaneousInStep(b: Brain, direction: SwitchDirection, cause: IncompleteCause,
                                             reply: FrontHeadlamp.HeadlampZoneReply, now: Instant, clock: Clock,
                                             base: Wiper.WiperContext, ready: multiset<ReadyMsg>, read: nat, wiper: Wiper.WiperContext)
    requires QueueOk(b) && OnZoneSpontaneous(b, direction, cause, reply, now, clock).nextTurnId < U64_MAX
    requires WiperInStep(b, base, ready, read, wiper)
    ensures WiperInStep(OnZoneSpontaneous(b, direction, cause, reply, now, clock), base, ready, read, wiper)
  {
    hide CommitResolved, LedgerOf, TellsToWiper, CountdownOk, EntriesOk, HistoryOk, RepliesAreLocal, TwinletInStep, Untold, AllRainTold,
         LedgerIsLocal;
    TurnInStep(b, base, FrontHeadlampActuationIncomplete(direction, cause), now,
               map[HeadlampAssembly := ZoneReply.FromHeadlamp(reply)], clock, ready, read, wiper);
  }

  /** After a drain there is a base again. */
  lemma {:induction false} DrainInStep(b: Brain, clock: Clock, base: Wiper.WiperContext, ready: multiset<ReadyMsg>, read: nat,
                                       wiper: Wiper.WiperContext)
    returns (base': Wiper.WiperContext)
    requires QueueOk(b) && Drain(b, clock).nextTurnId < U64_MAX && WiperInStep(b, base, ready, read, wiper)
    ensures WiperInStep(Drain(b, clock), base', ready, read, wiper)
    decreases CompletePrefix(b.queue)
  {
    hide CommitFront, QueueOk, WiperInStep;
    base' := base;
    if FrontComplete(b) {
      CommitFrontProgress(b, clock);
      DrainGrows(CommitFront(b, clock), clock);
      CommitFrontKeepsQueue(b, clock);
      CommitFrontInStep(b, clock, base, ready, read, wiper);
      base' := DrainInStep(CommitFront(b, clock), clock, BaseAfter(base, b.queue), ready, read, wiper);
    }
  }

  // ── replies and timeouts ─────────────────────────────────────────────────

  /** A slot that gets the local reply, or one that is not the wiper's and only changes its bookkeeping. */
  ghost predicate HarmlessSlot(queue: seq<Entry>, i: nat, slot: Barrier, base: Wiper.WiperContext, mail: seq<Tell>)
    requires i < |queue|
  {
    var e := Waiting(slot);
    && WiperTell(e) == WiperTell(queue[i]) && e.TurnId() == queue[i].TurnId()
    && (IsWiperSlot(queue[i]) ==>
          && slot.replies == map[WiperAssembly := FromWiper(LocalReply(base, queue, i))]
          && forall j :: 0 <= j < |mail| ==> mail[j].turnId != e.TurnId())
  }

  lemma {:induction false} SlotKeepsReplies(queue: seq<Entry>, next: u64, i: nat, slot: Barrier, base: Wiper.WiperContext,
                                            ready: multiset<ReadyMsg>, mail: seq<Tell>, wiper: Wiper.WiperContext)
    requires i < |queue| && queue[i].Waiting? && HarmlessSlot(queue, i, slot, base, mail)
    requires RepliesAreLocal(queue, next, base, ready, mail) && TwinletInStep(queue, base, mail, wiper)
    ensures RepliesAreLocal(queue[i := Waiting(slot)], next, base, ready, mail)
    ensures TwinletInStep(queue[i := Waiting(slot)], base, mail, wiper)
  {
    hide LocalReply, QueuedWiperTells, Texts, IsWiperSlot;
    var q := queue[i := Waiting(slot)];
    forall j | 0 <= j < |q| ensures WiperTell(q[j]) == WiperTell(queue[j]) {}
    SameLocalReplies(base, queue, q);
    SameLocalReplies(base, q, queue);
    forall m, j | m in ready && m.zone == WiperAssembly && Answers(m, q, j)
      ensures m.reply == FromWiper(LocalReply(base, q, j))
    {
      assert Answers(m, queue, j);
    }
  }

  /** Tells, aborted handles and the bookkeeping of waiting slots are not the mirror's business. */
  lemma {:induction false} SameMirror(b: Brain, c: Brain, base: Wiper.WiperContext)
    requires MirrorOk(b, base)
    requires c.ctx == b.ctx && c.trace == b.trace && c.committed == b.committed && |c.queue| == |b.queue|
    requires forall i :: 0 <= i < |b.queue| && b.queue[i].Passthrough? ==> c.queue[i] == b.queue[i]
    ensures MirrorOk(c, base)
  {
    hide LedgerOf, Untold, LedgerIsLocal;
  }
}
