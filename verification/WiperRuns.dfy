/**
 * Runs with an answering wiper, for every interleaving: how far mirror and twinlet can be apart, and
 * quiet runs, in which the protocol is the local handler.
 */
module WiperRuns {
  import opened VehiclePhysics
  import opened Fsm
  import opened Zones
  import opened TwinTurn
  import opened TurnBarriers
  import opened BrainModel
  import opened Turns
  import opened Commits
  import opened BrainInvariants
  import opened HandlerSafety
  import opened Twinlets
  import opened Plant
  import opened Deadlines
  import opened Reachability
  import opened WiperRefinement
  import Wiper

  // ── replies and timeouts ─────────────────────────────────────────────────

  lemma {:induction false} ReadyInStep(b: Brain, m: ReadyMsg, base: Wiper.WiperContext, ready: multiset<ReadyMsg>, read: nat,
                                       wiper: Wiper.WiperContext)
    requires EntriesOk(b.queue) && m in ready && WiperInStep(b, base, ready, read, wiper)
    ensures WiperInStep(OnZoneReady(b, m.zone, m.turnId, m.attempt, m.reply), base, ready, read, wiper)
  {
    hide LocalReply, QueuedWiperTells, Texts, TwinletInStep, TellsToWiper, MirrorOk;
    var at := FindWaiting(b, m.turnId);
    if at.Some? && b.queue[at.value].barrier.TellAttemptMatches(m.zone, m.attempt) {
      var i := at.value;
      var slot := b.queue[i].barrier;
      assert EntryOk(b.queue[i]);
      if IsWiperSlot(b.queue[i]) {
        assert Answers(m, b.queue, i);
      }
      var mail := MailOf(b.tells, read);
      assert HarmlessSlot(b.queue, i, slot.ActOnZoneReply(m.zone, m.reply), base, mail);
      SlotKeepsReplies(b.queue, b.nextTurnId, i, slot.ActOnZoneReply(m.zone, m.reply), base, ready, mail, wiper);
      SameMirror(b, ReplyAt(b, i, m.zone, m.reply), base);
    }
  }

  lemma {:induction false} RetryInStep(b: Brain, i: nat, attempt: u32, base: Wiper.WiperContext, ready: multiset<ReadyMsg>, read: nat,
                                       wiper: Wiper.WiperContext)
    requires i < |b.queue| && b.queue[i].Waiting? && SlotOk(b.queue[i].barrier)
    requires EventZone(b.queue[i].barrier.event) == HeadlampAssembly && b.queue[i].barrier.Retries(HeadlampAssembly, attempt)
    requires WiperInStep(b, base, ready, read, wiper)
    ensures WiperInStep(RetryAt(b, i, HeadlampAssembly, attempt), base, ready, read, wiper)
  {
    hide LocalReply, QueuedWiperTells, Texts, TwinletInStep, RepliesAreLocal, TellsToWiper, MirrorOk;
    var slot := b.queue[i].barrier;
    var next := NextAttempt(attempt);
    var stored := slot.ActOnZoneTimeout(HeadlampAssembly, attempt)
                      .StoreRetryTimer(HeadlampAssembly, Timer(HeadlampAssembly, slot.turnId, next));
    var tell := Tell(HeadlampAssembly, slot.turnId, next, slot.messages[HeadlampAssembly], slot.now);
    SlotKeepsReplies(b.queue, b.nextTurnId, i, stored, base, ready, MailOf(b.tells, read), wiper);
    MailAfterTell(b.tells, tell, read);
    var retried := RetryAt(b, i, HeadlampAssembly, attempt);
    assert retried == b.(queue := b.queue[i := Waiting(stored)], tells := b.tells + [tell]);
    SameMirror(b, retried, base);
    assert MailOf(retried.tells, read) == MailOf(b.tells, read);
  }

  /** Headlamp deadlines, retries and give-ups do not disturb the wiper. */
  lemma {:induction false} TimeoutInStep(b: Brain, timer: Timer, fired: set<Timer>, timeouts: set<Timer>,
                                         base: Wiper.WiperContext, ready: multiset<ReadyMsg>, read: nat, wiper: Wiper.WiperContext)
    requires DeadlinesOk(b, fired, timeouts) && timer in timeouts && timer.zone == HeadlampAssembly
    requires WiperInStep(b, base, ready, read, wiper)
    ensures WiperInStep(OnZoneTimeout(b, timer.zone, timer.turnId, timer.attempt), base, ready, read, wiper)
  {
    hide RetryAt, GiveUpAt, RepliesAreLocal, TwinletInStep, MirrorOk, DeadlinesOk, TellsToWiper, LocalReply, QueuedWiperTells;
    var at := FindWaiting(b, timer.turnId);
    if at.Some? {
      var i := at.value;
      var slot := b.queue[i].barrier;
      TimeoutIsCurrent(b, i, timer, fired, timeouts);
      if slot.Retries(timer.zone, timer.attempt) {
        RetryInStep(b, i, timer.attempt, base, ready, read, wiper);
      } else {
        GiveUpShape(b, i, timer.zone, timer.attempt);
        SlotKeepsReplies(b.queue, b.nextTurnId, i,
                         slot.ActOnZoneTimeout(timer.zone, timer.attempt)
                             .ActOnZoneReply(timer.zone, SyntheticReplyFor(b.ctx, timer.zone)),
                         base, ready, MailOf(b.tells, read), wiper);
        SameMirror(b, GiveUpAt(b, i, timer.zone, timer.attempt), base);
      }
    }
  }

  // ── the twinlet ──────────────────────────────────────────────────────────

  /** The oldest untaken tell belongs to its own queued slot, and nothing later in the mailbox does. */
  lemma {:induction false} NextTell(queue: seq<Entry>, first: nat, base: Wiper.WiperContext, mail: seq<Tell>, wiper: Wiper.WiperContext)
    requires forall i :: 0 <= i < |queue| ==> queue[i].TurnId() == first + i
    requires TwinletInStep(queue, base, mail, wiper) && mail != []
    ensures mail[0].message.ToWiper? && mail[0].turnId < first + |queue|
    ensures forall j :: 0 <= j < |mail[1..]| ==> mail[1..][j].turnId != mail[0].turnId
    ensures forall i :: 0 <= i < |queue| && IsWiperSlot(queue[i]) && queue[i].TurnId() == mail[0].turnId ==>
      Wiper.OnReceivingMessage(wiper, mail[0].message.wiper) == LocalReply(base, queue, i)
  {
    TellsIncrease(queue, first);
    TellsAreForWiper(queue);
    var tells := QueuedWiperTells(queue);
    hide QueuedWiperTells, Texts;
    var k := |tells| - |mail|;
    assert mail[0] == tells[k];
    forall i | 0 <= i < |queue| && IsWiperSlot(queue[i]) && queue[i].TurnId() == mail[0].turnId
      ensures Wiper.OnReceivingMessage(wiper, mail[0].message.wiper) == LocalReply(base, queue, i)
    {
      TellPosition(queue, i);
      var n := |QueuedWiperTells(queue[..i])|;
      assert tells[n].turnId == tells[k].turnId;
      assert n == k;
    }
  }

  lemma {:induction false} TwinletTakes(queue: seq<Entry>, base: Wiper.WiperContext, mail: seq<Tell>, wiper: Wiper.WiperContext)
    requires TwinletInStep(queue, base, mail, wiper) && mail != [] && mail[0].message.ToWiper?
    ensures TwinletInStep(queue, base, mail[1..], Wiper.OnReceivingMessage(wiper, mail[0].message.wiper).ctx)
  {
    var tells := QueuedWiperTells(queue);
    var k := |tells| - |mail|;
    assert tells[..k + 1] == tells[..k] + [mail[0]];
    CollectConcat(tells[..k], [mail[0]], WiperText);
    CollectOne(mail[0], WiperText);
    FoldConcat(base, Texts(tells[..k]), [mail[0].message.wiper]);
    FoldOne(wiper, mail[0].message.wiper);
  }

  lemma {:induction false} WiperTakesInStep(b: Brain, base: Wiper.WiperContext, ready: multiset<ReadyMsg>, mail: seq<Tell>,
                                            wiper: Wiper.WiperContext)
    requires Ordered(b.committed, b.queue, b.nextTurnId) && WiperOk(b, base, ready, mail, wiper) && mail != []
    ensures mail[0].message.ToWiper?
    ensures var reply := Wiper.OnReceivingMessage(wiper, mail[0].message.wiper);
            WiperOk(b, base, ready + multiset{ReadyMsg(WiperAssembly, mail[0].turnId, mail[0].attempt, FromWiper(reply))},
                    mail[1..], reply.ctx)
  {
    hide LocalReply, QueuedWiperTells, Texts, TwinletInStep, IsWiperSlot, MirrorOk;
    NextTell(b.queue, |b.committed| + 1, base, mail, wiper);
    TwinletTakes(b.queue, base, mail, wiper);
    var reply := Wiper.OnReceivingMessage(wiper, mail[0].message.wiper);
    var answer := ReadyMsg(WiperAssembly, mail[0].turnId, mail[0].attempt, FromWiper(reply));
    var ready' := ready + multiset{answer};
    forall m, i | m in ready' && m.zone == WiperAssembly && Answers(m, b.queue, i)
      ensures m.reply == FromWiper(LocalReply(base, b.queue, i))
    {
      if m == answer {
        assert b.queue[i].TurnId() == mail[0].turnId;
      }
    }
    assert RepliesAreLocal(b.queue, b.nextTurnId, base, ready', mail[1..]);
  }

  /** Fewer messages on their way, or more of the other zone's, change nothing for the wiper. */
  lemma {:induction false} OtherReady(b: Brain, base: Wiper.WiperContext, ready: multiset<ReadyMsg>, ready': multiset<ReadyMsg>, read: nat,
                                      wiper: Wiper.WiperContext)
    requires WiperInStep(b, base, ready, read, wiper)
    requires forall m :: m in ready' && m.zone == WiperAssembly ==> m in ready
    ensures WiperInStep(b, base, ready', read, wiper)
  {
    hide LocalReply, QueuedWiperTells, Texts, TwinletInStep, TellsToWiper, IsWiperSlot, MirrorOk;
  }

  // ── runs ─────────────────────────────────────────────────────────────────

  ghost predicate SystemInStep(s: System, base: Wiper.WiperContext) {
    WiperInStep(s.brain, base, s.ready, s.wiperRead, s.wiper)
  }

  /** The wiper answers, and none of its tell-back deadlines is handled. */
  predicate Attentive(move: Move) {
    && (move.DeliverTimeout? ==> move.timer.zone == HeadlampAssembly)
    && (move.WiperTakes? ==> move.answers)
  }

  ghost predicate AttentiveRun(moves: seq<Move>) {
    forall i :: 0 <= i < |moves| ==> Attentive(moves[i])
  }

  lemma {:induction false} BrainInStep(s: System, move: Move, clock: Clock, base: Wiper.WiperContext) returns (base': Wiper.WiperContext)
    requires SystemOk(s) && SystemInStep(s, base) && Enabled(s, move) && Attentive(move)
    requires BrainNext(s, move, clock).nextTurnId < U64_MAX
    ensures WiperInStep(BrainNext(s, move, clock), base', s.ready, s.wiperRead, s.wiper)
  {
    hide Ordered, EntriesOk, CountdownOk, HistoryOk, DeadlinesOk, Drain, BeginFsmTurn, OnZoneTimeout, OnZoneReady, CommitResolved, WiperInStep;
    var b := s.brain;
    base' := base;
    match move {
      case Ingress(event, now) =>
        var next := BeginFsmTurn(b, event, now);
        DrainGrows(next, clock);
        BeginGrows(b, event, now);
        BeginKeeps(b, event, now);
        BeginInStep(b, event, now, base, s.ready, s.wiperRead, s.wiper);
        base' := DrainInStep(next, clock, base, s.ready, s.wiperRead, s.wiper);
      case DeliverReady(m) =>
        ReadyKeeps(b, m.zone, m.turnId, m.attempt, m.reply);
        ReadyInStep(b, m, base, s.ready, s.wiperRead, s.wiper);
        base' := DrainInStep(OnZoneReady(b, m.zone, m.turnId, m.attempt, m.reply), clock, base, s.ready, s.wiperRead, s.wiper);
      case DeliverTimeout(t) =>
        TimeoutDeadlines(b, t, s.fired, s.timeouts);
        TimeoutInStep(b, t, s.fired, s.timeouts, base, s.ready, s.wiperRead, s.wiper);
        base' := DrainInStep(OnZoneTimeout(b, t.zone, t.turnId, t.attempt), clock, base, s.ready, s.wiperRead, s.wiper);
      case DeliverSpontaneous(index, now) =>
        var m := s.spontaneous[index];
        var next := OnZoneSpontaneous(b, m.direction, m.cause, m.reply, now, clock);
        DrainGrows(next, clock);
        SpontaneousKeepsQueue(b, m.direction, m.cause, m.reply, now, clock);
        SpontaneousInStep(b, m.direction, m.cause, m.reply, now, clock, base, s.ready, s.wiperRead, s.wiper);
        base' := DrainInStep(next, clock, base, s.ready, s.wiperRead, s.wiper);
      case _ =>
    }
  }

  lemma {:induction false} WiperMoveInStep(s: System, clock: Clock, base: Wiper.WiperContext)
    requires QueueOk(s.brain) && SystemInStep(s, base) && Enabled(s, WiperTakes(true))
    ensures SystemInStep(Next(s, WiperTakes(true), clock), base)
  {
    hide WiperOk, EntriesOk, CountdownOk, HistoryOk, TellsToWiper;
    var mail := MailOf(s.brain.tells, s.wiperRead);
    assert mail[0] == TellsToWiper(s.brain.tells)[s.wiperRead];
    WiperTakesInStep(s.brain, base, s.ready, mail, s.wiper);
    assert MailOf(s.brain.tells, s.wiperRead + 1) == mail[1..];
  }

  lemma {:induction false} NextInStep(s: System, move: Move, clock: Clock, base: Wiper.WiperContext) returns (base': Wiper.WiperContext)
    requires SystemOk(s) && SystemInStep(s, base) && Enabled(s, move) && Attentive(move)
    requires Next(s, move, clock).brain.nextTurnId < U64_MAX
    ensures SystemInStep(Next(s, move, clock), base')
  {
    hide DeadlinesOk, WiperInStep, BrainNext, TellsToWiper, TellsToHeadlamp, LiveTimers, QueueOk;
    base' := base;
    if move.WiperTakes? {
      WiperMoveInStep(s, clock, base);
    } else {
      var next := Next(s, move, clock);
      if move.Ingress? || move.DeliverReady? || move.DeliverTimeout? || move.DeliverSpontaneous? {
        base' := BrainInStep(s, move, clock, base);
      }
      OtherReady(next.brain, base', s.ready, next.ready, s.wiperRead, s.wiper);
    }
  }

  lemma {:induction false} RunInStep(s: System, moves: seq<Move>, clock: Clock, base: Wiper.WiperContext) returns (base': Wiper.WiperContext)
    requires SystemOk(s) && SystemInStep(s, base) && ValidRun(s, moves, clock) && AttentiveRun(moves)
    requires Unsaturated(Run(s, moves, clock).brain)
    ensures SystemInStep(Run(s, moves, clock), base')
    decreases |moves|
  {
    hide SystemOk, SystemInStep, Next, Enabled, Attentive;
    base' := base;
    if moves != [] {
      var next := Next(s, moves[0], clock);
      RunGrows(next, moves[1..], clock);
      NextOk(s, moves[0], clock);
      base' := NextInStep(s, moves[0], clock, base);
      base' := RunInStep(next, moves[1..], clock, base');
    }
  }

  lemma {:induction false} InitialInStep()
    ensures SystemInStep(INITIAL_SYSTEM, Wiper.DEFAULT_WIPER)
  {
    assert Wiper.Fold(Wiper.DEFAULT_WIPER, []) == Wiper.DEFAULT_WIPER;
  }

  /** The wiper messages the twinlet has not taken yet, in mailbox order. */
  function Mailbox(s: System): seq<Wiper.WiperMessage>
    requires s.wiperRead <= |TellsToWiper(s.brain.tells)|
  {
    Texts(MailOf(s.brain.tells, s.wiperRead))
  }

  /** From `base`, untold rain leads to the mirror, and the queued messages to where twinlet and mailbox lead. */
  ghost predicate OneBase(s: System, base: Wiper.WiperContext)
    requires s.wiperRead <= |TellsToWiper(s.brain.tells)|
  {
    && s.brain.ctx.wiper == Wiper.Fold(base, Untold(s.brain.committed))
    && Wiper.Fold(base, QueuedWiperMessages(s.brain.queue)) == Wiper.Fold(s.wiper, Mailbox(s))
  }

  lemma {:induction false} BaseOfState(s: System, base: Wiper.WiperContext)
    requires SystemInStep(s, base)
    ensures s.wiperRead <= |TellsToWiper(s.brain.tells)| && OneBase(s, base)
    ensures s.brain.queue == [] ==> s.wiper == base && Mailbox(s) == []
    ensures AllRainTold(s.brain) ==> base == s.brain.ctx.wiper && LedgerIsLocal(LedgerOf(s.brain.trace))
  {
    hide LedgerIsLocal, RepliesAreLocal, TellsToWiper, LedgerOf, AllRainTold, Untold;
    var tells, mail := QueuedWiperTells(s.brain.queue), MailOf(s.brain.tells, s.wiperRead);
    var k := |tells| - |mail|;
    assert tells == tells[..k] + mail;
    CollectConcat(tells[..k], mail, WiperText);
    FoldConcat(base, Texts(tells[..k]), Texts(mail));
    if AllRainTold(s.brain) {
      AllToldMeansNothingUntold(s.brain);
      assert Wiper.Fold(base, []) == base;
    }
  }

  lemma {:induction false} AllToldMeansNothingUntold(b: Brain)
    requires AllRainTold(b)
    ensures Untold(b.committed) == []
  {
    NothingUntold(b.committed);
  }

  /**
   * In every run with an answering wiper and no wiper deadline handled, rain in a countdown or not:
   * there is one base for mirror and twinlet; and once queue and mailbox are empty, the mirror is the
   * twinlet followed by the rain committed untold since the last told wiper commit, so that the two
   * agree if and only if that rain would leave the twinlet where it is.
   */
  lemma {:induction false} MirrorIsTwinletPlusUntold(moves: seq<Move>, clock: Clock)
    requires ValidRun(INITIAL_SYSTEM, moves, clock) && AttentiveRun(moves)
    requires Unsaturated(Run(INITIAL_SYSTEM, moves, clock).brain)
    ensures var s := Run(INITIAL_SYSTEM, moves, clock);
            && s.wiperRead <= |TellsToWiper(s.brain.tells)|
            && (exists base :: OneBase(s, base))
            && (s.brain.queue == [] ==>
                  && Mailbox(s) == []
                  && s.brain.ctx.wiper == Wiper.Fold(s.wiper, Untold(s.brain.committed))
                  && (s.brain.ctx.wiper == s.wiper <==> Wiper.Fold(s.wiper, Untold(s.brain.committed)) == s.wiper))
  {
    hide SystemOk, SystemInStep, Next, LedgerIsLocal, Texts, QueuedWiperTells, TellsToWiper, LedgerOf, ValidRun, Run, AttentiveRun, Untold,
         AllRainTold;
    InitialOk();
    InitialInStep();
    var base := RunInStep(INITIAL_SYSTEM, moves, clock, Wiper.DEFAULT_WIPER);
    BaseOfState(Run(INITIAL_SYSTEM, moves, clock), base);
  }

  // ── quiet runs ───────────────────────────────────────────────────────────

  /** As `Attentive`, and no rain event arrives during a countdown. */
  predicate Quiet(s: System, move: Move) {
    Attentive(move) && (move.Ingress? && IsRain(move.event) ==> !s.brain.state.Preparing())
  }

  ghost predicate QuietRun(s: System, moves: seq<Move>, clock: Clock)
    requires ValidRun(s, moves, clock)
    decreases |moves|
  {
    moves != [] ==> Quiet(s, moves[0]) && QuietRun(Next(s, moves[0], clock), moves[1..], clock)
  }

  lemma {:induction false} CommitHearsAll(b: Brain, event: FsmEvent, now: Instant, replies: ZoneReplies, clock: Clock)
    requires AllRainTold(b)
    ensures AllRainTold(CommitResolved(b, event, now, replies, clock))
  {
    hide Quiesce, TurnSummary, TurnTrace, AdvanceBy, Starts, Stops;
    CommitShape(b, event, now, replies, clock);
    var c := CommitResolved(b, event, now, replies, clock);
    assert forall i :: 0 <= i < |c.queue| ==> (if i < |b.queue| then c.queue[i] == b.queue[i] else c.queue[i].Waiting?);
  }

  lemma {:induction false} PopHearsAll(b: Brain)
    requires b.queue != [] && AllRainTold(b)
    ensures AllRainTold(PopFront(b))
  {
    var p := PopFront(b);
    assert forall i :: 0 <= i < |p.queue| ==> p.queue[i] == b.queue[i + 1];
    assert b.queue[0].Passthrough? ==> !IsRain(b.queue[0].event);
  }

  lemma {:induction false} DrainHearsAll(b: Brain, clock: Clock)
    requires AllRainTold(b)
    ensures AllRainTold(Drain(b, clock))
    decreases CompletePrefix(b.queue)
  {
    hide CommitResolved, AllRainTold;
    if FrontComplete(b) {
      var e := b.queue[0];
      CommitFrontProgress(b, clock);
      PopHearsAll(b);
      CommitHearsAll(PopFront(b), e.Event(), e.Now(), e.Replies(), clock);
      DrainHearsAll(CommitFront(b, clock), clock);
    }
  }

  lemma {:induction false} HandlersHearAll(b: Brain)
    requires AllRainTold(b)
    ensures forall event, now :: !(IsRain(event) && b.state.Preparing()) ==> AllRainTold(BeginFsmTurn(b, event, now))
    ensures forall zone, turnId, attempt, reply :: AllRainTold(OnZoneReady(b, zone, turnId, attempt, reply))
    ensures forall zone, turnId, attempt :: AllRainTold(OnZoneTimeout(b, zone, turnId, attempt))
  {
    hide Find, SyntheticReplyFor;
  }

  lemma {:induction false} NextHearsAll(s: System, move: Move, clock: Clock)
    requires Enabled(s, move) && Quiet(s, move) && AllRainTold(s.brain)
    ensures AllRainTold(Next(s, move, clock).brain)
  {
    hide Drain, BeginFsmTurn, OnZoneTimeout, OnZoneReady, CommitResolved, WiperNext, HeadlampNext, AllRainTold, LiveTimers;
    var b := s.brain;
    HandlersHearAll(b);
    match move
    case Ingress(event, now) => DrainHearsAll(BeginFsmTurn(b, event, now), clock);
    case DeliverReady(m) => DrainHearsAll(OnZoneReady(b, m.zone, m.turnId, m.attempt, m.reply), clock);
    case DeliverTimeout(t) => DrainHearsAll(OnZoneTimeout(b, t.zone, t.turnId, t.attempt), clock);
    case DeliverSpontaneous(index, now) =>
      var m := s.spontaneous[index];
      CommitHearsAll(b, FrontHeadlampActuationIncomplete(m.direction, m.cause), now,
                     map[HeadlampAssembly := ZoneReply.FromHeadlamp(m.reply)], clock);
      DrainHearsAll(OnZoneSpontaneous(b, m.direction, m.cause, m.reply, now, clock), clock);
    case WiperTakes(_) => TakesKeepBrain(s, move, clock);
    case HeadlampTakes(_) => TakesKeepBrain(s, move, clock);
    case _ =>
  }

  lemma {:induction false} QuietRunsHearAll(s: System, moves: seq<Move>, clock: Clock)
    requires ValidRun(s, moves, clock) && QuietRun(s, moves, clock) && AllRainTold(s.brain)
    ensures AttentiveRun(moves) && AllRainTold(Run(s, moves, clock).brain)
    decreases |moves|
  {
    hide Next, Enabled, AllRainTold;
    if moves != [] {
      NextHearsAll(s, moves[0], clock);
      QuietRunsHearAll(Next(s, moves[0], clock), moves[1..], clock);
      assert forall i :: 0 < i < |moves| ==> moves[i] == moves[1..][i - 1];
    }
  }

  lemma {:induction false} QuietState(moves: seq<Move>, clock: Clock)
    requires ValidRun(INITIAL_SYSTEM, moves, clock) && QuietRun(INITIAL_SYSTEM, moves, clock)
    requires Unsaturated(Run(INITIAL_SYSTEM, moves, clock).brain)
    ensures var s := Run(INITIAL_SYSTEM, moves, clock);
            && SystemInStep(s, s.brain.ctx.wiper) && s.wiperRead <= |TellsToWiper(s.brain.tells)| && OneBase(s, s.brain.ctx.wiper)
            && (s.brain.queue == [] ==> s.wiper == s.brain.ctx.wiper && Mailbox(s) == [])
            && LedgerIsLocal(LedgerOf(s.brain.trace)) && Untold(s.brain.committed) == []
  {
    assert AllRainTold(INITIAL_SYSTEM.brain);
    hide SystemOk, SystemInStep, Next, LedgerIsLocal, Texts, QueuedWiperTells, TellsToWiper, LedgerOf, ValidRun, Run, AttentiveRun, QuietRun,
         Untold, AllRainTold;
    InitialOk();
    InitialInStep();
    QuietRunsHearAll(INITIAL_SYSTEM, moves, clock);
    var base := RunInStep(INITIAL_SYSTEM, moves, clock, Wiper.DEFAULT_WIPER);
    var s := Run(INITIAL_SYSTEM, moves, clock);
    BaseOfState(s, base);
    AllToldMeansNothingUntold(s.brain);
  }

  /**
   * In every state of every quiet run the brain's mirror followed by the queued wiper messages is the
   * twinlet followed by its mailbox; with both empty the two agree; and the ledger so far, row by row,
   * is a run of the local handler, so each committed reply is the one that handler would have produced.
   */
  lemma {:induction false} WiperRefinesLocalHandler(moves: seq<Move>, clock: Clock)
    requires ValidRun(INITIAL_SYSTEM, moves, clock) && QuietRun(INITIAL_SYSTEM, moves, clock)
    requires Unsaturated(Run(INITIAL_SYSTEM, moves, clock).brain)
    ensures var s := Run(INITIAL_SYSTEM, moves, clock);
            && s.wiperRead <= |TellsToWiper(s.brain.tells)|
            && Wiper.Fold(s.brain.ctx.wiper, QueuedWiperMessages(s.brain.queue)) == Wiper.Fold(s.wiper, Mailbox(s))
            && (s.brain.queue == [] ==> s.brain.ctx.wiper == s.wiper && Mailbox(s) == [])
            && LedgerIsLocal(LedgerOf(s.brain.trace))
  {
    hide SystemInStep, Next, LedgerIsLocal, Texts, QueuedWiperTells, TellsToWiper, LedgerOf, ValidRun, Run, QuietRun, Untold;
    QuietState(moves, clock);
  }

  /** On a quiet run, whatever is stored in a complete wiper slot is exactly what the local handler gives. */
  lemma {:induction false} StoredRepliesAreLocal(moves: seq<Move>, clock: Clock, i: nat)
    requires ValidRun(INITIAL_SYSTEM, moves, clock) && QuietRun(INITIAL_SYSTEM, moves, clock)
    requires Unsaturated(Run(INITIAL_SYSTEM, moves, clock).brain)
    requires var b := Run(INITIAL_SYSTEM, moves, clock).brain; i < |b.queue| && IsWiperSlot(b.queue[i]) && b.queue[i].IsComplete()
    ensures var b := Run(INITIAL_SYSTEM, moves, clock).brain;
            b.queue[i].Replies() == map[WiperAssembly := FromWiper(LocalReply(b.ctx.wiper, b.queue, i))]
  {
    hide LedgerIsLocal, TellsToWiper, Next, LocalReply, TwinletInStep, ValidRun, Run, QuietRun, MirrorOk;
    QuietState(moves, clock);
  }

  /** The twinlet hears of a rain event exactly when it does not arrive during a countdown. */
  lemma {:induction false} RainIsToldUnlessPreparing(b: Brain, event: FsmEvent, now: Instant)
    requires IsRain(event)
    ensures var b' := BeginFsmTurn(b, event, now);
            && |b'.queue| == |b.queue| + 1
            && (b.state.Preparing() <==> b'.queue[|b.queue|].Passthrough?)
            && (b.state.Preparing() <==> TellsToWiper(b'.tells) == TellsToWiper(b.tells))
  {
    if !b.state.Preparing() {
      var message := UserEventToZoneTell(event).message;
      SelectConcat(b.tells, [Tell(WiperAssembly, b.nextTurnId, 0, message, now)], ForWiper);
    }
  }
}
