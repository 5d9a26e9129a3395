/**
 * Turn order over whole runs: once a turn has its id, its event and its place among the commits are
 * fixed. An event that arrives during a countdown is therefore committed after that countdown.
 */
module TurnOrder {
  import opened VehiclePhysics
  import opened Fsm
  import opened Zones
  import opened TwinTurn
  import opened TurnBarriers
  import opened BrainModel
  import opened Turns
  import opened Commits
  import opened BrainInvariants
  import opened BrainSafety
  import opened HandlerSafety
  import opened Plant
  import opened Deadlines
  import opened Reachability

  /** A turn's event and the stamp it arrived with. */
  datatype Turn = Turn(event: FsmEvent, now: Instant)

  /** All turns, committed ones first: the turn at `i` has id `i + 1`. */
  function TurnsOf(b: Brain): seq<Turn> {
    seq(|b.committed| + |b.queue|, i requires 0 <= i < |b.committed| + |b.queue| =>
      if i < |b.committed| then Turn(b.committed[i].event, b.committed[i].now)
      else Turn(b.queue[i - |b.committed|].Event(), b.queue[i - |b.committed|].Now()))
  }

  /** Nothing that happened is undone, and no turn changes its place, its event or its stamp. */
  ghost predicate Extends(b: Brain, b': Brain) {
    && b.trace <= b'.trace
    && b.committed <= b'.committed
    && (forall i :: |b.committed| <= i < |b'.committed| ==> b'.committed[i].at >= |b.trace|)
    && TurnsOf(b) <= TurnsOf(b')
  }

  lemma {:induction false} ExtendsTransitive(b: Brain, c: Brain, d: Brain)
    requires Extends(b, c) && Extends(c, d)
    ensures Extends(b, d)
  {
    hide TurnsOf;
    forall i | |b.committed| <= i < |d.committed| ensures d.committed[i].at >= |b.trace| {
      if i < |c.committed| {
        assert d.committed[i] == c.committed[i];
      }
    }
  }

  lemma {:induction false} SameTurns(b: Brain, b': Brain)
    requires b'.committed == b.committed && b'.trace == b.trace && |b.queue| <= |b'.queue|
    requires forall i :: 0 <= i < |b.queue| ==> b'.queue[i].Event() == b.queue[i].Event() && b'.queue[i].Now() == b.queue[i].Now()
    ensures Extends(b, b')
  {
  }

  lemma {:induction false} BeginExtends(b: Brain, event: FsmEvent, now: Instant)
    ensures Extends(b, BeginFsmTurn(b, event, now))
  {
    SameTurns(b, BeginFsmTurn(b, event, now));
  }

  lemma {:induction false} ReadyExtends(b: Brain, zone: AssemblyId, turnId: u64, attempt: u32, reply: ZoneReply)
    ensures Extends(b, OnZoneReady(b, zone, turnId, attempt, reply))
  {
    SameTurns(b, OnZoneReady(b, zone, turnId, attempt, reply));
  }

  lemma {:induction false} TimeoutExtends(b: Brain, zone: AssemblyId, turnId: u64, attempt: u32)
    ensures Extends(b, OnZoneTimeout(b, zone, turnId, attempt))
  {
    hide Extends, Find, SyntheticReplyFor;
    SameTurns(b, OnZoneTimeout(b, zone, turnId, attempt));
  }

  lemma {:induction false} CommitExtends(b: Brain, event: FsmEvent, now: Instant, replies: ZoneReplies, clock: Clock)
    ensures Extends(b, CommitResolved(b, event, now, replies, clock))
    ensures CommitResolved(b, event, now, replies, clock).committed == b.committed
    ensures |CommitResolved(b, event, now, replies, clock).trace| > |b.trace|
  {
    hide Quiesce, TurnSummary, AdvanceBy, Starts, Stops, TurnTrace;
    CommitShape(b, event, now, replies, clock);
    var hops := Quiesce(b.state, b.ctx, event, now, replies);
    FirstRow(b.state, b.ctx, event, now, b.nextRecordSeq, hops);
    var b' := CommitResolved(b, event, now, replies, clock);
    assert forall i :: 0 <= i < |b.queue| ==> b'.queue[i] == b.queue[i];
  }

  lemma {:induction false} PopExtends(b: Brain)
    requires b.queue != []
    ensures Extends(b, PopFront(b))
  {
    var p := PopFront(b);
    assert TurnsOf(p) == TurnsOf(b);
  }

  lemma {:induction false} DrainExtends(b: Brain, clock: Clock)
    ensures Extends(b, Drain(b, clock))
    decreases CompletePrefix(b.queue)
  {
    hide CommitResolved, Extends;
    if FrontComplete(b) {
      var e, p, c := b.queue[0], PopFront(b), CommitFront(b, clock);
      CommitFrontProgress(b, clock);
      PopExtends(b);
      CommitExtends(p, e.Event(), e.Now(), e.Replies(), clock);
      ExtendsTransitive(b, p, c);
      DrainExtends(c, clock);
      ExtendsTransitive(b, c, Drain(c, clock));
    } else {
      SameTurns(b, b);
    }
  }

  lemma {:induction false} NextExtends(s: System, move: Move, clock: Clock)
    requires Enabled(s, move)
    ensures Extends(s.brain, Next(s, move, clock).brain)
  {
    hide Drain, BeginFsmTurn, OnZoneTimeout, OnZoneReady, CommitResolved, WiperNext, HeadlampNext, Extends;
    var b := s.brain;
    match move
    case Ingress(event, now) =>
      var c := BeginFsmTurn(b, event, now);
      BeginExtends(b, event, now);
      DrainExtends(c, clock);
      ExtendsTransitive(b, c, Drain(c, clock));
    case DeliverReady(m) =>
      var c := OnZoneReady(b, m.zone, m.turnId, m.attempt, m.reply);
      ReadyExtends(b, m.zone, m.turnId, m.attempt, m.reply);
      DrainExtends(c, clock);
      ExtendsTransitive(b, c, Drain(c, clock));
    case DeliverTimeout(t) =>
      var c := OnZoneTimeout(b, t.zone, t.turnId, t.attempt);
      TimeoutExtends(b, t.zone, t.turnId, t.attempt);
      DrainExtends(c, clock);
      ExtendsTransitive(b, c, Drain(c, clock));
    case DeliverSpontaneous(index, now) =>
      var m := s.spontaneous[index];
      var c := OnZoneSpontaneous(b, m.direction, m.cause, m.reply, now, clock);
      CommitExtends(b, FrontHeadlampActuationIncomplete(m.direction, m.cause), now,
                    map[HeadlampAssembly := ZoneReply.FromHeadlamp(m.reply)], clock);
      DrainExtends(c, clock);
      ExtendsTransitive(b, c, Drain(c, clock));
    case WiperTakes(_) => TakesKeepBrain(s, move, clock); SameTurns(b, b);
    case HeadlampTakes(_) => TakesKeepBrain(s, move, clock); SameTurns(b, b);
    case _ => SameTurns(b, b);
  }

  lemma {:induction false} RunExtends(s: System, moves: seq<Move>, clock: Clock)
    requires ValidRun(s, moves, clock)
    ensures Extends(s.brain, Run(s, moves, clock).brain)
    decreases |moves|
  {
    hide Next, Enabled, Extends;
    if moves == [] {
      SameTurns(s.brain, s.brain);
    } else {
      var next := Next(s, moves[0], clock);
      NextExtends(s, moves[0], clock);
      RunExtends(next, moves[1..], clock);
      ExtendsTransitive(s.brain, next.brain, Run(next, moves[1..], clock).brain);
    }
  }

  // ── arrivals during a countdown ──────────────────────────────────────────

  /** Each lifecycle slot among `queue`, once committed between `lo` and `hi`, leaves its own mark there. */
  lemma {:induction false} CommitsLeaveMarks(queue: seq<Entry>, commits: seq<Commit>, trace: seq<Effect>, lo: nat, hi: nat)
    requires |queue| == |commits| && lo <= hi <= |trace|
    requires forall i :: 0 <= i < |queue| ==>
      && commits[i].event == queue[i].Event()
      && lo <= commits[i].at < hi
      && trace[commits[i].at].Row? && trace[commits[i].at].record.event == commits[i].event
    requires forall i, j :: 0 <= i < j < |commits| ==> commits[i].at < commits[j].at
    ensures |MarksOf(trace[..hi])| >= |MarksOf(trace[..lo])| + |LifecycleZones(queue)|
    decreases |queue|
  {
    if queue == [] {
      assert trace[..hi] == trace[..lo] + trace[lo..hi];
      CollectConcat(trace[..lo], trace[lo..hi], MarkOf);
    } else {
      var at := commits[0].at;
      assert trace[..at + 1] == trace[..lo] + (trace[lo..at] + [trace[at]]);
      CollectConcat(trace[..lo], trace[lo..at] + [trace[at]], MarkOf);
      CollectConcat(trace[lo..at], [trace[at]], MarkOf);
      CollectOne(trace[at], MarkOf);
      CommitsLeaveMarks(queue[1..], commits[1..], trace, at + 1, hi);
    }
  }

  /** A countdown that is running ends with its outstanding acknowledgements. */
  lemma {:induction false} CountdownEnds(state: FsmState)
    requires RemainingOk(state) && state.Preparing()
    ensures Phase(state) + |Outstanding(state)| == if state.PreparingToStart? then 3 else 6
  {
    OutstandingCases(state);
    assert HeadlampAssembly !in {WiperAssembly} && HeadlampAssembly in EVERY_ASSEMBLY;
  }

  /** The index of the next turn in `TurnsOf`; its id is one more. */
  function NextTurn(b: Brain): nat { |b.committed| + |b.queue| }

  /** The row acknowledging `zone` is written between `lo` and `hi`. */
  ghost predicate AcknowledgedBetween(trace: seq<Effect>, zone: AssemblyId, lo: nat, hi: nat) {
    exists k: nat :: lo <= k < hi && k < |trace| && trace[k].Row? && trace[k].record.event == AssemblyZoneReady(zone)
  }

  /** How many life-cycle marks there are once the countdown of `b` is over. */
  function CountdownEnd(b: Brain): nat { |MarksOf(b.trace)| + |Outstanding(b.state)| }

  /** The effect at `at` comes after the countdown of `b`: after each acknowledgement it waits for, and no later one is its own. */
  ghost predicate AfterCountdown(b: Brain, end: Brain, at: nat) {
    && at < |end.trace| && end.trace[at].Row?
    && (b.state.Preparing() ==> forall zone :: zone in b.state.remaining ==> AcknowledgedBetween(end.trace, zone, |b.trace|, at))
    && (forall k: nat :: at <= k < |end.trace| && MarkOf(end.trace[k]).Some? ==> |MarksOf(end.trace[..k])| >= CountdownEnd(b))
  }

  lemma {:induction false} MarksGrow(trace: seq<Effect>, i: nat, j: nat)
    requires i <= j <= |trace|
    ensures |MarksOf(trace[..i])| <= |MarksOf(trace[..j])|
  {
    assert trace[..j] == trace[..i] + trace[i..j];
    CollectConcat(trace[..i], trace[i..j], MarkOf);
  }

  lemma {:induction false} QueuedZone(queue: seq<Entry>, zone: AssemblyId) returns (i: nat)
    requires zone in LifecycleZones(queue)
    ensures i < |queue| && queue[i].Event() == AssemblyZoneReady(zone)
  {
    if LifecycleZone(queue[0]) == Some(zone) {
      i := 0;
    } else {
      i := QueuedZone(queue[1..], zone);
      i := i + 1;
    }
  }

  /** From arrival to commit: the turn keeps its id and event, and everything queued before it goes first. */
  lemma {:induction false} QueuedTurnsGoFirst(b: Brain, event: FsmEvent, now: Instant, end: Brain)
    requires QueueOk(b) && QueueOk(end) && NextTurn(b) < |end.committed|
    requires Extends(b, end) && TurnsOf(end)[NextTurn(b)] == Turn(event, now)
    ensures var c := end.committed[NextTurn(b)];
            && c.turnId == b.nextTurnId && c.event == event && c.now == now
            && c.at < |end.trace| && end.trace[c.at].Row? && end.trace[c.at].record.event == event
            && forall i :: 0 <= i < |b.queue| ==>
                 var q := end.committed[|b.committed| + i];
                 && q.event == b.queue[i].Event() && |b.trace| <= q.at < c.at
                 && end.trace[q.at].Row? && end.trace[q.at].record.event == q.event
  {
    hide EntriesOk, CountdownOk;
    forall i | 0 <= i < |b.queue|
      ensures end.committed[|b.committed| + i].event == b.queue[i].Event()
    {
      var k := |b.committed| + i;
      assert TurnsOf(end)[k] == TurnsOf(b)[k];
    }
    assert TurnsOf(end)[NextTurn(b)] == Turn(end.committed[NextTurn(b)].event, end.committed[NextTurn(b)].now);
  }

  lemma {:induction false} ArrivalCommitsInTurn(b: Brain, event: FsmEvent, now: Instant, end: Brain)
    requires QueueOk(b) && QueueOk(end) && NextTurn(b) < |end.committed|
    requires Extends(b, end) && TurnsOf(end)[NextTurn(b)] == Turn(event, now)
    ensures var c := end.committed[NextTurn(b)];
            && c.turnId == b.nextTurnId && c.event == event && c.now == now && AfterCountdown(b, end, c.at) && end.trace[c.at].record.event == event
  {
    QueuedTurnsGoFirst(b, event, now, end);
    OutstandingCases(b.state);
    hide EntriesOk, MarksOf, Outstanding, LifecycleMessagesOk, LifecycleZones, TurnsOf, Ordered, AcknowledgedBetween, MarkOf;
    var n, c := NextTurn(b), end.committed[NextTurn(b)];
    var commits := end.committed[|b.committed|..n];
    CommitsLeaveMarks(b.queue, commits, end.trace, |b.trace|, c.at);
    assert end.trace[..|b.trace|] == b.trace;
    if b.state.Preparing() {
      forall zone | zone in b.state.remaining ensures AcknowledgedBetween(end.trace, zone, |b.trace|, c.at) {
        assert zone in EVERY_ASSEMBLY;
        assert zone in Outstanding(b.state);
        var i := QueuedZone(b.queue, zone);
        RowBetween(end.trace, zone, |b.trace|, c.at, end.committed[|b.committed| + i].at);
      }
    }
    forall k: nat | c.at <= k < |end.trace| ensures |MarksOf(end.trace[..k])| >= CountdownEnd(b) {
      MarksGrow(end.trace, c.at, k);
    }
  }

  lemma {:induction false} RowBetween(trace: seq<Effect>, zone: AssemblyId, lo: nat, hi: nat, k: nat)
    requires lo <= k < hi && k < |trace| && trace[k].Row? && trace[k].record.event == AssemblyZoneReady(zone)
    ensures AcknowledgedBetween(trace, zone, lo, hi)
  {
  }

  lemma {:induction false} BegunTurn(b: Brain, event: FsmEvent, now: Instant)
    ensures var c := BeginFsmTurn(b, event, now);
            |TurnsOf(c)| == NextTurn(b) + 1 && TurnsOf(c)[NextTurn(b)] == Turn(event, now)
  {
    var e := BeginFsmTurn(b, event, now).queue[|b.queue|];
    assert e.Event() == event && e.Now() == now;
  }

  /** What a run that starts with an arrival keeps of the state before it. */
  lemma {:induction false} ArrivalExtends(s: System, event: FsmEvent, now: Instant, moves: seq<Move>, clock: Clock)
    requires Enabled(s, Ingress(event, now)) && ValidRun(Next(s, Ingress(event, now), clock), moves, clock)
    ensures var end := Run(Next(s, Ingress(event, now), clock), moves, clock).brain;
            && Extends(s.brain, end)
            && NextTurn(s.brain) < |TurnsOf(end)| && TurnsOf(end)[NextTurn(s.brain)] == Turn(event, now)
  {
    hide Run, ValidRun, Drain, BeginFsmTurn, TurnsOf;
    var arrived := Next(s, Ingress(event, now), clock);
    var end := Run(arrived, moves, clock);
    var c := BeginFsmTurn(s.brain, event, now);
    NextExtends(s, Ingress(event, now), clock);
    RunExtends(arrived, moves, clock);
    ExtendsTransitive(s.brain, arrived.brain, end.brain);
    BegunTurn(s.brain, event, now);
    DrainExtends(c, clock);
    ExtendsTransitive(c, arrived.brain, end.brain);
  }

  /**
   * An event that arrives while assemblies start or stop is committed after that countdown: its row
   * comes after the row of each acknowledgement still waited for, and every life-cycle row from it on
   * belongs to a later part of the cycle.
   */
  lemma {:induction false} ArrivalOutlivesCountdown(s: System, event: FsmEvent, now: Instant, moves: seq<Move>, clock: Clock)
    requires Reachable(s, clock) && s.brain.state.Preparing() && Enabled(s, Ingress(event, now))
    requires ValidRun(Next(s, Ingress(event, now), clock), moves, clock)
    requires Unsaturated(Run(Next(s, Ingress(event, now), clock), moves, clock).brain)
    requires NextTurn(s.brain) < |Run(Next(s, Ingress(event, now), clock), moves, clock).brain.committed|
    ensures var end := Run(Next(s, Ingress(event, now), clock), moves, clock).brain;
            var c := end.committed[NextTurn(s.brain)];
            && c.turnId == s.brain.nextTurnId && c.event == event && c.now == now
            && AfterCountdown(s.brain, end, c.at) && end.trace[c.at].record.event == event
            && Phase(s.brain.state) + |Outstanding(s.brain.state)| == (if s.brain.state.PreparingToStart? then 3 else 6)
  {
    hide Enabled, Run, ValidRun, HistoryOk, EntriesOk, DeadlinesOk, MarksOf, Outstanding, TurnsOf, Extends, BrainNext, AfterCountdown, CutOk;
    var arrived := Next(s, Ingress(event, now), clock);
    ReachableOk(s, clock);
    RunGrows(arrived, moves, clock);
    NextOk(s, Ingress(event, now), clock);
    RunOk(arrived, moves, clock);
    ArrivalExtends(s, event, now, moves, clock);
    CountdownEnds(s.brain.state);
    ArrivalCommitsInTurn(s.brain, event, now, Run(arrived, moves, clock).brain);
  }
}
