/**
 * Reply order does not matter: delivering one current reply to each of any set of open slots, in
 * any order and draining after each, ends in the same brain - twin, ledger, actions, tells and queue.
 */
module Confluence {
  import opened VehiclePhysics
  import opened Fsm
  import opened Zones
  import opened TwinTurn
  import opened TurnBarriers
  import opened BrainModel
  import opened Turns
  import opened Commits
  import opened Twinlets

  /** The reply goes into its slot; nothing is committed yet. */
  function Fill(b: Brain, m: ReadyMsg): Brain {
    OnZoneReady(b, m.zone, m.turnId, m.attempt, m.reply)
  }

  function FillAll(b: Brain, ms: seq<ReadyMsg>): Brain
    decreases |ms|
  {
    if ms == [] then b else FillAll(Fill(b, ms[0]), ms[1..])
  }

  /** The handler: fill, then drain. */
  function DeliverAll(b: Brain, ms: seq<ReadyMsg>, clock: Clock): Brain
    decreases |ms|
  {
    if ms == [] then b else DeliverAll(Drain(Fill(b, ms[0]), clock), ms[1..], clock)
  }

  /** The message answers the current attempt of a slot that still waits. */
  predicate OpenFor(b: Brain, m: ReadyMsg) {
    var i := FindWaiting(b, m.turnId);
    && i.Some?
    && !b.queue[i.value].IsComplete()
    && b.queue[i.value].barrier.TellAttemptMatches(m.zone, m.attempt)
  }

  /** One current reply for each of some open slots. */
  ghost predicate Batch(b: Brain, ms: seq<ReadyMsg>) {
    && (forall i :: 0 <= i < |ms| ==> OpenFor(b, ms[i]))
    && (forall i, j :: 0 <= i < j < |ms| ==> ms[i].turnId != ms[j].turnId)
  }

  // ── filling ──────────────────────────────────────────────────────────────

  lemma {:induction false} FindSame(q: seq<Entry>, q': seq<Entry>, turnId: u64)
    requires |q| == |q'| && forall i :: 0 <= i < |q| ==> q[i].TurnId() == q'[i].TurnId()
    ensures Find(q, turnId) == Find(q', turnId)
  {
    if q != [] && q[0].TurnId() != turnId {
      FindSame(q[1..], q'[1..], turnId);
    }
  }

  lemma {:induction false} FindInTail(q: seq<Entry>, more: seq<Entry>, turnId: u64)
    requires 0 < Find(q, turnId) < |q|
    ensures Find(q[1..] + more, turnId) == Find(q, turnId) - 1
  {
    FindInPrefix(q[1..], more, turnId);
  }

  lemma {:induction false} FindInPrefix(q: seq<Entry>, more: seq<Entry>, turnId: u64)
    requires Find(q, turnId) < |q|
    ensures Find(q + more, turnId) == Find(q, turnId)
  {
    if q[0].TurnId() != turnId {
      assert (q + more)[1..] == q[1..] + more;
      FindInPrefix(q[1..], more, turnId);
    }
  }

  /** What a fill does to the queue and to the aborted handles. */
  lemma {:induction false} FillShape(b: Brain, m: ReadyMsg)
    requires OpenFor(b, m)
    ensures var i := Find(b.queue, m.turnId);
            && i < |b.queue| && b.queue[i].Waiting?
            && var slot := b.queue[i].barrier;
            Fill(b, m) == b.(queue := b.queue[i := Waiting(slot.ActOnZoneReply(m.zone, m.reply))],
                             aborted := b.aborted + slot.AbortedBy(m.zone))
  {
  }

  lemma {:induction false} FillKeepsOthersOpen(b: Brain, m: ReadyMsg, n: ReadyMsg)
    requires OpenFor(b, m) && OpenFor(b, n) && m.turnId != n.turnId
    ensures OpenFor(Fill(b, m), n)
    ensures Find(Fill(b, m).queue, n.turnId) == Find(b.queue, n.turnId)
    ensures Fill(b, m).queue[Find(b.queue, n.turnId)] == b.queue[Find(b.queue, n.turnId)]
  {
    FillShape(b, m);
    FindSame(b.queue, Fill(b, m).queue, n.turnId);
  }

  lemma {:induction false} FillsCommute(b: Brain, m: ReadyMsg, n: ReadyMsg)
    requires OpenFor(b, m) && OpenFor(b, n) && m.turnId != n.turnId
    ensures Fill(Fill(b, m), n) == Fill(Fill(b, n), m)
  {
    FillShape(b, m);
    FillShape(b, n);
    FillKeepsOthersOpen(b, m, n);
    FillKeepsOthersOpen(b, n, m);
    FillShape(Fill(b, m), n);
    FillShape(Fill(b, n), m);
    hide Fill, OpenFor, Find;
    var i, j := Find(b.queue, m.turnId), Find(b.queue, n.turnId);
    assert Fill(Fill(b, m), n).queue == Fill(Fill(b, n), m).queue;
    assert Fill(Fill(b, m), n).aborted == Fill(Fill(b, n), m).aborted;
  }

  lemma {:induction false} BatchAfterFill(b: Brain, ms: seq<ReadyMsg>)
    requires ms != [] && Batch(b, ms)
    ensures Batch(Fill(b, ms[0]), ms[1..])
  {
    hide Fill, OpenFor;
    forall i | 0 <= i < |ms[1..]|
      ensures OpenFor(Fill(b, ms[0]), ms[1..][i])
    {
      FillKeepsOthersOpen(b, ms[0], ms[i + 1]);
    }
  }

  /** The `k`-th message of a batch may as well be filled in first. */
  lemma {:induction false} FillFirst(b: Brain, ms: seq<ReadyMsg>, k: nat)
    requires Batch(b, ms) && k < |ms|
    ensures FillAll(b, ms) == FillAll(Fill(b, ms[k]), ms[..k] + ms[k + 1..])
    decreases k
  {
    hide Fill, OpenFor;
    if k == 0 {
      assert ms[..0] + ms[1..] == ms[1..];
    } else {
      var m, n, rest := ms[0], ms[k], ms[1..];
      BatchAfterFill(b, ms);
      FillFirst(Fill(b, m), rest, k - 1);
      assert rest[k - 1] == n;
      FillsCommute(b, m, n);
      var without := ms[..k] + ms[k + 1..];
      assert without[0] == m;
      assert without[1..] == rest[..k - 1] + rest[k - 1 + 1..];
    }
  }

  lemma {:induction false} BatchWithout(b: Brain, ms: seq<ReadyMsg>, k: nat)
    requires Batch(b, ms) && k < |ms|
    ensures Batch(Fill(b, ms[k]), ms[..k] + ms[k + 1..])
  {
    hide Fill, OpenFor;
    var without := ms[..k] + ms[k + 1..];
    forall i | 0 <= i < |without|
      ensures OpenFor(Fill(b, ms[k]), without[i])
    {
      FillKeepsOthersOpen(b, ms[k], if i < k then ms[i] else ms[i + 1]);
    }
  }

  lemma {:induction false} TakenOut<T>(s: seq<T>, k: nat)
    requires k < |s|
    ensures multiset(s[..k] + s[k + 1..]) == multiset(s) - multiset{s[k]}
  {
    assert s == s[..k] + ([s[k]] + s[k + 1..]);
  }

  /** Filling a batch does not depend on its order. */
  lemma {:induction false} FillOrderIrrelevant(b: Brain, ms: seq<ReadyMsg>, ms': seq<ReadyMsg>)
    requires Batch(b, ms) && Batch(b, ms') && multiset(ms) == multiset(ms')
    ensures FillAll(b, ms) == FillAll(b, ms')
    decreases |ms|
  {
    hide Fill, Batch;
    if ms == [] {
      assert |multiset(ms')| == 0;
    } else {
      var k := HeadPosition(ms, ms');
      FillFirst(b, ms', k);
      BatchWithout(b, ms', k);
      BatchAfterFill(b, ms);
      FillOrderIrrelevant(Fill(b, ms[0]), ms[1..], ms'[..k] + ms'[k + 1..]);
    }
  }

  /** Where the head of a sequence stands in a permutation of it. */
  lemma {:induction false} HeadPosition<T>(s: seq<T>, t: seq<T>) returns (k: nat)
    requires s != [] && multiset(s) == multiset(t)
    ensures k < |t| && t[k] == s[0]
    ensures multiset(s[1..]) == multiset(t[..k] + t[k + 1..])
  {
    assert s[0] in multiset(t);
    k :| 0 <= k < |t| && t[k] == s[0];
    TakenOut(s, 0);
    assert s[..0] + s[1..] == s[1..];
    TakenOut(t, k);
  }

  // ── filling and committing ───────────────────────────────────────────────

  /** A commit appends to the queue whatever it would append to any other queue, and ignores the aborts. */
  lemma {:induction false} CommitFrame(b: Brain, q: seq<Entry>, aborted: set<Timer>, event: FsmEvent, now: Instant,
                                       replies: ZoneReplies, clock: Clock)
    ensures var c := CommitResolved(b, event, now, replies, clock);
            && b.queue <= c.queue
            && CommitResolved(b.(queue := q, aborted := aborted), event, now, replies, clock)
               == c.(queue := q + c.queue[|b.queue|..], aborted := aborted)
            && c.aborted == b.aborted
  {
    hide Quiesce, TurnSummary, TurnTrace, AdvanceBy, Starts, Stops;
    CommitShape(b, event, now, replies, clock);
    CommitShape(b.(queue := q, aborted := aborted), event, now, replies, clock);
    var done := Committed(b, Quiesce(b.state, b.ctx, event, now, replies));
    PushBothFrame(done, q, aborted, true, clock(done.nextTurnId));
    PushBothFrame(done, q, aborted, false, clock(done.nextTurnId));
    hide PushBoth;
    assert q + done.queue[|b.queue|..] == q;
  }

  lemma {:induction false} PushBothFrame(b: Brain, q: seq<Entry>, aborted: set<Timer>, starting: bool, now: Instant)
    ensures var c := PushBoth(b, starting, now);
            && b.queue <= c.queue && c.aborted == b.aborted
            && PushBoth(b.(queue := q, aborted := aborted), starting, now)
               == c.(queue := q + c.queue[|b.queue|..], aborted := aborted)
  {
    var c, d := PushBoth(b, starting, now), PushBoth(b.(queue := q, aborted := aborted), starting, now);
    assert d.queue == q + c.queue[|b.queue|..];
  }

  /** The key step: an open slot is never at the front of a complete front, so the two do not interfere. */
  lemma {:induction false} FillCommutesWithCommit(b: Brain, m: ReadyMsg, clock: Clock)
    requires FrontComplete(b) && OpenFor(b, m)
    ensures FrontComplete(Fill(b, m))
    ensures OpenFor(CommitFront(b, clock), m)
    ensures Fill(CommitFront(b, clock), m) == CommitFront(Fill(b, m), clock)
  {
    hide CommitResolved;
    FillShape(b, m);
    var i := Find(b.queue, m.turnId);
    assert i > 0;
    var e, p := b.queue[0], PopFront(b);
    var filled := Fill(b, m);
    CommitFrame(p, filled.queue[1..], filled.aborted, e.Event(), e.Now(), e.Replies(), clock);
    assert PopFront(filled) == p.(queue := filled.queue[1..], aborted := filled.aborted);
    var c := CommitFront(b, clock);
    assert c.queue == b.queue[1..] + c.queue[|p.queue|..];
    FindInTail(b.queue, c.queue[|p.queue|..], m.turnId);
    assert c.queue[i - 1] == b.queue[i];
    FillShape(c, m);
    assert Fill(c, m).queue == filled.queue[1..] + c.queue[|p.queue|..];
  }

  lemma {:induction false} FillAllCommutesWithCommit(b: Brain, ms: seq<ReadyMsg>, clock: Clock)
    requires FrontComplete(b) && Batch(b, ms)
    ensures FrontComplete(FillAll(b, ms)) && Batch(CommitFront(b, clock), ms)
    ensures FillAll(CommitFront(b, clock), ms) == CommitFront(FillAll(b, ms), clock)
    decreases |ms|
  {
    hide Fill, OpenFor, CommitFront;
    forall i | 0 <= i < |ms| ensures OpenFor(CommitFront(b, clock), ms[i]) {
      FillCommutesWithCommit(b, ms[i], clock);
    }
    if ms != [] {
      FillCommutesWithCommit(b, ms[0], clock);
      BatchAfterFill(b, ms);
      FillAllCommutesWithCommit(Fill(b, ms[0]), ms[1..], clock);
    }
  }

  /** Draining before the replies are in makes no difference to the drain after them. */
  lemma {:induction false} DrainThenFill(b: Brain, ms: seq<ReadyMsg>, clock: Clock)
    requires Batch(b, ms)
    ensures Batch(Drain(b, clock), ms)
    ensures Drain(FillAll(Drain(b, clock), ms), clock) == Drain(FillAll(b, ms), clock)
    decreases CompletePrefix(b.queue)
  {
    hide OpenFor, CommitFront, FillAll, Batch;
    if FrontComplete(b) {
      CommitFrontProgress(b, clock);
      FillAllCommutesWithCommit(b, ms, clock);
      DrainThenFill(CommitFront(b, clock), ms, clock);
    }
  }

  lemma {:induction false} DrainIdempotent(b: Brain, clock: Clock)
    ensures Drain(Drain(b, clock), clock) == Drain(b, clock)
    decreases CompletePrefix(b.queue)
  {
    hide CommitFront;
    if FrontComplete(b) {
      CommitFrontProgress(b, clock);
      DrainIdempotent(CommitFront(b, clock), clock);
    }
  }

  /** Draining after every reply is the same as filling everything in and draining once. */
  lemma {:induction false} DeliverAllIsOneDrain(b: Brain, ms: seq<ReadyMsg>, clock: Clock)
    requires Batch(b, ms) && ms != []
    ensures DeliverAll(b, ms, clock) == Drain(FillAll(b, ms), clock)
    decreases |ms|
  {
    hide OpenFor, Fill, Drain;
    var first, rest := Fill(b, ms[0]), ms[1..];
    BatchAfterFill(b, ms);
    if rest == [] {
      assert FillAll(b, ms) == first;
      assert DeliverAll(b, ms, clock) == DeliverAll(Drain(first, clock), [], clock);
    } else {
      DrainThenFill(first, rest, clock);
      DeliverAllIsOneDrain(Drain(first, clock), rest, clock);
    }
  }

  /** Reply-order confluence, for every brain state and every batch of current replies. */
  lemma {:induction false} ReplyOrderConfluence(b: Brain, ms: seq<ReadyMsg>, ms': seq<ReadyMsg>, clock: Clock)
    requires Batch(b, ms) && multiset(ms) == multiset(ms')
    ensures Batch(b, ms')
    ensures DeliverAll(b, ms, clock) == DeliverAll(b, ms', clock)
  {
    hide OpenFor, Fill, Drain;
    PermutedBatch(b, ms, ms');
    if ms == [] {
      assert |multiset(ms')| == 0;
    } else {
      assert |multiset(ms)| == |multiset(ms')|;
      DeliverAllIsOneDrain(b, ms, clock);
      DeliverAllIsOneDrain(b, ms', clock);
      FillOrderIrrelevant(b, ms, ms');
    }
  }

  lemma {:induction false} PermutedBatch(b: Brain, ms: seq<ReadyMsg>, ms': seq<ReadyMsg>)
    requires Batch(b, ms) && multiset(ms) == multiset(ms')
    ensures Batch(b, ms')
  {
    hide OpenFor;
    forall i | 0 <= i < |ms'| ensures OpenFor(b, ms'[i]) {
      assert ms'[i] in multiset(ms);
    }
    forall i, j | 0 <= i < j < |ms'| ensures ms'[i].turnId != ms'[j].turnId {
      SameTurnTwice(ms, ms', i, j);
    }
  }

  lemma {:induction false} SameTurnTwice(ms: seq<ReadyMsg>, ms': seq<ReadyMsg>, i: nat, j: nat)
    requires multiset(ms) == multiset(ms') && i < j < |ms'|
    requires forall k, l :: 0 <= k < l < |ms| ==> ms[k].turnId != ms[l].turnId
    ensures ms'[i].turnId != ms'[j].turnId
  {
    if ms'[i] == ms'[j] {
      assert ms' == ms'[..i] + [ms'[i]] + ms'[i + 1..j] + [ms'[j]] + ms'[j + 1..];
      assert multiset(ms)[ms'[i]] >= 2;
      OccursOnce(ms, ms'[i]);
    } else {
      assert ms'[i] in multiset(ms) && ms'[j] in multiset(ms);
    }
  }

  lemma {:induction false} OccursOnce(ms: seq<ReadyMsg>, m: ReadyMsg)
    requires forall k, l :: 0 <= k < l < |ms| ==> ms[k].turnId != ms[l].turnId
    ensures multiset(ms)[m] <= 1
  {
    if ms != [] {
      assert ms == [ms[0]] + ms[1..];
      OccursOnce(ms[1..], m);
      if ms[0] == m {
        assert m !in ms[1..];
      }
    }
  }
}
