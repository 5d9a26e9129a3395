/** Outgoing actuation: command numbering, and what truncating the numbers to wire width can confuse. */
module Actuation {
  import opened VehiclePhysics
  import opened HeadlampWire
  import opened HeadlampPolicy
  import Fsm

  type DomainAction = Fsm.DomainAction

  const TWO_32: nat := 0x1_0000_0000
  const TWO_64: nat := 0x1_0000_0000_0000_0000

  /** `fetch_add(1)` on a `u64`: wraps. */
  function WrappingSucc(n: u64): u64 { (n + 1) % TWO_64 }

  /** The manager's value: `sent` is what has gone out on the command channel. */
  datatype Manager = Manager(sourceKnown: bool, hasChannel: bool, sessionId: u64, nextSequenceNo: u64, sent: seq<ActuationCommand>)

  predicate IsHeadlampRequest(action: DomainAction) { action.RequestFrontHeadlampOn? || action.RequestFrontHeadlampOff? }

  function RequestedCommand(action: DomainAction, cid: CorrelationId): ActuationCommand {
    if action.RequestFrontHeadlampOn? then SwitchFrontHeadlampOn(cid) else SwitchFrontHeadlampOff(cid)
  }

  /** A headlamp request uses up a number even when there is no channel to send it on. */
  function Executed(m: Manager, action: DomainAction): Manager {
    match action
    case RequestFrontHeadlampOn => HeadlampExecuted(m, action)
    case RequestFrontHeadlampOff => HeadlampExecuted(m, action)
    case RequestWiperStart => if m.hasChannel then m.(sent := m.sent + [StartWiper]) else m
    case RequestWiperStop => if m.hasChannel then m.(sent := m.sent + [StopWiper]) else m
    case _ => m
  }

  function HeadlampExecuted(m: Manager, action: DomainAction): Manager {
    if !m.sourceKnown then m
    else
      var numbered := m.(nextSequenceNo := WrappingSucc(m.nextSequenceNo));
      if m.hasChannel
      then numbered.(sent := m.sent + [RequestedCommand(action, CorrelationId(m.sessionId, m.nextSequenceNo))])
      else numbered
  }

  function ExecutedAll(m: Manager, actions: seq<DomainAction>): Manager
    decreases |actions|
  {
    if actions == [] then m else ExecutedAll(Executed(m, actions[0]), actions[1..])
  }

  class ActuationManager {
    const sourceKnown: bool
    const hasChannel: bool
    const sessionId: u64
    var nextSequenceNo: u64
    var sent: seq<ActuationCommand>

    function Value(): Manager
      reads this
    {
      Manager(sourceKnown, hasChannel, sessionId, nextSequenceNo, sent)
    }

    constructor WithCommandChannel(sessionId: u64)
      ensures Value() == Manager(true, true, sessionId, 1, [])
    {
      sourceKnown, hasChannel := true, true;
      this.sessionId := sessionId;
      nextSequenceNo, sent := 1, [];
    }

    constructor Default()
      ensures Value() == Manager(false, false, 0, 1, [])
    {
      sourceKnown, hasChannel, sessionId := false, false, 0;
      nextSequenceNo, sent := 1, [];
    }

    method NextCorrelationId() returns (cid: Option<CorrelationId>)
      modifies this`nextSequenceNo
      ensures cid == if sourceKnown then Some(CorrelationId(sessionId, old(nextSequenceNo))) else None
      ensures nextSequenceNo == if sourceKnown then WrappingSucc(old(nextSequenceNo)) else old(nextSequenceNo)
    {
      if !sourceKnown {
        return None;
      }
      cid := Some(CorrelationId(sessionId, nextSequenceNo));
      nextSequenceNo := WrappingSucc(nextSequenceNo);
    }

    method Execute(action: DomainAction)
      modifies this
      ensures Value() == Executed(old(Value()), action)
    {
      match action {
        case RequestFrontHeadlampOn =>
          var cid := NextCorrelationId();
          if hasChannel && cid.Some? {
            sent := sent + [SwitchFrontHeadlampOn(cid.value)];
          }
        case RequestFrontHeadlampOff =>
          var cid := NextCorrelationId();
          if hasChannel && cid.Some? {
            sent := sent + [SwitchFrontHeadlampOff(cid.value)];
          }
        case RequestWiperStart =>
          if hasChannel {
            sent := sent + [StartWiper];
          }
        case RequestWiperStop =>
          if hasChannel {
            sent := sent + [StopWiper];
          }
        case _ =>
      }
    }
  }

  // ── numbering ────────────────────────────────────────────────────────────

  /** The number of the `k`-th headlamp command of a session, counting from 0. */
  function SequenceNo(k: nat): u64 { (1 + k) % TWO_64 }

  function HeadlampRequests(actions: seq<DomainAction>): nat {
    if actions == [] then 0 else (if IsHeadlampRequest(actions[0]) then 1 else 0) + HeadlampRequests(actions[1..])
  }

  /** What a connected manager sends for `actions` when `k` headlamp commands have gone out before. */
  function CommandsFor(actions: seq<DomainAction>, sessionId: u64, k: nat): seq<ActuationCommand> {
    if actions == [] then []
    else
      var rest := actions[1..];
      if IsHeadlampRequest(actions[0])
      then [RequestedCommand(actions[0], CorrelationId(sessionId, SequenceNo(k)))] + CommandsFor(rest, sessionId, k + 1)
      else if actions[0].RequestWiperStart? then [StartWiper] + CommandsFor(rest, sessionId, k)
      else if actions[0].RequestWiperStop? then [StopWiper] + CommandsFor(rest, sessionId, k)
      else CommandsFor(rest, sessionId, k)
  }

  /** Headlamp commands leave in the order of the requests, numbered consecutively across the wrap-around. */
  lemma {:induction false} CommandsAreConsecutive(m: Manager, actions: seq<DomainAction>, k: nat)
    requires m.sourceKnown && m.hasChannel && m.nextSequenceNo == SequenceNo(k)
    ensures ExecutedAll(m, actions)
            == m.(sent := m.sent + CommandsFor(actions, m.sessionId, k), nextSequenceNo := SequenceNo(k + HeadlampRequests(actions)))
    decreases |actions|
  {
    if actions == [] {
      assert m.sent + [] == m.sent;
    } else {
      var next := Executed(m, actions[0]);
      var k' := if IsHeadlampRequest(actions[0]) then k + 1 else k;
      assert next.nextSequenceNo == SequenceNo(k');
      CommandsAreConsecutive(next, actions[1..], k');
      assert m.sent + CommandsFor(actions, m.sessionId, k) == next.sent + CommandsFor(actions[1..], m.sessionId, k');
    }
  }

  predicate IsRequest(action: DomainAction) {
    IsHeadlampRequest(action) || action.RequestWiperStart? || action.RequestWiperStop?
  }

  function Requests(actions: seq<DomainAction>): nat {
    if actions == [] then 0 else (if IsRequest(actions[0]) then 1 else 0) + Requests(actions[1..])
  }

  /** The command that carries out a request, as the `k`-th headlamp command of its session if it is one. */
  predicate CarriesOut(cmd: ActuationCommand, action: DomainAction, sessionId: u64, k: nat) {
    match action
    case RequestFrontHeadlampOn => cmd == SwitchFrontHeadlampOn(CorrelationId(sessionId, SequenceNo(k)))
    case RequestFrontHeadlampOff => cmd == SwitchFrontHeadlampOff(CorrelationId(sessionId, SequenceNo(k)))
    case RequestWiperStart => cmd == StartWiper
    case RequestWiperStop => cmd == StopWiper
    case _ => false
  }

  lemma {:induction false} OneMoreCounted(actions: seq<DomainAction>, i: nat)
    requires 0 < i <= |actions|
    ensures Requests(actions[..i]) == (if IsRequest(actions[0]) then 1 else 0) + Requests(actions[1..][..i - 1])
    ensures HeadlampRequests(actions[..i]) == (if IsHeadlampRequest(actions[0]) then 1 else 0) + HeadlampRequests(actions[1..][..i - 1])
  {
    assert actions[..i][1..] == actions[1..][..i - 1];
  }

  /** Each request is carried out by one command, at its place, in its direction and under its number; nothing else is sent. */
  lemma {:induction false} EveryRequestIsSent(m: Manager, actions: seq<DomainAction>, k: nat)
    requires m.sourceKnown && m.hasChannel && m.nextSequenceNo == SequenceNo(k)
    ensures var sent := ExecutedAll(m, actions).sent;
            && m.sent <= sent && |sent| == |m.sent| + Requests(actions)
            && forall i {:trigger actions[i]} :: 0 <= i < |actions| && IsRequest(actions[i]) ==>
                 && Requests(actions[..i]) < Requests(actions)
                 && CarriesOut(sent[|m.sent| + Requests(actions[..i])], actions[i], m.sessionId, k + HeadlampRequests(actions[..i]))
    decreases |actions|
  {
    hide SequenceNo;
    if actions != [] {
      var next := Executed(m, actions[0]);
      var k' := if IsHeadlampRequest(actions[0]) then k + 1 else k;
      OneNumberUsed(m, actions[0], k);
      EveryRequestIsSent(next, actions[1..], k');
      var sent := ExecutedAll(m, actions).sent;
      forall i | 0 <= i < |actions| && IsRequest(actions[i])
        ensures Requests(actions[..i]) < Requests(actions)
        ensures CarriesOut(sent[|m.sent| + Requests(actions[..i])], actions[i], m.sessionId, k + HeadlampRequests(actions[..i]))
      {
        if i > 0 {
          OneMoreCounted(actions, i);
          assert actions[1..][i - 1] == actions[i];
        } else {
          assert actions[..0] == [];
        }
      }
    }
  }

  lemma {:induction false} OneNumberUsed(m: Manager, action: DomainAction, k: nat)
    requires m.sourceKnown && m.hasChannel && m.nextSequenceNo == SequenceNo(k)
    ensures var next := Executed(m, action);
            && next == m.(sent := next.sent, nextSequenceNo := SequenceNo(if IsHeadlampRequest(action) then k + 1 else k))
            && m.sent <= next.sent && |next.sent| == |m.sent| + (if IsRequest(action) then 1 else 0)
            && (IsRequest(action) ==> CarriesOut(next.sent[|m.sent|], action, m.sessionId, k))
  {
  }

  /** Without a channel nothing is sent, yet a known source spends its numbers; without a source no headlamp command is. */
  lemma {:induction false} UnconnectedSends(m: Manager, actions: seq<DomainAction>, k: nat)
    requires (!m.sourceKnown || !m.hasChannel) && m.nextSequenceNo == SequenceNo(k)
    ensures var after := ExecutedAll(m, actions);
            && after == m.(sent := after.sent, nextSequenceNo := SequenceNo(if m.sourceKnown then k + HeadlampRequests(actions) else k))
            && (!m.hasChannel ==> after.sent == m.sent)
            && m.sent <= after.sent && forall i :: |m.sent| <= i < |after.sent| ==> !after.sent[i].ForHeadlamp()
    decreases |actions|
  {
    if actions != [] {
      var next := Executed(m, actions[0]);
      var k' := if IsHeadlampRequest(actions[0]) && m.sourceKnown then k + 1 else k;
      assert next.nextSequenceNo == SequenceNo(k');
      UnconnectedSends(next, actions[1..], k');
    }
  }

  /** Truncated to wire width, two numbers of a session coincide exactly when a multiple of 2^32 lies between them. */
  lemma {:induction false} TruncationConfuses(i: nat, j: nat)
    requires i <= j
    ensures Low32(SequenceNo(i)) == Low32(SequenceNo(j)) <==> (j - i) % TWO_32 == 0
  {
    Low32OfWrapped(i);
    Low32OfWrapped(j);
    var a, b := (1 + i) % TWO_32, (1 + j) % TWO_32;
    var q, r := (1 + i) / TWO_32, (1 + j) / TWO_32;
    assert j - i == (r - q) * TWO_32 + (b - a);
    if a == b {
      MultipleHasNoRest(r - q);
    }
  }

  lemma {:induction false} MultipleHasNoRest(q: int)
    ensures (q * TWO_32) % TWO_32 == 0
  {
  }

  lemma {:induction false} Low32OfWrapped(k: nat)
    ensures Low32(SequenceNo(k)) == (1 + k) % TWO_32
  {
    var q := (1 + k) / TWO_64;
    assert 1 + k == q * TWO_32 * TWO_32 + SequenceNo(k);
  }

  /** Within any 2^32 consecutive commands the wire ids identify the command. */
  lemma {:induction false} WireIdsUnique(sessionId: u64, i: nat, j: nat)
    requires i < j < i + TWO_32
    ensures Low32(SequenceNo(i)) != Low32(SequenceNo(j))
  {
    TruncationConfuses(i, j);
  }

  // ── stale answers ────────────────────────────────────────────────────────

  /** The headlamp commands of an interleaving are the manager's, in order. */
  ghost predicate Numbered(run: seq<BusStep>, sessionId: u64) {
    forall i: nat :: i < |run| && SendsAt(run, i) ==>
      run[i].cmd.correlationId == CorrelationId(sessionId, SequenceNo(Sends(run, i)))
  }

  lemma {:induction false} SendsGrow(run: seq<BusStep>, i: nat, j: nat)
    requires i <= j <= |run|
    ensures Sends(run, i) <= Sends(run, j)
    ensures i < j && SendsAt(run, i) ==> Sends(run, i) < Sends(run, j)
    decreases j - i
  {
    if i < j {
      SendsGrow(run, i, j - 1);
    }
  }

  /** The actuator's answer to a command answers that command. */
  lemma {:induction false} AnswerAnswersItsCommand(cmd: ActuationCommand, acked: bool)
    requires cmd.ForHeadlamp()
    ensures AnswerTo(cmd, acked).Some? && AnswersCommand(AnswerTo(cmd, acked).value, cmd)
  {
    hide AnswerTo;
    AnswerShape(cmd, acked);
  }

  /** Two commands of a session have the same answers exactly when direction and truncated number agree. */
  lemma {:induction false} SameAnswers(p: Payload, cmd: ActuationCommand, later: ActuationCommand, sessionId: u64, i: nat, j: nat)
    requires cmd.ForHeadlamp() && later.ForHeadlamp() && i <= j
    requires cmd.correlationId == CorrelationId(sessionId, SequenceNo(i)) && later.correlationId == CorrelationId(sessionId, SequenceNo(j))
    requires AnswersCommand(p, cmd)
    ensures AnswersCommand(p, later)
            <==> later.SwitchFrontHeadlampOn? == cmd.SwitchFrontHeadlampOn? && (j - i) % TWO_32 == 0
  {
    hide IsAnswer, AnswersOn, SequenceNo, Low32, Low16;
    TruncationConfuses(i, j);
  }

  /**
   * Over any run of a session's commands, an answer to the command of step `i` is accepted at `t` if
   * and only if the latest command before `t`, be it that one or a later one, is still unanswered, has
   * the same direction and lies a multiple of 2^32 commands after it.
   */
  lemma {:induction false} OldAnswerAccepted(run: seq<BusStep>, sessionId: u64, i: nat, t: nat)
    requires Numbered(run, sessionId) && i < t < |run|
    requires SendsAt(run, i) && run[t].Received? && AnswersCommand(run[t].payload, run[i].cmd)
    ensures AcceptsAt(run, t) <==> exists j: nat ::
      && i <= j && LatestUnanswered(run, j, t)
      && run[j].cmd.SwitchFrontHeadlampOn? == run[i].cmd.SwitchFrontHeadlampOn?
      && (Sends(run, j) - Sends(run, i)) % TWO_32 == 0
  {
    hide AcceptsAt, AnswersCommand, SequenceNo;
    SingleAnswerPerCommand(run, t);
    forall j: nat | LatestUnanswered(run, j, t)
      ensures i <= j
      ensures AnswersCommand(run[t].payload, run[j].cmd)
              <==> run[j].cmd.SwitchFrontHeadlampOn? == run[i].cmd.SwitchFrontHeadlampOn?
                   && (Sends(run, j) - Sends(run, i)) % TWO_32 == 0
    {
      assert i <= j;
      SendsGrow(run, i, j);
      SameAnswers(run[t].payload, run[i].cmd, run[j].cmd, sessionId, Sends(run, i), Sends(run, j));
    }
  }

  /** Short of 2^32 commands, an answer to a command that is no longer the latest is refused. */
  lemma {:induction false} StaleAnswerRefused(run: seq<BusStep>, sessionId: u64, i: nat, later: nat, t: nat)
    requires Numbered(run, sessionId) && i < later < t < |run|
    requires SendsAt(run, i) && SendsAt(run, later) && run[t].Received?
    requires AnswersCommand(run[t].payload, run[i].cmd)
    requires Sends(run, t) <= Sends(run, i) + TWO_32
    ensures !AcceptsAt(run, t)
  {
    hide AcceptsAt, AnswersCommand, SequenceNo;
    OldAnswerAccepted(run, sessionId, i, t);
    if AcceptsAt(run, t) {
      var latest: nat :| i <= latest && LatestUnanswered(run, latest, t) && (Sends(run, latest) - Sends(run, i)) % TWO_32 == 0;
      assert latest >= later;
      SendsGrow(run, i, latest);
      SendsGrow(run, latest, t);
    }
  }
}
