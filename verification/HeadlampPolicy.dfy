/** Correlation of headlamp commands with their answers, over any interleaving of sends and bus frames. */
module HeadlampPolicy {
  import opened VehiclePhysics
  import opened HeadlampWire
  import Fsm
  import FrontHeadlamp

  datatype Pending = Pending(session: u16, sequence: u32, onCommand: bool)

  datatype IgnoreReason =
    | CommandFrame
    | UnknownKind
    | NoPendingCommand
    | CorrelationMismatch
    | DirectionMismatch
    | NonIngressKind
    | AckKindMappingMismatch

  datatype Decision = Accept(physical: Physical, session: u16, sequence: u32) | Ignore(reason: IgnoreReason)

  /** What a command leaves pending. */
  function PendingFor(cmd: ActuationCommand): Pending
    requires cmd.ForHeadlamp()
  {
    Pending(WireMeta(cmd).0, WireMeta(cmd).1, cmd.SwitchFrontHeadlampOn?)
  }

  function AfterSend(pending: Option<Pending>, cmd: ActuationCommand): Option<Pending> {
    if cmd.ForHeadlamp() then Some(PendingFor(cmd)) else pending
  }

  predicate IsAnswer(p: Payload) { PayloadToPhysical(p).Some? }

  predicate AnswersOn(p: Payload) { p.kind == KIND_ACK_ON || p.kind == KIND_NACK_ON }

  /** The answer fits the one pending command. */
  predicate Matches(pending: Option<Pending>, p: Payload) {
    IsAnswer(p) && pending == Some(Pending(p.sessionId, p.sequenceNo, AnswersOn(p)))
  }

  function DecisionFor(pending: Option<Pending>, p: Payload): Decision {
    if p.kind == KIND_CMD_ON || p.kind == KIND_CMD_OFF then Ignore(CommandFrame)
    else if !IsAnswer(p) then Ignore(UnknownKind)
    else if pending.None? then Ignore(NoPendingCommand)
    else if pending.value.session != p.sessionId || pending.value.sequence != p.sequenceNo then Ignore(CorrelationMismatch)
    else if pending.value.onCommand != AnswersOn(p) then Ignore(DirectionMismatch)
    else Accept(PayloadToPhysical(p).value, p.sessionId, p.sequenceNo)
  }

  function AfterResponse(pending: Option<Pending>, p: Payload): Option<Pending> {
    if Matches(pending, p) then None else pending
  }

  lemma {:induction false} AcceptedExactlyOnMatch(pending: Option<Pending>, p: Payload)
    ensures DecisionFor(pending, p).Accept? <==> Matches(pending, p)
  {
  }

  /** Each refusal has exactly one reason: not an answer, nothing to answer, other ids, other direction, in that order. */
  lemma {:induction false} RefusalReasons(pending: Option<Pending>, p: Payload)
    ensures var d := DecisionFor(pending, p);
            var answer := p.kind == 0x81 || p.kind == 0x82 || p.kind == 0xC1 || p.kind == 0xC2;
            var sameIds := pending.Some? && pending.value.session == p.sessionId && pending.value.sequence == p.sequenceNo;
            var sameDirection := pending.Some? && pending.value.onCommand == (p.kind == 0x81 || p.kind == 0xC1);
            && (d == Ignore(CommandFrame) <==> p.kind == 0x01 || p.kind == 0x02)
            && (d == Ignore(UnknownKind) <==> p.kind != 0x01 && p.kind != 0x02 && !answer)
            && (d == Ignore(NoPendingCommand) <==> answer && pending.None?)
            && (d == Ignore(CorrelationMismatch) <==> answer && pending.Some? && !sameIds)
            && (d == Ignore(DirectionMismatch) <==> answer && sameIds && !sameDirection)
            && (d.Accept? <==> answer && sameIds && sameDirection)
            && (d.Accept? ==> d.session == p.sessionId && d.sequence == p.sequenceNo)
  {
  }

  class FrontHeadlampPolicy {
    var pending: Option<Pending>

    constructor ()
      ensures pending == None
    {
      pending := None;
    }

    method OnCommandSent(cmd: ActuationCommand)
      modifies this
      ensures pending == AfterSend(old(pending), cmd)
    {
      match cmd {
        case SwitchFrontHeadlampOn(cid) => pending := Some(Pending(Low16(cid.sessionId), Low32(cid.sequenceNo), true));
        case SwitchFrontHeadlampOff(cid) => pending := Some(Pending(Low16(cid.sessionId), Low32(cid.sequenceNo), false));
        case _ =>
      }
    }

    /** The last two refusals of the program never happen. */
    method OnResponse(p: Payload) returns (decision: Decision)
      modifies this
      ensures decision == DecisionFor(old(pending), p)
      ensures pending == AfterResponse(old(pending), p)
      ensures decision != Ignore(NonIngressKind) && decision != Ignore(AckKindMappingMismatch)
    {
      var responseOn, isAck := false, false;
      if p.kind == KIND_ACK_ON {
        responseOn, isAck := true, true;
      } else if p.kind == KIND_ACK_OFF {
        responseOn, isAck := false, true;
      } else if p.kind == KIND_NACK_ON {
        responseOn, isAck := true, false;
      } else if p.kind == KIND_NACK_OFF {
        responseOn, isAck := false, false;
      } else if p.kind == KIND_CMD_ON || p.kind == KIND_CMD_OFF {
        return Ignore(CommandFrame);
      } else {
        return Ignore(UnknownKind);
      }
      if pending.None? {
        return Ignore(NoPendingCommand);
      }
      if pending.value.session != p.sessionId || pending.value.sequence != p.sequenceNo {
        return Ignore(CorrelationMismatch);
      }
      if pending.value.onCommand != responseOn {
        return Ignore(DirectionMismatch);
      }
      var physical := PayloadToPhysical(p);
      if physical.None? {
        return Ignore(NonIngressKind);
      }
      if isAck != physical.value.CommandConfirmed? {
        return Ignore(AckKindMappingMismatch);
      }
      pending := None;
      decision := Accept(physical.value, p.sessionId, p.sequenceNo);
    }
  }

  // ── the whole loop ───────────────────────────────────────────────────────

  /** The event a command's answer must turn into. */
  function AnswerEvent(on: bool, acked: bool): Fsm.FsmEvent {
    if acked then (if on then Fsm.FrontHeadlampOnAck else Fsm.FrontHeadlampOffAck)
    else Fsm.FrontHeadlampActuationIncomplete(if on then FrontHeadlamp.SwitchOn else FrontHeadlamp.SwitchOff,
                                              FrontHeadlamp.NegativeAck)
  }

  /** The actuator's answer to the frame of a command, as it stands on the bus. */
  function AnswerTo(cmd: ActuationCommand, acked: bool): Option<Payload>
    requires cmd.ForHeadlamp()
  {
    var received := PayloadFromFrame(EncodeCommandFrame(cmd).value);
    if received.None? then None
    else
      var rebuilt := CommandFromPayload(received.value);
      if rebuilt.None? then None
      else
        var frame := if acked then EncodeAckFrame(rebuilt.value) else EncodeNackFrame(rebuilt.value);
        if frame.None? then None else PayloadFromFrame(frame.value)
  }

  lemma {:induction false} AnswerShape(cmd: ActuationCommand, acked: bool)
    requires cmd.ForHeadlamp()
    ensures var on := cmd.SwitchFrontHeadlampOn?;
            AnswerTo(cmd, acked)
            == Some(Payload(if acked then (if on then KIND_ACK_ON else KIND_ACK_OFF)
                            else if on then KIND_NACK_ON else KIND_NACK_OFF,
                            WireMeta(cmd).0, WireMeta(cmd).1))
  {
    hide PayloadBytes, DecodePayload;
    CommandSurvivesWire(cmd);
    var on := cmd.SwitchFrontHeadlampOn?;
    var rebuilt := CommandFromPayload(PayloadFromFrame(EncodeCommandFrame(cmd).value).value).value;
    FrameRoundTrip(if acked then (if on then KIND_ACK_ON else KIND_ACK_OFF)
                   else if on then KIND_NACK_ON else KIND_NACK_OFF, rebuilt);
  }

  /**
   * Command to bytes to actuator to bytes to policy to projection: for every session and sequence
   * number, whatever was pending before, the answer is accepted and becomes the event for that command.
   */
  lemma {:induction false} BusLoopRoundTrip(cmd: ActuationCommand, acked: bool, before: Option<Pending>)
    requires cmd.ForHeadlamp()
    ensures AnswerTo(cmd, acked).Some?
    ensures var pending, answer := AfterSend(before, cmd), AnswerTo(cmd, acked).value;
            var decision := DecisionFor(pending, answer);
            && decision.Accept?
            && Project(decision.physical) == Some(AnswerEvent(cmd.SwitchFrontHeadlampOn?, acked))
            && AfterResponse(pending, answer) == None
  {
    hide AnswerTo;
    AnswerShape(cmd, acked);
  }

  /** A command's own frame, read back from the bus, changes nothing in any state. */
  lemma {:induction false} EchoIsIgnored(cmd: ActuationCommand, pending: Option<Pending>)
    requires cmd.ForHeadlamp()
    ensures var echo := PayloadFromFrame(EncodeCommandFrame(cmd).value);
            && echo.Some?
            && DecisionFor(pending, echo.value) == Ignore(CommandFrame)
            && AfterResponse(pending, echo.value) == pending
  {
    hide PayloadBytes, DecodePayload;
    FrameRoundTrip(if cmd.SwitchFrontHeadlampOn? then KIND_CMD_ON else KIND_CMD_OFF, cmd);
  }

  // ── one answer per command ───────────────────────────────────────────────

  datatype BusStep = Sent(cmd: ActuationCommand) | Received(payload: Payload)

  /** What is pending before step `i` of an interleaving that starts with nothing pending. */
  function PendingBefore(run: seq<BusStep>, i: nat): Option<Pending>
    requires i <= |run|
  {
    if i == 0 then None
    else match run[i - 1]
         case Sent(cmd) => AfterSend(PendingBefore(run, i - 1), cmd)
         case Received(p) => AfterResponse(PendingBefore(run, i - 1), p)
  }

  predicate SendsAt(run: seq<BusStep>, i: nat)
    requires i < |run|
  {
    run[i].Sent? && run[i].cmd.ForHeadlamp()
  }

  predicate AcceptsAt(run: seq<BusStep>, i: nat)
    requires i < |run|
  {
    run[i].Received? && DecisionFor(PendingBefore(run, i), run[i].payload).Accept?
  }

  /** Step `i` sent the latest headlamp command before `j`, and nothing has been accepted since. */
  ghost predicate LatestUnanswered(run: seq<BusStep>, i: nat, j: nat) {
    && i < j <= |run| && SendsAt(run, i)
    && forall k :: i < k < j ==> !SendsAt(run, k) && !AcceptsAt(run, k)
  }

  /** What is pending is exactly the latest unanswered command. */
  lemma {:induction false} PendingIsLatest(run: seq<BusStep>, j: nat)
    requires j <= |run|
    ensures PendingBefore(run, j).Some? ==>
      exists i: nat :: LatestUnanswered(run, i, j) && PendingBefore(run, j) == Some(PendingFor(run[i].cmd))
    ensures forall i: nat :: LatestUnanswered(run, i, j) ==> PendingBefore(run, j) == Some(PendingFor(run[i].cmd))
  {
    hide PendingFor, DecisionFor, Matches;
    if j > 0 {
      PendingIsLatest(run, j - 1);
      var before := PendingBefore(run, j - 1);
      if run[j - 1].Received? {
        AcceptedExactlyOnMatch(before, run[j - 1].payload);
      }
      if SendsAt(run, j - 1) {
        assert LatestUnanswered(run, j - 1, j);
      } else if before.Some? && !AcceptsAt(run, j - 1) {
        var i: nat :| LatestUnanswered(run, i, j - 1) && before == Some(PendingFor(run[i].cmd));
        assert LatestUnanswered(run, i, j);
      }
      forall i: nat | LatestUnanswered(run, i, j)
        ensures PendingBefore(run, j) == Some(PendingFor(run[i].cmd))
      {
        if i < j - 1 {
          assert LatestUnanswered(run, i, j - 1);
        }
      }
    }
  }

  /** The answer carries the command's wire ids and direction. */
  predicate AnswersCommand(p: Payload, cmd: ActuationCommand)
    requires cmd.ForHeadlamp()
  {
    IsAnswer(p) && WireMeta(cmd) == (p.sessionId, p.sequenceNo) && cmd.SwitchFrontHeadlampOn? == AnswersOn(p)
  }

  /**
   * Over any interleaving a frame is accepted if and only if it answers the latest command, in its
   * direction, and that command has not been answered yet.
   */
  lemma {:induction false} SingleAnswerPerCommand(run: seq<BusStep>, j: nat)
    requires j < |run| && run[j].Received?
    ensures AcceptsAt(run, j) <==> exists i: nat :: LatestUnanswered(run, i, j) && AnswersCommand(run[j].payload, run[i].cmd)
  {
    hide PendingBefore, DecisionFor, IsAnswer, AnswersOn;
    PendingIsLatest(run, j);
    AcceptedExactlyOnMatch(PendingBefore(run, j), run[j].payload);
    if AcceptsAt(run, j) {
      var i: nat :| LatestUnanswered(run, i, j) && PendingBefore(run, j) == Some(PendingFor(run[i].cmd));
      assert AnswersCommand(run[j].payload, run[i].cmd);
    }
  }

  function Sends(run: seq<BusStep>, n: nat): nat
    requires n <= |run|
  {
    if n == 0 then 0 else Sends(run, n - 1) + (if SendsAt(run, n - 1) then 1 else 0)
  }

  function Accepts(run: seq<BusStep>, n: nat): nat
    requires n <= |run|
  {
    if n == 0 then 0 else Accepts(run, n - 1) + (if AcceptsAt(run, n - 1) then 1 else 0)
  }

  /** Accepted answers never outnumber commands, and a pending command is one not answered. */
  lemma {:induction false} AcceptsNeverExceedSends(run: seq<BusStep>, n: nat)
    requires n <= |run|
    ensures Accepts(run, n) + (if PendingBefore(run, n).Some? then 1 else 0) <= Sends(run, n)
  {
    hide DecisionFor, Matches, PendingFor;
    if n > 0 {
      AcceptsNeverExceedSends(run, n - 1);
      if run[n - 1].Received? {
        AcceptedExactlyOnMatch(PendingBefore(run, n - 1), run[n - 1].payload);
        assert Matches(PendingBefore(run, n - 1), run[n - 1].payload) ==> PendingBefore(run, n - 1).Some? by {
          NothingMatchesNothing(run[n - 1].payload);
        }
      }
    }
  }

  lemma {:induction false} NothingMatchesNothing(p: Payload)
    ensures !Matches(None, p)
  {
  }
}
