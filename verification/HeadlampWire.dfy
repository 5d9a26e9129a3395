/** The front-headlamp bus: commands, byte codec, CAN frames, and the projection of answers to events. */
module HeadlampWire {
  import opened VehiclePhysics
  import Fsm
  import FrontHeadlamp

  const KIND_CMD_ON: u8 := 0x01
  const KIND_CMD_OFF: u8 := 0x02
  const KIND_ACK_ON: u8 := 0x81
  const KIND_ACK_OFF: u8 := 0x82
  const KIND_NACK_ON: u8 := 0xC1
  const KIND_NACK_OFF: u8 := 0xC2

  const ID_FRONT_HEADLAMP: u16 := 0x204

  datatype CorrelationId = CorrelationId(sessionId: u64, sequenceNo: u64)

  datatype ActuationCommand =
    | SwitchFrontHeadlampOn(correlationId: CorrelationId)
    | SwitchFrontHeadlampOff(correlationId: CorrelationId)
    | StartWiper
    | StopWiper
  {
    predicate ForHeadlamp() { SwitchFrontHeadlampOn? || SwitchFrontHeadlampOff? }
  }

  datatype Payload = Payload(kind: u8, sessionId: u16, sequenceNo: u32)

  /** A data frame; extended identifiers are a separate space. */
  datatype Frame = Frame(extended: bool, id: int, data: seq<u8>)

  datatype VssSignal = VehicleSpeed | EngineRpm(rpm: u16) | AmbientLux(lux: u16) | RainDetected(present: bool)

  datatype Physical =
    | TelemetryUpdate(signal: VssSignal)
    | TimerTick
    | SystemReset
    | CommandConfirmed(onCommand: bool)
    | CommandRejected(onCommand: bool)

  // ── bytes ────────────────────────────────────────────────────────────────

  /** `as u16` and `as u32` of a `u64`: the low bits. */
  function Low16(n: u64): u16 { n % 0x1_0000 }
  function Low32(n: u64): u32 { n % 0x1_0000_0000 }

  /** Big-endian bytes. */
  function Bytes16(n: u16): seq<u8> { [n / 0x100, n % 0x100] }
  function Bytes32(n: u32): seq<u8> { Bytes16(n / 0x1_0000) + Bytes16(n % 0x1_0000) }

  function FromBytes16(b: seq<u8>): u16
    requires |b| == 2
  {
    var high: int, low: int := b[0], b[1];
    high * 0x100 + low
  }

  function FromBytes32(b: seq<u8>): u32
    requires |b| == 4
  {
    var high: int, low: int := FromBytes16(b[..2]), FromBytes16(b[2..]);
    high * 0x1_0000 + low
  }

  /** What stands on the wire for a payload; the eighth byte is unused. */
  function PayloadBytes(p: Payload): seq<u8> {
    [p.kind] + Bytes16(p.sessionId) + Bytes32(p.sequenceNo) + [0]
  }

  /** The wire layout: kind, session in two bytes, sequence in four, most significant first. */
  ghost predicate LaidOut(p: Payload, data: seq<u8>) {
    && |data| >= 8
    && data[0] as int == p.kind
    && 256 * data[1] as int + data[2] == p.sessionId
    && 256 * (256 * (256 * data[3] as int + data[4]) + data[5]) + data[6] == p.sequenceNo
  }

  /** The encoder fills a zeroed eight-byte buffer field by field. */
  method EncodePayload(p: Payload) returns (data: array<u8>)
    ensures fresh(data) && data[..] == PayloadBytes(p)
    ensures data.Length == 8 && data[7] == 0 && LaidOut(p, data[..])
  {
    data := new u8[8](_ => 0);
    data[0] := p.kind;
    data[1], data[2] := p.sessionId / 0x100, p.sessionId % 0x100;
    var high, low := p.sequenceNo / 0x1_0000, p.sequenceNo % 0x1_0000;
    data[3], data[4] := high / 0x100, high % 0x100;
    data[5], data[6] := low / 0x100, low % 0x100;
    assert data[..] == [data[0], data[1], data[2], data[3], data[4], data[5], data[6], data[7]];
    BytesAreLaidOut(p);
  }

  lemma {:induction false} BytesAreLaidOut(p: Payload)
    ensures |PayloadBytes(p)| == 8 && PayloadBytes(p)[7] == 0 && LaidOut(p, PayloadBytes(p))
  {
    var data := PayloadBytes(p);
    assert data == [p.kind, p.sessionId / 0x100, p.sessionId % 0x100,
                    p.sequenceNo / 0x1_0000 / 0x100, p.sequenceNo / 0x1_0000 % 0x100,
                    p.sequenceNo % 0x1_0000 / 0x100, p.sequenceNo % 0x1_0000 % 0x100, 0];
  }

  /** What is decoded from eight bytes or more is laid out in them. */
  lemma {:induction false} DecodedIsLaidOut(data: seq<u8>)
    requires |data| >= 8
    ensures DecodePayload(data).Some? && LaidOut(DecodePayload(data).value, data)
  {
    assert data[3..7][..2] == data[3..5] && data[3..7][2..] == data[5..7];
  }

  function DecodePayload(data: seq<u8>): Option<Payload> {
    if |data| < 8 then None
    else Some(Payload(data[0], FromBytes16(data[1..3]), FromBytes32(data[3..7])))
  }

  lemma {:induction false} Bytes16RoundTrip(n: u16)
    ensures |Bytes16(n)| == 2 && FromBytes16(Bytes16(n)) == n
  {
  }

  lemma {:induction false} Bytes32RoundTrip(n: u32)
    ensures |Bytes32(n)| == 4 && FromBytes32(Bytes32(n)) == n
  {
    assert Bytes32(n)[..2] == Bytes16(n / 0x1_0000) && Bytes32(n)[2..] == Bytes16(n % 0x1_0000);
  }

  /** Every payload survives the wire. */
  lemma {:induction false} CodecRoundTrip(p: Payload)
    ensures |PayloadBytes(p)| == 8 && DecodePayload(PayloadBytes(p)) == Some(p)
  {
    var data := PayloadBytes(p);
    Bytes16RoundTrip(p.sessionId);
    Bytes32RoundTrip(p.sequenceNo);
    assert data[1..3] == Bytes16(p.sessionId);
    assert data[3..7] == Bytes32(p.sequenceNo);
  }

  /** Decoding loses nothing but what stands after the seventh byte, and fails exactly on short data. */
  lemma {:induction false} DecodedBytes(data: seq<u8>)
    ensures DecodePayload(data).None? <==> |data| < 8
    ensures |data| >= 8 ==> PayloadBytes(DecodePayload(data).value) == data[..7] + [0]
  {
    if |data| >= 8 {
      var p := DecodePayload(data).value;
      assert data[3..7][..2] == data[3..5] && data[3..7][2..] == data[5..7];
      assert p.sequenceNo / 0x1_0000 == FromBytes16(data[3..5]) && p.sequenceNo % 0x1_0000 == FromBytes16(data[5..7]);
      assert PayloadBytes(p) == [data[0], data[1], data[2], data[3], data[4], data[5], data[6], 0];
    }
  }

  // ── frames ───────────────────────────────────────────────────────────────

  /** Defined for headlamp commands only; the program panics on the others. */
  function WireMeta(cmd: ActuationCommand): (u16, u32)
    requires cmd.ForHeadlamp()
  {
    (Low16(cmd.correlationId.sessionId), Low32(cmd.correlationId.sequenceNo))
  }

  function BuildFrame(kind: u8, cmd: ActuationCommand): Frame
    requires cmd.ForHeadlamp()
  {
    Frame(false, ID_FRONT_HEADLAMP, PayloadBytes(Payload(kind, WireMeta(cmd).0, WireMeta(cmd).1)))
  }

  /** Wiper commands are refused. */
  function EncodeCommandFrame(cmd: ActuationCommand): Option<Frame> {
    if cmd.SwitchFrontHeadlampOn? then Some(BuildFrame(KIND_CMD_ON, cmd))
    else if cmd.SwitchFrontHeadlampOff? then Some(BuildFrame(KIND_CMD_OFF, cmd))
    else None
  }

  function EncodeAckFrame(cmd: ActuationCommand): Option<Frame> {
    if cmd.SwitchFrontHeadlampOn? then Some(BuildFrame(KIND_ACK_ON, cmd))
    else if cmd.SwitchFrontHeadlampOff? then Some(BuildFrame(KIND_ACK_OFF, cmd))
    else None
  }

  function EncodeNackFrame(cmd: ActuationCommand): Option<Frame> {
    if cmd.SwitchFrontHeadlampOn? then Some(BuildFrame(KIND_NACK_ON, cmd))
    else if cmd.SwitchFrontHeadlampOff? then Some(BuildFrame(KIND_NACK_OFF, cmd))
    else None
  }

  /** The actuator rebuilds the command it was sent; ids come back at wire width. */
  function CommandFromPayload(p: Payload): Option<ActuationCommand> {
    var cid := CorrelationId(p.sessionId, p.sequenceNo);
    if p.kind == KIND_CMD_ON then Some(SwitchFrontHeadlampOn(cid))
    else if p.kind == KIND_CMD_OFF then Some(SwitchFrontHeadlampOff(cid))
    else None
  }

  function PayloadFromFrame(f: Frame): Option<Payload> {
    if f.extended || f.id != ID_FRONT_HEADLAMP then None else DecodePayload(f.data)
  }

  function PayloadToPhysical(p: Payload): Option<Physical> {
    if p.kind == KIND_ACK_ON then Some(CommandConfirmed(true))
    else if p.kind == KIND_ACK_OFF then Some(CommandConfirmed(false))
    else if p.kind == KIND_NACK_ON then Some(CommandRejected(true))
    else if p.kind == KIND_NACK_OFF then Some(CommandRejected(false))
    else None
  }

  /** `PhysicalToDigitalProjector::project`; an observed vehicle speed is an error. */
  function Project(physical: Physical): Option<Fsm.FsmEvent> {
    match physical
    case TelemetryUpdate(VehicleSpeed) => None
    case TelemetryUpdate(EngineRpm(rpm)) => Some(Fsm.UpdateRpm(rpm))
    case TelemetryUpdate(AmbientLux(lux)) => Some(Fsm.UpdateAmbientLux(lux))
    case TelemetryUpdate(RainDetected(present)) => Some(if present then Fsm.RainsStarted else Fsm.RainsStopped)
    case TimerTick => Some(Fsm.TimerTick)
    case SystemReset => Some(Fsm.PowerOff)
    case CommandConfirmed(on) => Some(if on then Fsm.FrontHeadlampOnAck else Fsm.FrontHeadlampOffAck)
    case CommandRejected(on) =>
      Some(Fsm.FrontHeadlampActuationIncomplete(
             if on then FrontHeadlamp.SwitchOn else FrontHeadlamp.SwitchOff, FrontHeadlamp.NegativeAck))
  }

  lemma {:induction false} FrameRoundTrip(kind: u8, cmd: ActuationCommand)
    requires cmd.ForHeadlamp()
    ensures PayloadFromFrame(BuildFrame(kind, cmd)) == Some(Payload(kind, WireMeta(cmd).0, WireMeta(cmd).1))
  {
    CodecRoundTrip(Payload(kind, WireMeta(cmd).0, WireMeta(cmd).1));
  }

  /** A frame of the headlamp with literal kind, session and sequence in their bytes. */
  ghost predicate OnTheBus(f: Option<Frame>, kind: int, cid: CorrelationId) {
    && f.Some? && !f.value.extended && f.value.id == 0x204
    && var data := f.value.data;
    && |data| == 8 && data[0] as int == kind && data[7] == 0
    && 256 * data[1] as int + data[2] == cid.sessionId % 65536
    && 256 * (256 * (256 * data[3] as int + data[4]) + data[5]) + data[6] == cid.sequenceNo % 4294967296
  }

  /** The three frames of each headlamp command, byte by byte; wiper commands have none. */
  lemma {:induction false} FramesOnTheBus(cmd: ActuationCommand)
    ensures match cmd
            case SwitchFrontHeadlampOn(cid) =>
              OnTheBus(EncodeCommandFrame(cmd), 0x01, cid) && OnTheBus(EncodeAckFrame(cmd), 0x81, cid) && OnTheBus(EncodeNackFrame(cmd), 0xC1, cid)
            case SwitchFrontHeadlampOff(cid) =>
              OnTheBus(EncodeCommandFrame(cmd), 0x02, cid) && OnTheBus(EncodeAckFrame(cmd), 0x82, cid) && OnTheBus(EncodeNackFrame(cmd), 0xC2, cid)
            case _ => EncodeCommandFrame(cmd) == None && EncodeAckFrame(cmd) == None && EncodeNackFrame(cmd) == None
  {
    if cmd.ForHeadlamp() {
      hide PayloadBytes;
      var on := cmd.SwitchFrontHeadlampOn?;
      BytesAreLaidOut(Payload(if on then KIND_CMD_ON else KIND_CMD_OFF, WireMeta(cmd).0, WireMeta(cmd).1));
      BytesAreLaidOut(Payload(if on then KIND_ACK_ON else KIND_ACK_OFF, WireMeta(cmd).0, WireMeta(cmd).1));
      BytesAreLaidOut(Payload(if on then KIND_NACK_ON else KIND_NACK_OFF, WireMeta(cmd).0, WireMeta(cmd).1));
    }
  }

  /** What a frame of the bus says to the twin: only eight bytes or more under the lamp's standard identifier, only answers. */
  lemma {:induction false} FrameMeaning(f: Frame)
    ensures PayloadFromFrame(f).Some? <==> !f.extended && f.id == 0x204 && |f.data| >= 8
    ensures PayloadFromFrame(f).Some? ==>
      var physical := PayloadToPhysical(PayloadFromFrame(f).value);
      && (f.data[0] as int == 0x81 <==> physical == Some(CommandConfirmed(true)))
      && (f.data[0] as int == 0x82 <==> physical == Some(CommandConfirmed(false)))
      && (f.data[0] as int == 0xC1 <==> physical == Some(CommandRejected(true)))
      && (f.data[0] as int == 0xC2 <==> physical == Some(CommandRejected(false)))
      && (physical.Some? ==> physical.value.CommandConfirmed? || physical.value.CommandRejected?)
  {
    if |f.data| >= 8 {
      DecodedIsLaidOut(f.data);
    }
  }

  /** What a frame of the bus tells the actuator: on and off by kind, under the ids in its bytes; nothing by any other kind. */
  lemma {:induction false} FrameCommand(f: Frame)
    requires PayloadFromFrame(f).Some?
    ensures var cmd := CommandFromPayload(PayloadFromFrame(f).value);
            && (cmd.Some? <==> f.data[0] as int == 0x01 || f.data[0] as int == 0x02)
            && (cmd.Some? ==>
                  && cmd.value.ForHeadlamp() && (cmd.value.SwitchFrontHeadlampOn? <==> f.data[0] as int == 0x01)
                  && cmd.value.correlationId.sessionId == 256 * f.data[1] as int + f.data[2]
                  && cmd.value.correlationId.sequenceNo == 256 * (256 * (256 * f.data[3] as int + f.data[4]) + f.data[5]) + f.data[6])
  {
    DecodedIsLaidOut(f.data);
  }

  /** Each reading and each answer becomes the one event that means it. */
  lemma {:induction false} ProjectionMeaning(rpm: u16, lux: u16)
    ensures Project(TelemetryUpdate(EngineRpm(rpm))) == Some(Fsm.UpdateRpm(rpm))
    ensures Project(TelemetryUpdate(AmbientLux(lux))) == Some(Fsm.UpdateAmbientLux(lux))
    ensures Project(TelemetryUpdate(RainDetected(true))) == Some(Fsm.RainsStarted)
    ensures Project(TelemetryUpdate(RainDetected(false))) == Some(Fsm.RainsStopped)
    ensures Project(TimerTick) == Some(Fsm.TimerTick) && Project(SystemReset) == Some(Fsm.PowerOff)
    ensures Project(CommandConfirmed(true)) == Some(Fsm.FrontHeadlampOnAck)
    ensures Project(CommandConfirmed(false)) == Some(Fsm.FrontHeadlampOffAck)
    ensures Project(CommandRejected(true))
            == Some(Fsm.FrontHeadlampActuationIncomplete(FrontHeadlamp.SwitchOn, FrontHeadlamp.NegativeAck))
    ensures Project(CommandRejected(false))
            == Some(Fsm.FrontHeadlampActuationIncomplete(FrontHeadlamp.SwitchOff, FrontHeadlamp.NegativeAck))
  {
  }

  /** The actuator's rebuilt command has the direction and the wire ids of the one that was sent. */
  lemma {:induction false} CommandSurvivesWire(cmd: ActuationCommand)
    requires cmd.ForHeadlamp()
    ensures var payload := PayloadFromFrame(EncodeCommandFrame(cmd).value);
            && payload.Some?
            && var rebuilt := CommandFromPayload(payload.value);
            && rebuilt.Some? && rebuilt.value.ForHeadlamp()
            && rebuilt.value.SwitchFrontHeadlampOn? == cmd.SwitchFrontHeadlampOn?
            && WireMeta(rebuilt.value) == WireMeta(cmd)
  {
    hide PayloadBytes, DecodePayload;
    FrameRoundTrip(if cmd.SwitchFrontHeadlampOn? then KIND_CMD_ON else KIND_CMD_OFF, cmd);
  }

  /** The projector only ever produces events from outside: never a lifecycle acknowledgement or a detector event. */
  lemma {:induction false} ProjectedEventsAreExternal(physical: Physical)
    ensures var event := Project(physical);
            && (event.None? <==> physical == TelemetryUpdate(VehicleSpeed))
            && (event.Some? ==> !event.value.AssemblyZoneReady? && !event.value.Internal? && !event.value.PowerOn?)
  {
  }
}
