/** One committed turn: zone merge, operational step, detector, and the quiescence loop (L4). */
module TwinTurn {
  import opened VehiclePhysics
  import opened Fsm
  import opened Zones

  const MAX_QUIESCENCE_HOPS: nat := 8

  datatype Hop = Hop(event: FsmEvent, result: StepResult)

  /** Driving in the dark with a lamp that is neither on nor requested on. */
  predicate LightingUnsafeCut(state: FsmState, ctx: VehicleContext) {
    state.Driving? && ctx.ambientLux <= LUX_ON_THRESHOLD
    && (ctx.headlamp.state.Off? || ctx.headlamp.state.Ready?)
  }

  function DetectInternalAfterHop(state: FsmState, ctx: VehicleContext): Option<FsmEvent> {
    if LightingUnsafeCut(state, ctx) then Some(Internal(LightingUnsafe)) else None
  }

  function ApplyExternalHop(state: FsmState, ctx: VehicleContext, event: FsmEvent, now: Instant, replies: ZoneReplies)
    : StepResult
  {
    var zone := ZoneTurn(ctx, event, state, now, replies);
    var result := Step(state, zone.ctx, event, now);
    var actions := zone.actions + result.actions;
    result.(actions := actions, record := result.record.(actions := Recorded(actions)))
  }

  function ApplySingleHop(state: FsmState, ctx: VehicleContext, event: FsmEvent, now: Instant, replies: ZoneReplies)
    : StepResult
  {
    if event.Internal? then Step(state, ctx, event, now) else ApplyExternalHop(state, ctx, event, now, replies)
  }

  function HopOf(state: FsmState, ctx: VehicleContext, event: FsmEvent, now: Instant, replies: ZoneReplies): Hop {
    Hop(event, ApplySingleHop(state, ctx, event, now, replies))
  }

  /** A committed turn without a loop: one hop, and a second one exactly when the detector fires. */
  function Quiesce(state: FsmState, ctx: VehicleContext, ingress: FsmEvent, now: Instant, replies: ZoneReplies): (hops: seq<Hop>)
    ensures 1 <= |hops| <= 2
  {
    var first := HopOf(state, ctx, ingress, now, replies);
    var internal := DetectInternalAfterHop(first.result.nextState, first.result.ctx);
    if internal.None? then [first]
    else [first, HopOf(first.result.nextState, first.result.ctx, internal.value, now, map[])]
  }

  function Final(hops: seq<Hop>): StepResult
    requires hops != []
  {
    hops[|hops| - 1].result
  }

  function MergedActions(hops: seq<Hop>): seq<DomainAction> {
    if hops == [] then [] else hops[0].result.actions + MergedActions(hops[1..])
  }

  /** A detector hop settles the cut it was raised for. */
  lemma {:induction false} InternalHopSettles(state: FsmState, ctx: VehicleContext, now: Instant)
    requires LightingUnsafeCut(state, ctx)
    ensures var next := ApplySingleHop(state, ctx, Internal(LightingUnsafe), now, map[]);
            DetectInternalAfterHop(next.nextState, next.ctx) == None
  {
  }

  /** The mandatory quiescence loop refines the loop-free `Quiesce`; its hop cap is never reached. */
  method RunToQuiescence(state: FsmState, ctx: VehicleContext, ingress: FsmEvent, now: Instant, replies: ZoneReplies)
    returns (hops: seq<Hop>)
    ensures hops == Quiesce(state, ctx, ingress, now, replies)
    ensures |hops| < MAX_QUIESCENCE_HOPS
  {
    hide ApplySingleHop;
    var queue := [ingress];
    var curState, curCtx := state, ctx;
    hops := [];
    while queue != []
      invariant |hops| <= 2
      invariant hops == [] ==> queue == [ingress] && curState == state && curCtx == ctx
      invariant |hops| >= 1 ==>
        hops[0] == HopOf(state, ctx, ingress, now, replies)
        && Final(hops) == StepResult(curState, curCtx, Final(hops).actions, Final(hops).record)
      invariant |hops| == 1 ==>
        var internal := DetectInternalAfterHop(curState, curCtx);
        queue == if internal.None? then [] else [internal.value]
      invariant |hops| == 2 ==> queue == [] && hops == Quiesce(state, ctx, ingress, now, replies)
      decreases 2 - |hops|
    {
      if |hops| >= MAX_QUIESCENCE_HOPS {
        break;
      }
      if |hops| == 1 {
        InternalHopSettles(curState, curCtx, now);
      }
      var event := queue[0];
      queue := queue[1..];
      var hopReplies := if hops == [] then replies else map[];
      var result := ApplySingleHop(curState, curCtx, event, now, hopReplies);
      var internal := DetectInternalAfterHop(result.nextState, result.ctx);
      if internal.Some? {
        queue := queue + [internal.value];
      }
      curState := result.nextState;
      curCtx := result.ctx;
      hops := hops + [Hop(event, result)];
    }
  }

  /** The cut a turn ends in never satisfies the detector again. */
  lemma {:induction false} QuiescentCutIsStable(state: FsmState, ctx: VehicleContext, ingress: FsmEvent, now: Instant, replies: ZoneReplies)
    ensures var end := Final(Quiesce(state, ctx, ingress, now, replies));
            !LightingUnsafeCut(end.nextState, end.ctx)
  {
    hide ApplySingleHop, LightingUnsafeCut;
    var first := HopOf(state, ctx, ingress, now, replies).result;
    if LightingUnsafeCut(first.nextState, first.ctx) {
      InternalHopSettles(first.nextState, first.ctx, now);
    }
  }
}
