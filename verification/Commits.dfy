/** The closed form of one commit: new cut, rows, actions, and at most one pair of lifecycle slots. */
module Commits {
  import opened VehiclePhysics
  import opened Fsm
  import opened Zones
  import opened TwinTurn
  import opened BrainModel
  import opened Turns

  function ActedAll(actions: seq<DomainAction>): seq<Effect> {
    seq(|actions|, i requires 0 <= i < |actions| => Acted(actions[i]))
  }

  /** Rows numbered from `first` on. */
  function NumberedRows(first: u64, hops: seq<Hop>): seq<Effect>
    decreases |hops|
  {
    if hops == [] then [] else [Row(first, hops[0].result.record)] + NumberedRows(SaturatingSucc(first), hops[1..])
  }

  function AdvanceBy(n: u64, k: nat): u64
    decreases k
  {
    if k == 0 then n else AdvanceBy(SaturatingSucc(n), k - 1)
  }

  /** Everything one turn adds to the trace. */
  function TurnTrace(first: u64, hops: seq<Hop>): seq<Effect> {
    NumberedRows(first, hops) + ActedAll(MergedActions(hops))
  }

  /** The pushes the coordination hints of an action list cause, in order. */
  function PushHints(b: Brain, hints: seq<DomainAction>, clock: Clock): Brain
    requires forall i :: 0 <= i < |hints| ==> IsCoordination(hints[i])
    decreases |hints|
  {
    if hints == [] then b
    else
      assert IsCoordination(hints[0]);
      PushHints(PushAssemblies(b, hints[0].assemblies, hints[0].StartAssemblies?, clock(b.nextTurnId)), hints[1..], clock)
  }

  lemma {:induction false} PushAssembliesIgnoresTrace(b: Brain, zones: seq<AssemblyId>, starting: bool, now: Instant, trace: seq<Effect>)
    ensures PushAssemblies(b.(trace := trace), zones, starting, now) == PushAssemblies(b, zones, starting, now).(trace := trace)
    decreases |zones|
  {
    if zones != [] {
      var zone := zones[0];
      var next := PushWaiting(b, AssemblyZoneReady(zone), zone, LifecycleMessage(zone, starting), now);
      PushAssembliesIgnoresTrace(next, zones[1..], starting, now, trace);
    }
  }

  lemma {:induction false} PushAssembliesTrace(b: Brain, zones: seq<AssemblyId>, starting: bool, now: Instant)
    ensures PushAssemblies(b, zones, starting, now).trace == b.trace
    decreases |zones|
  {
    if zones != [] {
      var zone := zones[0];
      PushAssembliesTrace(PushWaiting(b, AssemblyZoneReady(zone), zone, LifecycleMessage(zone, starting), now),
                          zones[1..], starting, now);
    }
  }

  lemma {:induction false} PushHintsIgnoresTrace(b: Brain, hints: seq<DomainAction>, clock: Clock, trace: seq<Effect>)
    requires forall i :: 0 <= i < |hints| ==> IsCoordination(hints[i])
    ensures PushHints(b.(trace := trace), hints, clock) == PushHints(b, hints, clock).(trace := trace)
    decreases |hints|
  {
    if hints != [] {
      var zones, starting, now := hints[0].assemblies, hints[0].StartAssemblies?, clock(b.nextTurnId);
      PushAssembliesIgnoresTrace(b, zones, starting, now, trace);
      PushHintsIgnoresTrace(PushAssemblies(b, zones, starting, now), hints[1..], clock, trace);
    }
  }

  lemma {:induction false} SelectSatisfies(actions: seq<DomainAction>)
    ensures forall i :: 0 <= i < |Select(actions, IsCoordination)| ==> IsCoordination(Select(actions, IsCoordination)[i])
  {
    if actions != [] {
      SelectSatisfies(actions[1..]);
    }
  }

  /** Carrying out actions is: note them all, and do the pushes of the hints among them. */
  lemma {:induction false} ExecuteAllShape(b: Brain, actions: seq<DomainAction>, clock: Clock)
    ensures forall i :: 0 <= i < |Select(actions, IsCoordination)| ==> IsCoordination(Select(actions, IsCoordination)[i])
    ensures ExecuteAll(b, actions, clock)
            == PushHints(b.(trace := b.trace + ActedAll(actions)), Select(actions, IsCoordination), clock)
    decreases |actions|
  {
    SelectSatisfies(actions);
    if actions == [] {
      assert b.trace + ActedAll(actions) == b.trace;
    } else {
      var a, rest := actions[0], actions[1..];
      var noted := b.(trace := b.trace + [Acted(a)]);
      assert ActedAll(actions) == [Acted(a)] + ActedAll(rest);
      assert b.trace + ActedAll(actions) == noted.trace + ActedAll(rest);
      SelectSatisfies(rest);
      var hints := Select(rest, IsCoordination);
      ExecuteAllShape(Execute(b, a, clock), rest, clock);
      if IsCoordination(a) {
        var pushed := PushAssemblies(noted, a.assemblies, a.StartAssemblies?, clock(b.nextTurnId));
        PushAssembliesTrace(noted, a.assemblies, a.StartAssemblies?, clock(b.nextTurnId));
        PushAssembliesIgnoresTrace(noted, a.assemblies, a.StartAssemblies?, clock(b.nextTurnId),
                                   noted.trace + ActedAll(rest));
        assert Select(actions, IsCoordination) == [a] + hints;
        assert Select(actions, IsCoordination)[1..] == hints;
      } else {
        assert Select(actions, IsCoordination) == hints;
      }
    }
  }

  lemma {:induction false} EmitRowsTrace(b: Brain, hops: seq<Hop>)
    ensures EmitRows(b, hops).trace == b.trace + NumberedRows(b.nextRecordSeq, hops)
    decreases |hops|
  {
    if hops != [] {
      var row := Row(b.nextRecordSeq, hops[0].result.record);
      var next := b.(trace := b.trace + [row], nextRecordSeq := SaturatingSucc(b.nextRecordSeq));
      EmitRowsTrace(next, hops[1..]);
    }
  }

  lemma {:induction false} EmitRowsFrame(b: Brain, hops: seq<Hop>)
    ensures EmitRows(b, hops) == b.(trace := EmitRows(b, hops).trace,
                                    nextRecordSeq := AdvanceBy(b.nextRecordSeq, |hops|))
    decreases |hops|
  {
    if hops != [] {
      var row := Row(b.nextRecordSeq, hops[0].result.record);
      var next := b.(trace := b.trace + [row], nextRecordSeq := SaturatingSucc(b.nextRecordSeq));
      EmitRowsFrame(next, hops[1..]);
      assert AdvanceBy(b.nextRecordSeq, |hops|) == AdvanceBy(next.nextRecordSeq, |hops[1..]|);
    }
  }

  /** One slot per assembly, in topology order. */
  function PushBoth(b: Brain, starting: bool, now: Instant): Brain {
    var first := PushWaiting(b, AssemblyZoneReady(HeadlampAssembly), HeadlampAssembly,
                             LifecycleMessage(HeadlampAssembly, starting), now);
    PushWaiting(first, AssemblyZoneReady(WiperAssembly), WiperAssembly, LifecycleMessage(WiperAssembly, starting), now)
  }

  lemma {:induction false} PushAllIsPushBoth(b: Brain, starting: bool, now: Instant)
    ensures PushAssemblies(b, ALL_ASSEMBLIES, starting, now) == PushBoth(b, starting, now)
  {
    hide PushWaiting;
    var h := PushWaiting(b, AssemblyZoneReady(HeadlampAssembly), HeadlampAssembly,
                         LifecycleMessage(HeadlampAssembly, starting), now);
    var w := PushWaiting(h, AssemblyZoneReady(WiperAssembly), WiperAssembly, LifecycleMessage(WiperAssembly, starting), now);
    assert ALL_ASSEMBLIES[1..] == [WiperAssembly];
    assert PushAssemblies(b, ALL_ASSEMBLIES, starting, now) == PushAssemblies(h, [WiperAssembly], starting, now);
    assert PushAssemblies(h, [WiperAssembly], starting, now) == PushAssemblies(w, [], starting, now);
  }

  /** The twin, counters and trace after a turn, before any lifecycle slot is pushed. */
  function Committed(b: Brain, hops: seq<Hop>): Brain
    requires hops != []
  {
    b.(state := Final(hops).nextState, ctx := Final(hops).ctx,
       nextRecordSeq := AdvanceBy(b.nextRecordSeq, |hops|),
       trace := b.trace + TurnTrace(b.nextRecordSeq, hops))
  }

  /** The lifecycle slots a turn on `event` pushes. */
  function WithLifecycle(b: Brain, state: FsmState, ctx: VehicleContext, event: FsmEvent, clock: Clock): Brain {
    if Starts(state, ctx, event) then PushBoth(b, true, clock(b.nextTurnId))
    else if Stops(state, event) then PushBoth(b, false, clock(b.nextTurnId))
    else b
  }

  lemma {:induction false} HintsOfTurn(state: FsmState, ctx: VehicleContext, event: FsmEvent, now: Instant, hops: seq<Hop>)
    requires TurnSummary(state, ctx, event, now, hops)
    ensures hops != [] && Select(MergedActions(hops), IsCoordination) == Hints(state, ctx, event)
  {
    hide Chained, AlternatesFrom, ModeStep, Hints, LightingUnsafeCut, Select, MergedActions;
  }

  /** The closed form of a commit. */
  lemma {:induction false} CommitShape(b: Brain, event: FsmEvent, now: Instant, replies: ZoneReplies, clock: Clock)
    ensures var hops := Quiesce(b.state, b.ctx, event, now, replies);
            && TurnSummary(b.state, b.ctx, event, now, hops)
            && CommitResolved(b, event, now, replies, clock)
               == WithLifecycle(Committed(b, hops), b.state, b.ctx, event, clock)
  {
    hide Quiesce, PushBoth, TurnSummary, Select, MergedActions;
    var hops := Quiesce(b.state, b.ctx, event, now, replies);
    TurnSummarized(b.state, b.ctx, event, now, replies);
    HintsOfTurn(b.state, b.ctx, event, now, hops);
    var merged := MergedActions(hops);
    var hints := Hints(b.state, b.ctx, event);
    EmitRowsTrace(b, hops);
    EmitRowsFrame(b, hops);
    var rows := EmitRows(b, hops).(state := Final(hops).nextState, ctx := Final(hops).ctx);
    ExecuteAllShape(rows, merged, clock);
    var done := Committed(b, hops);
    assert rows.(trace := rows.trace + ActedAll(merged)) == done by {
      assert rows.trace + ActedAll(merged) == b.trace + TurnTrace(b.nextRecordSeq, hops);
    }
    assert CommitResolved(b, event, now, replies, clock) == PushHints(done, hints, clock);
    if hints != [] {
      assert hints[1..] == [];
      PushAllIsPushBoth(done, hints[0].StartAssemblies?, clock(done.nextTurnId));
    }
  }
}
