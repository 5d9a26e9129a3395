# Verified model of the digital-twin brain

This project models the runtime of a car's digital twin and proves what it guarantees, over every
run, every interleaving and every input.

The twin's brain is one actor with a mailbox. Every event that arrives gets a turn id and a slot in a
reorder queue. Events for the headlamp or the wiper are told to a zone twinlet, and the slot waits
for its tell-back under a deadline with a retry budget; other events pass straight through. Replies
and timeouts come in any order; a drain loop commits from the front only. A commit merges the zone's
reply into the vehicle context, runs the operational state machine and a detector until nothing more
happens, publishes one ledger row per hop, and carries out the actions - which may itself push
lifecycle slots for starting or stopping the assemblies. Requests to the lamp leave on a bus as
numbered commands and their answers are matched by a one-slot policy.

## How it is built

- `VehiclePhysics`, `FrontHeadlamp`, `Wiper`, `Fsm`, `Zones`, `TwinTurn`: one turn, from the zone
  handlers to the quiescence loop.
- `TurnBarriers`, `BrainModel`, `VirtualCarActor`: the slots and the actor. Handlers that assign fields are
  class methods; each is proved equal to a function on values, and everything else is proved about
  those functions.
- `Turns`, `Commits`, `BrainInvariants`, `BrainSafety`, `HandlerSafety`, `Deadlines`: what a turn, a
  commit, a drain and every handler keep.
- `Twinlets`, `Plant`, `Reachability`: the twinlets and the environment as one transition system, and
  the invariant of all its reachable states. A step is one handler, taken atomically. Messages on
  their way to the brain may overtake each other; a twinlet takes its tells in order and may or may
  not answer each of them; a deadline goes off at most once and may lose the race against its abort.
- `RowLaws`, `LedgerLaws`, `HandlerLaws`, `AnswerLaws`: what one row, one commit, one handler and one
  reply say in fields and numbers, stated apart from the functions that compute them, and kept over all runs.
- `Theorems`, `Confluence`, `Progress`, `TimedRuns`, `TurnOrder`, `WiperRefinement`, `WiperRuns`,
  `WiperWitnesses`, `DrivingWitnesses`, `HeadlampRuns`, `HeadlampPlant`: the results about runs.
- `HeadlampWire`, `HeadlampPolicy`, `Actuation`: the bus. `LampLoop` closes the loop from a lux reading
  over the bus and back into the zone.

Clock readings are inputs of the model: the stamp of an arrival, or of a spontaneous commit, is part of
the step that delivers it, and the reading taken when assemblies start or stop is given by a function
of the first turn id allocated for them. Timed runs tie all of them, and the deadlines, to one time. Integers have the program's widths: turn ids and row numbers
saturate, command numbers wrap, wire ids are truncated. Results about reachable states
are stated for runs in which neither saturating counter has reached its maximum.

Where the documents and the code differ, the model follows the code: an event that arrives during a
countdown is queued and committed after it, not discarded (`README.md:144-146` says discarded), and a
spontaneous zone event is committed at once, without a slot (`README.md:408` says it gets one).

## Model

| member | source | states |
|---|---|---|
| `Confluence.ReplyOrderConfluence` | crates/common/src/twin_runtime/controller/virtual_car_actor.rs:392-416 | For every brain state and every batch of current replies to distinct open slots, delivering them in any permutation with a drain after each ends in the same brain: twin, ledger, action stream, tells and queue |
| `Confluence.FillCommutesWithCommit` | crates/common/src/twin_runtime/controller/virtual_car_actor.rs:517-532 | Filling an open slot and committing a complete front entry commute, although the commit may push lifecycle slots |
| `Confluence.DrainThenFill` | crates/common/src/twin_runtime/controller/virtual_car_actor.rs:517-532 | Draining before the replies are in makes no difference to the drain after them |
| `LedgerLaws.RunningTable` | crates/common/src/fsm/transition_map.rs:79-127 | On every row of every run, in fields and numbers: `Idle` goes to `Driving` exactly on an rpm above 1000; `Driving` goes to `DrivingDangerously` exactly on the detector's event, stays on power-off, and else goes to a warning anchored at the row exactly above 160 km/h, to `Idle` exactly at standstill; `DrivingDangerously` ends exactly at standstill or with the lamp on or lux above 840; a warning ends exactly on a tick five seconds on without a warning speed, to `Idle` exactly at standstill |
| `LedgerLaws.EveryRowFollows` | crates/common/src/twin_runtime/twin_turn.rs:149-179 | Every row of every run starts in the mode before it and follows from the cut before it: mode by the literal table, wheels, speed and light by the reading alone, each zone by the reply at hand or the event's own message, actions in order; detector rows stand exactly behind undetected dark drives and repeat their stamp |
| `LedgerLaws.CommittedTurnsAreShown` | crates/common/src/twin_runtime/controller/virtual_car_actor.rs:517-546 | In every run, every committed turn's row carries the event and the arrival stamp of the turn and obeys the row law for the replies of its slot |
| `LedgerLaws.ArrivalStampIsCommitted` | crates/common/src/twin_runtime/controller/virtual_car_actor.rs:360-384 | An event that arrives in any reachable state with stamp `now`, once its turn is committed, has a row with that event and `at == now` |
| `HeadlampPlant.ToldHeadlampIsShown` | crates/common/src/twin_runtime/zone_turn.rs:94-205 | In every run, every committed turn that was told and that the headlamp hears holds a headlamp reply, and its row has that reply's context and, first among its actions, that reply's outcomes one by one |
| `AnswerLaws.CommittedReplyAnswersItsTell` | crates/common/src/twin_runtime/headlamp_actor.rs:102-134 | In every reachable state, silence, re-tells and late answers included, the reply a told turn was committed with is that of the zone listening to its event: the zone handler's answer to a tell of this very turn, with the turn's stamp and the event's own message, or a give-up that only warns |
| `AnswerLaws.TellBacksAnswerTheirTell` | crates/common/src/twin_runtime/headlamp_actor.rs:102-134 | In every reachable state each tell-back on its way is its zone handler's answer to the tell of exactly that turn and attempt |
| `WiperRuns.WiperRefinesLocalHandler` | crates/common/src/twin_runtime/zone_turn.rs:103-109 | In every state of every quiet run (no wiper deadline handled, the wiper answers, no rain arriving during a countdown) the mirror followed by the queued wiper messages equals the twinlet followed by its mailbox; they agree when the queue is empty; and every ledger row shows the local handler's state and exactly its wiper actions |
| `WiperRuns.StoredRepliesAreLocal` | crates/common/src/twin_runtime/wiper_actor.rs:82-111 | On a quiet run the reply stored in a complete wiper slot is what the local handler would produce at that place in the queue, outcomes included |
| `WiperRuns.RainIsToldUnlessPreparing` | crates/common/src/twin_runtime/zone_turn.rs:42-54 | A rain event is told to the wiper twinlet if and only if it does not arrive during a countdown |
| `WiperRuns.MirrorIsTwinletPlusUntold` | crates/common/src/twin_runtime/zone_turn.rs:103-109 | In every run with an answering wiper and no wiper deadline handled, rain in a countdown included: one base state leads to the mirror by the untold rain and to twinlet and mailbox by the queued messages; once queue and mailbox are empty the mirror is the twinlet followed by the rain committed untold since the last told wiper commit, and the two agree if and only if that rain leaves the twinlet where it is |
| `WiperWitnesses.RainInCountdownDiverges` | crates/common/src/twin_runtime/controller/virtual_car_actor.rs:380-383 | A run from the initial state in which rain starts during the start-up countdown and every tell is answered in time: it ends with nothing queued, told or on its way, the mirror running and the twinlet ready |
| `WiperWitnesses.RetoldStartLosesItsCommand` | crates/common/src/twin_runtime/controller/virtual_car_actor.rs:443-467 | A run from the initial state in which the twinlet asks for the start command once, in an answer that misses its deadline: the re-told message is committed, mirror and twinlet run, and no wiper action was ever carried out |
| `Progress.DrainsToEmpty` | crates/common/src/twin_runtime/controller/virtual_car_actor.rs:421-485 | From any reachable state, once no event arrives every run is finite (bounded by a measure over slots, retries, deadlines and messages in flight), and a run that cannot be extended has an empty queue, with answering or silent twinlets |
| `Progress.NeverStuck` | crates/common/src/twin_runtime/turn_barrier.rs:176-215 | While a turn is queued, the front slot's current deadline can go off or be handled: no answer from a twinlet is needed |
| `Progress.Descends` | crates/common/src/twin_runtime/controller/virtual_car_actor.rs:421-485 | Every step other than the arrival of a new event strictly lowers the measure |
| `Theorems.ExactlyOneDeadline` | crates/common/src/twin_runtime/controller/virtual_car_actor.rs:366-377 | Every incomplete slot has exactly one outstanding deadline, running or gone off and unhandled, and it carries the slot's current attempt |
| `TimedRuns.BoundedHeadOfLineBlocking` | crates/common/src/twin_runtime/constants.rs:12-21 | With deadlines handled when due and handlers that take no time, a turn is still queued at most 1.5 seconds after its arrival, whatever the queue length |
| `TimedRuns.NoTimeLock` | crates/common/src/twin_runtime/controller/virtual_car_actor.rs:329-343 | In every state the timed invariant allows, a deadline that has gone off can be handled now, or one that is due can go off, or time can pass, and exactly to the next due instant if a deadline is running |
| `TimedRuns.RetrySlotTimes` | crates/common/src/twin_runtime/controller/virtual_car_actor.rs:443-467 | A retry handled exactly at its deadline moves the slot's next deadline by one whole wait |
| `TurnOrder.ArrivalOutlivesCountdown` | crates/common/src/twin_runtime/controller/virtual_car_actor.rs:366-383 | An event that arrives during a countdown keeps its turn id, event and stamp; the row committing it comes after the row of each acknowledgement that countdown still waits for, and every life-cycle row from it on belongs to a later part of the cycle |
| `TurnOrder.RunExtends` | crates/common/src/twin_runtime/controller/virtual_car_actor.rs:517-532 | Over every run the trace and the commits only grow, and no turn ever changes its place, its event or its arrival stamp |
| `Theorems.InOrderExactlyOnce` | crates/common/src/twin_runtime/controller/virtual_car_actor.rs:116-120 | In every reachable state the committed turn ids followed by the queued ones are 1, 2, 3, ... without gap, every committed turn wrote its own row in that order, and the queue is empty or its front is incomplete |
| `Theorems.CountdownMatchesQueue` | crates/common/src/twin_runtime/controller/virtual_car_actor.rs:578-602 | The lifecycle slots in the queue are exactly one per assembly in the countdown set, none in any other mode; the set is never empty; each slot holds its own zone's message, `BecomeOn` when starting and `BecomeOff` when stopping |
| `Theorems.NeverDrivesInTheDark` | crates/common/src/twin_runtime/detectors/lighting_unsafe.rs:17-31 | No reachable cut is `Driving` with lux at or below the ON threshold and the lamp `Off` or `Ready` |
| `Theorems.BuzzerDiscipline` | crates/common/src/fsm/transition_map.rs:162-176 | In the executed action stream buzzer starts and stops strictly alternate beginning with a start, and the last command is a start exactly in `DrivingDangerously` and `ExtremeOperationWarning` |
| `Theorems.StartStopBracketing` | crates/common/src/fsm/transition_map.rs:156-157 | The life-cycle history is a prefix of the cycle: start of all assemblies, headlamp ready, wiper ready, stop of all assemblies, headlamp ready, wiper ready; the mode says how far into it the car is |
| `Theorems.NoDirectPowerCycle` | crates/common/src/fsm/transition_map.rs:57-88 | Over the ledger, `Off` is left only by a power-on into the full start-up countdown, a running mode only from `Idle` by a power-off into the full shutdown countdown, and a countdown only by an acknowledgement |
| `Theorems.PowerOffIsAnswered` | crates/common/src/fsm/transition_map.rs:64-125 | Every power-off row begins the shutdown (from `Idle`), leaves a running countdown alone, or keeps its mode and ends with the rejection warning |
| `Theorems.LedgerIsContiguous` | crates/common/src/twin_runtime/controller/virtual_car_actor.rs:557-561 | Rows are numbered from 1 without gap, each starts in the mode the previous one ended in and follows the table, and the recorded actions are the executed ones minus the assembly hints, in order |
| `Theorems.SnapshotAgreesWithLedger` | crates/common/src/twin_runtime/controller/virtual_car_actor.rs:256-260 | A snapshot stamped with a sequence number is the exit cut of the row with that number |
| `Theorems.RetryBudgetConserved` | crates/common/src/twin_runtime/turn_barrier.rs:195-215 | For every queued slot attempt plus retries left is the retry budget, and the zone has been told exactly attempt + 1 times |
| `Theorems.ToldAtMostThrice` | crates/common/src/twin_runtime/constants.rs:17-21 | No turn, queued or committed, is ever told more than three times |
| `Theorems.TimeoutFollowsPolicy` | crates/common/src/twin_runtime/zone_tell_back.rs:39-49 | A timeout that finds its slot is for the slot's current attempt (the mismatch and missing-wait branches are unreachable), and the handler does what the pure policy decides: same next wait and a re-tell of the stored message with the original stamp, or a synthetic reply that keeps the mirror's zone context and carries the unresponsive warning; no deadline is aborted |
| `Theorems.WarningDwell` | crates/common/src/fsm/transition_map.rs:120-127 | Every row leaving `ExtremeOperationWarning` ends a stay whose anchor was the entering row's timestamp throughout, is a `TimerTick` at least five seconds after it, and finds no warning active; an open stay has its entering row's anchor |
| `HeadlampPlant.RequestStampEverywhere` | crates/common/src/vehicle_state/front_headlamp.rs:91-97 | In every run the request stamp is set exactly in `OnRequested` and `OffRequested`: in the mirror, in the twinlet and in every ledger row |
| `HeadlampPlant.KeptTimerIsForRequest` | crates/common/src/twin_runtime/headlamp_actor.rs:136-198 | In every run, when the acknowledgement timer the twinlet keeps goes off, a request is outstanding and the wait that elapses is the one for its direction |
| `AnswerLaws.ReportsAreOverdueWaits` | crates/common/src/twin_runtime/headlamp_actor.rs:136-169 | In every reachable state, a report on its way to the brain has the timed-out cause and is what the zone handler makes of an incomplete report for its direction |
| `AnswerLaws.ElapsedWaitIsReported` | crates/common/src/twin_runtime/headlamp_actor.rs:136-169 | An elapsed wait is always reported to a known brain, with the state it left the zone in, and with the warning exactly if a request in its direction was outstanding |
| `DrivingWitnesses.DrivesIsWarnedAndRecovers` | crates/common/src/fsm/transition_map.rs:57-127 | A run from the initial system: after start-up the car is idle and the mirror shows headlamp and wiper `Ready`; it drives, a reading at 10 s brings a warning anchored at 10 s, and a tick at 20 s ends it |
| `DrivingWitnesses.DarkDriveIsDangerous` | crates/common/src/twin_runtime/detectors/lighting_unsafe.rs:17-31 | A run from the initial system whose dark drive the detector turns into `DrivingDangerously` |
| `Reachability.NextOk` | crates/common/src/twin_runtime/controller/virtual_car_actor.rs:215-262 | Every step of the brain and its environment keeps turn order, slot bookkeeping, countdown, commit history, deadlines and the settled front |
| `Reachability.NextKeepsCut` | crates/common/src/twin_runtime/controller/virtual_car_actor.rs:215-262 | Every step keeps the cut safe and the ledger, buzzer and life-cycle histories consistent with it |
| `HeadlampRuns.NoDuplicateRequest` | crates/common/src/vehicle_state/front_headlamp.rs:171-191 | Between any two requests of a message run there is a settling message |
| `HeadlampRuns.RequestEndsExactlyWhenSettled` | crates/common/src/vehicle_state/front_headlamp.rs:193-253 | An outstanding request ends on a message if and only if it is an acknowledgement, a lifecycle message, an incomplete report for the awaited direction, or a tick past the wait; on any other message nothing changes |
| `HeadlampRuns.PendingAlwaysNoted` | crates/common/src/vehicle_state/front_headlamp.rs:124-253 | Over any message run the request time is noted exactly while a request is outstanding |
| `HeadlampRuns.RequestOnlyFromSettled` | crates/common/src/vehicle_state/front_headlamp.rs:171-191 | A switch is requested if and only if a lux reading is beyond the threshold of the lamp's settled state, and then for the opposite of what the lamp is believed to be |
| `HeadlampRuns.BeliefFollowsReports` | crates/common/src/vehicle_state/front_headlamp.rs:148-253 | Over any run the zone believes of the lamp what was last reported by an acknowledgement (dark after a lifecycle message); requests, refusals and timeouts never change that |
| `HeadlampRuns.OffExactlyWhenSwitchedOff` | crates/common/src/vehicle_state/front_headlamp.rs:124-170 | Over any message run the zone is `Off` if and only if a `BecomeOff` or `ResetForIgnitionOff` has come and no `BecomeOn`, `AckOn` or `AckOff` since (or it began `Off` and none came) |
| `HeadlampRuns.SettledState` | crates/common/src/vehicle_state/front_headlamp.rs:124-253 | With no request outstanding, the message history fixes the state: `Off` if switched off, else `On` if last reported lit, else `Ready` |
| `HeadlampRuns.SettledZoneAsksAgain` | crates/common/src/vehicle_state/front_headlamp.rs:171-191 | In any run, a settled zone that is not switched off asks again on every reading: on at 840 or below when last reported dark, off at 860 or above when last reported lit, stamped with the reading, and nothing in between |
| `HeadlampRuns.FailureFallsBack` | crates/common/src/vehicle_state/front_headlamp.rs:193-253 | A request refused in its direction, or found two seconds old by a tick, falls back to `Ready` or `On` with its own warning; no other message warns |
| `HeadlampRuns.StampIsRequestTime` | crates/common/src/vehicle_state/front_headlamp.rs:171-191 | The stamp of an outstanding request is the time of the reading that made the zone ask, and nothing has settled it since |
| `HeadlampRuns.DeadbandIsSilent` | crates/common/src/vehicle_state/front_headlamp.rs:171-191 | A run whose readings all lie strictly inside the deadband requests nothing |
| `FrontHeadlamp.HeadlampZone.ApplyInPlace` | crates/common/src/vehicle_state/front_headlamp.rs:124-146 | The in-place handler ends in the context and outcomes of the value handler, for every message |
| `FrontHeadlamp.HeadlampZone.EvaluateLux` | crates/common/src/vehicle_state/front_headlamp.rs:171-191 | In-place lux evaluation equals the value handler's |
| `FrontHeadlamp.HeadlampZone.OnTimerTick` | crates/common/src/vehicle_state/front_headlamp.rs:193-218 | In-place overdue check equals the value handler's |
| `FrontHeadlamp.HeadlampZone.RecoverIncomplete` | crates/common/src/vehicle_state/front_headlamp.rs:225-253 | A report for the awaited direction falls back to the physical state with a warning; any other changes nothing |
| `Wiper.WiperZone.ApplyInPlace` | crates/common/src/vehicle_state/wiper.rs:83-110 | The in-place wiper handler equals the value handler |
| `Wiper.MotionFollowsCommands` | crates/common/src/vehicle_state/wiper.rs:83-110 | The wiper starts or stops moving exactly with the command it asks for, except that `BecomeOff` stops it without one |
| `Wiper.StateFollowsMessages` | crates/common/src/vehicle_state/wiper.rs:83-110 | The wiper is off exactly after `BecomeOff` or until the first `BecomeOn`, and runs exactly from a start in `Ready` until a stop or `BecomeOff` |
| `TwinTurn.RunToQuiescence` | crates/common/src/twin_runtime/twin_turn.rs:86-123 | The quiescence loop returns the one or two hops of the loop-free turn; its eight-hop cap is never reached |
| `TwinTurn.QuiescentCutIsStable` | crates/common/src/twin_runtime/detectors/lighting_unsafe.rs:17-31 | For every mode, context, event and reply map, the cut a turn ends in does not raise the detector |
| `TwinTurn.InternalHopSettles` | crates/common/src/twin_runtime/twin_turn.rs:139-146 | A detector hop never leaves a cut that raises the detector again |
| `RowLaws.TurnObeys` | crates/common/src/twin_runtime/twin_turn.rs:86-179 | For every mode, cut, event and reply map, each row of a turn obeys the literal law of its mode change, sensors, zones and actions, and a detector row follows exactly a dark drive |
| `RowLaws.ZonesObey` | crates/common/src/twin_runtime/zone_turn.rs:112-205 | For every reply map: a headlamp reply is merged on a headlamp event, a tick or the headlamp's acknowledgement, its context and outcomes as they are, otherwise the local handler applies the event's own message, and any other event leaves the zone alone; the same for the wiper; rpm and lux readings, and nothing else, set powertrain and light |
| `LedgerLaws.HeadlampTellBackIsMerged` | crates/common/src/twin_runtime/zone_turn.rs:94-101 | Whatever the mirror is, a headlamp reply in the map becomes the headlamp's context, and its outcomes the turn's zone actions, one by one |
| `LedgerLaws.FrontReplyIsShown` | crates/common/src/twin_runtime/controller/virtual_car_actor.rs:517-546 | Committing a front slot that holds a headlamp reply writes a row with the slot's event and stamp, the reply's context and, first, its outcomes |
| `LedgerLaws.SpontaneousShown` | crates/common/src/twin_runtime/controller/virtual_car_actor.rs:491-510 | A spontaneous commit writes at once a row for the incomplete report with its delivery stamp and the reply's context, and keeps the laws of all rows and commits |
| `RowLaws.StepOrders` | crates/common/src/fsm/transition_map.rs:151-180 | The recorded actions of one operational step, listed by mode pair: buzzer, the two warnings by speed above 160 and rpm above 5500, state sync, or the rejected power-off; the assembly hints are not recorded |
| `HandlerLaws.ArrivalIsQueued` | crates/common/src/twin_runtime/controller/virtual_car_actor.rs:360-384 | An arrival takes the next turn id and the last place; outside a countdown it is told its own message if it concerns a zone, with attempt 0, both retries, message and deadline in the slot; otherwise it passes through |
| `HandlerLaws.LifecycleIsQueued` | crates/common/src/twin_runtime/controller/virtual_car_actor.rs:578-602 | Starting tells the headlamp and then the wiper `BecomeOn`, stopping `BecomeOff`, with consecutive turn ids and one fresh slot each |
| `HandlerLaws.ReplyIsFiled` | crates/common/src/twin_runtime/controller/virtual_car_actor.rs:392-416 | A reply for the current attempt is stored in its slot, ends its zone's wait and aborts its running deadline, and touches nothing else; any other reply changes nothing |
| `Turns.TurnSummarized` | crates/common/src/twin_runtime/twin_turn.rs:149-179 | For every turn: its hints, the parity and alternation of its buzzer commands, its countdown step, the chaining of its rows, and recorded actions equal to merged actions minus the hints |
| `Turns.TransitionPairs` | crates/common/src/fsm/transition_map.rs:47-141 | The buzzer modes are entered only from `Driving`, left only to `Idle` or `Driving`, never exchanged; the countdown set shrinks by the acknowledged assembly only |
| `Turns.OutputBuzzer` | crates/common/src/fsm/transition_map.rs:151-180 | The buzzer commands of each pair of modes |
| `Turns.ModeChangesAreAnnounced` | crates/common/src/fsm/transition_map.rs:151-180 | The table has no action exactly for a mode that is kept and for a step within one countdown |
| `Turns.StepSummarized` | crates/common/src/fsm/step.rs:36-93 | One operational step: hints, countdown and buzzer parity together |
| `Zones.ToldIsAppliedLocally` | crates/common/src/twin_runtime/zone_turn.rs:42-92 | The message told to a zone is the one the local fallback would apply; only a tick is applied without being told |
| `Zones.InStepTellBackIsLocal` | crates/common/src/twin_runtime/zone_turn.rs:112-205 | With twinlet and mirror in step, committing the tell-back is committing the local handler's result |
| `Zones.AtMostOneZone` | crates/common/src/twin_runtime/zone_turn.rs:112-205 | Whatever the reply map holds, one turn touches at most one zone |
| `Fsm.ReadingDecides` | crates/common/src/vehicle_state/powertrain.rs:81-108 | Outside `Off` one rpm reading alone decides warning (from 1408 rpm) and standstill (up to 4 rpm); in `Off` there is neither |
| `Fsm.Powertrain.OnRpm` | crates/common/src/twin_runtime/zone_turn.rs:125-132 | Applying a reading in place gives the powertrain value of the reading, frozen at standstill in `Off` |
| `Commits.CommitShape` | crates/common/src/twin_runtime/controller/virtual_car_actor.rs:548-642 | Closed form of a commit: rows, cut, actions, and one pair of lifecycle slots exactly when assemblies start or stop |
| `BrainModel.CommitFrontProgress` | crates/common/src/twin_runtime/controller/virtual_car_actor.rs:517-532 | Each pass of the drain pops one complete entry and appends only incomplete ones, which is why the drain ends |
| `HandlerSafety.DrainSettles` | crates/common/src/twin_runtime/controller/virtual_car_actor.rs:517-532 | After the drain the queue is empty or its front is incomplete |
| `HandlerSafety.CommitKeepsQueue` | crates/common/src/twin_runtime/controller/virtual_car_actor.rs:548-642 | A commit keeps turn order, slots and countdown, only adds to the trace, and writes its own row first |
| `HandlerSafety.CommitKeepsCut` | crates/common/src/twin_runtime/controller/virtual_car_actor.rs:548-642 | A commit keeps the cut safe and the ledger, buzzer and life-cycle histories consistent with it |
| `HandlerSafety.SpontaneousKeepsQueue` | crates/common/src/twin_runtime/controller/virtual_car_actor.rs:491-510 | A spontaneous commit past the queue keeps turn order, slots, countdown and commit history |
| `HandlerSafety.SpontaneousKeepsCut` | crates/common/src/twin_runtime/controller/virtual_car_actor.rs:491-510 | A spontaneous commit past the queue keeps the cut safe and the histories consistent with it |
| `Deadlines.TimeoutIsCurrent` | crates/common/src/twin_runtime/turn_barrier.rs:195-215 | A deadline that has gone off and is still unhandled matches the slot's current attempt, and is retried exactly while the budget lasts |
| `Deadlines.TimeoutDeadlines` | crates/common/src/twin_runtime/controller/virtual_car_actor.rs:421-485 | Handling a timeout, retry or give-up, keeps the one-deadline bookkeeping of all slots |
| `VirtualCarActor.VirtualCar.HandleFsm` | crates/common/src/twin_runtime/controller/virtual_car_actor.rs:224-233 | The mailbox handler for an event changes the actor exactly as arrival followed by drain does on values |
| `VirtualCarActor.VirtualCar.HandleZoneReady` | crates/common/src/twin_runtime/controller/virtual_car_actor.rs:234-242 | The handler for a tell-back equals reply followed by drain |
| `VirtualCarActor.VirtualCar.HandleZoneTellBackTimeout` | crates/common/src/twin_runtime/controller/virtual_car_actor.rs:243-251 | The handler for a timeout equals timeout followed by drain; it stops with an error exactly on a retry without a stored message |
| `VirtualCarActor.VirtualCar.HandleZoneSpontaneous` | crates/common/src/twin_runtime/controller/virtual_car_actor.rs:252-255 | The handler for a spontaneous zone event equals a direct commit followed by drain |
| `VirtualCarActor.VirtualCar.BeginTurn` | crates/common/src/twin_runtime/controller/virtual_car_actor.rs:360-384 | Turn id, tell, deadline and queue slot of an arrival, in place |
| `VirtualCarActor.VirtualCar.FindSlot` | crates/common/src/twin_runtime/controller/virtual_car_actor.rs:399-408 | Linear search finds the waiting slot of a turn id, or none |
| `VirtualCarActor.VirtualCar.ZoneReady` | crates/common/src/twin_runtime/controller/virtual_car_actor.rs:392-416 | A reply goes into its slot if the attempt matches and is dropped otherwise |
| `VirtualCarActor.VirtualCar.ZoneTellBackTimeout` | crates/common/src/twin_runtime/controller/virtual_car_actor.rs:421-485 | Retry with re-tell and new deadline, or give-up with a synthetic reply |
| `VirtualCarActor.VirtualCar.ApplyCommittedQuiescence` | crates/common/src/twin_runtime/controller/virtual_car_actor.rs:548-642 | Rows, then the final cut, then the actions in order |
| `VirtualCarActor.VirtualCar.TryDrainBarrierQueue` | crates/common/src/twin_runtime/controller/virtual_car_actor.rs:517-532 | The drain loop ends and equals the drain on values |
| `VirtualCarActor.VirtualCar.EmitTransitionRecords` | crates/common/src/twin_runtime/controller/virtual_car_actor.rs:557-561 | One numbered row per hop, counter saturating |
| `VirtualCarActor.VirtualCar.GetStatus` | crates/common/src/twin_runtime/controller/virtual_car_actor.rs:677-689 | The snapshot is the current cut stamped with the last row's number |
| `VirtualCarActor.VirtualCar.PostStop` | crates/common/src/twin_runtime/controller/virtual_car_actor.rs:265-277 | Teardown aborts every stored deadline and nothing else, empties the queue and stops both twinlets |
| `TurnBarriers.TurnBarrier.ActOnZoneReply` | crates/common/src/twin_runtime/turn_barrier.rs:177-184 | Stores the reply, clears the pending zone, aborts its live deadline |
| `TurnBarriers.TurnBarrier.ActOnZoneTimeout` | crates/common/src/twin_runtime/turn_barrier.rs:195-215 | Retry exactly while attempt matches and budget lasts, with the advanced attempt; give-up otherwise |
| `Twinlets.HeadlampActor.HandleApply` | crates/common/src/twin_runtime/headlamp_actor.rs:102-134 | A silent twinlet swallows the message; otherwise it applies it, answers with the result and re-arms the acknowledgement timer the new state needs |
| `Twinlets.HeadlampActor.MaybeArmAckTimer` | crates/common/src/twin_runtime/headlamp_actor.rs:178-198 | Aborts the old acknowledgement timer and arms one exactly when a request is outstanding |
| `Twinlets.HeadlampActor.HandleAckWaitElapsed` | crates/common/src/twin_runtime/headlamp_actor.rs:136-169 | An elapsed acknowledgement wait is applied as a timed-out report and reported to the brain, if known |
| `Twinlets.MessageRearms` | crates/common/src/twin_runtime/headlamp_actor.rs:178-198 | After every message the old handle no longer runs, and a new one runs exactly if a request is outstanding, for its direction; other running timers are untouched |
| `Twinlets.ElapsedWaitSettles` | crates/common/src/twin_runtime/headlamp_actor.rs:136-169 | An elapsed wait settles exactly a request of its direction, to `Ready` or `On`, and leaves every other state and every running timer alone |
| `Twinlets.WiperActor.HandleApply` | crates/common/src/twin_runtime/wiper_actor.rs:82-111 | A silent twinlet swallows the message; otherwise it applies it and answers with the result |
| `LampLoop.ReadingSwitchesLamp` | crates/vehicle_device_bus/src/devices/front_headlamp/can.rs:25-108 | The whole loop, for every settled lamp, reading beyond its threshold, manager, pending command and answer: the zone asks for the other state, one command leaves, the actuator's answer to it is accepted, and fed back it ends `On` or `Ready`: switched if acknowledged, and where it was, with the refusal warning, if not; no stamp is left |
| `HeadlampPolicy.SingleAnswerPerCommand` | crates/vehicle_device_bus/src/devices/front_headlamp/policy.rs:31-85 | Over any interleaving of sends and bus payloads, a payload is accepted if and only if it answers the latest command, in its direction, and that command is still unanswered |
| `HeadlampPolicy.AcceptsNeverExceedSends` | crates/vehicle_device_bus/src/devices/front_headlamp/policy.rs:31-85 | Accepted answers never outnumber commands sent |
| `HeadlampPolicy.BusLoopRoundTrip` | crates/vehicle_device_bus/src/devices/front_headlamp/can.rs:25-108 | For all session and sequence values: command, bytes, rebuilt command, answer bytes, policy and projection yield exactly the event for that command and answer, and nothing stays pending |
| `HeadlampPolicy.EchoIsIgnored` | crates/vehicle_device_bus/src/devices/front_headlamp/policy.rs:50-57 | A command frame read back from the bus is ignored and changes nothing, in any state |
| `HeadlampPolicy.FrontHeadlampPolicy.OnResponse` | crates/vehicle_device_bus/src/devices/front_headlamp/policy.rs:49-85 | The in-place matcher decides and updates as specified; its last two refusals never happen |
| `HeadlampPolicy.FrontHeadlampPolicy.OnCommandSent` | crates/vehicle_device_bus/src/devices/front_headlamp/policy.rs:31-47 | A headlamp command replaces what is pending, a wiper command does not |
| `HeadlampPolicy.RefusalReasons` | crates/vehicle_device_bus/src/devices/front_headlamp/policy.rs:49-85 | Each refusal has exactly one reason, in the order: a command frame, no answer, nothing pending, other ids, other direction; everything else is accepted with its ids |
| `Actuation.StaleAnswerRefused` | crates/vehicle_device_bus/src/devices/front_headlamp/policy.rs:62-70 | With the manager's consecutive numbers, an answer to a command that is no longer the latest is refused, up to 2^32 commands later |
| `Actuation.OldAnswerAccepted` | crates/vehicle_device_bus/src/devices/front_headlamp/policy.rs:31-85 | Over any run of a session's commands an answer to some earlier command is accepted if and only if the latest command, that one or a later one, is still unanswered, has the same direction and lies a multiple of 2^32 commands after it |
| `Actuation.AnswerAnswersItsCommand` | crates/vehicle_device_bus/src/devices/front_headlamp/can.rs:66-108 | What the actuator sends for a command's frame, acknowledgement or refusal, carries that command's wire ids and direction |
| `Actuation.TruncationConfuses` | crates/common/src/twin_runtime/controller/actuation_manager.rs:54-62 | Two sequence numbers of a session agree at wire width if and only if their distance is a multiple of 2^32, across the wrap-around of the counter |
| `Actuation.CommandsAreConsecutive` | crates/common/src/twin_runtime/controller/actuation_manager.rs:76-124 | Commands leave in the order of the requests, headlamp commands numbered consecutively with wrap-around |
| `Actuation.EveryRequestIsSent` | crates/common/src/twin_runtime/controller/actuation_manager.rs:76-140 | Each request of an action sequence is carried out by one command, at its place, in its direction, headlamp commands under their consecutive numbers; nothing else is sent |
| `Actuation.UnconnectedSends` | crates/common/src/twin_runtime/controller/actuation_manager.rs:76-140 | Without a command channel nothing is sent although headlamp requests still use up numbers; without a number source no headlamp command is sent and no number used |
| `Actuation.ActuationManager.Execute` | crates/common/src/twin_runtime/controller/actuation_manager.rs:78-140 | Sends the command an action asks for; a headlamp request uses up one number |
| `HeadlampWire.CodecRoundTrip` | crates/vehicle_device_bus/src/devices/front_headlamp/codec.rs:18-35 | Every payload survives encoding and decoding |
| `HeadlampWire.DecodedBytes` | crates/vehicle_device_bus/src/devices/front_headlamp/codec.rs:26-35 | Decoding fails exactly on fewer than eight bytes and loses nothing of the first seven |
| `HeadlampWire.EncodePayload` | crates/vehicle_device_bus/src/devices/front_headlamp/codec.rs:18-24 | The buffer filled in place has eight bytes: kind, session in two and sequence in four bytes most significant first, and zero |
| `HeadlampWire.DecodedIsLaidOut` | crates/vehicle_device_bus/src/devices/front_headlamp/codec.rs:26-35 | What is decoded from eight bytes or more is the kind and the big-endian sums standing in them |
| `HeadlampWire.FramesOnTheBus` | crates/vehicle_device_bus/src/devices/front_headlamp/can.rs:11-93 | Command, acknowledgement and refusal frame of each headlamp command, byte by byte: identifier 0x204, kinds 0x01, 0x02, 0x81, 0x82, 0xC1, 0xC2, the low bytes of session and sequence most significant first; a wiper command has none |
| `HeadlampWire.FrameMeaning` | crates/vehicle_device_bus/src/devices/front_headlamp/codec.rs:26-50 | A frame speaks to the twin exactly if it has the standard identifier 0x204 and eight bytes or more, and then confirms or rejects, on or off, exactly by its kind byte |
| `HeadlampWire.FrameCommand` | crates/vehicle_device_bus/src/devices/front_headlamp/can.rs:95-123 | A frame commands the actuator exactly with kind byte 0x01 (on) or 0x02 (off), under the session and sequence standing in its bytes |
| `HeadlampWire.CommandSurvivesWire` | crates/vehicle_device_bus/src/devices/front_headlamp/can.rs:41-108 | The actuator's rebuilt command has the direction and wire ids of the one sent |
| `HeadlampWire.ProjectedEventsAreExternal` | crates/common/src/twin_runtime/connectors/physical_to_digital.rs:11-45 | Projection fails exactly for an observed vehicle speed and never yields a lifecycle acknowledgement, a detector event or a power-on |
| `HeadlampWire.ProjectionMeaning` | crates/common/src/twin_runtime/connectors/physical_to_digital.rs:11-45 | Each reading, tick, reset, confirmation and rejection becomes the one event that means it |

## Left out

- Sockets, async runtime, channels, sinks, diagnostics text and serialization: input and output, or one-branch mappings; a send is modelled as never failing, so are the ledger and action sinks.
- The twin's identity string and its blank check, and the fleet of invariant checkers on a snapshot: `kinetic_locking` and `rpm_above_threshold` do not hold of every reachable state.
- Warning texts: a warning is a value that says what it is about, not the formatted string.
- `f64` rounding of speed: speed is an integer function of rpm with the same rounding rule. The observed vehicle-speed signal is not used by the twin and carries no value here.
- `source_id` of a correlation id: it never reaches the bus and is not compared.
- Runs beyond the saturation of a turn id or row number: the handlers are modelled there, the run results are not stated there.
- Real-time length of the headlamp acknowledgement wait: every message re-arms the timer and an elapsed wait carries no attempt, so no bound holds; the model lets an armed timer go off at any time. Timer handles are numbered without bound.
- Commit timestamps are not monotone (a spontaneous commit overtakes queued turns), so no order of the rows by time is stated.
- Equality of headlamp mirror and twinlet: local ticks, spontaneous commits and re-tells separate them.
- Alternation of wiper start and stop commands: stopping the assemblies stops a running wiper without a stop command.
- Emulators, gateway threads, front panel and the wiper bus: no logic of their own beyond the mappings.
