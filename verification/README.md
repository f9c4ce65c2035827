# Verification of the simulation core

A Dafny 4.11 model of the parts of the simulation core that keep state, with proofs of what they promise. It
covers the four-state digital event engine in both its forms, the co-simulation master with its converter and
digital participants, the durable job runtime, the job table of the service, and the XSPICE stimulus table.
`dafny verify dfyconfig.toml` checks everything.

## How it is built

Each object whose methods update fields in the source is a class (`DigitalSession`, `DigitalParticipant`,
`DacParticipant`, `AdcParticipant`, `CoSimulationScheduler`, `WaveformRecorder`, `ProductionRuntime`,
`JobTable`), and each loop is a loop. A class method is proved equal to a function on values, and the theorems
are about those functions, over all inputs, all runs or all interleavings.

| files | part of the source |
|---|---|
| `Logic`, `Circuit`, `TruthTables`, `Refinement`, `Sequential` | levels, vectors, primitives, driver resolution; exactness, monotonicity, and storage over whole input histories |
| `Kernel`, `Moments`, `Projection`, `Levelized`, `Storage`, `Transport`, `Engine` | the batch event loop, its invariants, and what it means: levelized, stored and timed |
| `Session`, `Incremental`, `Resting`, `DigitalBridge` | the resumable loop, its levelized meaning and the digital participant |
| `CoSim`, `Settling`, `Timeline`, `Accounting`, `Recorder`, `Registration`, `Scheduler` | the co-simulation master |
| `Bridges`, `Participants` | the converters, and all three participants against the contract |
| `Runtime`, `RuntimeSafety`, `RuntimeGaps`, `RuntimeTurns`, `Drain`, `RuntimeCalls` | the durable runtime as interleaved file operations, what a worker's turn leaves, and the runtime object |
| `Service`, `ServiceRuns`, `ServiceOutcomes` | the job table, all interleavings of its critical sections, and how jobs end in them |
| `Stimulus` | the stimulus table and clock events |
| `Wrappers`, `Ordering` | results, and sets in ascending order |

Conventions:

- Event times of the digital engine are whole femtoseconds, so the half-picosecond slack of the session is 500.
  Co-simulation times are whole picoseconds within 64 bits, with the saturating addition written out.
- Names, ids, requests, results, errors' texts and cache keys are numbers, 0 being the blank name; numbers are
  ordered as the names are. A participant's id is the trimmed one.
- The event heap is the sequence in which it would pop. Ordered maps are maps visited in ascending key order.
- Cancellation and timeouts are a nondeterministic `Interrupted` (or `Cancelled`) wherever the source polls.
- A record of functions, `CoSim.Behaviour`, stands for the participant trait, and `CoSim.Contract` for its
  documentation; everything about the master is proved from the contract alone.
- `lastEval`, `trace`, `log`, `was`, `requests`, `issued`, `pruned`, `moved`, `rewritten`, `recoveries` and `executed` are
  history variables: nothing reads them but the theorems. Other histories are functions of a run: `Moments.Batches` is
  what each batch of the event loop leaves, `ServiceOutcomes.HistoryOf` what became of each job's simulation.
- In the runtime every rename, file write, directory listing, file read and lock-protected look-up is one step,
  and so is every critical section of the service. `PerformAll` runs any list of steps of any processes.

What the code turned out to do, where a reader might expect otherwise:

- Gates, multiplexers and tri-state buffers report a known level exactly when every reading of their unknown
  inputs agrees on it. A demultiplexer does so unless a 0 meets an unknown select; a decoder only if it is
  disabled, knows all its inputs or knows neither address bit (`TruthTables.DemuxExactness`, `DecoderExactness`).
- Flip-flops, registers and counters are monotone in unknown inputs exactly if clock, set, reset and enable lead
  to the same decision on both sides, or to all-X on the less informed one (`Refinement.SafeControlIsExact`).
- A digital net may be bound to two input ports, which then share one register. Feed-forward links into such
  ports settle exactly if, after as many rounds as there are ranks, the sources that feed one register agree
  (`Settling.FeedForwardSettlesExactly`); two constant sources that differ never do, under any limit
  (`Participants.SharedNetNeverSettles`).
- Outputs are delayed by transport: at any time of a run a driver shows what its component made of the nets one delay
  earlier (`Transport.DriversFollow`), so pulses shorter than a delay pass.
- A clock that comes from X, or goes to X and back, triggers nothing; a flip-flop fires only on a change between known
  levels of two evaluations in a row (`Sequential.FlipFlopHolds`).
- A batch re-resolves a net if one of its events changes a driver, even if a later event of the batch changes it back
  (`Projection.StepMovesNets`).
- A job of the service cancelled before its start is shown as Running once it starts (`ServiceOutcomes.StagesAreExact`).
- An A/D converter is documented to start low; it classifies 0 V on a low output, so it starts high if both thresholds
  are at or below that (`Bridges.AdcShows`).
- Cancelling an unknown job reports that it was not found, and leaves a mark for its id.
- Dead branches: the processed-event limit, the `first.time > stop` break, `cosim_time_stalled`,
  `runtime_recovery_conflict`.
- A crash between the rename and the rewrite of a cancellation leaves a retired file that says Queued
  (`RuntimeGaps.CrashLeavesQueued`). It can be corrected later exactly if some client is still to write it, or to
  read it while it is there (`RuntimeGaps.CorrectionIsExact`). Pruning in the same window lets the job's file come
  back after its removal (`RuntimeGaps.PrunedFileComesBack`); a pruned file is gone for good exactly if no
  cancellation is between its read and its write (`RuntimeGaps.PruningIsFinal`).
- A session can be advanced half a picosecond past its stop time, but an input written there changes its net and
  schedules no output: writes reach the levelized nets exactly up to the stop time (`Resting.WritesReachExactly`).
- A session applies events up to half a picosecond after its tick, and input writes evaluate at the tick itself.
  With delays, the output of such a write is then overtaken by the older one: writes keep the projected-driver
  invariant exactly if the latest batch is not after the tick (`Incremental.WritesProjectExactly`).

## Model

| member | source | states |
|---|---|---|
| Logic.IncrementCounts | src/digital.rs:1511-1524 | a counter vector of width 1 to 64 counts modulo two to its width; the 64-bit wrap never shows through |
| Logic.ToU64 | src/digital.rs:48-59 | the bit-setting loop returns exactly the number the bits denote, or none if a bit is unknown or the vector too wide |
| Logic.BitsRoundTrip | src/digital.rs:33-59 | number to bits and back keeps the number modulo two to the width |
| Logic.ValueRoundTrip | src/digital.rs:33-59 | known bits to a number and back are unchanged |
| Logic.FromU64IsExact | src/digital.rs:33-46 | a vector is made exactly for widths 1 to 64, and denotes the value modulo two to the width |
| TruthTables.GateIsExact | src/digital.rs:164-191 | a gate outputs a known value exactly if every Boolean reading of its X and Z inputs gives that value |
| TruthTables.MuxIsExact | src/digital.rs:201-212 | the same exactness for the multiplexer |
| TruthTables.DecoderOnKnown | src/digital.rs:222-248 | on known inputs exactly the addressed output is one, if enabled |
| TruthTables.TriStateIsExact | src/digital.rs:192-200 | the same for the tri-state buffer, floating included |
| TruthTables.DemuxExactness | src/digital.rs:213-221 | the demultiplexer is exact at both outputs if and only if its select is known or its input is not 0 |
| TruthTables.DemuxIsNotExact | src/digital.rs:213-221 | otherwise all readings agree on 0 at each output, which reports X |
| TruthTables.DecoderExactness | src/digital.rs:222-248 | the decoder is exact at all outputs if and only if it is disabled, knows all its inputs, or knows neither address bit |
| TruthTables.DecoderIsNotExact | src/digital.rs:222-248 | otherwise some output on whose 0 all readings agree reports X |
| TruthTables.LatchExactness | src/digital.rs:249-260 | a D latch holding a known bit is exact if and only if its enable is known or its data differ from that bit |
| TruthTables.JKExactness | src/digital.rs:285-302 | a JK edge on a known bit is exact unless it knows the deciding input (J on a 0, K on a 1) and not the other |
| TruthTables.FlipFlopOnEdge | src/digital.rs:273-330 | on the active edge every flip-flop obeys its Boolean next-state equation; S = R = 1 gives X |
| TruthTables.AsyncWins | src/digital.rs:1455-1476 | set and reset, either of which may be unconnected, override clock and data in flip-flops and latches; unknown or contradicting ones give X |
| TruthTables.CounterCounts | src/digital.rs:360-380 | an enabled edge makes a counter of known bits count modulo two to its width |
| TruthTables.ResolveInGroups | src/digital.rs:1430-1453 | driver resolution is an associative join |
| TruthTables.ResolveIgnoresOrder | src/digital.rs:1430-1453 | and does not depend on the order of the drivers |
| TruthTables.ResolveIsExact | src/digital.rs:1430-1453 | a net takes 0, 1 or Z exactly if some driver drives it and every other one drives the same or floats |
| Circuit.ResolveNet | src/digital.rs:1430-1453 | the early-exit loop computes the contention semantics: X dominates, 0 against 1 is X, Z yields |
| Circuit.ResolveMonotone | src/digital.rs:1430-1453 | resolution is monotone in the information order |
| Refinement.EvaluateMonotone | src/digital.rs:158-388 | every primitive is monotone in inputs and stored state, the edge-triggered ones under safe control |
| Refinement.SafeControlIsExact | src/digital.rs:273-388 | over all data and stored states, an edge-triggered primitive is monotone if and only if its control is safe |
| Refinement.UnknownClockBreaks | src/digital.rs:273-284 | a D flip-flop whose clock goes from X to 1: a held 0 against a captured 1 |
| Refinement.UnknownResetBreaks | src/digital.rs:360-380 | a counter whose reset goes from X to 1: a held 1 against a cleared 0 |
| Sequential.RunRemembersClock | src/digital.rs:273-378 | after any evaluations the stored clock is the one the last of them read |
| Sequential.FlipFlopHolds | src/digital.rs:273-330 | after any evaluations, known inputs or not, a D, JK, T or SR flip-flop holds what its last decision (set or reset, or an active clock edge with deciding data) made of it, inverted as often as it was told to toggle since |
| Sequential.DFlipFlopHoldsLastDatum | src/digital.rs:273-284 | without set and reset a D flip-flop holds the datum of the last active edge |
| Sequential.LatchHolds | src/digital.rs:249-272 | after any evaluations a latch holds what last set, cleared, opened or forced it made of it |
| Sequential.RegisterHolds | src/digital.rs:331-359 | every bit of a register of any width is the datum of the last enabled edge, 0 since a reset, or X since an edge under an unknown enable |
| Sequential.CounterHolds | src/digital.rs:360-380 | a counter shows the number of enabled edges since its last clearing, or its initial value and those, modulo two to its width; X since an edge under an unknown enable |
| Sequential.OutputsShowStore | src/digital.rs:1496-1502 | the outputs are the stored level and its complement, or the stored bits |
| Kernel.StepReady | src/digital.rs:626-712 | scheduled = processed + queued = sequence at every batch boundary, so the processed-event limit test cannot fire |
| Kernel.Process | src/digital.rs:1256-1321 | the loop terminates even through zero-delay feedback, works off everything due, and can fail only by the event limit |
| Projection.StepKeepsBase | src/digital.rs:646-685 | after every batch each driven net is its drivers resolved, or X with all drivers still Z; the queue stays ordered and never passes stop |
| Projection.StepKeepsInv | src/digital.rs:646-711 | after every batch the pending events of an evaluated gate lead its drivers to the gate's outputs on the present nets, and those of a storage element, evaluated or not, to the level it stores, its complement or its bits |
| Projection.EvaluationRestores | src/digital.rs:1323-1356 | evaluating the dependents of changed nets restores that invariant for every gate and storage element |
| Projection.ProcessKeepsInv | src/digital.rs:626-712 | and so does the whole loop |
| Projection.StepStores | src/digital.rs:688-711 | a batch stores in each affected component what its evaluation on the nets the batch leaves yields, and in no other |
| Projection.NothingPendingShows | src/digital.rs:1526-1537 | with nothing pending, storage elements drive what they store, from start-up on |
| Projection.StepMovesNets | src/digital.rs:630-676 | a batch moves a net, to its drivers resolved, exactly if one of its events changes a driver of that net |
| Storage.EngineStores | src/digital.rs:511-712 | at the end of any run every latch, flip-flop, register and counter holds what the waveform of the nets makes of it from its first known input on, and drives that |
| Storage.SessionStores | src/digital.rs:1186-1356 | so it does after any advances and input writes of a session, whatever their times |
| Storage.FlipFlopsSample | src/digital.rs:273-284 | a D flip-flop ends any run holding and driving what its data net was when its clock net last rose (or fell) |
| Transport.DriversFollow | src/digital.rs:626-712 | at every time of every run, of any circuit, each driver shows what the history of the nets demands one delay later (a gate its function, a storage element its state, a source its wave), and each net is its drivers resolved |
| Transport.EdgesAreAWave | src/digital.rs:2105-2138 | the edges of a clock make a periodic wave, whose level at any time of the run is given in closed form |
| Transport.SessionDriversFollow | src/digital.rs:1186-1356 | the same at every tick of every session whose event times are whole picoseconds, input writes included in the history |
| Transport.SessionSourcesOnTime | src/digital.rs:1120-1245 | so clocks and constants drive in every session, half a picosecond after its tick, whatever is advanced and written |
| Levelized.EventDrivenEqualsLevelized | src/digital.rs:626-712 | for acyclic single-driver zero-delay combinational circuits every Ok run ends with each net equal, up to buffering, to one topological pass |
| Levelized.KnownOutputsSurviveRefinement | src/digital.rs:158-272 | known nets of the levelized result survive any refinement of X source values |
| Levelized.ClockEdgesOrdered | src/digital.rs:2105-2138 | clock edges come strictly later, alternate and stay within the run |
| Engine.Run | src/digital.rs:511-750 | the batch loop ends with the nets of the specification, or its error; every reported history rises strictly and says of every time exactly what the net was then; the `first.time > stop` break is dead |
| Engine.ScheduleClock | src/digital.rs:2081-2140 | the loop schedules exactly the specified edges |
| Engine.UpdateNets | src/digital.rs:662-691 | resolves the touched nets, records them from the batch's time on and nothing else, within budget, and collects exactly the dependents of changed nets |
| Engine.PushGoesOn | src/digital.rs:2171-2182 | a pushed value holds from its time on, and what the history says of earlier times stays |
| Session.DigitalSession.ProcessUntil | src/digital.rs:1256-1321 | the resumable loop equals the specification's loop up to half a picosecond past the target |
| Session.DigitalSession.EvaluateComponents | src/digital.rs:1323-1356 | evaluates the listed components in order, equal to the specification |
| Session.DigitalSession.AdvanceTo | src/digital.rs:1186-1210 | rejects going back or past stop, changing nothing, else processes and sets the clock; any error leaves the clock |
| Session.DigitalSession.WriteExternal | src/digital.rs:1212-1245 | rejects wrong times and nets, changing nothing, is a no-op on an equal value, else sets the net, evaluates its dependents and settles |
| Session.DigitalSession.NextEventTime | src/digital.rs:1180-1184 | the earliest event rounded up to a tick, as specified |
| Session.DigitalSession.Initialize | src/digital.rs:1120-1178 | start-up schedules sources and stored outputs but evaluates no gate, as in the batch engine |
| Incremental.IncrementalEqualsBatch | src/digital.rs:1186-1210 | any legal sequence of advances equals one `process_until` to the last target; any other sequence is an error |
| Incremental.SessionEqualsEngine | src/digital.rs:1256-1321 | a session without input writes that reaches stop ends in the batch engine's very state |
| Incremental.SessionFromStart | src/digital.rs:1186-1245 | from start-up, after any advances and writes: net/driver consistency and no overdue event; proved for whole-picosecond times, also the projected-driver invariant |
| Incremental.SessionKeepsProjection | src/digital.rs:1212-1245 | the projected-driver invariant across any sequence of session operations |
| Incremental.WriteKeeps | src/digital.rs:1212-1245 | a write changes only its own undriven net among the undriven ones, reports exactly whether it changed it, and leaves every pending event more than half a picosecond ahead |
| Incremental.ProcessKeepsUndriven | src/digital.rs:1284-1316 | external-input nets change only through `write_external` |
| Incremental.NextEventIsFuture | src/digital.rs:1359-1382 | the reported next event is strictly in the future and less than a tick after the event |
| Incremental.AdvanceInTime | src/digital.rs:1256-1268 | under a caller that never passes the reported event, every batch is applied at most half a picosecond before and less than one after its time |
| Incremental.WriteInTime | src/digital.rs:1212-1245 | so are the batches an input write brings about |
| Incremental.WritesProjectExactly | src/digital.rs:1212-1245 | input writes keep the projected-driver invariant, in every circuit and state, if and only if the latest batch was not after the session's tick |
| Incremental.LateWriteIsOvertaken | src/digital.rs:1212-1245 | at every tick and later batch, a delayed buffer whose written input's output is followed by the older one |
| Resting.SessionStaysLevelized | src/digital.rs:1186-1245 | after any successful advances, and input writes by the stop time, an acyclic zero-delay session's nets equal, up to buffering, one topological pass from its present input and source values, whatever the event times |
| Resting.RestIsOnePass | src/digital.rs:1256-1321 | so they do in every such session with consistent nets and gates at rest |
| Resting.WritesReachExactly | src/digital.rs:1186-1245 | writes at a tick take every such session to one pass if and only if the tick is not after the stop time |
| Resting.KnownNetsSurviveInputs | src/digital.rs:1212-1245 | nets known in such a session stay as they are in one whose inputs and sources say more |
| Resting.LateWriteIsLost | src/digital.rs:1194-1196 | at every tick after the stop time, a buffer whose written input does not reach its output |
| CoSim.CheckLinkIsExact | src/cosim.rs:406-481 | a link passes exactly if both ports exist, the source can be read and the target written, and domain and analog unit agree |
| CoSim.CheckLinksIsExact | src/cosim.rs:406-481 | link validation accepts exactly the lists of such links with distinct targets |
| CoSim.NextTime | src/cosim.rs:484-502 | the next macro time is the greatest one within a full step, the stop time and every reported event: it is later, passes none of them, and reaches one |
| Settling.SettledOnReturn | src/cosim.rs:505-577 | any Ok return, cyclic links and shared registers included, leaves every link's target input equal to its source output, of the source port's domain |
| Settling.FeedForwardSettlesExactly | src/cosim.rs:505-577 | links that raise a rank of at most R settle, under any limit above R, if and only if after R rounds the sources that feed one register agree (unless a participant fails); they take at most R changing rounds |
| Settling.FeedForwardConverges | src/cosim.rs:505-577 | for sources that settling cannot change, agreement can be read off beforehand |
| Settling.WriteAllDelivers | src/cosim.rs:545-565 | after the writes of a round every target input holds the value read before any write, of the last link into its register |
| Settling.SettleKeeps | src/cosim.rs:505-577 | settling keeps every participant valid, at its time and with its ports, so the time check inside it cannot fire |
| Timeline.WholeRun | src/cosim.rs:304-404 | on Ok the macro times rise strictly from 0 to exactly stop, each the greatest one that the step, the stop time and the reported events allow, everyone shares the time at each record, and all statistics bounds hold; stalled time and contract complaints are unreachable |
| Timeline.QuietRun | src/cosim.rs:484-502 | without reported events a run takes full steps only, and so stop divided by the step, rounded up, of them |
| Timeline.RefusalIsExact | src/cosim.rs:171-198 | a run is refused before it starts exactly if a limit is zero, there is no participant, or the links are not valid |
| Accounting.WholeRunAccounts | src/cosim.rs:304-404 | in any successful run, of any participants, each is initialized once and advanced once per macro step, each record is what the rounds up to the first idle one make of them, and the three counters count exactly these |
| Timeline.MacroStepKeeps | src/cosim.rs:330-378 | one macro step keeps all of that; it reports the step limit exactly if all steps are used up |
| Timeline.WholeRunSettled | src/cosim.rs:304-404 | in a successful run every link's target holds its source's output at every record |
| Recorder.AppendKeepsFaithful | src/cosim.rs:775-801 | one more sample keeps the digital code strictly rising, alternating and decodable to every sample, and the analog arrays the exact sample list |
| Recorder.WholeRunIsRecorded | src/cosim.rs:713-812 | a successful run reports one signal per readable port, each holding exactly the port's values at the records |
| Recorder.NewRecorderIsFresh | src/cosim.rs:713-759 | the recorder starts with one empty signal for each readable port and no other |
| Registration.RegistrationIsExact | src/cosim.rs:277-302 | registrations succeed exactly if every participant is acceptable by itself and no id is claimed twice, and then hold exactly what was registered |
| Registration.RegistrationOrderIrrelevant | src/cosim.rs:277-302 | permuted registrations agree on success and, if successful, on the report or the error |
| Registration.SortForgetsOrder | src/cosim.rs:414-415 | sorting the links forgets their order of connection |
| Registration.SortOrders | src/cosim.rs:414-415 | links are worked off by source, and for one source by target |
| Registration.ValidatePortsIsExact | src/cosim.rs:580-633 | port validation accepts exactly the lists of fit ports with distinct names |
| Scheduler.CoSimulationScheduler.AddParticipant | src/cosim.rs:277-297 | registers as specified, changing nothing on an error |
| Scheduler.CoSimulationScheduler.SortedLinks | src/cosim.rs:406-481 | the validation loop equals the specification |
| Scheduler.CoSimulationScheduler.TimeAfter | src/cosim.rs:484-502 | the minimum loop returns that greatest time |
| Scheduler.CoSimulationScheduler.SettleLinks | src/cosim.rs:505-577 | read-all-then-write-all rounds over the mutable participants equal the specification |
| Scheduler.CoSimulationScheduler.Run | src/cosim.rs:304-404 | the imperative run equals the specification `Simulate`: statistics, signals, participants and errors |
| Scheduler.WaveformRecorder.RecordAll | src/cosim.rs:761-812 | samples every signal in place as specified |
| Bridges.DacParticipant.WriteInput | src/cosim_bridge.rs:156-198 | each check in order, an equal level is a no-op, else the output voltage follows the level; nothing changes on an error |
| Bridges.AdcParticipant.WriteInput | src/cosim_bridge.rs:311-353 | each check in order, an equal voltage is a no-op, else the level is classified with hysteresis; nothing changes on an error |
| Bridges.DacShows | src/cosim_bridge.rs:119-198 | after any calls a D/A converter hands out the voltage of the level last written since its start, low before that, at the time last reached |
| Bridges.AdcShows | src/cosim_bridge.rs:269-368 | and an A/D converter the level that the voltages written since its start say, with hysteresis |
| Bridges.DacAccepts | src/cosim_bridge.rs:156-198 | it takes exactly 0 and 1, at its input and its current time, and reports exactly the changes |
| Bridges.AdcAccepts | src/cosim_bridge.rs:311-353 | an A/D converter takes exactly voltages, likewise |
| Bridges.AdcRemembers | src/cosim_bridge.rs:355-368 | after any writes the output is what the last value outside the thresholds said, or the initial level |
| Bridges.NewAdc | src/cosim_bridge.rs:216-245 | construction succeeds exactly for a named converter with low below high |
| DigitalBridge.NewDigitalIsExact | src/digital.rs:826-909 | construction succeeds exactly for a named participant with at least one binding, of distinct ports on existing nets, inputs on undriven ones |
| DigitalBridge.NewDigitalIsMade | src/digital.rs:826-909 | accepted bindings have known nets, undriven inputs and ports the master accepts |
| DigitalBridge.DigitalParticipant.Initialize | src/digital.rs:929-944 | a new session opened by an advance to time zero; after an error the participant and its old session, if any, are as they were |
| DigitalBridge.DigitalParticipant.WriteInput | src/digital.rs:981-1011 | each check in order, then the session's write |
| DigitalBridge.WriteRefusals | src/digital.rs:981-1011 | a write to a bound input port is accepted only at the session's time and for a level; such a write is refused only if the session fails while it changes the input |
| DigitalBridge.ReadsBack | src/digital.rs:960-1011 | a level written to an input port is read back at an output port on the same net |
| DigitalBridge.ReadsOnePass | src/digital.rs:960-979 | in an acyclic zero-delay circuit at rest an output port hands out one topological pass of the present inputs |
| DigitalBridge.WriteSpares | src/digital.rs:981-1011 | a write shows at the input ports on its net and spares every other one |
| Participants.MeetsContract | src/cosim.rs:213-256 | converters and digital sessions meet the participant contract |
| Participants.MeetsRegisters | src/cosim.rs:213-256 | their inputs are registers with exact change reports, the input ports on one digital net sharing one |
| Participants.SharedNetIsNoRegister | src/digital.rs:826-909 | a concrete participant with one net at two ports, whose inputs are not independent |
| Participants.SharedNetNeverSettles | src/cosim.rs:505-577 | concrete valid feed-forward links from two converters into it that hit every limit |
| Participants.WholeRunInTime | src/digital.rs:1359-1382 | in every successful co-simulation every digital event is applied within -0.5 ps and +1 ps of its time |
| Participants.BridgesSettled | src/cosim.rs:505-577 | whatever the links between these participants, an Ok settling ends with all of them settled |
| Participants.BridgesStaySettled | src/cosim.rs:304-404 | so they are at every record of every successful co-simulation |
| Participants.BridgesConvert | src/cosim.rs:304-404 | at every record each converter hands out the conversion of what it was last handed, and output ports the nets of their inputs; values pass only through ports declared for them, in their domains |
| Participants.BridgesConverge | src/cosim.rs:505-577 | acyclic links between them settle within the longest rank exactly if, after that many rounds, sources linked to ports on one net agree |
| Runtime.SameKeySameRun | src/runtime.rs:1112-1145 | with a collision-free digest, equal cache keys mean equal request, executor, descriptors and policy, and conversely |
| RuntimeSafety.OnePlacePerJob | src/runtime.rs:643-971 | in every interleaving each job is in at most one directory, in exactly one until pruned, and in the hands of at most one worker |
| RuntimeSafety.AttemptsAreBounded | src/runtime.rs:798-935 | no job is attempted more than the maximum plus once per recovery |
| RuntimeSafety.RetriesAreUsedUp | src/runtime.rs:857-899 | a job says Failed with a retryable failure only after the maximum of attempts, never for a reported cancellation, and shows no error if it ended otherwise or is running |
| RuntimeSafety.ResultsAreHonest | src/runtime.rs:798-961 | every Succeeded job, cache hit or not, shows a result the executor returned for a request with its cache key; with a collision-free digest, for its own request |
| RuntimeSafety.StatusMatchesPlace | src/runtime.rs:710-949 | queued files say Queued; a retired file shows an end if and only if it is not between the rename and the rewrite of a cancellation, when it says Queued; a rewritten one says Cancelled |
| RuntimeSafety.RewrittenStaysCancelled | src/runtime.rs:710-748 | a job whose cancellation was written stays retired, and any file of it says Cancelled, in every continuation |
| RuntimeGaps.CrashLeavesQueued | src/runtime.rs:710-748 | eleven actions, under any limits, that end in a retired file saying Queued |
| RuntimeGaps.StrandedForever | src/runtime.rs:710-748 | once no client is left to rewrite it, it says Queued in every continuation |
| RuntimeGaps.CorrectionIsExact | src/runtime.rs:710-748 | a moved job can still be rewritten if and only if a client has yet to write its file, or to read it while it is there |
| RuntimeGaps.PruningIsFinal | src/runtime.rs:963-974 | a pruned job without a file stays without one in every continuation if and only if no cancellation is between the read and the write of that file |
| RuntimeGaps.PrunedFileComesBack | src/runtime.rs:963-974 | a run in which one was, and the file returns |
| RuntimeSafety.RecoveryStepKeepsInv | src/runtime.rs:750-771 | recovery keeps the invariant, and its conflict branch is dead |
| RuntimeSafety.AlwaysInv | src/runtime.rs:643-974 | the protocol invariant in every reachable state |
| RuntimeTurns.TurnLeaves | src/runtime.rs:798-949 | from any safe state an undisturbed turn takes the first queued job and leaves it, in terms of the files: answered from the cache; Cancelled and unmarked; Succeeded and cached; queued again with its error, if that is retryable and attempts are left; or ended with its failure |
| RuntimeTurns.EveryTurnLeaves | src/runtime.rs:798-949 | so does a worker left alone for a turn in every reachable world |
| RuntimeTurns.ExecutorIsTold | src/runtime.rs:811-820 | when the executor starts, its token is cancelled exactly if the job is marked |
| RuntimeTurns.AlwaysRegistered | src/runtime.rs:811-843 | in every interleaving an executor runs under the very token that is registered for its job, which is the one a cancellation signals |
| Drain.DrainReturnsAtMost | src/runtime.rs:773-796 | a drain completes at most the sum of max(1, maximum - attempts) over the jobs queued at its start |
| Drain.DrainTerminates | src/runtime.rs:773-796 | its workers together take a bounded number of steps, however cancellations interleave |
| Drain.OkDrainLeavesNothing | src/runtime.rs:773-796 | when every worker returns Ok, the queue is empty and exactly the files running before the drain are running, unchanged |
| Drain.WorkerStepCosts | src/runtime.rs:798-899 | a worker step turns cost into completed runs, never creates any, and always progresses |
| RuntimeCalls.ProductionRuntime.ClaimNext | src/runtime.rs:915-935 | run alone, makes exactly the model's steps from listing to the claimed job |
| RuntimeCalls.ProductionRuntime.RunNext | src/runtime.rs:798-899 | run alone, makes exactly the model's steps of one worker turn, keeps every job's one place and honest contents, and leaves the first queued job as its outcome demands |
| RuntimeCalls.ProductionRuntime.Submit | src/runtime.rs:643-692 | makes exactly the model's steps and keeps that; a cached request is answered and retired at once, another is queued, if there is room |
| RuntimeCalls.ProductionRuntime.Cancel | src/runtime.rs:710-748 | makes exactly the model's steps and keeps that; a queued job is retired as Cancelled, for another its token is cancelled and, unless it has ended, its mark set |
| RuntimeCalls.ProductionRuntime.RecoverIncomplete | src/runtime.rs:750-771 | makes exactly the model's steps and keeps that; queues every running job again, without a result, and leaves the queued ones |
| RuntimeCalls.ProductionRuntime.PruneTerminal | src/runtime.rs:963-974 | makes exactly the model's steps and keeps that; removes just the files too many, the first in name order |
| RuntimeCalls.SoloKeepsSafe | src/runtime.rs:798-949 | however a worker's calls end, input/output errors included, every job keeps its one place |
| RuntimeCalls.SoloIsPerformed | src/runtime.rs:798-949 | a worker's steps alone are steps of the interleaved model, in any world |
| RuntimeCalls.SoloClientIsPerformed | src/runtime.rs:643-748 | so are a client's |
| RuntimeCalls.SoloRecoveryIsPerformed | src/runtime.rs:750-771 | and recovery's |
| Service.JobTable.SubmitJob | src/service.rs:372-414 | prunes, then inserts if there is room, else reports a full queue |
| Service.JobTable.CancelJob | src/service.rs:513-525 | marks and signals a job that has not ended, and only that |
| Service.PruneTerminalKeeps | src/service.rs:416-431 | pruning removes only ended jobs; a table still full holds only jobs that have not |
| Service.PruneOldestFirst | src/service.rs:416-431 | and it removes the oldest of them |
| ServiceRuns.TerminalIsAbsorbing | src/service.rs:433-593 | in every interleaving an ended job never changes again; it can only be evicted for good |
| ServiceRuns.ActiveIsNeverEvicted | src/service.rs:389-431 | a job that has not ended is never evicted |
| ServiceRuns.LimitsHold | src/service.rs:389-479 | the table never exceeds its limit, nor the running simulations the permits |
| ServiceRuns.CancelledStaysCancelled | src/service.rs:513-593 | a job cancelled before it ended never shows a result, and ends as Cancelled or by a worker failure |
| ServiceOutcomes.EndsAreExact | src/service.rs:433-593 | in every interleaving an ended job shows a result exactly if its simulation returned it and it was not cancelled by then, and is Failed or Cancelled exactly for the corresponding reasons |
| ServiceOutcomes.StagesAreExact | src/service.rs:433-533 | until then it is shown as Queued, Running or Cancelling exactly as its runner and its cancellation say |
| ServiceRuns.NotStuck | src/service.rs:433-479 | while a job in the table has not ended, some task can move |
| ServiceRuns.QuietMeansEnded | src/service.rs:433-479 | when no task can move, every job in the table has ended |
| ServiceRuns.TaskStepsAreBounded | src/service.rs:433-479 | all tasks together take at most the rank of the present ones plus seven steps for each accepted submission |
| Stimulus.CompileStimulus | src/xspice.rs:727-774 | one row per distinct event time, in order, each showing every source; an error only if there are too many |
| Stimulus.MergeIsLossless | src/xspice.rs:727-774 | reading a source's column at any time gives that source's state at that time |
| Stimulus.ClockEvents | src/xspice.rs:776-816 | the loop returns the initial value followed by exactly the clock's edges, or one of its two errors |
| Stimulus.ClockIsPeriodic | src/xspice.rs:776-816 | the state they give at any time of the run is that of a periodic wave, in closed form |
| Stimulus.ClockIsWellTimed | src/xspice.rs:776-816 | clock events rise strictly from zero, alternate and stay within stop, so they are fit for merging |

## Left out

- Floating point: times, voltages and thresholds are integers or reals, so rounding, infinities, NaN, the bit
  patterns of zero and the finiteness checks on values are not modelled; in exact arithmetic the branch that
  moves a rounded-down event to the following tick is never taken.
- Circuit validation, parameter parsing and compilation: the model starts from a compiled, well-formed program.
- Probes, diagnostics, reports, waveform naming and the text of errors and of the stimulus table.
- The heap's internal layout: the queue is kept as the sequence in which it would be popped.
- The recorder's ordered map of signals: the model keeps the same signals as a sequence in key order.
- What an operation leaves behind after an error: a session call that was rejected or a failed initialization
  changes nothing, but what an event limit or an interruption leaves half done, in a session or in the
  scheduler and its participants, is not specified; only the error is.
- Participants owned by the scheduler are values in its map: aliasing between participants is not modelled.
- Directory listings are taken as one step, and file contents as always readable once written.
- Temporary files of atomic writes, directory creation and the content-addressed artifact store.
- Recovery beside live workers on the same root, two roots, and reuse of job ids are assumed not to happen.
- Engine descriptors are taken as already sorted; only where a row says so is the digest collision-free.
- The process isolation of workers: an execution returns a result, an error or a panic.
- `drain` as one call: its workers, the waiting for them and the final pruning are separate processes of the model.
- HTTP, WebSocket and event broadcasting of the service; its closing gate is a nondeterministic failure.
- The ngspice, Verilator, Renode and mixed-signal adapters, VCD and log reading: input/output around solvers.
- ServiceRuns.TaskStepsAreBounded: bounds the steps taken; that every task which can move is scheduled in the end is not part of the model.
