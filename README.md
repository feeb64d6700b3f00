# Production line simulation — a verified model

This project models `ProductionLineSimulation`, a discrete-event simulation of a
six-stage production line built on a process-based event library. The line has
nine single-capacity machines ("workstations") and five buffers of capacity 5:

- stage 1 runs on workstation 0;
- stages 2, 3 and 5 each run on one of two parallel workstations;
- stages 4 and 6 run on a single workstation;
- buffer `b` sits between stage `b + 1` and stage `b + 2`.

An arrival generator creates parts at random intervals. Each part runs a
process that walks the six stages:

1. take a unit from the stage's input buffer;
2. queue for a machine chosen at random among the stage's candidates;
3. hold the machine for a processing time of at least one time unit;
4. release the machine and put a unit into the stage's output buffer.

Statistics record produced parts, parts in the system, busy time per
machine, buffer levels, queue times and cycle times. A cooperative stop
protocol lets `request_stop` end a run early:

- a flag is polled after every resumption;
- a one-shot event wakes a monitor process that ends the run;
- a latch carries a request made outside a run into the next run.

## Structure

The model is layered.

- `Topology` holds the route table (`process_routes`) and the stage table (`process_stages`): the candidates of each stage and the buffers before and after it.
- `Statistics` holds the statistics record and `get_statistics` as a pure function over `real`.
- `StopLatch` holds the stop flag, the stop event (`NoEvent`, `Pending`, `Triggered`), the pre-run latch and `stopped_early`. It models `request_stop`, the latch set-up at the start of `run`, the stop monitor and the end of `run`.
- `LineModel` holds the state of the whole line:
  - the latch;
  - the clock;
  - the part counter and the statistics;
  - the aborted set;
  - buffer levels and machine holders;
  - one program counter per part process and one state per arrival generator;
  - the event log.

  It has one step function per way the line can move on. An outside call (`RequestStop`, `BeginRun`) is one step. Ending a run is one step: `StopMonitor`, or `ReachHorizon` when the horizon is reached. The resumption of one suspended process, up to its next suspension, is one step: `ResumePart` or `ResumeGenerator`. A step of `ResumePart` completes the awaited operation (a buffer get or put, a machine grant, a timeout), polls the stop flag, and runs the code up to the next `yield`. `Step`, `Next` and `Execute` combine these steps into runs. The random draws are parameters of the steps that use them, and the choice of the next step is left to the caller. If a buffer get, a buffer put or a machine grant could not complete yet, that step is not enabled. A timeout may fire only at or after the current time, and firing moves the clock to its due time.
- `LineInvariant` defines the invariant `Valid` and proves that every step keeps it. The invariant says:
  - buffer levels and recorded levels stay within capacity;
  - a machine is held exactly by the one part processing on it;
  - the in-system and produced counters equal the number of live and finished parts;
  - `part_counter` equals the number of parts created;
  - each part's `part_aborted` records number one if it is aborted and zero otherwise;
  - the machines each part has queued for follow the stage table in order;
  - no recorded queue time or cycle time is negative;
  - a free machine's booked busy time is at most the clock, and a held machine's at most the due time of its holder's timeout.
- `LineProperties` holds the consequences:
  - conservation of parts;
  - machine exclusivity;
  - routes of finished parts;
  - a clock that never goes back and a log that only grows;
  - what a stop does and how it ends arrivals;
  - the bookkeeping of a grant, a finish and an arrival;
  - the utilization bound for a free machine, and a run whose report shows a utilization above 1;
  - that a step of one part never touches another part.
- `Simulation.ProductionLineSimulation` is the class. Its fields are the attributes `simulation.py` updates in place, plus the clock, buffer levels, machine holders and process states that the event library keeps. The step methods (the constructor, `RequestStop`, `BeginRun`, `StopMonitor`, `ReachHorizon`, `ResumePart` and `ResumeGenerator`) change them exactly as the matching step function of `LineModel` does (`ensures Model() == LineModel.F(old(Model()), …)`) and keep `Valid()`. The helper methods they call (`HandlePartAbort`, `EnterStage`, `CompleteGet`, `WakeGenerator` and the rest) keep no invariant of their own; each only states how it changes the fields, in terms of the `LineModel` functions it models.

Part `i` of the model's sequence of parts has id `i + 1`, the value of the counter when it was created.

### Behaviour of the code worth knowing

- `run` does not reset the statistics, the clock or `part_counter`. A second run continues the first one's line, and processes left suspended by the first run resume in the second. The model keeps all state across runs.
- A `request_stop` after a run has ended is not a no-op, because the event is gone. The request is latched, and the next run starts stopped (`StopLatch.StopAfterRunStopsNextRun`).
- A second `request_stop` during a run finds the event already triggered, so it also sets the pre-run latch. This carries the stop into the next run (`StopLatch.SecondStopDuringRunCarriesOver`).
- The run ends when the monitor wakes. Parts that have not resumed since the stop stay live and stay counted in the system. The code does not guarantee that every part in the system has aborted before the run ends; the model's `MonitorStep` may follow a `RequestStop` straight away.
- `part_process` adds the whole processing time to the machine's busy time when the machine is granted (`simulation.py:218`), before the timeout (`simulation.py:221`). A run that ends, at the horizon or by a stop, while a machine is still processing therefore reports a utilization above 1 for it (`LineProperties.HeldMachineUtilizationAboveOne`). For a machine that is free when the run ends, the utilization is between 0 and 1 (`LineProperties.FreeMachineUtilization`).

## Model

| member | source | states |
|---|---|---|
| Topology.Candidates | backend/simulation.py:91-98 | every stage has one or two candidate workstations, all among the nine machines |
| Topology.CandidatesFollowRoutes | backend/simulation.py:148-155 | the candidates of stage `k` are the route-table entry named by row `k` of the stage table |
| Topology.BufferBefore | backend/simulation.py:148-155 | exactly the stages after the first take from a buffer, and that buffer is the one the previous stage puts into |
| Topology.BufferAfter | backend/simulation.py:148-155 | exactly the stages before the last put into a buffer, which is one of the five |
| Topology.BufferLinksOnePair | backend/simulation.py:148-155 | buffer `b` is filled only by stage `b` and drained only by stage `b + 1` |
| Topology.WorkstationServesOneStage | backend/simulation.py:91-98 | no workstation is a candidate of two stages |
| Topology.EveryWorkstationIsUsed | backend/simulation.py:91-98 | each of the nine workstations is a candidate of some stage |
| Statistics.InitialStats | backend/simulation.py:41-49 | zero counters, nine zero busy times, five zero buffer levels, no samples |
| Statistics.Mean | backend/simulation.py:333-334 | the mean of the empty list is 0 and otherwise times the count gives the sum |
| Statistics.Ratio | backend/simulation.py:332 | a ratio over a non-positive total is 0 and otherwise times the total gives the numerator |
| Statistics.GetStatistics | backend/simulation.py:324-340 | the report carries the time, the counts and the buffer levels; throughput and each of the nine utilizations are zero-guarded ratios over the time; the cycle-time and queue-time averages are zero-guarded means |
| Statistics.MeanBounds | backend/simulation.py:333-334 | the mean of samples between two bounds lies between them |
| Statistics.MeanNonNegative | backend/simulation.py:333-334 | the mean of non-negative samples is non-negative |
| Statistics.IdleLineReport | backend/simulation.py:41-49 | with no parts yet the report shows zero produced, zero in system, zero throughput and averages, and zero utilization |
| StopLatch.InitialLatch | backend/simulation.py:26-31 | a new simulation has no stop requested, nothing latched, no event |
| StopLatch.Succeed | backend/simulation.py:274 | only an untriggered event can be triggered, so no event is ever triggered twice |
| StopLatch.RequestStop | backend/simulation.py:302-308 | the flag is raised; a pending event is triggered and otherwise the request is latched; the protocol's consistency is kept |
| StopLatch.BeginRun | backend/simulation.py:267-277 | `stopped_early` and the latch are cleared, a fresh event is created, and the run starts stopped (event triggered) exactly when a request was latched |
| StopLatch.MonitorWakes | backend/simulation.py:296-300 | the monitor, woken by the triggered event, marks the run as stopped early |
| StopLatch.EndRun | backend/simulation.py:290-291 | leaving the run drops the event and changes nothing else |
| StopLatch.RequestStopTwice | backend/simulation.py:302-308 | a repeated request leaves the event as the first left it, so it is triggered at most once |
| StopLatch.StopBeforeRunStopsNextRun | backend/simulation.py:272-275 | a request before the first run makes that run start with the flag up and the event triggered, consuming the latch |
| StopLatch.StopAfterRunStopsNextRun | backend/simulation.py:302-308 | a request after a run ends is latched and stops the next run |
| StopLatch.SecondStopDuringRunCarriesOver | backend/simulation.py:302-308 | a second request in the same run latches, so the next run starts stopped too |
| StopLatch.SingleStopDuringRunDoesNotCarryOver | backend/simulation.py:267-277 | after a run stopped by a single request, the next run starts unstopped with a pending event |
| StopLatch.FlagMatchesEventDuringRun | backend/simulation.py:267-308 | during a run the flag is up exactly when the event has been triggered |
| LineModel.Init | backend/simulation.py:17-100 | the constructed line: a cleared stop latch (no request, no latched request, not stopped early, no event), clock 0, no parts, no log, no run, empty buffers, free machines, the initial statistics, a part counter of 0 and no aborted parts |
| LineModel.Choose | backend/simulation.py:179-180 | the chosen machine is one of the stage's candidates |
| LineModel.ProcessingTime | backend/simulation.py:203-207 | the processing time is the draw floored at one time unit |
| LineInvariant.LogEventTrails | backend/simulation.py:102-110 | logging an event of a part extends that part's record by exactly that event and leaves every other part's record as it was |
| LineModel.HandlePartAbort | backend/simulation.py:310-322 | an id already aborted changes nothing; otherwise it is marked, one `part_aborted` record is logged, and the in-system count drops by one only if positive, so it never becomes negative; nothing else changes |
| LineInvariant.InitValid | backend/simulation.py:17-100 | the constructed line satisfies the invariant |
| LineInvariant.ResumePartValid | backend/simulation.py:142-265 | resuming any part at any suspension point keeps the invariant |
| LineInvariant.StartPartValid | backend/simulation.py:144-160 | a part's first resumption keeps the invariant |
| LineInvariant.CompleteGetValid | backend/simulation.py:172-190 | completing a buffer get keeps the invariant, whether the part then aborts or queues |
| LineInvariant.CompleteGrantValid | backend/simulation.py:192-221 | completing a machine grant keeps the invariant |
| LineInvariant.StartProcessingValid | backend/simulation.py:199-221 | booking queue and busy time and taking the machine keeps the invariant |
| LineInvariant.CompleteTimerValid | backend/simulation.py:221-241 | a processing timeout firing keeps the invariant, including the release and the finish |
| LineInvariant.CompletePutValid | backend/simulation.py:237-249 | completing a buffer put keeps the invariant |
| LineInvariant.AbortPartValid | backend/simulation.py:158-160 | aborting a live part without a machine keeps the invariant and takes it off the in-system count |
| LineInvariant.EnterStageValid | backend/simulation.py:157-190 | the top of the stage loop keeps the invariant |
| LineInvariant.FinishPartValid | backend/simulation.py:251-265 | finishing a part after its sixth stage keeps the invariant |
| LineInvariant.ResumeGeneratorValid | backend/simulation.py:115-140 | resuming the arrival generator keeps the invariant |
| LineInvariant.ArrivalValid | backend/simulation.py:125-140 | creating and counting a new part keeps the invariant |
| LineInvariant.RequestStopValid | backend/simulation.py:302-308 | a stop request keeps the invariant |
| LineInvariant.BeginRunValid | backend/simulation.py:267-283 | starting a run keeps the invariant |
| LineInvariant.StopMonitorValid | backend/simulation.py:296-300 | the monitor ending the run keeps the invariant |
| LineInvariant.ReachHorizonValid | backend/simulation.py:286-291 | reaching the horizon keeps the invariant |
| LineInvariant.NextValid | backend/simulation.py:115-308 | every enabled step keeps the invariant |
| LineProperties.ExecuteValid | backend/simulation.py:115-308 | every sequence of enabled steps from a valid state ends in a valid state |
| LineProperties.ReachableValid | backend/simulation.py:17-308 | every state reachable from construction is valid |
| LineProperties.Conservation | backend/simulation.py:127-130 | produced + in system + aborted equals the parts created, and the in-system count is never negative |
| LineProperties.MachineExclusive | backend/simulation.py:52-55 | no two parts process on the same machine at once |
| LineProperties.HolderIsProcessing | backend/simulation.py:192-225 | a held machine is held by an existing part processing on it, and its booked busy time reaches no further than that part's due time |
| LineProperties.FreeMachineUtilization | backend/simulation.py:218-221 | a free machine's booked busy time is non-negative and at most the clock, so the report gives it a utilization in [0, 1] |
| LineProperties.HeldMachineUtilizationAboveOne | backend/simulation.py:218-221 | a run of six enabled steps ends at the horizon with workstation 0 still processing and reports its utilization above 1 |
| LineProperties.ReleasedBeforePut | backend/simulation.py:236-237 | a part waiting to put into a buffer holds no machine |
| LineProperties.TimerReleasesMachine | backend/simulation.py:221-233 | after its timeout fires, whatever follows, the part's machine is free |
| LineProperties.FinishedRoute | backend/simulation.py:157-192 | a finished part queued at six workstations, stage by stage, each a candidate of its stage |
| LineProperties.AbortedOnce | backend/simulation.py:310-322 | a part has one `part_aborted` record if it is aborted and none otherwise, and is in the aborted set exactly when aborted |
| LineProperties.ResumePartClock | backend/simulation.py:221 | a part's step moves the clock only when its timeout fires, to the due time |
| LineProperties.ClockMonotone | backend/simulation.py:115-308 | no step moves the clock back |
| LineProperties.ExecuteClockMonotone | backend/simulation.py:115-308 | along any run the clock never goes back |
| LineProperties.LogGrows | backend/simulation.py:102-110 | every step keeps the records logged so far |
| LineProperties.ExecuteLogGrows | backend/simulation.py:102-110 | along any run the log only grows |
| LineProperties.StopSeenAborts | backend/simulation.py:158-160 | a part resumed with the flag up aborts at once: marked, one record logged, in-system count down by one, no other statistic changed |
| LineProperties.StopPersists | backend/simulation.py:302-308 | until the next run begins the flag stays up and no part is created |
| LineProperties.NoArrivalsOnceStopped | backend/simulation.py:117-124 | once the flag is up, no part arrives for the rest of the run |
| LineProperties.HandlePartAbortIdempotent | backend/simulation.py:312-313 | handling the abort of the same part twice is the same as once |
| LineProperties.GrantBookkeeping | backend/simulation.py:195-221 | a grant without stop appends a non-negative queue time and adds a processing time of at least one unit to that machine's busy time alone |
| LineProperties.FinishBookkeeping | backend/simulation.py:251-265 | a part finishes exactly when its last stage's timeout fires with no stop; it then counts as produced, leaves the system, and its non-negative cycle time is recorded and logged |
| LineProperties.ArrivalBookkeeping | backend/simulation.py:117-140 | past the wait, an unstopped generator numbers the new part with the incremented counter, counts it in and logs it; a stopped one ends and counts nothing |
| LineProperties.ResumePartOnlyPart | backend/simulation.py:142-265 | a part's step changes no other part's state, abort mark or log records |
| LineProperties.EndedPartStays | backend/simulation.py:158-160 | a finished or aborted part is never resumed and no step changes it again |
| Simulation.ProductionLineSimulation.constructor | backend/simulation.py:17-100 | the new object is the constructed line and is valid |
| Simulation.ProductionLineSimulation.RequestStop | backend/simulation.py:302-308 | the fields change as `request_stop` does and stay valid |
| Simulation.ProductionLineSimulation.BeginRun | backend/simulation.py:267-283 | the fields change as the start of `run` does and stay valid |
| Simulation.ProductionLineSimulation.StopMonitor | backend/simulation.py:288-300 | the monitor ends the run and the statistics of the final state are returned |
| Simulation.ProductionLineSimulation.ReachHorizon | backend/simulation.py:286-294 | the run ends at the horizon and the statistics of the final state are returned |
| Simulation.ProductionLineSimulation.HandlePartAbort | backend/simulation.py:310-322 | the fields change as `_handle_part_abort` does |
| Simulation.ProductionLineSimulation.ResumePart | backend/simulation.py:142-265 | the fields change as one resumption of `part_process` does and stay valid |
| Simulation.ProductionLineSimulation.ResumeGenerator | backend/simulation.py:115-140 | the fields change as one resumption of `part_generator` does and stay valid |
| Simulation.ProductionLineSimulation.WakeGenerator | backend/simulation.py:121-140 | the fields change as the end of the generator's wait does: the loop ends if the flag is up, and otherwise a part arrives and the generator waits again |
| Simulation.ProductionLineSimulation.EnterStage | backend/simulation.py:157-190 | the fields change as the top of the stage loop does |
| Simulation.ProductionLineSimulation.CompleteGet | backend/simulation.py:172-190 | the fields change as the completion of a buffer get does |
| Simulation.ProductionLineSimulation.CompleteGrant | backend/simulation.py:193-221 | the fields change as the completion of a machine grant does |
| Simulation.ProductionLineSimulation.CompleteTimer | backend/simulation.py:221-233 | the fields change as a processing timeout firing does |
| Simulation.ProductionLineSimulation.CompletePut | backend/simulation.py:237-249 | the fields change as the completion of a buffer put does |
| Simulation.ProductionLineSimulation.FinishPart | backend/simulation.py:251-265 | the fields change as the finish bookkeeping does |

## Left out

- The event library's scheduler and event queue are left out. So are its FIFO order among simultaneous events and among processes waiting for the same machine or buffer. Any enabled step may come next, which covers every order the library can produce. Properties that depend on the fairness or order the library guarantees are not stated.
- The library raises an error when `run` is given a horizon at or before the current time. This is not modelled: `ReachHorizon` accepts any horizon not before the current time.
- The random draws are left out. The exponential inter-arrival time, the normal processing time and `random.choice` become step parameters, so the model holds for every draw. A machine choice is `Choose(candidates, pick)`.
- The model uses unbounded `real` where the source uses floating point.
- The event callback, the wall-clock timestamp of each event, and the coordinates and part-id strings (`PART-%04d`) inside the event payloads are not modelled. A log record keeps the simulated time, the event type with its numeric fields, and the part's numeric id.
- `workstation_idle` and the numeric parameters (rates and deviations) are not modelled, because nothing else in the class reads them.
- The `__main__` demonstration is not modelled.
- A `request_stop` made from inside the event callback, while a process is running, is not modelled. `RequestStop` happens only between resumptions. For example, if the callback of `part_in_buffer` (`simulation.py:243`) requests a stop, the part aborts at the next poll of the flag (`simulation.py:158`). The model's `CompletePut` has by then already logged `part_waiting_buffer` within the same step.
- `Statistics.GetStatistics`: the report's buffer levels are a snapshot taken at the call. In the code, `get_statistics` returns the statistics list itself (`simulation.py:339`), not a copy, so a report already returned keeps following later level updates (`simulation.py:176`, `simulation.py:241`), for example during a second `run`. The model does not capture this aliasing.
- A buffer level recorded after a get or put is the level right after that part's own operation. In the library, other processes resumed at the same time could change the level before the part resumes. The model's interleaving never places another step between them.
