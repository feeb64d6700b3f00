/**
 * The production line as a state machine. The event library the source
 * runs on is represented only by when each suspended process may resume:
 * a buffer `get` once the buffer holds a unit, a `put` once it has room, a
 * machine request once the machine is free, a timeout once the clock may
 * move to its due time. One step resumes one process: it completes the
 * awaited operation and runs the straight-line code after it up to the
 * process's next suspension point, since no other process runs in between.
 */
module LineModel {
  import opened Wrappers
  import opened Topology
  import opened Statistics
  import StopLatch

  /** The event types of the log, with the identifiers each carries. */
  datatype EventKind =
    | PartArrived
    | PartWaitingBuffer(buffer: nat)
    | PartQueue(workstation: nat)
    | PartProcessing(workstation: nat, duration: real)
    | PartCompletedStation(workstation: nat)
    | PartInBuffer(buffer: nat, level: int)
    | PartFinished(cycleTime: real)
    | PartAborted

  /** One entry of the event log: simulated time, event type and part id. */
  datatype LogRecord = LogRecord(timestamp: real, kind: EventKind, part: nat)

  /** Where a part's process is suspended (or that it has ended). */
  datatype Pc =
    | Spawned                                                // created, not yet started
    | AwaitGet(stage: nat)                                   // at the `get` from the stage's input buffer
    | AwaitMachine(stage: nat, workstation: nat, queueStart: real)  // queued for the chosen machine
    | AwaitTimer(stage: nat, workstation: nat, due: real)    // holding the machine while processing
    | AwaitPut(stage: nat)                                   // machine released, at the `put` into the output buffer
    | Finished
    | Aborted

  datatype Part = Part(arrival: real, pc: Pc)

  /** The arrival generator of one run. */
  datatype Generator = GenSpawned | GenWaiting(due: real) | GenDone

  /**
   * The whole simulation. Part `i` of `parts` has id `i + 1`; `levels` are the
   * buffers' actual levels, `holders` the part holding each machine.
   */
  datatype Line = Line(
    latch: StopLatch.Latch,
    now: real,
    partCounter: nat,
    stats: Stats,
    aborted: set<nat>,
    levels: seq<int>,
    holders: seq<Option<nat>>,
    generators: seq<Generator>,
    parts: seq<Part>,
    log: seq<LogRecord>)

  /** A run is in progress exactly while its stop event exists. */
  predicate Running(s: Line)
  {
    s.latch.stopEvent != StopLatch.NoEvent
  }

  predicate PcWellFormed(pc: Pc)
  {
    match pc
    case AwaitGet(k) => k < StageCount && BufferBefore(k).Some?
    case AwaitMachine(k, w, _) => k < StageCount && w in Candidates(k)
    case AwaitTimer(k, w, _) => k < StageCount && w in Candidates(k)
    case AwaitPut(k) => k < StageCount && BufferAfter(k).Some?
    case _ => true
  }

  /** The shape every reachable state has, which the step functions rely on for indexing. */
  predicate WellFormed(s: Line)
  {
    |s.levels| == NumBuffers && |s.holders| == NumWorkstations
    && |s.stats.busy| == NumWorkstations && |s.stats.bufferLevel| == NumBuffers
    && forall i :: 0 <= i < |s.parts| ==> PcWellFormed(s.parts[i].pc)
  }

  /** The simulation as constructed: empty buffers, free machines, zero statistics, no run. */
  function Init(): (s: Line)
    ensures WellFormed(s) && !Running(s) && StopLatch.LatchOk(s.latch)
    ensures s.latch == StopLatch.InitialLatch()
    ensures s.now == 0.0 && s.parts == [] && s.log == [] && s.generators == []
    ensures s.stats == InitialStats() && s.partCounter == 0 && s.aborted == {}
    ensures forall b :: 0 <= b < |s.levels| ==> s.levels[b] == 0
    ensures forall w :: 0 <= w < |s.holders| ==> s.holders[w] == None
  {
    Line(StopLatch.InitialLatch(), 0.0, 0, InitialStats(), {},
         seq(NumBuffers, _ => 0), seq(NumWorkstations, _ => None), [], [], [])
  }

  /** `random.choice`: the draw `pick` selects one of the candidates. */
  function Choose(cands: seq<nat>, pick: nat): (w: nat)
    requires |cands| > 0
    ensures w in cands
    ensures pick < |cands| ==> w == cands[pick]
  {
    cands[pick % |cands|]
  }

  /** The processing time for a normal draw `draw`, floored at one time unit. */
  function ProcessingTime(draw: real): (pt: real)
    ensures pt >= 1.0 && pt >= draw
    ensures pt == 1.0 || pt == draw
  {
    if draw > 1.0 then draw else 1.0
  }

  /** Appends an event of part `id` at the current simulated time. */
  function LogEvent(s: Line, kind: EventKind, id: nat): Line
  {
    s.(log := s.log + [LogRecord(s.now, kind, id)])
  }

  function SetPc(s: Line, i: nat, pc: Pc): (r: Line)
    requires i < |s.parts|
  {
    s.(parts := s.parts[i := s.parts[i].(pc := pc)])
  }

  /**
   * `_handle_part_abort`: a part already marked aborted changes nothing;
   * otherwise it is marked, taken off the in-system count if that count is
   * positive, and one `part_aborted` event is logged.
   */
  function HandlePartAbort(s: Line, id: nat): (r: Line)
    ensures id in s.aborted ==> r == s
    ensures id !in s.aborted ==> r.aborted == s.aborted + {id} && r.log == s.log + [LogRecord(s.now, PartAborted, id)]
    ensures r.stats.inSystem == if id !in s.aborted && s.stats.inSystem > 0 then s.stats.inSystem - 1 else s.stats.inSystem
    ensures s.stats.inSystem >= 0 ==> r.stats.inSystem >= 0
    ensures r.stats.produced == s.stats.produced && r.stats.busy == s.stats.busy && r.stats.bufferLevel == s.stats.bufferLevel
    ensures r.stats.queueTime == s.stats.queueTime && r.stats.cycleTime == s.stats.cycleTime
    ensures r.(aborted := s.aborted, log := s.log, stats := s.stats) == s
  {
    if id in s.aborted then s
    else
      var t := s.(aborted := s.aborted + {id});
      var t' := if t.stats.inSystem > 0 then t.(stats := t.stats.(inSystem := t.stats.inSystem - 1)) else t;
      LogEvent(t', PartAborted, id)
  }

  /** The part sees the stop flag: it handles its abort and its process returns. */
  function AbortPart(s: Line, i: nat): (r: Line)
    requires i < |s.parts|
  {
    SetPc(HandlePartAbort(s, i + 1), i, Aborted)
  }

  /** Picks one of the stage's workstations, notes the queue start and queues for it. */
  function RequestMachine(s: Line, i: nat, k: nat, pick: nat): (r: Line)
    requires i < |s.parts| && k < StageCount
  {
    var w := Choose(Candidates(k), pick);
    SetPc(LogEvent(s, PartQueue(w), i + 1), i, AwaitMachine(k, w, s.now))
  }

  /** The top of the stage loop: poll the flag, then wait at the input buffer or go to the machine. */
  function EnterStage(s: Line, i: nat, k: nat, pick: nat): (r: Line)
    requires i < |s.parts| && k < StageCount
  {
    if s.latch.stopRequested then AbortPart(s, i)
    else match BufferBefore(k)
      case Some(b) => SetPc(LogEvent(s, PartWaitingBuffer(b), i + 1), i, AwaitGet(k))
      case None => RequestMachine(s, i, k, pick)
  }

  /** All six stages done: record the cycle time, count the part as produced and out of the system. */
  function FinishPart(s: Line, i: nat): (r: Line)
    requires i < |s.parts|
  {
    var cycle := s.now - s.parts[i].arrival;
    var st := s.stats.(cycleTime := s.stats.cycleTime + [cycle],
                       produced := s.stats.produced + 1,
                       inSystem := s.stats.inSystem - 1);
    var t := s.(stats := st, aborted := s.aborted - {i + 1});
    SetPc(LogEvent(t, PartFinished(cycle), i + 1), i, Finished)
  }

  /** The end of the loop body for stage `k - 1`: the next stage, or the finish after the last. */
  function Advance(s: Line, i: nat, k: nat, pick: nat): (r: Line)
    requires i < |s.parts| && k <= StageCount
  {
    if k == StageCount then FinishPart(s, i) else EnterStage(s, i, k, pick)
  }

  /** Whether part `i` may be resumed now. */
  predicate PartEnabled(s: Line, i: nat)
    requires WellFormed(s)
  {
    Running(s) && i < |s.parts| &&
    match s.parts[i].pc
    case Spawned => true
    case AwaitGet(k) => s.levels[BufferBefore(k).value] > 0
    case AwaitMachine(_, w, _) => s.holders[w].None?
    case AwaitTimer(_, _, due) => s.now <= due
    case AwaitPut(k) => s.levels[BufferAfter(k).value] < BufferCapacity
    case Finished => false
    case Aborted => false
  }

  /** The process's first resumption: note the arrival time and enter the first stage. */
  function StartPart(s: Line, i: nat, pick: nat): (r: Line)
    requires i < |s.parts|
  {
    EnterStage(s.(parts := s.parts[i := s.parts[i].(arrival := s.now)]), i, 0, pick)
  }

  /** The `get` from stage `k`'s input buffer completes: poll the flag, record the level, go to a machine. */
  function CompleteGet(s: Line, i: nat, k: nat, pick: nat): (r: Line)
    requires WellFormed(s) && i < |s.parts| && k < StageCount && BufferBefore(k).Some?
  {
    var b := BufferBefore(k).value;
    var t := s.(levels := s.levels[b := s.levels[b] - 1]);
    if t.latch.stopRequested then AbortPart(t, i)
    else RequestMachine(t.(stats := t.stats.(bufferLevel := t.stats.bufferLevel[b := t.levels[b]])), i, k, pick)
  }

  /**
   * Machine `w` is granted: poll the flag, then record the queue time, add
   * the processing time to the machine's busy time and start the timeout.
   * On a stop the process returns from inside the `with` block, which
   * releases the machine again at once.
   */
  function CompleteGrant(s: Line, i: nat, k: nat, w: nat, queueStart: real, draw: real): (r: Line)
    requires WellFormed(s) && i < |s.parts| && w < NumWorkstations
  {
    if s.latch.stopRequested then AbortPart(s, i)
    else StartProcessing(s, i, k, w, queueStart, ProcessingTime(draw))
  }

  /** Holding machine `w`: record the queue time and the busy time `pt`, then start the timeout. */
  function StartProcessing(s: Line, i: nat, k: nat, w: nat, queueStart: real, pt: real): (r: Line)
    requires WellFormed(s) && i < |s.parts| && w < NumWorkstations
  {
    var st := s.stats.(queueTime := s.stats.queueTime + [s.now - queueStart],
                       busy := s.stats.busy[w := s.stats.busy[w] + pt]);
    var t := LogEvent(s.(stats := st, holders := s.holders[w := Some(i + 1)]), PartProcessing(w, pt), i + 1);
    SetPc(t, i, AwaitTimer(k, w, s.now + pt))
  }

  /**
   * The processing timeout fires at `due`. Leaving the `with` block, by
   * return or normally, releases the machine; then the part waits at its
   * output buffer, or, after the last stage, finishes.
   */
  function CompleteTimer(s: Line, i: nat, k: nat, w: nat, due: real, pick: nat): (r: Line)
    requires WellFormed(s) && i < |s.parts| && k < StageCount && w < NumWorkstations
  {
    var t := s.(now := due, holders := s.holders[w := None]);
    if t.latch.stopRequested then AbortPart(t, i)
    else
      var u := LogEvent(t, PartCompletedStation(w), i + 1);
      if BufferAfter(k).Some? then SetPc(u, i, AwaitPut(k)) else Advance(u, i, k + 1, pick)
  }

  /** The `put` into stage `k`'s output buffer completes: poll the flag, record the level, go on. */
  function CompletePut(s: Line, i: nat, k: nat, pick: nat): (r: Line)
    requires WellFormed(s) && i < |s.parts| && k < StageCount && BufferAfter(k).Some?
  {
    var b := BufferAfter(k).value;
    var t := s.(levels := s.levels[b := s.levels[b] + 1]);
    if t.latch.stopRequested then AbortPart(t, i)
    else
      var u := t.(stats := t.stats.(bufferLevel := t.stats.bufferLevel[b := t.levels[b]]));
      Advance(LogEvent(u, PartInBuffer(b, u.levels[b]), i + 1), i, k + 1, pick)
  }

  /**
   * Resumes part `i`. `pick` is the draw of `random.choice` if the part picks
   * a machine in this step, `draw` the normal draw for its processing time if
   * it is granted a machine in this step.
   */
  function ResumePart(s: Line, i: nat, pick: nat, draw: real): (r: Line)
    requires WellFormed(s) && PartEnabled(s, i)
  {
    match s.parts[i].pc
    case Spawned => StartPart(s, i, pick)
    case AwaitGet(k) => CompleteGet(s, i, k, pick)
    case AwaitMachine(k, w, queueStart) => CompleteGrant(s, i, k, w, queueStart, draw)
    case AwaitTimer(k, w, due) => CompleteTimer(s, i, k, w, due, pick)
    case AwaitPut(k) => CompletePut(s, i, k, pick)
  }

  predicate GeneratorEnabled(s: Line, g: nat)
  {
    Running(s) && g < |s.generators| &&
    match s.generators[g]
    case GenSpawned => true
    case GenWaiting(due) => s.now <= due
    case GenDone => false
  }

  function SetGenerator(s: Line, g: nat, gen: Generator): (r: Line)
    requires g < |s.generators|
  {
    s.(generators := s.generators[g := gen])
  }

  /**
   * Resumes arrival generator `g`; `delay` is the exponential draw for the
   * next inter-arrival wait. Past the wait, an unstopped generator creates the
   * next part (id = the incremented counter), counts it into the system, logs
   * its arrival, starts its process and waits again.
   */
  function ResumeGenerator(s: Line, g: nat, delay: real): (r: Line)
    requires GeneratorEnabled(s, g) && delay >= 0.0
  {
    match s.generators[g]
    case GenSpawned =>
      if s.latch.stopRequested then SetGenerator(s, g, GenDone)
      else SetGenerator(s, g, GenWaiting(s.now + delay))
    case GenWaiting(due) =>
      var t := s.(now := due);
      if t.latch.stopRequested then SetGenerator(t, g, GenDone)
      else
        // Back at the loop head the flag is unchanged, so the generator waits again.
        SetGenerator(ArrivalOf(t), g, GenWaiting(due + delay))
  }

  /** The next part arrives: it gets the incremented counter as id, is counted in the system, logged and started. */
  function ArrivalOf(s: Line): (r: Line)
  {
    var id := s.partCounter + 1;
    var u := s.(partCounter := id, stats := s.stats.(inSystem := s.stats.inSystem + 1));
    var v := LogEvent(u, PartArrived, id);
    v.(parts := v.parts + [Part(s.now, Spawned)])
  }

  /** `request_stop`, callable at any moment. */
  function RequestStop(s: Line): (r: Line)
  {
    s.(latch := StopLatch.RequestStop(s.latch))
  }

  /** The start of `run`: the latch set-up, then a new arrival generator (the monitor is the wait on the event). */
  function BeginRun(s: Line): (r: Line)
    requires !Running(s)
  {
    s.(latch := StopLatch.BeginRun(s.latch), generators := s.generators + [GenSpawned])
  }

  /** The stop monitor resumes on the triggered event and ends the run. */
  function StopMonitor(s: Line): (r: Line)
    requires s.latch.stopEvent == StopLatch.Triggered
  {
    s.(latch := StopLatch.EndRun(StopLatch.MonitorWakes(s.latch)))
  }

  /**
   * The run reaches its horizon `until` with no stop pending: the clock is
   * set to the horizon and the run ends. (A triggered event is always
   * processed before any later time is reached.)
   */
  function ReachHorizon(s: Line, until: real): (r: Line)
    requires Running(s) && s.latch.stopEvent != StopLatch.Triggered && s.now <= until
  {
    s.(now := until, latch := StopLatch.EndRun(s.latch))
  }

  /** One thing that can happen next: a call from outside, or one process resuming. */
  datatype Step =
    | RequestStopStep
    | BeginRunStep
    | MonitorStep
    | HorizonStep(until: real)
    | PartStep(part: nat, pick: nat, draw: real)
    | GeneratorStep(generator: nat, delay: real)

  predicate StepEnabled(s: Line, st: Step)
  {
    WellFormed(s) &&
    match st
    case RequestStopStep => true
    case BeginRunStep => !Running(s)
    case MonitorStep => s.latch.stopEvent == StopLatch.Triggered
    case HorizonStep(until) => Running(s) && s.latch.stopEvent != StopLatch.Triggered && s.now <= until
    case PartStep(i, pick, draw) => PartEnabled(s, i)
    case GeneratorStep(g, delay) => GeneratorEnabled(s, g) && delay >= 0.0
  }

  function Next(s: Line, st: Step): (r: Line)
    requires StepEnabled(s, st)
  {
    match st
    case RequestStopStep => RequestStop(s)
    case BeginRunStep => BeginRun(s)
    case MonitorStep => StopMonitor(s)
    case HorizonStep(until) => ReachHorizon(s, until)
    case PartStep(i, pick, draw) => ResumePart(s, i, pick, draw)
    case GeneratorStep(g, delay) => ResumeGenerator(s, g, delay)
  }

  /** The state after taking `steps` in order, or `None` if one of them is not enabled when its turn comes. */
  function Execute(s: Line, steps: seq<Step>): (r: Option<Line>)
    decreases |steps|
  {
    if |steps| == 0 then Some(s)
    else match Execute(s, steps[..|steps| - 1])
      case None => None
      case Some(t) => if StepEnabled(t, steps[|steps| - 1]) then Some(Next(t, steps[|steps| - 1])) else None
  }
}
