/**
 * What the invariant and the step functions give about the line as it
 * runs: conservation of parts, exclusive machines, routes that follow the
 * stage table, at most one abort record per part, a clock that never goes
 * back, the bookkeeping of a grant, a finish and an arrival, and how a stop
 * request ends every process that sees it.
 */
module LineProperties {
  import opened Wrappers
  import opened Topology
  import opened Statistics
  import StopLatch
  import opened LineModel
  import opened LineInvariant

  // ----- whole runs -----

  lemma {:induction false} ExecuteValid(s: Line, steps: seq<Step>)
    requires Valid(s)
    ensures Execute(s, steps).Some? ==> Valid(Execute(s, steps).value)
    decreases |steps|
  {
    if |steps| > 0 {
      var prefix := steps[..|steps| - 1];
      ExecuteValid(s, prefix);
      if Execute(s, prefix).Some? && StepEnabled(Execute(s, prefix).value, steps[|steps| - 1]) {
        NextValid(Execute(s, prefix).value, steps[|steps| - 1]);
      }
    }
  }

  /** Every state reachable from a freshly constructed simulation satisfies the invariant. */
  lemma ReachableValid(steps: seq<Step>)
    ensures Execute(Init(), steps).Some? ==> Valid(Execute(Init(), steps).value)
  {
    InitValid();
    ExecuteValid(Init(), steps);
  }

  // ----- consequences of the invariant -----

  /**
   * Every part created is produced, still in the system or aborted, so the
   * in-system count never goes negative.
   */
  lemma Conservation(s: Line)
    requires Valid(s)
    ensures s.stats.produced + s.stats.inSystem + |s.aborted| == s.partCounter
    ensures s.stats.inSystem >= 0
  {
    CountsPartition(s.parts);
    forall i | 0 <= i < |s.parts| ensures (i + 1 in s.aborted <==> s.parts[i].pc.Aborted?) {
      assert PartOk(s, i);
    }
    AbortedSetSize(s.parts, s.aborted);
  }

  /** A machine is held by at most one part, and only while that part is processing on it. */
  lemma MachineExclusive(s: Line, i: nat, j: nat)
    requires Valid(s) && i < |s.parts| && j < |s.parts|
    requires s.parts[i].pc.AwaitTimer? && s.parts[j].pc.AwaitTimer?
    requires s.parts[i].pc.workstation == s.parts[j].pc.workstation
    ensures i == j
  {
    var w := s.parts[i].pc.workstation;
    assert PartOk(s, i) && PartOk(s, j);
    assert s.holders[w] == Some(i + 1) && s.holders[w] == Some(j + 1);
  }

  lemma HolderIsProcessing(s: Line, w: nat)
    requires Valid(s) && w < NumWorkstations && s.holders[w].Some?
    ensures 1 <= s.holders[w].value <= |s.parts|
    ensures s.parts[s.holders[w].value - 1].pc.AwaitTimer?
    ensures s.parts[s.holders[w].value - 1].pc.workstation == w
    ensures s.stats.busy[w] <= s.parts[s.holders[w].value - 1].pc.due
  {
    assert PartOk(s, s.holders[w].value - 1);
  }

  /**
   * A free machine has been booked for no more than the elapsed simulated
   * time, so the report gives it a utilization between 0 and 1. (A machine
   * still processing has its whole processing time booked already, up to
   * the due time of its timeout, which may lie past the clock.)
   */
  lemma FreeMachineUtilization(s: Line, w: nat)
    requires Valid(s) && w < NumWorkstations && s.holders[w].None?
    ensures 0.0 <= s.stats.busy[w] <= s.now
    ensures 0.0 <= GetStatistics(s.stats, s.now).utilization[w] <= 1.0
  {
    UtilizationInUnitInterval(s.stats, s.now, w);
  }

  /** A part waiting to put into a buffer has released its machine. */
  lemma ReleasedBeforePut(s: Line, i: nat)
    requires Valid(s) && i < |s.parts| && s.parts[i].pc.AwaitPut?
    ensures forall w :: 0 <= w < NumWorkstations ==> s.holders[w] != Some(i + 1)
  {
    assert PartOk(s, i);
  }

  /**
   * A finished part queued at exactly one workstation per stage, in stage
   * order, each one of the workstations the stage table allows.
   */
  lemma FinishedRoute(s: Line, i: nat)
    requires Valid(s) && i < |s.parts| && s.parts[i].pc.Finished?
    ensures |Queued(Trail(s.log, i + 1))| == StageCount
    ensures forall k :: 0 <= k < StageCount ==> Queued(Trail(s.log, i + 1))[k] in Candidates(k)
  {
    assert PartOk(s, i);
  }

  /** The log holds one `part_aborted` record for each aborted part and none for any other. */
  lemma AbortedOnce(s: Line, i: nat)
    requires Valid(s) && i < |s.parts|
    ensures AbortCount(Trail(s.log, i + 1)) <= 1
    ensures AbortCount(Trail(s.log, i + 1)) == 1 <==> s.parts[i].pc.Aborted?
    ensures i + 1 in s.aborted <==> s.parts[i].pc.Aborted?
  {
    assert PartOk(s, i);
  }

  // ----- the clock and the log -----

  /** A part's resumption moves the clock only when its processing timeout fires, and then to the due time. */
  lemma ResumePartClock(s: Line, i: nat, pick: nat, draw: real)
    requires WellFormed(s) && PartEnabled(s, i)
    ensures ResumePart(s, i, pick, draw).now == (if s.parts[i].pc.AwaitTimer? then s.parts[i].pc.due else s.now)
    ensures ResumePart(s, i, pick, draw).now >= s.now
  {
  }

  /** No step moves the clock back. */
  lemma ClockMonotone(s: Line, st: Step)
    requires StepEnabled(s, st)
    ensures Next(s, st).now >= s.now
  {
    if st.PartStep? {
      ResumePartClock(s, st.part, st.pick, st.draw);
    }
  }

  lemma {:induction false} ExecuteClockMonotone(s: Line, steps: seq<Step>)
    ensures Execute(s, steps).Some? ==> Execute(s, steps).value.now >= s.now
    decreases |steps|
  {
    if |steps| > 0 {
      var prefix := steps[..|steps| - 1];
      ExecuteClockMonotone(s, prefix);
      if Execute(s, prefix).Some? && StepEnabled(Execute(s, prefix).value, steps[|steps| - 1]) {
        ClockMonotone(Execute(s, prefix).value, steps[|steps| - 1]);
      }
    }
  }

  /** A part's resumption only appends to the log. */
  lemma ResumePartLogGrows(s: Line, i: nat, pick: nat, draw: real)
    requires WellFormed(s) && PartEnabled(s, i)
    ensures s.log <= ResumePart(s, i, pick, draw).log
  {
    match s.parts[i].pc
    case Spawned =>
    case AwaitGet(k) =>
    case AwaitMachine(k, w, queueStart) =>
    case AwaitTimer(k, w, due) =>
    case AwaitPut(k) =>
  }

  /** The event log only grows: every step keeps the records logged so far. */
  lemma LogGrows(s: Line, st: Step)
    requires StepEnabled(s, st)
    ensures s.log <= Next(s, st).log
  {
    if st.PartStep? {
      ResumePartLogGrows(s, st.part, st.pick, st.draw);
    }
  }

  lemma {:induction false} ExecuteLogGrows(s: Line, steps: seq<Step>)
    ensures Execute(s, steps).Some? ==> s.log <= Execute(s, steps).value.log
    decreases |steps|
  {
    if |steps| > 0 {
      var prefix := steps[..|steps| - 1];
      ExecuteLogGrows(s, prefix);
      if Execute(s, prefix).Some? && StepEnabled(Execute(s, prefix).value, steps[|steps| - 1]) {
        LogGrows(Execute(s, prefix).value, steps[|steps| - 1]);
      }
    }
  }

  // ----- stopping -----

  /**
   * A part that resumes with the stop flag set aborts at once: it is marked,
   * taken off the in-system count and logged as aborted, and no statistic
   * other than the in-system count changes.
   */
  lemma StopSeenAborts(s: Line, i: nat, pick: nat, draw: real)
    requires Valid(s) && PartEnabled(s, i) && s.latch.stopRequested
    ensures ResumePart(s, i, pick, draw).parts[i].pc == Aborted
    ensures ResumePart(s, i, pick, draw).aborted == s.aborted + {i + 1}
    ensures ResumePart(s, i, pick, draw).stats == s.stats.(inSystem := s.stats.inSystem - 1)
    ensures ResumePart(s, i, pick, draw).log == s.log + [LogRecord(ResumePart(s, i, pick, draw).now, PartAborted, i + 1)]
  {
    assert PartOk(s, i);
    CountUpdate(s.parts, i, s.parts[i].(pc := Aborted));
  }

  /** The stop flag, once set, stays set until the next run begins. */
  lemma StopPersists(s: Line, st: Step)
    requires StepEnabled(s, st) && s.latch.stopRequested && !st.BeginRunStep?
    ensures Next(s, st).latch.stopRequested
    ensures Next(s, st).partCounter == s.partCounter && |Next(s, st).parts| == |s.parts|
  {
  }

  /** Once the stop flag is set, no part arrives for the rest of the run. */
  lemma {:induction false} NoArrivalsOnceStopped(s: Line, steps: seq<Step>)
    requires s.latch.stopRequested
    requires forall k :: 0 <= k < |steps| ==> !steps[k].BeginRunStep?
    ensures Execute(s, steps).Some? ==> Execute(s, steps).value.latch.stopRequested
    ensures Execute(s, steps).Some? ==> Execute(s, steps).value.partCounter == s.partCounter
    decreases |steps|
  {
    if |steps| > 0 {
      var prefix := steps[..|steps| - 1];
      NoArrivalsOnceStopped(s, prefix);
      if Execute(s, prefix).Some? && StepEnabled(Execute(s, prefix).value, steps[|steps| - 1]) {
        StopPersists(Execute(s, prefix).value, steps[|steps| - 1]);
      }
    }
  }

  /** `_handle_part_abort` a second time for the same part changes nothing. */
  lemma HandlePartAbortIdempotent(s: Line, id: nat)
    ensures HandlePartAbort(HandlePartAbort(s, id), id) == HandlePartAbort(s, id)
  {
  }

  // ----- bookkeeping of the steps that update the statistics -----

  /**
   * A grant without a stop appends a non-negative queue time, adds the
   * processing time, at least one time unit, to that machine's busy time and
   * no other, and gives the machine to the part until the due time.
   */
  lemma GrantBookkeeping(s: Line, i: nat, pick: nat, draw: real)
    requires Valid(s) && PartEnabled(s, i) && s.parts[i].pc.AwaitMachine? && !s.latch.stopRequested
    ensures var pc := s.parts[i].pc;
            var r := ResumePart(s, i, pick, draw);
            && r.stats.queueTime == s.stats.queueTime + [s.now - pc.queueStart]
            && s.now - pc.queueStart >= 0.0
            && r.stats.busy[pc.workstation] == s.stats.busy[pc.workstation] + ProcessingTime(draw)
            && ProcessingTime(draw) >= 1.0
            && (forall w :: 0 <= w < NumWorkstations && w != pc.workstation ==> r.stats.busy[w] == s.stats.busy[w])
            && r.holders[pc.workstation] == Some(i + 1)
            && r.parts[i].pc == AwaitTimer(pc.stage, pc.workstation, s.now + ProcessingTime(draw))
            && r.stats.produced == s.stats.produced && r.stats.inSystem == s.stats.inSystem
  {
    assert PartOk(s, i);
  }

  /** The machine a part processed on is free again after its timeout fires, whatever the part does next. */
  lemma TimerReleasesMachine(s: Line, i: nat, pick: nat, draw: real)
    requires Valid(s) && PartEnabled(s, i) && s.parts[i].pc.AwaitTimer?
    ensures ResumePart(s, i, pick, draw).holders[s.parts[i].pc.workstation] == None
  {
  }

  /**
   * A part finishes exactly when the timeout of its last stage fires with no
   * stop requested; it is then counted as produced, leaves the in-system
   * count, and its cycle time, the time since its arrival, is recorded.
   */
  lemma FinishBookkeeping(s: Line, i: nat, pick: nat, draw: real)
    requires Valid(s) && PartEnabled(s, i)
    ensures var r := ResumePart(s, i, pick, draw);
            r.parts[i].pc.Finished? <==>
              s.parts[i].pc.AwaitTimer? && s.parts[i].pc.stage == StageCount - 1 && !s.latch.stopRequested
    ensures var r := ResumePart(s, i, pick, draw);
            r.parts[i].pc.Finished? ==>
              && r.stats.produced == s.stats.produced + 1
              && r.stats.inSystem == s.stats.inSystem - 1
              && r.stats.cycleTime == s.stats.cycleTime + [r.now - s.parts[i].arrival]
              && r.now - s.parts[i].arrival >= 0.0
              && r.log[|r.log| - 1] == LogRecord(r.now, PartFinished(r.now - s.parts[i].arrival), i + 1)
  {
    assert PartOk(s, i);
  }

  /**
   * An arrival past the wait, with no stop requested, numbers the new part
   * with the incremented counter, counts it into the system, logs it and
   * starts its process; with a stop requested the generator ends and
   * nothing is counted.
   */
  lemma ArrivalBookkeeping(s: Line, g: nat, delay: real)
    requires Valid(s) && GeneratorEnabled(s, g) && delay >= 0.0 && s.generators[g].GenWaiting?
    ensures var due := s.generators[g].due;
            var r := ResumeGenerator(s, g, delay);
            if s.latch.stopRequested then
              r.generators[g] == GenDone && r.partCounter == s.partCounter && r.stats == s.stats && r.parts == s.parts
            else
              && r.partCounter == s.partCounter + 1
              && r.stats.inSystem == s.stats.inSystem + 1
              && r.log == s.log + [LogRecord(due, PartArrived, r.partCounter)]
              && r.parts == s.parts + [Part(due, Spawned)]
              && r.generators[g] == GenWaiting(due + delay)
  {
  }

  // ----- a step of one part leaves the others alone -----

  /** `r` differs from `s` at most in part `i`'s state, abort mark and log records. */
  ghost predicate OnlyPart(s: Line, r: Line, i: nat)
  {
    |r.parts| == |s.parts|
    && (forall j :: 0 <= j < |s.parts| && j != i ==> r.parts[j] == s.parts[j])
    && (forall id :: id != i + 1 ==> (id in r.aborted <==> id in s.aborted))
    && (forall id :: id != i + 1 ==> Trail(r.log, id) == Trail(s.log, id))
  }

  lemma OnlyPartTrans(s: Line, t: Line, r: Line, i: nat)
    requires OnlyPart(s, t, i) && OnlyPart(t, r, i)
    ensures OnlyPart(s, r, i)
  {
  }

  lemma LogOnlyPart(s: Line, kind: EventKind, i: nat)
    ensures OnlyPart(s, LogEvent(s, kind, i + 1), i)
  {
    LogEventTrails(s, kind, i + 1);
  }

  lemma AbortOnlyPart(s: Line, i: nat)
    requires i < |s.parts|
    ensures OnlyPart(s, AbortPart(s, i), i)
  {
    if i + 1 !in s.aborted {
      var t := s.(aborted := s.aborted + {i + 1});
      var u := if t.stats.inSystem > 0 then t.(stats := t.stats.(inSystem := t.stats.inSystem - 1)) else t;
      LogOnlyPart(u, PartAborted, i);
    }
  }

  lemma RequestMachineOnlyPart(s: Line, i: nat, k: nat, pick: nat)
    requires i < |s.parts| && k < StageCount
    ensures OnlyPart(s, RequestMachine(s, i, k, pick), i)
  {
    LogOnlyPart(s, PartQueue(Choose(Candidates(k), pick)), i);
  }

  lemma EnterStageOnlyPart(s: Line, i: nat, k: nat, pick: nat)
    requires i < |s.parts| && k < StageCount
    ensures OnlyPart(s, EnterStage(s, i, k, pick), i)
  {
    if s.latch.stopRequested {
      AbortOnlyPart(s, i);
    } else if BufferBefore(k).Some? {
      LogOnlyPart(s, PartWaitingBuffer(BufferBefore(k).value), i);
    } else {
      RequestMachineOnlyPart(s, i, k, pick);
    }
  }

  lemma AdvanceOnlyPart(s: Line, i: nat, k: nat, pick: nat)
    requires i < |s.parts| && k <= StageCount
    ensures OnlyPart(s, Advance(s, i, k, pick), i)
  {
    if k == StageCount {
      var cycle := s.now - s.parts[i].arrival;
      var t := s.(stats := s.stats.(cycleTime := s.stats.cycleTime + [cycle], produced := s.stats.produced + 1,
                                    inSystem := s.stats.inSystem - 1),
                  aborted := s.aborted - {i + 1});
      LogOnlyPart(t, PartFinished(cycle), i);
    } else {
      EnterStageOnlyPart(s, i, k, pick);
    }
  }

  lemma GetOnlyPart(s: Line, i: nat, k: nat, pick: nat)
    requires WellFormed(s) && i < |s.parts| && k < StageCount && BufferBefore(k).Some?
    ensures OnlyPart(s, CompleteGet(s, i, k, pick), i)
  {
    var b := BufferBefore(k).value;
    var t := s.(levels := s.levels[b := s.levels[b] - 1]);
    AbortOnlyPart(t, i);
    RequestMachineOnlyPart(t.(stats := t.stats.(bufferLevel := t.stats.bufferLevel[b := t.levels[b]])), i, k, pick);
  }

  lemma GrantOnlyPart(s: Line, i: nat, k: nat, w: nat, queueStart: real, draw: real)
    requires WellFormed(s) && i < |s.parts| && w < NumWorkstations
    ensures OnlyPart(s, CompleteGrant(s, i, k, w, queueStart, draw), i)
  {
    AbortOnlyPart(s, i);
    var pt := ProcessingTime(draw);
    var st := s.stats.(queueTime := s.stats.queueTime + [s.now - queueStart],
                       busy := s.stats.busy[w := s.stats.busy[w] + pt]);
    LogOnlyPart(s.(stats := st, holders := s.holders[w := Some(i + 1)]), PartProcessing(w, pt), i);
  }

  lemma TimerOnlyPart(s: Line, i: nat, k: nat, w: nat, due: real, pick: nat)
    requires WellFormed(s) && i < |s.parts| && k < StageCount && w < NumWorkstations
    ensures OnlyPart(s, CompleteTimer(s, i, k, w, due, pick), i)
  {
    var t := s.(now := due, holders := s.holders[w := None]);
    AbortOnlyPart(t, i);
    var u := LogEvent(t, PartCompletedStation(w), i + 1);
    LogOnlyPart(t, PartCompletedStation(w), i);
    if BufferAfter(k).None? {
      AdvanceOnlyPart(u, i, k + 1, pick);
      OnlyPartTrans(t, u, Advance(u, i, k + 1, pick), i);
    }
  }

  lemma PutOnlyPart(s: Line, i: nat, k: nat, pick: nat)
    requires WellFormed(s) && i < |s.parts| && k < StageCount && BufferAfter(k).Some?
    ensures OnlyPart(s, CompletePut(s, i, k, pick), i)
  {
    var b := BufferAfter(k).value;
    var t := s.(levels := s.levels[b := s.levels[b] + 1]);
    if t.latch.stopRequested {
      assert CompletePut(s, i, k, pick) == AbortPart(t, i);
      AbortOnlyPart(t, i);
    } else {
      var u := t.(stats := t.stats.(bufferLevel := t.stats.bufferLevel[b := t.levels[b]]));
      var v := LogEvent(u, PartInBuffer(b, u.levels[b]), i + 1);
      assert CompletePut(s, i, k, pick) == Advance(v, i, k + 1, pick);
      LogOnlyPart(u, PartInBuffer(b, u.levels[b]), i);
      AdvanceOnlyPart(v, i, k + 1, pick);
      OnlyPartTrans(u, v, Advance(v, i, k + 1, pick), i);
    }
  }

  lemma ResumePartOnlyPart(s: Line, i: nat, pick: nat, draw: real)
    requires WellFormed(s) && PartEnabled(s, i)
    ensures OnlyPart(s, ResumePart(s, i, pick, draw), i)
  {
    match s.parts[i].pc
    case Spawned =>
      EnterStageOnlyPart(s.(parts := s.parts[i := s.parts[i].(arrival := s.now)]), i, 0, pick);
    case AwaitGet(k) => GetOnlyPart(s, i, k, pick);
    case AwaitMachine(k, w, queueStart) => GrantOnlyPart(s, i, k, w, queueStart, draw);
    case AwaitTimer(k, w, due) => TimerOnlyPart(s, i, k, w, due, pick);
    case AwaitPut(k) => PutOnlyPart(s, i, k, pick);
  }

  /**
   * A finished or aborted part is never resumed again, and no other step
   * changes its state, its abort mark or its log records.
   */
  lemma EndedPartStays(s: Line, st: Step, i: nat)
    requires Valid(s) && StepEnabled(s, st) && i < |s.parts| && !Live(s.parts[i].pc)
    ensures i < |Next(s, st).parts| && Next(s, st).parts[i] == s.parts[i]
    ensures (i + 1 in Next(s, st).aborted <==> i + 1 in s.aborted)
    ensures Trail(Next(s, st).log, i + 1) == Trail(s.log, i + 1)
  {
    match st
    case PartStep(j, pick, draw) =>
      assert j != i;
      ResumePartOnlyPart(s, j, pick, draw);
    case GeneratorStep(g, delay) =>
      if s.generators[g].GenWaiting? && !s.latch.stopRequested {
        var t := s.(now := s.generators[g].due);
        TrailAppend(t.log, LogRecord(t.now, PartArrived, t.partCounter + 1), i + 1);
      }
    case _ =>
  }

  // ----- a run that ends while a machine is processing -----

  /** Start a run, let one part arrive at time 1, send it to workstation 0 and give it a processing time of 2; stop at 1.5. */
  function WitnessSteps(): (steps: seq<Step>)
    ensures |steps| == 6
  {
    [BeginRunStep, GeneratorStep(0, 1.0), GeneratorStep(0, 5.0), PartStep(0, 0, 0.0), PartStep(0, 0, 2.0), HorizonStep(1.5)]
  }

  /** The state after the first `n` of those steps. */
  function WitnessState(n: nat): Line
    requires n <= 6
  {
    if n == 0 then Init()
    else if n == 1 then Init().(latch := StopLatch.Latch(false, false, false, StopLatch.Pending), generators := [GenSpawned])
    else if n == 2 then WitnessState(1).(generators := [GenWaiting(1.0)])
    else if n == 3 then
      WitnessState(2).(now := 1.0, partCounter := 1, stats := InitialStats().(inSystem := 1),
                       log := [LogRecord(1.0, PartArrived, 1)], parts := [Part(1.0, Spawned)],
                       generators := [GenWaiting(6.0)])
    else if n == 4 then
      WitnessState(3).(log := WitnessState(3).log + [LogRecord(1.0, PartQueue(0), 1)],
                       parts := [Part(1.0, AwaitMachine(0, 0, 1.0))])
    else if n == 5 then
      var d := WitnessState(4);
      d.(stats := d.stats.(queueTime := [0.0], busy := d.stats.busy[0 := 2.0]), holders := d.holders[0 := Some(1)],
         log := d.log + [LogRecord(1.0, PartProcessing(0, 2.0), 1)], parts := [Part(1.0, AwaitTimer(0, 0, 3.0))])
    else
      var e := WitnessState(5);
      e.(now := 1.5, latch := StopLatch.EndRun(e.latch))
  }

  lemma WitnessBegin()
    ensures StepEnabled(WitnessState(0), WitnessSteps()[0]) && Next(WitnessState(0), WitnessSteps()[0]) == WitnessState(1)
  {
  }

  lemma WitnessFirstWait()
    ensures StepEnabled(WitnessState(1), WitnessSteps()[1]) && Next(WitnessState(1), WitnessSteps()[1]) == WitnessState(2)
  {
  }

  lemma WitnessArrival()
    ensures StepEnabled(WitnessState(2), WitnessSteps()[2]) && Next(WitnessState(2), WitnessSteps()[2]) == WitnessState(3)
  {
    var b := WitnessState(2);
    assert ResumeGenerator(b, 0, 5.0) == SetGenerator(ArrivalOf(b.(now := 1.0)), 0, GenWaiting(6.0));
  }

  lemma WitnessQueue()
    ensures StepEnabled(WitnessState(3), WitnessSteps()[3]) && Next(WitnessState(3), WitnessSteps()[3]) == WitnessState(4)
  {
    var c := WitnessState(3);
    assert Candidates(0) == [0];
    assert ResumePart(c, 0, 0, 0.0) == RequestMachine(c, 0, 0, 0);
  }

  lemma WitnessGrant()
    ensures StepEnabled(WitnessState(4), WitnessSteps()[4]) && Next(WitnessState(4), WitnessSteps()[4]) == WitnessState(5)
  {
    var d := WitnessState(4);
    assert ResumePart(d, 0, 0, 2.0) == StartProcessing(d, 0, 0, 0, 1.0, 2.0);
  }

  lemma WitnessHorizon()
    ensures StepEnabled(WitnessState(5), WitnessSteps()[5]) && Next(WitnessState(5), WitnessSteps()[5]) == WitnessState(6)
  {
  }

  lemma {:induction false} WitnessExecute(n: nat)
    requires n <= 6
    ensures Execute(Init(), WitnessSteps()[..n]) == Some(WitnessState(n))
  {
    if n > 0 {
      WitnessExecute(n - 1);
      assert WitnessSteps()[..n][..n - 1] == WitnessSteps()[..n - 1];
      assert WitnessSteps()[..n][n - 1] == WitnessSteps()[n - 1];
      if n == 1 { WitnessBegin(); }
      else if n == 2 { WitnessFirstWait(); }
      else if n == 3 { WitnessArrival(); }
      else if n == 4 { WitnessQueue(); }
      else if n == 5 { WitnessGrant(); }
      else { WitnessHorizon(); }
    }
  }

  /**
   * This run ends while workstation 0 is still processing, and the report
   * gives that workstation a utilization of 4/3: the whole processing time
   * is booked at the grant, before its timeout fires.
   */
  lemma HeldMachineUtilizationAboveOne()
    ensures var r := Execute(Init(), WitnessSteps());
            r.Some? && !Running(r.value) && r.value.holders[0] == Some(1) && r.value.now == 1.5
            && GetStatistics(r.value.stats, r.value.now).utilization[0] > 1.0
  {
    WitnessExecute(6);
    assert WitnessSteps()[..6] == WitnessSteps();
    var e := WitnessState(6);
    var u := GetStatistics(e.stats, e.now).utilization[0];
    assert e.stats.busy[0] == 2.0;
    assert u * 1.5 == 2.0;
  }
}
