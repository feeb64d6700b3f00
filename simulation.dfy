/**
 * The simulation object itself: the fields the source's methods update in
 * place, and one method per operation. The step methods (the constructor,
 * `RequestStop`, `BeginRun`, `StopMonitor`, `ReachHorizon`, `ResumePart` and
 * `ResumeGenerator`) change the fields exactly as the matching step function
 * of `LineModel` changes the state and keep the invariant of
 * `LineInvariant`, so every property proved about the steps holds of the
 * object. The helper methods they call only state how they change the
 * fields, in terms of the `LineModel` functions they model.
 *
 * The event library's run loop, which decides which suspended process
 * resumes next, is not part of the object: it is the caller, choosing which
 * of `ResumePart` and `ResumeGenerator` to call and when the run ends by
 * `StopMonitor` or `ReachHorizon`.
 */
module Simulation {
  import opened Wrappers
  import opened Topology
  import opened Statistics
  import StopLatch
  import LineModel
  import LineInvariant

  class ProductionLineSimulation {
    var stopRequested: bool
    var preRunStopRequested: bool
    var stoppedEarly: bool
    var stopEvent: StopLatch.EventState
    var now: real
    var partCounter: nat
    var stats: Stats
    var aborted: set<nat>
    /** The levels of the five buffers. */
    var levels: seq<int>
    /** The part holding each of the nine machines, if any. */
    var holders: seq<Option<nat>>
    /** The arrival generators started so far, one per run. */
    var generators: seq<LineModel.Generator>
    /** The part processes started so far; the part at index `i` has id `i + 1`. */
    var parts: seq<LineModel.Part>
    var eventLog: seq<LineModel.LogRecord>

    /** The object's fields as a state of the line model. */
    function Model(): LineModel.Line
      reads this
    {
      LineModel.Line(StopLatch.Latch(stopRequested, preRunStopRequested, stoppedEarly, stopEvent),
                     now, partCounter, stats, aborted, levels, holders, generators, parts, eventLog)
    }

    ghost predicate Valid()
      reads this
    {
      LineInvariant.Valid(Model())
    }

    /** `__init__`: empty buffers, free machines, zero statistics, no run in progress. */
    constructor ()
      ensures Model() == LineModel.Init()
      ensures Valid()
    {
      stopRequested := false;
      preRunStopRequested := false;
      stoppedEarly := false;
      stopEvent := StopLatch.NoEvent;
      now := 0.0;
      partCounter := 0;
      stats := InitialStats();
      aborted := {};
      levels := seq(NumBuffers, _ => 0);
      holders := seq(NumWorkstations, _ => None);
      generators := [];
      parts := [];
      eventLog := [];
      new;
      LineInvariant.InitValid();
    }

    method LogEvent(kind: LineModel.EventKind, id: nat)
      modifies this
      ensures Model() == LineModel.LogEvent(old(Model()), kind, id)
    {
      eventLog := eventLog + [LineModel.LogRecord(now, kind, id)];
    }

    /** `request_stop`. */
    method RequestStop()
      requires Valid()
      modifies this
      ensures Model() == LineModel.RequestStop(old(Model()))
      ensures Valid()
    {
      LineInvariant.RequestStopValid(Model());
      stopRequested := true;
      if stopEvent != StopLatch.NoEvent && stopEvent != StopLatch.Triggered {
        stopEvent := StopLatch.Succeed(stopEvent);
      } else {
        preRunStopRequested := true;
      }
    }

    /** The start of `run`: the latch set-up and a new arrival generator. */
    method BeginRun()
      requires Valid() && stopEvent == StopLatch.NoEvent
      modifies this
      ensures Model() == LineModel.BeginRun(old(Model()))
      ensures Valid()
    {
      LineInvariant.BeginRunValid(Model());
      stoppedEarly := false;
      stopEvent := StopLatch.Pending;
      if preRunStopRequested {
        stopRequested := true;
        stopEvent := StopLatch.Succeed(stopEvent);
        preRunStopRequested := false;
      } else {
        stopRequested := false;
      }
      generators := generators + [LineModel.GenSpawned];
    }

    /** The stop monitor resumes on the triggered event and ends the run, which returns the statistics. */
    method StopMonitor() returns (report: Report)
      requires Valid() && stopEvent == StopLatch.Triggered
      modifies this
      ensures Model() == LineModel.StopMonitor(old(Model()))
      ensures Valid()
      ensures report == Statistics.GetStatistics(stats, now)
    {
      LineInvariant.StopMonitorValid(Model());
      stoppedEarly := true;
      stopEvent := StopLatch.NoEvent;
      report := Statistics.GetStatistics(stats, now);
    }

    /** The run reaches its horizon with no stop pending and returns the statistics. */
    method ReachHorizon(until: real) returns (report: Report)
      requires Valid() && stopEvent == StopLatch.Pending && now <= until
      modifies this
      ensures Model() == LineModel.ReachHorizon(old(Model()), until)
      ensures Valid()
      ensures report == Statistics.GetStatistics(stats, now)
    {
      LineInvariant.ReachHorizonValid(Model(), until);
      now := until;
      stopEvent := StopLatch.NoEvent;
      report := Statistics.GetStatistics(stats, now);
    }

    /** `_handle_part_abort`. */
    method HandlePartAbort(id: nat)
      modifies this
      ensures Model() == LineModel.HandlePartAbort(old(Model()), id)
    {
      if id in aborted {
        return;
      }
      aborted := aborted + {id};
      if stats.inSystem > 0 {
        stats := stats.(inSystem := stats.inSystem - 1);
      }
      LogEvent(LineModel.PartAborted, id);
    }

    method SetPc(i: nat, pc: LineModel.Pc)
      requires i < |parts|
      modifies this
      ensures Model() == LineModel.SetPc(old(Model()), i, pc)
    {
      parts := parts[i := parts[i].(pc := pc)];
    }

    /** The return after a stop: the abort bookkeeping, then the process ends. */
    method AbortPart(i: nat)
      requires i < |parts|
      modifies this
      ensures Model() == LineModel.AbortPart(old(Model()), i)
    {
      HandlePartAbort(i + 1);
      SetPc(i, LineModel.Aborted);
    }

    /** Picks a workstation of stage `k` (`pick` stands for the random choice) and queues for it. */
    method RequestMachine(i: nat, k: nat, pick: nat)
      requires i < |parts| && k < StageCount
      modifies this
      ensures Model() == LineModel.RequestMachine(old(Model()), i, k, pick)
    {
      var w := LineModel.Choose(Candidates(k), pick);
      var queueStart := now;
      LogEvent(LineModel.PartQueue(w), i + 1);
      SetPc(i, LineModel.AwaitMachine(k, w, queueStart));
    }

    /** The top of the stage loop. */
    method EnterStage(i: nat, k: nat, pick: nat)
      requires i < |parts| && k < StageCount
      modifies this
      ensures Model() == LineModel.EnterStage(old(Model()), i, k, pick)
    {
      if stopRequested {
        AbortPart(i);
        return;
      }
      match BufferBefore(k)
      case Some(b) =>
        LogEvent(LineModel.PartWaitingBuffer(b), i + 1);
        SetPc(i, LineModel.AwaitGet(k));
      case None =>
        RequestMachine(i, k, pick);
    }

    /** After the stage loop: the cycle time, the produced and in-system counts, the finish record. */
    method FinishPart(i: nat)
      requires i < |parts|
      modifies this
      ensures Model() == LineModel.FinishPart(old(Model()), i)
    {
      var cycleTime := now - parts[i].arrival;
      stats := stats.(cycleTime := stats.cycleTime + [cycleTime]);
      stats := stats.(produced := stats.produced + 1);
      stats := stats.(inSystem := stats.inSystem - 1);
      if i + 1 in aborted {
        aborted := aborted - {i + 1};
      }
      LogEvent(LineModel.PartFinished(cycleTime), i + 1);
      SetPc(i, LineModel.Finished);
    }

    method Advance(i: nat, k: nat, pick: nat)
      requires i < |parts| && k <= StageCount
      modifies this
      ensures Model() == LineModel.Advance(old(Model()), i, k, pick)
    {
      if k == StageCount {
        FinishPart(i);
      } else {
        EnterStage(i, k, pick);
      }
    }

    method StartPart(i: nat, pick: nat)
      requires i < |parts|
      modifies this
      ensures Model() == LineModel.StartPart(old(Model()), i, pick)
    {
      parts := parts[i := parts[i].(arrival := now)];
      EnterStage(i, 0, pick);
    }

    method CompleteGet(i: nat, k: nat, pick: nat)
      requires LineModel.WellFormed(Model()) && i < |parts| && k < StageCount && BufferBefore(k).Some?
      modifies this
      ensures Model() == LineModel.CompleteGet(old(Model()), i, k, pick)
    {
      var b := BufferBefore(k).value;
      levels := levels[b := levels[b] - 1];
      if stopRequested {
        AbortPart(i);
        return;
      }
      stats := stats.(bufferLevel := stats.bufferLevel[b := levels[b]]);
      RequestMachine(i, k, pick);
    }

    method CompleteGrant(i: nat, k: nat, w: nat, queueStart: real, draw: real)
      requires LineModel.WellFormed(Model()) && i < |parts| && w < NumWorkstations
      modifies this
      ensures Model() == LineModel.CompleteGrant(old(Model()), i, k, w, queueStart, draw)
    {
      if stopRequested {
        AbortPart(i);
        return;
      }
      stats := stats.(queueTime := stats.queueTime + [now - queueStart]);
      var processingTime := LineModel.ProcessingTime(draw);
      stats := stats.(busy := stats.busy[w := stats.busy[w] + processingTime]);
      holders := holders[w := Some(i + 1)];
      LogEvent(LineModel.PartProcessing(w, processingTime), i + 1);
      SetPc(i, LineModel.AwaitTimer(k, w, now + processingTime));
    }

    method CompleteTimer(i: nat, k: nat, w: nat, due: real, pick: nat)
      requires LineModel.WellFormed(Model()) && i < |parts| && k < StageCount && w < NumWorkstations
      modifies this
      ensures Model() == LineModel.CompleteTimer(old(Model()), i, k, w, due, pick)
    {
      now := due;
      holders := holders[w := None];
      if stopRequested {
        AbortPart(i);
        return;
      }
      LogEvent(LineModel.PartCompletedStation(w), i + 1);
      if BufferAfter(k).Some? {
        SetPc(i, LineModel.AwaitPut(k));
      } else {
        Advance(i, k + 1, pick);
      }
    }

    method CompletePut(i: nat, k: nat, pick: nat)
      requires LineModel.WellFormed(Model()) && i < |parts| && k < StageCount && BufferAfter(k).Some?
      modifies this
      ensures Model() == LineModel.CompletePut(old(Model()), i, k, pick)
    {
      ghost var s0 := Model();
      var b := BufferAfter(k).value;
      levels := levels[b := levels[b] + 1];
      ghost var t := Model();
      assert t == s0.(levels := s0.levels[b := s0.levels[b] + 1]);
      if stopRequested {
        AbortPart(i);
        return;
      }
      stats := stats.(bufferLevel := stats.bufferLevel[b := levels[b]]);
      assert Model() == t.(stats := t.stats.(bufferLevel := t.stats.bufferLevel[b := t.levels[b]]));
      LogEvent(LineModel.PartInBuffer(b, levels[b]), i + 1);
      Advance(i, k + 1, pick);
    }

    /**
     * Resumes the process of part `i` (`part_process`) up to its next
     * suspension: `pick` stands for the random choice of a workstation and
     * `draw` for the normal draw of a processing time.
     */
    method ResumePart(i: nat, pick: nat, draw: real)
      requires Valid() && LineModel.PartEnabled(Model(), i)
      modifies this
      ensures Model() == LineModel.ResumePart(old(Model()), i, pick, draw)
      ensures Valid()
    {
      LineInvariant.ResumePartValid(Model(), i, pick, draw);
      match parts[i].pc
      case Spawned => StartPart(i, pick);
      case AwaitGet(k) => CompleteGet(i, k, pick);
      case AwaitMachine(k, w, queueStart) => CompleteGrant(i, k, w, queueStart, draw);
      case AwaitTimer(k, w, due) => CompleteTimer(i, k, w, due, pick);
      case AwaitPut(k) => CompletePut(i, k, pick);
    }

    /** Resumes arrival generator `g` (`part_generator`); `delay` stands for the exponential draw. */
    method ResumeGenerator(g: nat, delay: real)
      requires Valid() && LineModel.GeneratorEnabled(Model(), g) && delay >= 0.0
      modifies this
      ensures Model() == LineModel.ResumeGenerator(old(Model()), g, delay)
      ensures Valid()
    {
      LineInvariant.ResumeGeneratorValid(Model(), g, delay);
      match generators[g]
      case GenSpawned =>
        if stopRequested {
          generators := generators[g := LineModel.GenDone];
        } else {
          generators := generators[g := LineModel.GenWaiting(now + delay)];
        }
      case GenWaiting(due) =>
        WakeGenerator(g, due, delay);
    }

    /** The generator's wait ends at `due`: it returns if the flag is up, and otherwise makes a part and waits again. */
    method WakeGenerator(g: nat, due: real, delay: real)
      requires g < |generators|
      modifies this
      ensures var t := old(Model()).(now := due);
              Model() == if t.latch.stopRequested then LineModel.SetGenerator(t, g, LineModel.GenDone)
                         else LineModel.SetGenerator(LineModel.ArrivalOf(t), g, LineModel.GenWaiting(due + delay))
    {
      now := due;
      if stopRequested {
        generators := generators[g := LineModel.GenDone];
        return;
      }
      Arrive();
      generators := generators[g := LineModel.GenWaiting(now + delay)];
    }

    /** A part arrives: numbered by the incremented counter, counted in, logged and started. */
    method Arrive()
      modifies this
      ensures Model() == LineModel.ArrivalOf(old(Model()))
    {
      partCounter := partCounter + 1;
      stats := stats.(inSystem := stats.inSystem + 1);
      LogEvent(LineModel.PartArrived, partCounter);
      parts := parts + [LineModel.Part(now, LineModel.Spawned)];
    }
  }
}
