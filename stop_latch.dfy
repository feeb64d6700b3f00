/**
 * The cooperative stop protocol: the `stop_requested` flag polled by every
 * process, the one-shot stop event a monitor process waits on, the latch
 * that carries a stop requested outside a run into the next run, and the
 * `stopped_early` mark the monitor sets when it ends a run.
 */
module StopLatch {

  /** The run's stop event: absent outside a run, then created untriggered, then triggered once. */
  datatype EventState = NoEvent | Pending | Triggered

  datatype Latch = Latch(
    stopRequested: bool,
    preRunStopRequested: bool,
    stoppedEarly: bool,
    stopEvent: EventState)

  /** The consistency the protocol keeps between its four pieces of state. */
  predicate LatchOk(l: Latch)
  {
    (l.preRunStopRequested ==> l.stopRequested)
    && (l.stoppedEarly ==> l.stopRequested)
    && (l.stopEvent == Triggered ==> l.stopRequested)
    && (l.stopEvent == Pending ==> !l.stopRequested)
  }

  /** The state of a freshly constructed simulation. */
  function InitialLatch(): (l: Latch)
    ensures LatchOk(l) && !l.stopRequested && !l.preRunStopRequested && !l.stoppedEarly
    ensures l.stopEvent == NoEvent
  {
    Latch(false, false, false, NoEvent)
  }

  /** Triggering an event; triggering one that has already been triggered is an error of the event library. */
  function Succeed(e: EventState): (r: EventState)
    requires e == Pending
    ensures r == Triggered
  {
    Triggered
  }

  /**
   * `request_stop`: always raises the flag; triggers the event when a run is
   * in progress and its event is still untriggered, and otherwise latches the
   * request for the next run (this includes a repeated request during a run).
   */
  function RequestStop(l: Latch): (r: Latch)
    ensures r.stopRequested && r.stoppedEarly == l.stoppedEarly
    ensures l.stopEvent == Pending ==> r.stopEvent == Triggered && r.preRunStopRequested == l.preRunStopRequested
    ensures l.stopEvent != Pending ==> r.stopEvent == l.stopEvent && r.preRunStopRequested
    ensures LatchOk(l) ==> LatchOk(r)
  {
    var l1 := l.(stopRequested := true);
    if l1.stopEvent != NoEvent && l1.stopEvent != Triggered then
      l1.(stopEvent := Succeed(l1.stopEvent))
    else
      l1.(preRunStopRequested := true)
  }

  /**
   * The set-up at the start of `run`: clears `stopped_early`, creates a fresh
   * event and either consumes a latched request (raising the flag and
   * triggering the new event at once) or lowers the flag.
   */
  function BeginRun(l: Latch): (r: Latch)
    ensures !r.stoppedEarly && !r.preRunStopRequested
    ensures r.stopRequested <==> l.preRunStopRequested
    ensures r.stopEvent == (if l.preRunStopRequested then Triggered else Pending)
    ensures LatchOk(r)
  {
    var l1 := l.(stoppedEarly := false, stopEvent := Pending);
    if l1.preRunStopRequested then
      l1.(stopRequested := true, stopEvent := Succeed(l1.stopEvent), preRunStopRequested := false)
    else
      l1.(stopRequested := false)
  }

  /** The stop monitor, resumed by the triggered event, marks the run as stopped early. */
  function MonitorWakes(l: Latch): (r: Latch)
    requires l.stopEvent == Triggered
    ensures r.stoppedEarly && r.stopEvent == Triggered
    ensures r.stopRequested == l.stopRequested && r.preRunStopRequested == l.preRunStopRequested
    ensures LatchOk(l) ==> LatchOk(r)
  {
    l.(stoppedEarly := true)
  }

  /** On the way out of `run`, whichever way the run ended, the event is dropped. */
  function EndRun(l: Latch): (r: Latch)
    ensures r.stopEvent == NoEvent
    ensures r.stopRequested == l.stopRequested && r.preRunStopRequested == l.preRunStopRequested
    ensures r.stoppedEarly == l.stoppedEarly
    ensures LatchOk(l) ==> LatchOk(r)
  {
    l.(stopEvent := NoEvent)
  }

  /** Repeating a stop request never triggers the event a second time and never undoes the first request. */
  lemma RequestStopTwice(l: Latch)
    ensures RequestStop(RequestStop(l)).stopEvent == RequestStop(l).stopEvent
    ensures RequestStop(RequestStop(l)).stopRequested
    ensures RequestStop(l).stopEvent != Pending
  {
  }

  /** A stop requested before any run makes the next run start stopped, and consumes the latch. */
  lemma StopBeforeRunStopsNextRun()
    ensures var r := BeginRun(RequestStop(InitialLatch()));
      r.stopRequested && r.stopEvent == Triggered && !r.preRunStopRequested && !r.stoppedEarly
  {
  }

  /**
   * A stop requested after a run has ended finds no event, so it is latched
   * and the following run starts stopped.
   */
  lemma StopAfterRunStopsNextRun(l: Latch)
    ensures var r := BeginRun(RequestStop(EndRun(l)));
      r.stopRequested && r.stopEvent == Triggered && !r.preRunStopRequested
  {
  }

  /**
   * A second stop request during a run finds the event already triggered,
   * so it is latched as a pre-run request: the run after this one starts
   * stopped as well.
   */
  lemma SecondStopDuringRunCarriesOver(l: Latch)
    requires l.stopEvent == Pending
    ensures RequestStop(l).stopEvent == Triggered && RequestStop(l).preRunStopRequested == l.preRunStopRequested
    ensures RequestStop(RequestStop(l)).preRunStopRequested
    ensures var next := BeginRun(EndRun(MonitorWakes(RequestStop(RequestStop(l)))));
      next.stopRequested && next.stopEvent == Triggered
  {
  }

  /** A single stop request during a run leaves the next run free to start unstopped. */
  lemma SingleStopDuringRunDoesNotCarryOver(l: Latch)
    requires l.stopEvent == Pending && !l.preRunStopRequested
    ensures var next := BeginRun(EndRun(MonitorWakes(RequestStop(l))));
      !next.stopRequested && next.stopEvent == Pending
  {
  }

  /** During a run the flag is raised exactly when the event has been triggered. */
  lemma FlagMatchesEventDuringRun(l: Latch)
    requires LatchOk(l) && l.stopEvent != NoEvent
    ensures l.stopRequested <==> l.stopEvent == Triggered
  {
  }
}
