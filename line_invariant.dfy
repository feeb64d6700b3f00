/**
 * The invariant of the line and its preservation by every step: buffer
 * levels stay within capacity, a machine is held only by the one part
 * processing on it, the in-system and produced counters agree with the
 * parts' states, at most one `part_aborted` event is logged per part, and
 * the machines a part has queued for so far follow the stage table in
 * order.
 */
module LineInvariant {
  import opened Wrappers
  import opened Topology
  import opened Statistics
  import StopLatch
  import opened LineModel

  predicate Live(pc: Pc)
  {
    !pc.Finished? && !pc.Aborted?
  }

  function CountLive(ps: seq<Part>): nat
  {
    if |ps| == 0 then 0 else CountLive(ps[..|ps| - 1]) + (if Live(ps[|ps| - 1].pc) then 1 else 0)
  }

  function CountFinished(ps: seq<Part>): nat
  {
    if |ps| == 0 then 0 else CountFinished(ps[..|ps| - 1]) + (if ps[|ps| - 1].pc.Finished? then 1 else 0)
  }

  function CountAborted(ps: seq<Part>): nat
  {
    if |ps| == 0 then 0 else CountAborted(ps[..|ps| - 1]) + (if ps[|ps| - 1].pc.Aborted? then 1 else 0)
  }

  /** The event types logged for part `id`, in order. */
  function Trail(log: seq<LogRecord>, id: nat): seq<EventKind>
  {
    if |log| == 0 then []
    else Trail(log[..|log| - 1], id) + (if log[|log| - 1].part == id then [log[|log| - 1].kind] else [])
  }

  function AbortCount(t: seq<EventKind>): nat
  {
    if |t| == 0 then 0 else AbortCount(t[..|t| - 1]) + (if t[|t| - 1].PartAborted? then 1 else 0)
  }

  /** The workstations of the `part_queue` events of a trail, in order. */
  function Queued(t: seq<EventKind>): seq<nat>
  {
    if |t| == 0 then []
    else Queued(t[..|t| - 1]) + (if t[|t| - 1].PartQueue? then [t[|t| - 1].workstation] else [])
  }

  /** Queue `q` visits the first `|q|` stages in order, each at one of that stage's workstations. */
  predicate RoutePrefix(q: seq<nat>)
  {
    |q| <= StageCount && forall j :: 0 <= j < |q| ==> q[j] in Candidates(j)
  }

  /** The machines queued for so far agree with where the part's process is. */
  predicate RouteMatches(pc: Pc, q: seq<nat>)
  {
    RoutePrefix(q) &&
    match pc
    case Spawned => |q| == 0
    case AwaitGet(k) => |q| == k
    case AwaitMachine(k, w, _) => |q| == k + 1 && q[k] == w
    case AwaitTimer(k, w, _) => |q| == k + 1 && q[k] == w
    case AwaitPut(k) => |q| == k + 1
    case Finished => |q| == StageCount
    case Aborted => true
  }

  /** What must hold of part `i` (id `i + 1`). */
  predicate PartOk(s: Line, i: nat)
    requires WellFormed(s) && i < |s.parts|
  {
    var p := s.parts[i];
    var t := Trail(s.log, i + 1);
    (forall w :: 0 <= w < NumWorkstations ==> (s.holders[w] == Some(i + 1) <==> (p.pc.AwaitTimer? && p.pc.workstation == w)))
    && (i + 1 in s.aborted <==> p.pc.Aborted?)
    && AbortCount(t) == (if p.pc.Aborted? then 1 else 0)
    && RouteMatches(p.pc, Queued(t))
    && p.arrival <= s.now
    && (p.pc.AwaitMachine? ==> p.pc.queueStart <= s.now)
    && (p.pc.AwaitTimer? ==> s.stats.busy[p.pc.workstation] <= p.pc.due)
  }

  /** The part-independent half of the invariant. */
  predicate Core(s: Line)
  {
    WellFormed(s)
    && StopLatch.LatchOk(s.latch)
    && (forall b :: 0 <= b < NumBuffers ==> 0 <= s.levels[b] <= BufferCapacity)
    && (forall b :: 0 <= b < NumBuffers ==> 0 <= s.stats.bufferLevel[b] <= BufferCapacity)
    && (forall w :: 0 <= w < NumWorkstations ==> s.stats.busy[w] >= 0.0)
    && (forall w :: 0 <= w < NumWorkstations && s.holders[w].None? ==> s.stats.busy[w] <= s.now)
    && (forall w :: 0 <= w < NumWorkstations && s.holders[w].Some? ==> 1 <= s.holders[w].value <= |s.parts|)
    && s.partCounter == |s.parts|
    && (forall id :: id in s.aborted ==> 1 <= id <= |s.parts|)
    && (forall j :: 0 <= j < |s.log| ==> 1 <= s.log[j].part <= |s.parts|)
    && s.stats.inSystem == CountLive(s.parts)
    && s.stats.produced == CountFinished(s.parts)
    && |s.stats.cycleTime| == s.stats.produced
    && (forall j :: 0 <= j < |s.stats.queueTime| ==> s.stats.queueTime[j] >= 0.0)
    && (forall j :: 0 <= j < |s.stats.cycleTime| ==> s.stats.cycleTime[j] >= 0.0)
  }

  predicate Valid(s: Line)
  {
    Core(s) && forall i :: 0 <= i < |s.parts| ==> PartOk(s, i)
  }

  /** The invariant, except for part `i`, which is in the middle of a step. */
  predicate ValidOutside(s: Line, i: nat)
  {
    Core(s) && i < |s.parts| && forall j :: 0 <= j < |s.parts| && j != i ==> PartOk(s, j)
  }

  /**
   * Part `i` is live, unmarked, holds no machine and has a consistent
   * route so far: the state from which it may be aborted or sent on.
   */
  predicate Detached(s: Line, i: nat)
    requires WellFormed(s) && i < |s.parts|
  {
    var t := Trail(s.log, i + 1);
    Live(s.parts[i].pc)
    && i + 1 !in s.aborted
    && AbortCount(t) == 0
    && (forall w :: 0 <= w < NumWorkstations ==> s.holders[w] != Some(i + 1))
    && s.parts[i].arrival <= s.now
    && RoutePrefix(Queued(t))
  }

  // ----- counting lemmas -----

  lemma {:induction false} CountUpdate(ps: seq<Part>, i: nat, p: Part)
    requires i < |ps|
    ensures CountLive(ps[i := p]) == CountLive(ps) - (if Live(ps[i].pc) then 1 else 0) + (if Live(p.pc) then 1 else 0)
    ensures CountFinished(ps[i := p]) == CountFinished(ps) - (if ps[i].pc.Finished? then 1 else 0) + (if p.pc.Finished? then 1 else 0)
    ensures CountAborted(ps[i := p]) == CountAborted(ps) - (if ps[i].pc.Aborted? then 1 else 0) + (if p.pc.Aborted? then 1 else 0)
  {
    var n := |ps|;
    var qs := ps[i := p];
    assert qs[..n - 1] == if i == n - 1 then ps[..n - 1] else ps[..n - 1][i := p];
    if i < n - 1 {
      CountUpdate(ps[..n - 1], i, p);
    }
  }

  lemma CountAppend(ps: seq<Part>, p: Part)
    ensures CountLive(ps + [p]) == CountLive(ps) + (if Live(p.pc) then 1 else 0)
    ensures CountFinished(ps + [p]) == CountFinished(ps) + (if p.pc.Finished? then 1 else 0)
    ensures CountAborted(ps + [p]) == CountAborted(ps) + (if p.pc.Aborted? then 1 else 0)
  {
    assert (ps + [p])[..|ps|] == ps;
  }

  /** Every part is live, finished or aborted. */
  lemma {:induction false} CountsPartition(ps: seq<Part>)
    ensures CountLive(ps) + CountFinished(ps) + CountAborted(ps) == |ps|
  {
    if |ps| > 0 {
      CountsPartition(ps[..|ps| - 1]);
    }
  }

  lemma {:induction false} AbortedSetSize(ps: seq<Part>, ids: set<nat>)
    requires forall id :: id in ids ==> 1 <= id <= |ps|
    requires forall i :: 0 <= i < |ps| ==> (i + 1 in ids <==> ps[i].pc.Aborted?)
    ensures |ids| == CountAborted(ps)
  {
    if |ps| == 0 {
      assert ids == {};
    } else {
      var n := |ps|;
      var rest := ids - {n};
      AbortedSetSize(ps[..n - 1], rest);
      if ps[n - 1].pc.Aborted? {
        assert ids == rest + {n};
      } else {
        assert ids == rest;
      }
    }
  }

  // ----- log lemmas -----

  lemma TrailAppend(log: seq<LogRecord>, r: LogRecord, id: nat)
    ensures Trail(log + [r], id) == Trail(log, id) + (if r.part == id then [r.kind] else [])
  {
    assert (log + [r])[..|log|] == log;
  }

  lemma TrailKindAppend(t: seq<EventKind>, k: EventKind)
    ensures AbortCount(t + [k]) == AbortCount(t) + (if k.PartAborted? then 1 else 0)
    ensures Queued(t + [k]) == Queued(t) + (if k.PartQueue? then [k.workstation] else [])
  {
    assert (t + [k])[..|t|] == t;
  }

  /** A part created after every logged event has an empty trail. */
  lemma {:induction false} TrailOfNewPart(log: seq<LogRecord>, id: nat)
    requires forall j :: 0 <= j < |log| ==> log[j].part < id
    ensures Trail(log, id) == []
  {
    if |log| > 0 {
      TrailOfNewPart(log[..|log| - 1], id);
    }
  }

  /** Logging an event of some part leaves every other part's trail as it was and extends that part's by the event. */
  lemma LogEventTrails(s: Line, kind: EventKind, id: nat)
    ensures forall other :: other != id ==> Trail(LogEvent(s, kind, id).log, other) == Trail(s.log, other)
    ensures Trail(LogEvent(s, kind, id).log, id) == Trail(s.log, id) + [kind]
    ensures AbortCount(Trail(LogEvent(s, kind, id).log, id)) == AbortCount(Trail(s.log, id)) + (if kind.PartAborted? then 1 else 0)
    ensures Queued(Trail(LogEvent(s, kind, id).log, id)) == Queued(Trail(s.log, id)) + (if kind.PartQueue? then [kind.workstation] else [])
  {
    var r := LogRecord(s.now, kind, id);
    forall other | other != id ensures Trail(s.log + [r], other) == Trail(s.log, other) {
      TrailAppend(s.log, r, other);
    }
    TrailAppend(s.log, r, id);
    TrailKindAppend(Trail(s.log, id), kind);
  }

  /** Appending one record leaves every other part's trail as it was. */
  lemma AppendTrails(log: seq<LogRecord>, r: LogRecord)
    ensures forall other :: other != r.part ==> Trail(log + [r], other) == Trail(log, other)
    ensures Trail(log + [r], r.part) == Trail(log, r.part) + [r.kind]
    ensures AbortCount(Trail(log + [r], r.part)) == AbortCount(Trail(log, r.part)) + (if r.kind.PartAborted? then 1 else 0)
    ensures Queued(Trail(log + [r], r.part)) == Queued(Trail(log, r.part)) + (if r.kind.PartQueue? then [r.kind.workstation] else [])
  {
    forall other | other != r.part ensures Trail(log + [r], other) == Trail(log, other) {
      TrailAppend(log, r, other);
    }
    TrailAppend(log, r, r.part);
    TrailKindAppend(Trail(log, r.part), r.kind);
  }

  // ----- preservation, building block by building block -----

  /**
   * Part `j`'s obligations survive a change that leaves the part, the
   * machines it holds, its abort mark and its trail alone and does not move
   * the clock back.
   */
  lemma PartOkFrame(s: Line, s': Line, j: nat)
    requires WellFormed(s) && WellFormed(s') && j < |s.parts| && j < |s'.parts|
    requires PartOk(s, j) && s'.parts[j] == s.parts[j]
    requires forall w :: 0 <= w < NumWorkstations ==> (s'.holders[w] == Some(j + 1) <==> s.holders[w] == Some(j + 1))
    requires (j + 1 in s'.aborted <==> j + 1 in s.aborted)
    requires Trail(s'.log, j + 1) == Trail(s.log, j + 1)
    requires s.now <= s'.now
    requires s.parts[j].pc.AwaitTimer? ==> s'.stats.busy[s.parts[j].pc.workstation] == s.stats.busy[s.parts[j].pc.workstation]
    ensures PartOk(s', j)
  {
  }

  lemma CoreAfterAbort(s: Line, i: nat)
    requires Core(s) && i < |s.parts| && Live(s.parts[i].pc) && i + 1 !in s.aborted
    ensures s.stats.inSystem > 0
    ensures Core(AbortPart(s, i))
  {
    CountUpdate(s.parts, i, s.parts[i].(pc := Aborted));
    var r := AbortPart(s, i);
    assert forall j :: 0 <= j < |r.log| ==> 1 <= r.log[j].part <= |r.parts|;
  }

  /** The aborted part's own obligations: marked, one abort record, no machine. */
  lemma AbortedPartOk(s: Line, i: nat)
    requires WellFormed(s) && i < |s.parts| && Detached(s, i) && s.stats.inSystem > 0
    ensures WellFormed(AbortPart(s, i)) && PartOk(AbortPart(s, i), i)
  {
    var id := i + 1;
    var rec := LogRecord(s.now, PartAborted, id);
    var r := s.(aborted := s.aborted + {id}, stats := s.stats.(inSystem := s.stats.inSystem - 1),
                log := s.log + [rec], parts := s.parts[i := s.parts[i].(pc := Aborted)]);
    assert AbortPart(s, i) == r;
    AppendTrails(s.log, rec);
  }

  lemma AbortKeepsOthers(s: Line, i: nat)
    requires WellFormed(s) && i < |s.parts| && i + 1 !in s.aborted && s.stats.inSystem > 0
    requires forall j :: 0 <= j < |s.parts| && j != i ==> PartOk(s, j)
    ensures WellFormed(AbortPart(s, i)) && forall j :: 0 <= j < |s.parts| && j != i ==> PartOk(AbortPart(s, i), j)
  {
    var id := i + 1;
    var rec := LogRecord(s.now, PartAborted, id);
    var r := s.(aborted := s.aborted + {id}, stats := s.stats.(inSystem := s.stats.inSystem - 1),
                log := s.log + [rec], parts := s.parts[i := s.parts[i].(pc := Aborted)]);
    assert AbortPart(s, i) == r;
    AppendTrails(s.log, rec);
    OthersFrame(s, r, i);
  }

  /** A live part that holds no machine may be aborted: the invariant is restored with the part aborted. */
  lemma AbortPartValid(s: Line, i: nat)
    requires ValidOutside(s, i) && Detached(s, i)
    ensures Valid(AbortPart(s, i))
    ensures AbortPart(s, i).stats.inSystem == s.stats.inSystem - 1
  {
    CoreAfterAbort(s, i);
    AbortedPartOk(s, i);
    AbortKeepsOthers(s, i);
  }

  /** Logging an event of an existing part keeps the part-independent invariant. */
  lemma CoreAfterLog(s: Line, kind: EventKind, id: nat)
    requires Core(s) && 1 <= id <= |s.parts|
    ensures Core(LogEvent(s, kind, id))
  {
    var r := LogEvent(s, kind, id);
    assert forall j :: 0 <= j < |r.log| ==> 1 <= r.log[j].part <= |r.parts|;
  }

  lemma LogKeepsOthers(s: Line, i: nat, kind: EventKind)
    requires ValidOutside(s, i)
    ensures ValidOutside(LogEvent(s, kind, i + 1), i)
    ensures Trail(LogEvent(s, kind, i + 1).log, i + 1) == Trail(s.log, i + 1) + [kind]
    ensures AbortCount(Trail(LogEvent(s, kind, i + 1).log, i + 1)) == AbortCount(Trail(s.log, i + 1)) + (if kind.PartAborted? then 1 else 0)
    ensures Queued(Trail(LogEvent(s, kind, i + 1).log, i + 1)) == Queued(Trail(s.log, i + 1)) + (if kind.PartQueue? then [kind.workstation] else [])
  {
    var rec := LogRecord(s.now, kind, i + 1);
    var r := LogEvent(s, kind, i + 1);
    CoreAfterLog(s, kind, i + 1);
    AppendTrails(s.log, rec);
    OthersFrame(s, r, i);
  }

  /** Moving part `i` between two live, well-formed states keeps the invariant outside part `i`. */
  lemma SetPcKeepsOthers(s: Line, i: nat, pc: Pc)
    requires ValidOutside(s, i) && Live(s.parts[i].pc) && Live(pc) && PcWellFormed(pc)
    ensures ValidOutside(SetPc(s, i, pc), i)
  {
    var r := SetPc(s, i, pc);
    assert Core(r) by {
      CountUpdate(s.parts, i, s.parts[i].(pc := pc));
    }
    OthersFrame(s, r, i);
  }

  /** Queueing for one of stage `k`'s machines, as the part's `k + 1`-th queue event. */
  lemma RequestMachineValid(s: Line, i: nat, k: nat, pick: nat)
    requires ValidOutside(s, i) && Detached(s, i) && k < StageCount
    requires |Queued(Trail(s.log, i + 1))| == k
    ensures Valid(RequestMachine(s, i, k, pick))
  {
    var w := Choose(Candidates(k), pick);
    var pc := AwaitMachine(k, w, s.now);
    var t := LogEvent(s, PartQueue(w), i + 1);
    LogKeepsOthers(s, i, PartQueue(w));
    SetPcKeepsOthers(t, i, pc);
    var r := SetPc(t, i, pc);
    assert r == RequestMachine(s, i, k, pick);
    assert PartOk(r, i);
  }

  /** Logging the wait at the input buffer and suspending at its `get` keeps the invariant. */
  lemma WaitAtBufferValid(s: Line, i: nat, k: nat)
    requires ValidOutside(s, i) && Detached(s, i) && 0 < k < StageCount
    requires |Queued(Trail(s.log, i + 1))| == k
    ensures Valid(SetPc(LogEvent(s, PartWaitingBuffer(BufferBefore(k).value), i + 1), i, AwaitGet(k)))
  {
    var b := BufferBefore(k).value;
    var t := LogEvent(s, PartWaitingBuffer(b), i + 1);
    LogKeepsOthers(s, i, PartWaitingBuffer(b));
    SetPcKeepsOthers(t, i, AwaitGet(k));
    assert PartOk(SetPc(t, i, AwaitGet(k)), i);
  }

  /** The top of stage `k` for a part that has queued at `k` machines so far. */
  lemma EnterStageValid(s: Line, i: nat, k: nat, pick: nat)
    requires ValidOutside(s, i) && Detached(s, i) && k < StageCount
    requires |Queued(Trail(s.log, i + 1))| == k
    ensures Valid(EnterStage(s, i, k, pick))
  {
    if s.latch.stopRequested {
      assert EnterStage(s, i, k, pick) == AbortPart(s, i);
      AbortPartValid(s, i);
    } else if k > 0 {
      assert EnterStage(s, i, k, pick) == SetPc(LogEvent(s, PartWaitingBuffer(BufferBefore(k).value), i + 1), i, AwaitGet(k));
      WaitAtBufferValid(s, i, k);
    } else {
      assert EnterStage(s, i, k, pick) == RequestMachine(s, i, k, pick);
      RequestMachineValid(s, i, k, pick);
    }
  }

  lemma CoreAfterFinish(s: Line, i: nat)
    requires Core(s) && i < |s.parts| && Live(s.parts[i].pc) && i + 1 !in s.aborted
    requires s.parts[i].arrival <= s.now
    ensures Core(FinishPart(s, i))
  {
    CountUpdate(s.parts, i, s.parts[i].(pc := Finished));
    var r := FinishPart(s, i);
    assert forall j :: 0 <= j < |r.log| ==> 1 <= r.log[j].part <= |r.parts|;
    assert r.aborted == s.aborted;
  }

  /** The finished part's own obligations. */
  lemma FinishedPartOk(s: Line, i: nat)
    requires WellFormed(s) && i < |s.parts| && Detached(s, i)
    requires |Queued(Trail(s.log, i + 1))| == StageCount
    ensures WellFormed(FinishPart(s, i)) && PartOk(FinishPart(s, i), i)
  {
    var cycle := s.now - s.parts[i].arrival;
    var rec := LogRecord(s.now, PartFinished(cycle), i + 1);
    var st := s.stats.(cycleTime := s.stats.cycleTime + [cycle],
                       produced := s.stats.produced + 1,
                       inSystem := s.stats.inSystem - 1);
    var r := s.(stats := st, aborted := s.aborted - {i + 1}, log := s.log + [rec],
                parts := s.parts[i := s.parts[i].(pc := Finished)]);
    assert FinishPart(s, i) == r;
    AppendTrails(s.log, rec);
  }

  /** A step that changes only part `i`'s record, machines and mark, and logs only for `i`, keeps every other part's obligations. */
  lemma OthersFrame(s: Line, r: Line, i: nat)
    requires WellFormed(s) && WellFormed(r) && i < |s.parts| && |r.parts| == |s.parts|
    requires forall j :: 0 <= j < |s.parts| && j != i ==> PartOk(s, j)
    requires forall j :: 0 <= j < |s.parts| && j != i ==> r.parts[j] == s.parts[j]
    requires forall w :: 0 <= w < NumWorkstations ==>
               r.holders[w] == s.holders[w] || (r.holders[w] in {None, Some(i + 1)} && s.holders[w] in {None, Some(i + 1)})
    requires forall id :: id != i + 1 ==> (id in r.aborted <==> id in s.aborted)
    requires forall id :: id != i + 1 ==> Trail(r.log, id) == Trail(s.log, id)
    requires s.now <= r.now
    requires forall w :: 0 <= w < NumWorkstations ==> r.stats.busy[w] == s.stats.busy[w] || s.holders[w] in {None, Some(i + 1)}
    ensures forall j :: 0 <= j < |s.parts| && j != i ==> PartOk(r, j)
  {
    forall j | 0 <= j < |s.parts| && j != i ensures PartOk(r, j) {
      assert Trail(r.log, j + 1) == Trail(s.log, j + 1);
      PartOkFrame(s, r, j);
    }
  }

  lemma FinishKeepsOthers(s: Line, i: nat)
    requires WellFormed(s) && i < |s.parts|
    requires forall j :: 0 <= j < |s.parts| && j != i ==> PartOk(s, j)
    ensures WellFormed(FinishPart(s, i)) && forall j :: 0 <= j < |s.parts| && j != i ==> PartOk(FinishPart(s, i), j)
  {
    var cycle := s.now - s.parts[i].arrival;
    var rec := LogRecord(s.now, PartFinished(cycle), i + 1);
    var st := s.stats.(cycleTime := s.stats.cycleTime + [cycle],
                       produced := s.stats.produced + 1,
                       inSystem := s.stats.inSystem - 1);
    var r := s.(stats := st, aborted := s.aborted - {i + 1}, log := s.log + [rec],
                parts := s.parts[i := s.parts[i].(pc := Finished)]);
    assert FinishPart(s, i) == r;
    AppendTrails(s.log, rec);
    OthersFrame(s, r, i);
  }

  /** A part that has queued at all six stages finishes, restoring the invariant. */
  lemma FinishPartValid(s: Line, i: nat)
    requires ValidOutside(s, i) && Detached(s, i)
    requires |Queued(Trail(s.log, i + 1))| == StageCount
    ensures Valid(FinishPart(s, i))
  {
    CoreAfterFinish(s, i);
    FinishedPartOk(s, i);
    FinishKeepsOthers(s, i);
  }

  lemma AdvanceValid(s: Line, i: nat, k: nat, pick: nat)
    requires ValidOutside(s, i) && Detached(s, i) && k <= StageCount
    requires |Queued(Trail(s.log, i + 1))| == k
    ensures Valid(Advance(s, i, k, pick))
  {
    if k == StageCount {
      FinishPartValid(s, i);
    } else {
      EnterStageValid(s, i, k, pick);
    }
  }

  // ----- preservation by each kind of resumption of a part -----

  lemma ValidDetaches(s: Line, i: nat)
    requires Valid(s) && i < |s.parts| && Live(s.parts[i].pc) && !s.parts[i].pc.AwaitTimer?
    ensures ValidOutside(s, i) && Detached(s, i)
  {
    assert PartOk(s, i);
  }

  /**
   * A change of the buffer levels and the recorded levels, within capacity,
   * detaches a live part without a machine, leaving its route as it was.
   */
  lemma BuffersChangeDetaches(s: Line, i: nat, levels: seq<int>, recorded: seq<int>)
    requires Valid(s) && i < |s.parts| && Live(s.parts[i].pc) && !s.parts[i].pc.AwaitTimer?
    requires |levels| == NumBuffers && |recorded| == NumBuffers
    requires forall b :: 0 <= b < NumBuffers ==> 0 <= levels[b] <= BufferCapacity
    requires forall b :: 0 <= b < NumBuffers ==> 0 <= recorded[b] <= BufferCapacity
    ensures ValidOutside(s.(levels := levels, stats := s.stats.(bufferLevel := recorded)), i)
    ensures Detached(s.(levels := levels, stats := s.stats.(bufferLevel := recorded)), i)
    ensures RouteMatches(s.parts[i].pc, Queued(Trail(s.log, i + 1)))
  {
    assert PartOk(s, i);
    var t := s.(levels := levels, stats := s.stats.(bufferLevel := recorded));
    forall j | 0 <= j < |t.parts| && j != i ensures PartOk(t, j) {
      PartOkFrame(s, t, j);
    }
  }

  lemma StartPartValid(s: Line, i: nat, pick: nat)
    requires Valid(s) && i < |s.parts| && s.parts[i].pc.Spawned?
    ensures Valid(StartPart(s, i, pick))
  {
    assert PartOk(s, i);
    var t := s.(parts := s.parts[i := s.parts[i].(arrival := s.now)]);
    assert Core(t) by {
      CountUpdate(s.parts, i, s.parts[i].(arrival := s.now));
    }
    forall j | 0 <= j < |t.parts| && j != i ensures PartOk(t, j) {
      PartOkFrame(s, t, j);
    }
    EnterStageValid(t, i, 0, pick);
  }

  /** A live part not holding a machine may abort from any valid state. */
  lemma AbortLiveValid(s: Line, i: nat)
    requires Valid(s) && i < |s.parts| && Live(s.parts[i].pc) && !s.parts[i].pc.AwaitTimer?
    ensures Valid(AbortPart(s, i))
  {
    ValidDetaches(s, i);
    AbortPartValid(s, i);
  }

  lemma CompleteGetValid(s: Line, i: nat, k: nat, pick: nat)
    requires Valid(s) && i < |s.parts| && s.parts[i].pc == AwaitGet(k)
    requires s.levels[BufferBefore(k).value] > 0
    ensures Valid(CompleteGet(s, i, k, pick))
  {
    var b := BufferBefore(k).value;
    var levels := s.levels[b := s.levels[b] - 1];
    if s.latch.stopRequested {
      BuffersChangeDetaches(s, i, levels, s.stats.bufferLevel);
      var t := s.(levels := levels, stats := s.stats.(bufferLevel := s.stats.bufferLevel));
      assert CompleteGet(s, i, k, pick) == AbortPart(t, i);
      AbortPartValid(t, i);
    } else {
      var recorded := s.stats.bufferLevel[b := levels[b]];
      BuffersChangeDetaches(s, i, levels, recorded);
      var u := s.(levels := levels, stats := s.stats.(bufferLevel := recorded));
      assert CompleteGet(s, i, k, pick) == RequestMachine(u, i, k, pick);
      RequestMachineValid(u, i, k, pick);
    }
  }

  /** Taking machine `w` and booking the queue and busy time keep the invariant for every other part. */
  lemma GrantKeepsOthers(s: Line, i: nat, k: nat, w: nat, queueStart: real, pt: real)
    requires Valid(s) && i < |s.parts| && s.parts[i].pc == AwaitMachine(k, w, queueStart)
    requires s.holders[w].None? && pt >= 0.0
    ensures var t := s.(stats := s.stats.(queueTime := s.stats.queueTime + [s.now - queueStart],
                                          busy := s.stats.busy[w := s.stats.busy[w] + pt]),
                        holders := s.holders[w := Some(i + 1)]);
            && ValidOutside(t, i) && w < NumWorkstations && t.holders[w] == Some(i + 1)
            && (forall v :: 0 <= v < NumWorkstations && v != w ==> t.holders[v] != Some(i + 1))
            && i + 1 !in t.aborted && AbortCount(Trail(t.log, i + 1)) == 0
            && RouteMatches(t.parts[i].pc, Queued(Trail(t.log, i + 1))) && t.parts[i].arrival <= t.now
            && t.stats.busy[w] <= t.now + pt
  {
    assert PartOk(s, i);
    var st := s.stats.(queueTime := s.stats.queueTime + [s.now - queueStart],
                       busy := s.stats.busy[w := s.stats.busy[w] + pt]);
    var t := s.(stats := st, holders := s.holders[w := Some(i + 1)]);
    assert Core(t);
    OthersFrame(s, t, i);
  }

  lemma StartProcessingValid(s: Line, i: nat, k: nat, w: nat, queueStart: real, pt: real)
    requires Valid(s) && i < |s.parts| && s.parts[i].pc == AwaitMachine(k, w, queueStart)
    requires s.holders[w].None? && pt >= 0.0
    ensures Valid(StartProcessing(s, i, k, w, queueStart, pt))
  {
    var st := s.stats.(queueTime := s.stats.queueTime + [s.now - queueStart],
                       busy := s.stats.busy[w := s.stats.busy[w] + pt]);
    var t := s.(stats := st, holders := s.holders[w := Some(i + 1)]);
    GrantKeepsOthers(s, i, k, w, queueStart, pt);
    assert StartProcessing(s, i, k, w, queueStart, pt)
        == SetPc(LogEvent(t, PartProcessing(w, pt), i + 1), i, AwaitTimer(k, w, t.now + pt));
    ProcessingStarts(t, i, k, w, pt);
  }

  /** Logging an event of a live part and moving it to another live point keeps the part-independent invariant. */
  lemma CoreAfterLogAndPc(s: Line, i: nat, kind: EventKind, pc: Pc)
    requires Core(s) && i < |s.parts| && Live(s.parts[i].pc) && Live(pc) && PcWellFormed(pc)
    ensures Core(SetPc(LogEvent(s, kind, i + 1), i, pc))
  {
    var t := LogEvent(s, kind, i + 1);
    CoreAfterLog(s, kind, i + 1);
    CountUpdate(t.parts, i, t.parts[i].(pc := pc));
  }

  /** With machine `w` taken, logging the start and moving to the timeout keeps the invariant. */
  lemma ProcessingStarts(t: Line, i: nat, k: nat, w: nat, pt: real)
    requires ValidOutside(t, i) && t.parts[i].pc.AwaitMachine? && t.parts[i].pc.stage == k && t.parts[i].pc.workstation == w
    requires w < NumWorkstations && t.holders[w] == Some(i + 1)
    requires forall v :: 0 <= v < NumWorkstations && v != w ==> t.holders[v] != Some(i + 1)
    requires i + 1 !in t.aborted && AbortCount(Trail(t.log, i + 1)) == 0
    requires RouteMatches(t.parts[i].pc, Queued(Trail(t.log, i + 1))) && t.parts[i].arrival <= t.now
    requires t.stats.busy[w] <= t.now + pt
    ensures Valid(SetPc(LogEvent(t, PartProcessing(w, pt), i + 1), i, AwaitTimer(k, w, t.now + pt)))
  {
    var rec := LogRecord(t.now, PartProcessing(w, pt), i + 1);
    var pc := AwaitTimer(k, w, t.now + pt);
    var r := t.(log := t.log + [rec], parts := t.parts[i := t.parts[i].(pc := pc)]);
    assert SetPc(LogEvent(t, PartProcessing(w, pt), i + 1), i, pc) == r;
    CoreAfterLogAndPc(t, i, PartProcessing(w, pt), pc);
    AppendTrails(t.log, rec);
    OthersFrame(t, r, i);
    assert PartOk(r, i);
  }

  lemma CompleteGrantValid(s: Line, i: nat, k: nat, w: nat, queueStart: real, draw: real)
    requires Valid(s) && i < |s.parts| && s.parts[i].pc == AwaitMachine(k, w, queueStart)
    requires s.holders[w].None?
    ensures Valid(CompleteGrant(s, i, k, w, queueStart, draw))
  {
    if s.latch.stopRequested {
      AbortLiveValid(s, i);
    } else {
      StartProcessingValid(s, i, k, w, queueStart, ProcessingTime(draw));
    }
  }

  /** The timeout fires: the clock moves to the due time and the machine is released. */
  lemma TimerFires(s: Line, i: nat, k: nat, w: nat, due: real)
    requires Valid(s) && i < |s.parts| && s.parts[i].pc == AwaitTimer(k, w, due)
    requires s.now <= due
    ensures ValidOutside(s.(now := due, holders := s.holders[w := None]), i)
    ensures Detached(s.(now := due, holders := s.holders[w := None]), i)
    ensures |Queued(Trail(s.log, i + 1))| == k + 1
  {
    assert PartOk(s, i);
    var t := s.(now := due, holders := s.holders[w := None]);
    assert Core(t);
    forall j | 0 <= j < |t.parts| && j != i ensures PartOk(t, j) {
      PartOkFrame(s, t, j);
    }
  }

  /** After the release, the completion is logged and the part goes to its output buffer or finishes. */
  lemma StationCompletedValid(t: Line, i: nat, k: nat, w: nat, pick: nat)
    requires ValidOutside(t, i) && Detached(t, i) && k < StageCount && t.parts[i].pc.AwaitTimer?
    requires |Queued(Trail(t.log, i + 1))| == k + 1
    ensures var u := LogEvent(t, PartCompletedStation(w), i + 1);
            Valid(if BufferAfter(k).Some? then SetPc(u, i, AwaitPut(k)) else Advance(u, i, k + 1, pick))
  {
    var u := LogEvent(t, PartCompletedStation(w), i + 1);
    LogKeepsOthers(t, i, PartCompletedStation(w));
    assert Detached(u, i);
    if BufferAfter(k).Some? {
      SetPcKeepsOthers(u, i, AwaitPut(k));
      assert PartOk(SetPc(u, i, AwaitPut(k)), i);
    } else {
      AdvanceValid(u, i, k + 1, pick);
    }
  }

  lemma CompleteTimerValid(s: Line, i: nat, k: nat, w: nat, due: real, pick: nat)
    requires Valid(s) && i < |s.parts| && s.parts[i].pc == AwaitTimer(k, w, due)
    requires s.now <= due
    ensures Valid(CompleteTimer(s, i, k, w, due, pick))
  {
    var t := s.(now := due, holders := s.holders[w := None]);
    TimerFires(s, i, k, w, due);
    if t.latch.stopRequested {
      assert CompleteTimer(s, i, k, w, due, pick) == AbortPart(t, i);
      AbortPartValid(t, i);
    } else {
      var u := LogEvent(t, PartCompletedStation(w), i + 1);
      assert CompleteTimer(s, i, k, w, due, pick)
          == (if BufferAfter(k).Some? then SetPc(u, i, AwaitPut(k)) else Advance(u, i, k + 1, pick));
      StationCompletedValid(t, i, k, w, pick);
    }
  }

  /** A part that has placed its output in the buffer after stage `k` may go on to stage `k + 1`. */
  lemma AdvanceAfterPutValid(u: Line, i: nat, k: nat, pick: nat)
    requires ValidOutside(u, i) && Detached(u, i) && k < StageCount - 1
    requires |Queued(Trail(u.log, i + 1))| == k + 1
    ensures Valid(Advance(LogEvent(u, PartInBuffer(BufferAfter(k).value, u.levels[BufferAfter(k).value]), i + 1), i, k + 1, pick))
  {
    var b := BufferAfter(k).value;
    var v := LogEvent(u, PartInBuffer(b, u.levels[b]), i + 1);
    LogKeepsOthers(u, i, PartInBuffer(b, u.levels[b]));
    assert Detached(v, i);
    assert Advance(v, i, k + 1, pick) == EnterStage(v, i, k + 1, pick);
    EnterStageValid(v, i, k + 1, pick);
  }

  lemma CompletePutValid(s: Line, i: nat, k: nat, pick: nat)
    requires Valid(s) && i < |s.parts| && s.parts[i].pc == AwaitPut(k)
    requires s.levels[BufferAfter(k).value] < BufferCapacity
    ensures Valid(CompletePut(s, i, k, pick))
  {
    var b := BufferAfter(k).value;
    var levels := s.levels[b := s.levels[b] + 1];
    if s.latch.stopRequested {
      BuffersChangeDetaches(s, i, levels, s.stats.bufferLevel);
      var t := s.(levels := levels, stats := s.stats.(bufferLevel := s.stats.bufferLevel));
      assert CompletePut(s, i, k, pick) == AbortPart(t, i);
      AbortPartValid(t, i);
    } else {
      var recorded := s.stats.bufferLevel[b := levels[b]];
      BuffersChangeDetaches(s, i, levels, recorded);
      var u := s.(levels := levels, stats := s.stats.(bufferLevel := recorded));
      assert CompletePut(s, i, k, pick) == Advance(LogEvent(u, PartInBuffer(b, u.levels[b]), i + 1), i, k + 1, pick);
      AdvanceAfterPutValid(u, i, k, pick);
    }
  }

  /** Every resumption of a part keeps the invariant. */
  lemma ResumePartValid(s: Line, i: nat, pick: nat, draw: real)
    requires Valid(s) && PartEnabled(s, i)
    ensures Valid(ResumePart(s, i, pick, draw))
  {
    match s.parts[i].pc
    case Spawned => StartPartValid(s, i, pick);
    case AwaitGet(k) => CompleteGetValid(s, i, k, pick);
    case AwaitMachine(k, w, queueStart) => CompleteGrantValid(s, i, k, w, queueStart, draw);
    case AwaitTimer(k, w, due) => CompleteTimerValid(s, i, k, w, due, pick);
    case AwaitPut(k) => CompletePutValid(s, i, k, pick);
  }

  // ----- the arrival generator and the run control -----

  lemma InitValid()
    ensures Valid(Init())
  {
  }

  /** Moving the clock forward keeps the invariant. */
  lemma ClockValid(s: Line, t: real)
    requires Valid(s) && s.now <= t
    ensures Valid(s.(now := t))
  {
    var r := s.(now := t);
    forall j | 0 <= j < |r.parts| ensures PartOk(r, j) {
      PartOkFrame(s, r, j);
    }
  }

  /** A generator's state and the latch are not part of any part's obligations. */
  lemma ControlValid(s: Line, latch: StopLatch.Latch, gens: seq<Generator>)
    requires Valid(s) && StopLatch.LatchOk(latch)
    ensures Valid(s.(latch := latch, generators := gens))
  {
    var r := s.(latch := latch, generators := gens);
    forall j | 0 <= j < |r.parts| ensures PartOk(r, j) {
      PartOkFrame(s, r, j);
    }
  }

  lemma CoreAfterArrival(s: Line)
    requires Core(s)
    ensures Core(ArrivalOf(s))
  {
    var id := s.partCounter + 1;
    var rec := LogRecord(s.now, PartArrived, id);
    var r := s.(partCounter := id, stats := s.stats.(inSystem := s.stats.inSystem + 1),
                log := s.log + [rec], parts := s.parts + [Part(s.now, Spawned)]);
    assert ArrivalOf(s) == r;
    CountAppend(s.parts, Part(s.now, Spawned));
    assert forall j :: 0 <= j < |r.log| ==> 1 <= r.log[j].part <= |r.parts| by {
      assert forall j :: 0 <= j < |s.log| ==> r.log[j] == s.log[j];
    }
  }

  /** A new part enters with an empty record and holds nothing. */
  lemma NewPartOk(s: Line)
    requires Valid(s)
    ensures Core(ArrivalOf(s)) && PartOk(ArrivalOf(s), |s.parts|)
  {
    var id := s.partCounter + 1;
    var r := ArrivalOf(s);
    CoreAfterArrival(s);
    TrailAppend(s.log, LogRecord(s.now, PartArrived, id), id);
    TrailOfNewPart(s.log, id);
    assert Trail(r.log, id) == [PartArrived];
    TrailKindAppend([], PartArrived);
    assert Queued([PartArrived]) == [] && AbortCount([PartArrived]) == 0;
  }

  /** The arrival leaves every earlier part's obligations intact. */
  lemma OldPartsOk(s: Line)
    requires Valid(s)
    ensures forall j :: 0 <= j < |s.parts| ==> PartOk(ArrivalOf(s), j)
  {
    var id := s.partCounter + 1;
    var r := ArrivalOf(s);
    CoreAfterArrival(s);
    AppendTrails(s.log, LogRecord(s.now, PartArrived, id));
    forall j | 0 <= j < |s.parts| ensures PartOk(r, j) {
      assert PartOk(s, j);
      PartOkFrame(s, r, j);
    }
  }

  lemma ArrivalValid(s: Line)
    requires Valid(s)
    ensures Valid(ArrivalOf(s))
  {
    NewPartOk(s);
    OldPartsOk(s);
  }

  /** Past its wait, the generator either ends or creates the next part and waits again. */
  lemma GeneratorWakesValid(s: Line, g: nat, due: real, delay: real)
    requires Valid(s) && g < |s.generators| && s.generators[g] == GenWaiting(due) && s.now <= due
    ensures var t := s.(now := due);
            Valid(if t.latch.stopRequested then SetGenerator(t, g, GenDone) else SetGenerator(ArrivalOf(t), g, GenWaiting(due + delay)))
  {
    var t := s.(now := due);
    ClockValid(s, due);
    if t.latch.stopRequested {
      ControlValid(t, t.latch, t.generators[g := GenDone]);
    } else {
      ArrivalValid(t);
      var a := ArrivalOf(t);
      ControlValid(a, a.latch, a.generators[g := GenWaiting(due + delay)]);
    }
  }

  lemma ResumeGeneratorValid(s: Line, g: nat, delay: real)
    requires Valid(s) && GeneratorEnabled(s, g) && delay >= 0.0
    ensures Valid(ResumeGenerator(s, g, delay))
  {
    match s.generators[g]
    case GenSpawned =>
      var gen := if s.latch.stopRequested then GenDone else GenWaiting(s.now + delay);
      assert ResumeGenerator(s, g, delay) == SetGenerator(s, g, gen);
      ControlValid(s, s.latch, s.generators[g := gen]);
    case GenWaiting(due) =>
      var t := s.(now := due);
      assert ResumeGenerator(s, g, delay) ==
        if t.latch.stopRequested then SetGenerator(t, g, GenDone) else SetGenerator(ArrivalOf(t), g, GenWaiting(due + delay));
      GeneratorWakesValid(s, g, due, delay);
  }

  lemma RequestStopValid(s: Line)
    requires Valid(s)
    ensures Valid(RequestStop(s))
  {
    ControlValid(s, StopLatch.RequestStop(s.latch), s.generators);
  }

  lemma BeginRunValid(s: Line)
    requires Valid(s) && !Running(s)
    ensures Valid(BeginRun(s))
  {
    ControlValid(s, StopLatch.BeginRun(s.latch), s.generators + [GenSpawned]);
  }

  lemma StopMonitorValid(s: Line)
    requires Valid(s) && s.latch.stopEvent == StopLatch.Triggered
    ensures Valid(StopMonitor(s))
  {
    ControlValid(s, StopLatch.EndRun(StopLatch.MonitorWakes(s.latch)), s.generators);
  }

  lemma ReachHorizonValid(s: Line, until: real)
    requires Valid(s) && Running(s) && s.latch.stopEvent != StopLatch.Triggered && s.now <= until
    ensures Valid(ReachHorizon(s, until))
  {
    ClockValid(s, until);
    var t := s.(now := until);
    ControlValid(t, StopLatch.EndRun(t.latch), t.generators);
  }

  /** Every enabled step keeps the invariant. */
  lemma NextValid(s: Line, st: Step)
    requires Valid(s) && StepEnabled(s, st)
    ensures Valid(Next(s, st))
  {
    match st
    case RequestStopStep => RequestStopValid(s);
    case BeginRunStep => BeginRunValid(s);
    case MonitorStep => StopMonitorValid(s);
    case HorizonStep(until) => ReachHorizonValid(s, until);
    case PartStep(i, pick, draw) => ResumePartValid(s, i, pick, draw);
    case GeneratorStep(g, delay) => ResumeGeneratorValid(s, g, delay);
  }
}
