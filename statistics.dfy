/**
 * The per-run statistics record and the report computed from it at the
 * end of a run: throughput and per-workstation utilisation as ratios that
 * are zero when no simulated time has elapsed, and average cycle and
 * queue times that are zero when no sample was taken.
 */
module Statistics {
  import opened Topology

  /** The counters and samples the simulation updates as parts move. */
  datatype Stats = Stats(
    produced: nat,
    inSystem: int,
    busy: seq<real>,         // per workstation, accumulated processing time
    bufferLevel: seq<int>,   // per buffer, the last level recorded
    queueTime: seq<real>,    // one sample per machine grant
    cycleTime: seq<real>)    // one sample per finished part

  /** The record returned at the end of a run. */
  datatype Report = Report(
    simulationTime: real,
    partsProduced: nat,
    partsInSystem: int,
    throughput: real,
    avgCycleTime: real,
    avgQueueTime: real,
    utilization: seq<real>,
    bufferLevels: seq<int>)

  /** The statistics of a line that has not yet run. */
  function InitialStats(): (st: Stats)
    ensures st.produced == 0 && st.inSystem == 0
    ensures |st.busy| == NumWorkstations && |st.bufferLevel| == NumBuffers
    ensures forall w :: 0 <= w < |st.busy| ==> st.busy[w] == 0.0
    ensures forall b :: 0 <= b < |st.bufferLevel| ==> st.bufferLevel[b] == 0
    ensures st.queueTime == [] && st.cycleTime == []
  {
    Stats(0, 0, seq(NumWorkstations, _ => 0.0), seq(NumBuffers, _ => 0), [], [])
  }

  function Sum(xs: seq<real>): real
  {
    if |xs| == 0 then 0.0 else Sum(xs[..|xs| - 1]) + xs[|xs| - 1]
  }

  /** The arithmetic mean, taken as zero for no samples. */
  function Mean(xs: seq<real>): (m: real)
    ensures |xs| == 0 ==> m == 0.0
    ensures |xs| > 0 ==> m * (|xs| as real) == Sum(xs)
  {
    if |xs| == 0 then 0.0 else Sum(xs) / (|xs| as real)
  }

  /** `num / total`, taken as zero when no time has elapsed. */
  function Ratio(num: real, total: real): (r: real)
    ensures total <= 0.0 ==> r == 0.0
    ensures total > 0.0 ==> r * total == num
  {
    if total > 0.0 then num / total else 0.0
  }

  /** The end-of-run report for statistics `st` after `totalTime` units of simulated time. */
  function GetStatistics(st: Stats, totalTime: real): (r: Report)
    requires |st.busy| == NumWorkstations
    ensures r.simulationTime == totalTime
    ensures r.partsProduced == st.produced && r.partsInSystem == st.inSystem
    ensures |r.utilization| == NumWorkstations
    ensures r.bufferLevels == st.bufferLevel
    ensures totalTime <= 0.0 ==> r.throughput == 0.0 && forall w :: 0 <= w < NumWorkstations ==> r.utilization[w] == 0.0
    ensures totalTime > 0.0 ==> r.throughput * totalTime == st.produced as real
    ensures totalTime > 0.0 ==> forall w :: 0 <= w < NumWorkstations ==> r.utilization[w] * totalTime == st.busy[w]
    ensures st.cycleTime == [] ==> r.avgCycleTime == 0.0
    ensures st.cycleTime != [] ==> r.avgCycleTime * (|st.cycleTime| as real) == Sum(st.cycleTime)
    ensures st.queueTime == [] ==> r.avgQueueTime == 0.0
    ensures st.queueTime != [] ==> r.avgQueueTime * (|st.queueTime| as real) == Sum(st.queueTime)
  {
    Report(
      totalTime,
      st.produced,
      st.inSystem,
      Ratio(st.produced as real, totalTime),
      Mean(st.cycleTime),
      Mean(st.queueTime),
      seq(NumWorkstations, w requires 0 <= w < NumWorkstations => Ratio(st.busy[w], totalTime)),
      st.bufferLevel)
  }

  lemma SumAppend(xs: seq<real>, x: real)
    ensures Sum(xs + [x]) == Sum(xs) + x
  {
    assert (xs + [x])[..|xs|] == xs;
  }

  /** If every sample lies in [lo, hi], so does their sum scaled down by their number. */
  lemma {:induction false} SumBounds(xs: seq<real>, lo: real, hi: real)
    requires forall j :: 0 <= j < |xs| ==> lo <= xs[j] <= hi
    ensures (|xs| as real) * lo <= Sum(xs) <= (|xs| as real) * hi
  {
    if |xs| > 0 {
      SumBounds(xs[..|xs| - 1], lo, hi);
    }
  }

  /** The average of samples that all lie in [lo, hi] lies in [lo, hi] too. */
  lemma MeanBounds(xs: seq<real>, lo: real, hi: real)
    requires |xs| > 0
    requires forall j :: 0 <= j < |xs| ==> lo <= xs[j] <= hi
    ensures lo <= Mean(xs) <= hi
  {
    SumBounds(xs, lo, hi);
    assert Mean(xs) * (|xs| as real) == Sum(xs);
  }

  /** Averages of non-negative samples (queue and cycle times) are non-negative, with or without samples. */
  lemma {:induction false} MeanNonNegative(xs: seq<real>)
    requires forall j :: 0 <= j < |xs| ==> xs[j] >= 0.0
    ensures Mean(xs) >= 0.0
  {
    if |xs| > 0 {
      SumNonNegative(xs);
      assert Mean(xs) == Sum(xs) / (|xs| as real);
    }
  }

  lemma {:induction false} SumNonNegative(xs: seq<real>)
    requires forall j :: 0 <= j < |xs| ==> xs[j] >= 0.0
    ensures Sum(xs) >= 0.0
  {
    if |xs| > 0 {
      SumNonNegative(xs[..|xs| - 1]);
    }
  }

  /** A workstation busy for no longer than the elapsed time has a utilisation between 0 and 1. */
  lemma UtilizationInUnitInterval(st: Stats, totalTime: real, w: nat)
    requires |st.busy| == NumWorkstations && w < NumWorkstations
    requires 0.0 <= st.busy[w] <= totalTime || (totalTime <= 0.0)
    ensures 0.0 <= GetStatistics(st, totalTime).utilization[w] <= 1.0
  {
    var u := GetStatistics(st, totalTime).utilization[w];
    if totalTime > 0.0 {
      assert u == st.busy[w] / totalTime;
      assert 0.0 <= st.busy[w] <= totalTime;
      assert st.busy[w] / totalTime <= totalTime / totalTime;
      assert 0.0 <= st.busy[w] / totalTime;
      assert u <= 1.0;
    }
  }

  /** A line into which nothing has arrived reports no production, no throughput and idle machines. */
  lemma IdleLineReport(totalTime: real)
    ensures var r := GetStatistics(InitialStats(), totalTime);
      r.partsProduced == 0 && r.partsInSystem == 0 && r.throughput == 0.0
      && r.avgCycleTime == 0.0 && r.avgQueueTime == 0.0
      && forall w :: 0 <= w < NumWorkstations ==> r.utilization[w] == 0.0
  {
    var st := InitialStats();
    var r := GetStatistics(st, totalTime);
    if totalTime > 0.0 {
      forall w | 0 <= w < NumWorkstations ensures r.utilization[w] == 0.0 {
        assert r.utilization[w] * totalTime == 0.0;
      }
      assert r.throughput * totalTime == 0.0;
    }
  }
}
