/**
 * The fixed layout of the production line: nine single-capacity
 * workstations, five buffers of capacity five between them, and the
 * six-stage route every part follows (two of the stages offering a choice
 * of two parallel workstations).
 */
module Topology {
  import opened Wrappers

  const NumWorkstations: nat := 9
  const NumBuffers: nat := 5
  const BufferCapacity: nat := 5
  const StageCount: nat := 6

  /** One row of the stage table: the stage's name and the buffers on either side of it. */
  datatype StageRow = StageRow(name: string, before: Option<nat>, after: Option<nat>)

  /** The candidate workstations of every stage, keyed by stage name. */
  const ProcessRoutes: map<string, seq<nat>> := map[
    "stage1" := [0],
    "stage2" := [1, 2],
    "stage3" := [3, 4],
    "stage4" := [5],
    "stage5" := [6, 7],
    "stage6" := [8]
  ]

  /** The route of a part, in order. */
  const ProcessStages: seq<StageRow> := [
    StageRow("stage1", None, Some(0)),
    StageRow("stage2", Some(0), Some(1)),
    StageRow("stage3", Some(1), Some(2)),
    StageRow("stage4", Some(2), Some(3)),
    StageRow("stage5", Some(3), Some(4)),
    StageRow("stage6", Some(4), None)
  ]

  /** The candidate lists of the route map, in stage order. */
  const StageCandidates: seq<seq<nat>> := [[0], [1, 2], [3, 4], [5], [6, 7], [8]]

  /** The workstations a part may be sent to at stage `k` (0-based). */
  function Candidates(k: nat): (c: seq<nat>)
    requires k < StageCount
    ensures 1 <= |c| <= 2
    ensures forall w :: w in c ==> w < NumWorkstations
  {
    assert k == 0 || k == 1 || k == 2 || k == 3 || k == 4 || k == 5;
    StageCandidates[k]
  }

  /** Each stage's candidates are exactly the route map's entry for the stage's name. */
  lemma CandidatesFollowRoutes(k: nat)
    requires k < StageCount
    ensures ProcessStages[k].name in ProcessRoutes
    ensures Candidates(k) == ProcessRoutes[ProcessStages[k].name]
  {
    assert k == 0 || k == 1 || k == 2 || k == 3 || k == 4 || k == 5;
  }

  /** The buffer a part takes from before stage `k`; only the first stage has none. */
  function BufferBefore(k: nat): (b: Option<nat>)
    requires k < StageCount
    ensures b.Some? <==> k > 0
    ensures b.Some? ==> b.value < NumBuffers && b == BufferAfter(k - 1)
  {
    assert k == 0 || k == 1 || k == 2 || k == 3 || k == 4 || k == 5;
    ProcessStages[k].before
  }

  /** The buffer a part puts into after stage `k`; only the last stage has none. */
  function BufferAfter(k: nat): (b: Option<nat>)
    requires k < StageCount
    ensures b.Some? <==> k < StageCount - 1
    ensures b.Some? ==> b.value < NumBuffers
  {
    assert k == 0 || k == 1 || k == 2 || k == 3 || k == 4 || k == 5;
    ProcessStages[k].after
  }

  /** Each of the five buffers links exactly one pair of consecutive stages: buffer `b` is filled by stage `b` and drained by stage `b + 1`. */
  lemma BufferLinksOnePair(b: nat, k: nat)
    requires b < NumBuffers && k < StageCount
    ensures BufferAfter(k) == Some(b) <==> k == b
    ensures BufferBefore(k) == Some(b) <==> k == b + 1
  {
    assert k == 0 || k == 1 || k == 2 || k == 3 || k == 4 || k == 5;
  }

  /** No workstation serves two stages, so parts contending for one machine are always at the same stage. */
  lemma WorkstationServesOneStage(w: nat, j: nat, k: nat)
    requires j < StageCount && k < StageCount
    requires w in Candidates(j) && w in Candidates(k)
    ensures j == k
  {
    assert j == 0 || j == 1 || j == 2 || j == 3 || j == 4 || j == 5;
    assert k == 0 || k == 1 || k == 2 || k == 3 || k == 4 || k == 5;
  }

  /** Every workstation of the line belongs to some stage's candidates. */
  lemma EveryWorkstationIsUsed(w: nat)
    requires w < NumWorkstations
    ensures exists k :: 0 <= k < StageCount && w in Candidates(k)
  {
    var k := if w == 0 then 0 else if w <= 2 then 1 else if w <= 4 then 2
             else if w == 5 then 3 else if w <= 7 then 4 else 5;
    assert w in Candidates(k);
  }
}
