/** The allocation endpoint of backend/app/api/routes_tankers.py: score every
    joined village, run the allocator over the available tankers, and report. */
module RoutesTankers {
  import opened Common
  import opened Seqs
  import opened ServerData
  import opened WsiCalculator
  import opened TankerAllocator
  import Severity

  datatype Plan = Plan(totalVillagesInNeed: nat, totalTankersAssigned: nat, allocations: seq<Allocation>)

  /** `{**v, "wsi": ..., "priority_score": ...}`: the record with its two computed keys. */
  function Enrich(v: Joined): (c: Candidate)
    ensures c.village == v
    ensures c.wsi == Some(ComputeWsi(v.gwCurrentLevel, v.gwMinRequired, v.rainfallDevPct))
    ensures c.priorityScore == Some(PriorityScore(v.population, c.wsi.value))
  {
    var wsi := ComputeWsi(v.gwCurrentLevel, v.gwMinRequired, v.rainfallDevPct);
    Candidate(v, Some(wsi), Some(PriorityScore(v.population, wsi)))
  }

  /** `get_tanker_allocation` over the fetched rows and tankers. An exception in the
      allocator becomes a 500 response. */
  method GetTankerAllocation(rows: seq<Joined>, tankers: seq<Tanker>) returns (r: Reply<Plan>)
    ensures var g := Greedy(Queue(Map(rows, Enrich), Severity.CriticalThreshold), tankers);
      (r.Body? <==> g.Ok?)
      && (r.Body? ==> r.value.allocations == g.value)
      && (r.Fail? ==> r.status == 500)
    ensures r.Body? ==>
      r.value.totalVillagesInNeed == r.value.totalTankersAssigned == |r.value.allocations| <= |tankers|
  {
    var villages: seq<Candidate> := [];
    var i := 0;
    while i < |rows|
      invariant 0 <= i <= |rows|
      invariant villages == Map(rows[..i], Enrich)
    {
      assert rows[..i + 1][..i] == rows[..i];
      villages := villages + [Enrich(rows[i])];
      i := i + 1;
    }
    assert rows[..|rows|] == rows;
    var allocations := AllocateTankers(villages, tankers, Severity.CriticalThreshold);
    GreedyUsesTankersInOrder(Queue(villages, Severity.CriticalThreshold), tankers);
    if allocations.Err? {
      return Fail(500, allocations.error);
    }
    r := Body(Plan(|allocations.value|, |allocations.value|, allocations.value));
  }
}
