/** The district overview of frontend/src/components/OverviewPanel.jsx:
    population, rainfall and groundwater aggregates, tier counts and the
    tanker totals of the allocation plan. */
module OverviewPanel {
  import opened Common
  import opened Seqs
  import opened ClientData

  /** `xs.length ? sum / xs.length : 0`. */
  function Average(vs: seq<Village>, f: Village -> real): (r: real)
    ensures |vs| == 0 ==> r == 0.0
    ensures |vs| > 0 ==> r * (|vs| as real) == Sum(vs, f)
  {
    if |vs| == 0 then 0.0 else Sum(vs, f) / (|vs| as real)
  }

  function RainfallOrZero(v: Village): real { OrZero(v.rainfallDevPct) }
  function GroundwaterOrZero(v: Village): real { OrZero(v.gwCurrentLevel) }

  /** `allocationData?.allocations?.reduce(...) || 0`. */
  function TotalLitres(data: Option<AllocationData>): (r: real)
    ensures data.None? || data.value.allocations.None? ==> r == 0.0
    ensures data.Some? && data.value.allocations.Some? ==> r == Sum(data.value.allocations.value, LitersOrZero)
  {
    if data.Some? && data.value.allocations.Some? then Sum(data.value.allocations.value, LitersOrZero) else 0.0
  }

  /** `allocationData?.total_tankers_assigned || 0`. */
  function TotalTankers(data: Option<AllocationData>): (r: real)
    ensures data.None? ==> r == 0.0
    ensures data.Some? ==> r == OrZero(data.value.totalTankersAssigned)
  {
    if data.Some? then OrZero(data.value.totalTankersAssigned) else 0.0
  }

  datatype Overview = Overview(
    totalPop: real,
    avgRainfall: real,
    avgGroundwater: real,
    criticalCount: nat,
    warningCount: nat,
    safeCount: nat,
    totalLitres: real,
    totalTankers: real,
    villagesInNeed: nat,
    alertBadge: string)

  /** The figures of the loaded panel. */
  function ComputeOverview(vs: seq<Village>, data: Option<AllocationData>): (o: Overview)
    ensures o.totalPop == Sum(vs, PopulationOrZero)
    ensures o.avgRainfall == Average(vs, RainfallOrZero) && o.avgGroundwater == Average(vs, GroundwaterOrZero)
    ensures o.criticalCount == |Filter(vs, IsCritical)| && o.warningCount == |Filter(vs, IsWarning)|
    ensures o.safeCount == |Filter(vs, IsSafe)|
    ensures o.criticalCount + o.warningCount + o.safeCount == |vs|
    ensures o.villagesInNeed == |vs| - o.safeCount
    ensures o.alertBadge == "2" <==> exists i :: 0 <= i < |vs| && IsCritical(vs[i])
    ensures o.alertBadge == "1" <==> forall i :: 0 <= i < |vs| ==> !IsCritical(vs[i])
    ensures o.totalLitres == TotalLitres(data) && o.totalTankers == TotalTankers(data)
  {
    var critical := |Filter(vs, IsCritical)|;
    var warning := |Filter(vs, IsWarning)|;
    var safe := |Filter(vs, IsSafe)|;
    TiersPartition(vs);
    assert critical > 0 <==> exists i :: 0 <= i < |vs| && IsCritical(vs[i]) by {
      if exists i :: 0 <= i < |vs| && IsCritical(vs[i]) {
        var i :| 0 <= i < |vs| && IsCritical(vs[i]);
        FilterKeeps(vs, IsCritical, i);
      }
      if critical > 0 {
        FilterFrom(vs, IsCritical, 0);
      }
    }
    Overview(
      Sum(vs, PopulationOrZero),
      Average(vs, RainfallOrZero),
      Average(vs, GroundwaterOrZero),
      critical, warning, safe,
      TotalLitres(data),
      TotalTankers(data),
      critical + warning,
      if critical > 0 then "2" else "1")
  }

  /** What the panel shows: a spinner while loading; otherwise it reads
      `villages.length` directly, so an absent list throws. */
  datatype View = Spinner | Crash | Panel(overview: Overview)

  function Render(villages: Option<seq<Village>>, loading: bool, data: Option<AllocationData>): (v: View)
    ensures loading ==> v == Spinner
    ensures !loading && villages.None? ==> v == Crash
    ensures !loading && villages.Some? ==> v == Panel(ComputeOverview(villages.value, data))
  {
    if loading then Spinner
    else if villages.None? then Crash
    else Panel(ComputeOverview(villages.value, data))
  }
}
