/** The records the browser receives from the backend, as the client code reads
    them: every field may be absent (undefined), and numbers are read through
    the JavaScript rules of Common. */
module ClientData {
  import opened Common
  import opened Seqs
  import opened Severity

  /** A village status record (`/api/villages/status`), with the coordinate
      fields the map views look for. */
  datatype Village = Village(
    id: Option<string>,
    name: Option<string>,
    wsi: JsNumber,
    population: JsNumber,
    gwCurrentLevel: JsNumber,
    rainfallDevPct: JsNumber,
    priorityScore: JsNumber,
    lat: JsNumber,
    latitude: JsNumber,
    lng: JsNumber,
    longitude: JsNumber)

  /** One entry of an allocation plan's `allocations` list; `villageWsi` and
      `villagePopulation` are the fields of a nested `village` object when one
      is present. */
  datatype Allocation = Allocation(
    villageId: Option<string>,
    villageName: Option<string>,
    allocatedLiters: JsNumber,
    tankersAllocated: JsNumber,
    wsi: JsNumber,
    population: JsNumber,
    villageWsi: JsNumber,
    villagePopulation: JsNumber)

  /** The allocation plan (`/api/tankers/allocation`). */
  datatype AllocationData = AllocationData(
    allocations: Option<seq<Allocation>>,
    totalTankersAssigned: JsNumber,
    totalVillagesInNeed: JsNumber)

  /** How an awaited backend call ends: with the response body, or with an
      error whose `response.data.detail` and `message` may each be absent. */
  datatype Response<+T> = Success(data: T) | Failure(detail: Option<string>, message: Option<string>)

  /** `err.response?.data?.detail || fallback`, the error text most views show. */
  function DetailOr(detail: Option<string>, fallback: string): (r: string)
    ensures Truthy(detail) ==> r == detail.value
    ensures !Truthy(detail) ==> r == fallback
    ensures fallback != "" ==> r != ""
  {
    if Truthy(detail) then detail.value else fallback
  }

  /** `(v.wsi || 0)`, the WSI most views work with. */
  function WsiOrZero(v: Village): (r: real)
    ensures v.wsi.Some? ==> r == v.wsi.value
    ensures v.wsi.None? ==> r == 0.0
  {
    OrZero(v.wsi)
  }

  /** `(v.population || 0)`. */
  function PopulationOrZero(v: Village): (r: real)
    ensures v.population.Some? ==> r == v.population.value
    ensures v.population.None? ==> r == 0.0
  {
    OrZero(v.population)
  }

  /** `(a.allocated_liters || 0)`. */
  function LitersOrZero(a: Allocation): (r: real)
    ensures a.allocatedLiters.Some? ==> r == a.allocatedLiters.value
    ensures a.allocatedLiters.None? ==> r == 0.0
  {
    OrZero(a.allocatedLiters)
  }

  // The tier tests most views write as `(v.wsi || 0) > 70`, `(v.wsi || 0) > 40 && (v.wsi || 0) <= 70`
  // and `(v.wsi || 0) <= 40`.
  predicate IsCritical(v: Village) { WsiOrZero(v) > 70.0 }
  predicate IsWarning(v: Village) { WsiOrZero(v) > 40.0 && WsiOrZero(v) <= 70.0 }
  predicate IsSafe(v: Village) { WsiOrZero(v) <= 40.0 }

  /** The three tests are the client tiers, with a missing WSI read as 0 and so safe. */
  lemma TestsAreTiers(v: Village)
    ensures IsCritical(v) <==> ClientTier(v.wsi) == Critical
    ensures IsWarning(v) <==> ClientTier(v.wsi) == Warning
    ensures IsSafe(v) <==> ClientTier(v.wsi) == Safe
    ensures v.wsi.None? ==> IsSafe(v)
  {
  }

  /** Every village passes exactly one of the three tests, so their counts add up to the list length. */
  lemma TiersPartition(vs: seq<Village>)
    ensures |Filter(vs, IsCritical)| + |Filter(vs, IsWarning)| + |Filter(vs, IsSafe)| == |vs|
  {
    Partition3(vs, IsCritical, IsWarning, IsSafe);
  }
}
