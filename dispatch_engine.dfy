/** The dispatch console of frontend/src/components/DispatchEngine.jsx: search
    over allocations, the volume total, and the row badges. */
module DispatchEngine {
  import opened Common
  import opened Seqs
  import opened ClientData

  /** The search test for an already lower-cased term: village name or id, missing read as "". */
  function DispatchMatch(q: string): Allocation -> bool {
    (a: Allocation) => Contains(Lower(OrEmpty(a.villageName)), q) || Contains(Lower(OrEmpty(a.villageId)), q)
  }

  /** The `filtered` memo. */
  function Filtered(allocations: Option<seq<Allocation>>, searchTerm: string): (r: seq<Allocation>)
    ensures searchTerm == "" ==> r == OrNil(allocations)
    ensures searchTerm != "" ==> r == Filter(OrNil(allocations), DispatchMatch(Lower(searchTerm)))
  {
    var list := OrNil(allocations);
    if searchTerm == "" then list else Filter(list, DispatchMatch(Lower(searchTerm)))
  }

  /** A search keeps matching allocations only, every one of them, in order. */
  lemma FilteredExactly(allocations: seq<Allocation>, searchTerm: string)
    requires searchTerm != ""
    ensures forall i :: 0 <= i < |Filtered(Some(allocations), searchTerm)| ==>
      DispatchMatch(Lower(searchTerm))(Filtered(Some(allocations), searchTerm)[i])
    ensures forall i :: 0 <= i < |allocations| && DispatchMatch(Lower(searchTerm))(allocations[i]) ==>
      allocations[i] in Filtered(Some(allocations), searchTerm)
    ensures Subseq(Filtered(Some(allocations), searchTerm), allocations)
  {
    var p := DispatchMatch(Lower(searchTerm));
    forall i | 0 <= i < |allocations| && p(allocations[i])
      ensures allocations[i] in Filter(allocations, p)
    {
      FilterKeeps(allocations, p, i);
    }
    FilterSubseq(allocations, p);
  }

  /** The header: total volume over every allocation and the dispatch count, neither depending on the search. */
  datatype Header = Header(totalLiters: real, dispatches: nat)

  function ComputeHeader(allocations: Option<seq<Allocation>>): (h: Header)
    ensures h.totalLiters == Sum(OrNil(allocations), LitersOrZero)
    ensures h.dispatches == |OrNil(allocations)|
    ensures forall term :: |Filtered(allocations, term)| <= h.dispatches
  {
    Header(Sum(OrNil(allocations), LitersOrZero), |OrNil(allocations)|)
  }

  datatype Badge = Badge(bg: string, badgeLabel: string)

  /** `getPriorityBadge(i)` by row position. */
  function PriorityBadge(i: nat): (b: Badge)
    ensures b.badgeLabel == "URGENT" <==> i < 3
    ensures b.badgeLabel == "HIGH" <==> 3 <= i < 6
    ensures b.badgeLabel == "NORMAL" <==> i >= 6
  {
    if i < 3 then Badge("bg-red-50 border-red-200 text-red-700", "URGENT")
    else if i < 6 then Badge("bg-amber-50 border-amber-200 text-amber-700", "HIGH")
    else Badge("bg-blue-50 border-blue-200 text-blue-700", "NORMAL")
  }

  /** `alloc.village?.wsi || alloc.wsi || 0`. */
  function DisplayedWsi(a: Allocation): (r: real)
    ensures NumTruthy(a.villageWsi) ==> r == a.villageWsi.value
    ensures !NumTruthy(a.villageWsi) && NumTruthy(a.wsi) ==> r == a.wsi.value
    ensures !NumTruthy(a.villageWsi) && !NumTruthy(a.wsi) ==> r == 0.0
  {
    OrZero(OrNum(a.villageWsi, a.wsi))
  }

  /** `alloc.village?.population || alloc.population || 0`. */
  function DisplayedPopulation(a: Allocation): (r: real)
    ensures NumTruthy(a.villagePopulation) ==> r == a.villagePopulation.value
    ensures !NumTruthy(a.villagePopulation) && NumTruthy(a.population) ==> r == a.population.value
    ensures !NumTruthy(a.villagePopulation) && !NumTruthy(a.population) ==> r == 0.0
  {
    OrZero(OrNum(a.villagePopulation, a.population))
  }

  datatype Row = Row(badge: Badge, wsi: real, population: real, liters: real, tankers: real)

  function RowOf(a: Allocation, idx: nat): Row {
    Row(PriorityBadge(idx), DisplayedWsi(a), DisplayedPopulation(a), OrZero(a.allocatedLiters), OrZero(a.tankersAllocated))
  }

  datatype Body = Spinner | NoDispatches | Rows(rows: seq<Row>)

  /** The table body; the badge goes by position in the filtered list. */
  function TableBody(allocations: Option<seq<Allocation>>, loading: bool, searchTerm: string): (b: Body)
    ensures var f := Filtered(allocations, searchTerm);
      (b == Spinner <==> loading && f == []) && (b == NoDispatches <==> !loading && f == [])
      && (b.Rows? ==> |b.rows| == |f| && forall i :: 0 <= i < |f| ==> b.rows[i] == RowOf(f[i], i))
  {
    var f := Filtered(allocations, searchTerm);
    if loading && |f| == 0 then Spinner
    else if |f| == 0 then NoDispatches
    else Rows(seq(|f|, i requires 0 <= i < |f| => RowOf(f[i], i)))
  }
}
