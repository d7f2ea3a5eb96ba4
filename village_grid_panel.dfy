/** The village severity grid of frontend/src/components/VillageGridPanel.jsx:
    tier counters, search and status filtering, ten-row pagination with its
    page window, and the panel state the handlers update. */
module VillageGridPanel {
  import opened Common
  import opened Seqs
  import opened Severity
  import opened ClientData

  const RowsPerPage: nat := 10

  // ---- Tier counters -------------------------------------------------------

  datatype Counts = Counts(critical: nat, warning: nat, safe: nat, total: nat)

  /** The `counts` memo: one pass over the list bumping exactly one counter per village. */
  method ComputeCounts(villages: Option<seq<Village>>) returns (c: Counts)
    ensures c.critical == |Filter(OrNil(villages), IsCritical)|
    ensures c.warning == |Filter(OrNil(villages), IsWarning)|
    ensures c.safe == |Filter(OrNil(villages), IsSafe)|
    ensures c.total == |OrNil(villages)|
    ensures c.critical + c.warning + c.safe == c.total
  {
    var vs := OrNil(villages);
    var critical, warning, safe := 0, 0, 0;
    var i := 0;
    while i < |vs|
      invariant 0 <= i <= |vs|
      invariant critical == |Filter(vs[..i], IsCritical)|
      invariant warning == |Filter(vs[..i], IsWarning)|
      invariant safe == |Filter(vs[..i], IsSafe)|
      invariant critical + warning + safe == i
    {
      var v := vs[i];
      assert vs[..i + 1][..i] == vs[..i];
      if OrZero(v.wsi) > 70.0 {
        critical := critical + 1;
      } else if OrZero(v.wsi) > 40.0 {
        warning := warning + 1;
      } else {
        safe := safe + 1;
      }
      i := i + 1;
    }
    assert vs[..i] == vs;
    c := Counts(critical, warning, safe, |vs|);
  }

  // ---- Search and status filter --------------------------------------------

  /** The search test for an already lower-cased term: name or id, missing read as "". */
  function SearchMatch(q: string): Village -> bool {
    (v: Village) => Contains(Lower(OrEmpty(v.name)), q) || Contains(Lower(OrEmpty(v.id)), q)
  }

  function AnyVillage(): Village -> bool {
    (v: Village) => true
  }

  /** The status test a filter key selects; an unknown key (such as 'all') passes everything. */
  function StatusTest(f: string): (p: Village -> bool)
    ensures f == "critical" ==> p == IsCritical
    ensures f == "warning" ==> p == IsWarning
    ensures f == "safe" ==> p == IsSafe
    ensures f !in {"critical", "warning", "safe"} ==> forall v :: p(v)
  {
    if f == "critical" then IsCritical
    else if f == "warning" then IsWarning
    else if f == "safe" then IsSafe
    else AnyVillage()
  }

  /** The `filteredVillages` memo: search first (when the term is not empty), then the status filter. */
  function FilteredVillages(villages: Option<seq<Village>>, searchTerm: string, statusFilter: string): (r: seq<Village>)
    ensures |r| <= |OrNil(villages)|
  {
    var list := OrNil(villages);
    var searched := if searchTerm != "" then Filter(list, SearchMatch(Lower(searchTerm))) else list;
    if statusFilter == "critical" then Filter(searched, IsCritical)
    else if statusFilter == "warning" then Filter(searched, IsWarning)
    else if statusFilter == "safe" then Filter(searched, IsSafe)
    else searched
  }

  /** What a village must satisfy to be kept, stated as one test. */
  function Keeps(searchTerm: string, statusFilter: string): Village -> bool {
    (v: Village) => (searchTerm == "" || SearchMatch(Lower(searchTerm))(v)) && StatusTest(statusFilter)(v)
  }

  /** The two-stage filter keeps exactly the villages that pass the one combined test, in order. */
  lemma FilteredIsKeeps(villages: Option<seq<Village>>, searchTerm: string, statusFilter: string)
    ensures FilteredVillages(villages, searchTerm, statusFilter) == Filter(OrNil(villages), Keeps(searchTerm, statusFilter))
  {
    var list := OrNil(villages);
    var keep := Keeps(searchTerm, statusFilter);
    var status := StatusTest(statusFilter);
    var searched := if searchTerm != "" then Filter(list, SearchMatch(Lower(searchTerm))) else list;
    if searchTerm != "" {
      FilterFilter(list, SearchMatch(Lower(searchTerm)), status, keep);
    } else {
      FilterExt(list, keep, status);
    }
    if statusFilter !in {"critical", "warning", "safe"} {
      FilterAll(searched, status);
    }
  }

  /** The filtered list keeps its villages in input order. */
  lemma FilteredIsSubseq(villages: Option<seq<Village>>, searchTerm: string, statusFilter: string)
    ensures Subseq(FilteredVillages(villages, searchTerm, statusFilter), OrNil(villages))
  {
    FilteredIsKeeps(villages, searchTerm, statusFilter);
    FilterSubseq(OrNil(villages), Keeps(searchTerm, statusFilter));
  }

  /** An empty search with the 'all' filter shows the whole list. */
  lemma EmptySearchKeepsAll(villages: Option<seq<Village>>)
    ensures FilteredVillages(villages, "", "all") == OrNil(villages)
  {
  }

  /** With an empty search, each status filter shows as many villages as its counter. */
  lemma StatusFilterMatchesCounter(villages: Option<seq<Village>>)
    ensures FilteredVillages(villages, "", "critical") == Filter(OrNil(villages), IsCritical)
    ensures FilteredVillages(villages, "", "warning") == Filter(OrNil(villages), IsWarning)
    ensures FilteredVillages(villages, "", "safe") == Filter(OrNil(villages), IsSafe)
  {
  }

  // ---- Pagination ------------------------------------------------------------

  /** `Math.max(1, Math.ceil(n / ROWS_PER_PAGE))`. */
  function TotalPages(n: nat): (r: nat)
    ensures r >= 1
    ensures n == 0 ==> r == 1
    ensures n > 0 ==> (r - 1) * RowsPerPage < n <= r * RowsPerPage
  {
    var ceil := (n + RowsPerPage - 1) / RowsPerPage;
    if ceil < 1 then 1 else ceil
  }

  /** `filteredVillages.slice((currentPage - 1) * 10, currentPage * 10)`. */
  function PagedVillages(list: seq<Village>, currentPage: int): (r: seq<Village>)
    ensures |r| <= RowsPerPage
    ensures currentPage >= 1 ==>
      r == list[MinInt((currentPage - 1) * RowsPerPage, |list|)..MinInt(currentPage * RowsPerPage, |list|)]
  {
    Slice(list, (currentPage - 1) * RowsPerPage, currentPage * RowsPerPage)
  }

  /** Pages 1 to k one after the other. */
  function PagesUpTo(list: seq<Village>, k: nat): seq<Village> {
    if k == 0 then [] else PagesUpTo(list, k - 1) + PagedVillages(list, k)
  }

  lemma {:induction false} PagesUpToPrefix(list: seq<Village>, k: nat)
    ensures PagesUpTo(list, k) == list[..MinInt(k * RowsPerPage, |list|)]
  {
    if k > 0 {
      PagesUpToPrefix(list, k - 1);
      var a := MinInt((k - 1) * RowsPerPage, |list|);
      var b := MinInt(k * RowsPerPage, |list|);
      assert list[..a] + list[a..b] == list[..b];
    }
  }

  /** Reading every page in turn gives back the whole filtered list. */
  lemma PagesCoverList(list: seq<Village>)
    ensures PagesUpTo(list, TotalPages(|list|)) == list
  {
    PagesUpToPrefix(list, TotalPages(|list|));
    assert list[..|list|] == list;
  }

  /** The page number shown on the i-th button of the pager. */
  function PageAt(totalPages: int, currentPage: int, i: int): int {
    if totalPages <= 5 then i + 1
    else if currentPage <= 3 then i + 1
    else if currentPage >= totalPages - 2 then totalPages - 4 + i
    else currentPage - 2 + i
  }

  /** `Array.from({ length: Math.min(totalPages, 5) }, ...)`. */
  function PageWindow(totalPages: nat, currentPage: int): (r: seq<int>)
    ensures |r| == MinInt(totalPages, 5)
    ensures forall i :: 0 <= i < |r| ==> r[i] == PageAt(totalPages, currentPage, i)
  {
    seq(MinInt(totalPages, 5), i => PageAt(totalPages, currentPage, i))
  }

  /** Whatever the current page, even one past the last page, the window is a
      run of consecutive pages between 1 and the page count. */
  lemma WindowBounded(totalPages: nat, currentPage: int)
    ensures forall i :: 0 <= i < |PageWindow(totalPages, currentPage)| ==> 1 <= PageWindow(totalPages, currentPage)[i] <= totalPages
    ensures forall i :: 0 < i < |PageWindow(totalPages, currentPage)| ==> PageWindow(totalPages, currentPage)[i] == PageWindow(totalPages, currentPage)[i - 1] + 1
  {
  }

  /** For a page in range the window is a run of consecutive in-range pages
      holding the current one. */
  lemma WindowInRange(totalPages: nat, currentPage: int)
    requires 1 <= currentPage <= totalPages
    ensures forall i :: 0 <= i < |PageWindow(totalPages, currentPage)| ==> 1 <= PageWindow(totalPages, currentPage)[i] <= totalPages
    ensures forall i :: 0 < i < |PageWindow(totalPages, currentPage)| ==> PageWindow(totalPages, currentPage)[i] == PageWindow(totalPages, currentPage)[i - 1] + 1
    ensures currentPage in PageWindow(totalPages, currentPage)
  {
    var w := PageWindow(totalPages, currentPage);
    var first := PageAt(totalPages, currentPage, 0);
    assert 0 <= currentPage - first < |w|;
    assert w[currentPage - first] == currentPage;
  }

  // ---- Table body --------------------------------------------------------------

  /** The three colour schemes of the severity badge. */
  datatype Palette = Red | Yellow | Green

  /** The Tailwind classes of a colour scheme: the badge's and the dot's. */
  datatype Classes = Classes(color: string, dotClass: string)

  function ClassesOf(p: Palette): Classes {
    match p
    case Red => Classes("bg-red-50 text-red-700 border-red-100", "bg-red-600")
    case Yellow => Classes("bg-yellow-50 text-yellow-700 border-yellow-100", "bg-yellow-600")
    case Green => Classes("bg-green-50 text-green-700 border-green-100", "bg-green-600")
  }

  /** A severity badge: its colour scheme (whose classes ClassesOf gives), label and pulse. */
  datatype SeverityStyle = SeverityStyle(palette: Palette, badgeLabel: string, pulse: bool)

  /** `getSeverity(wsi)`. */
  function GetSeverity(wsi: real): (s: SeverityStyle)
    ensures s.badgeLabel == "CRITICAL" <==> TierOf(wsi) == Critical
    ensures s.badgeLabel == "WARNING" <==> TierOf(wsi) == Warning
    ensures s.badgeLabel == "SAFE" <==> TierOf(wsi) == Safe
    ensures s.pulse <==> TierOf(wsi) == Critical
    ensures s.palette == Red <==> TierOf(wsi) == Critical
    ensures s.palette == Yellow <==> TierOf(wsi) == Warning
  {
    if wsi > 70.0 then SeverityStyle(Red, "CRITICAL", true)
    else if wsi > 40.0 then SeverityStyle(Yellow, "WARNING", false)
    else SeverityStyle(Green, "SAFE", false)
  }

  /** i is the first index of an allocation for the village id. */
  predicate FirstWithId(allocations: seq<Allocation>, id: Option<string>, i: int) {
    0 <= i < |allocations| && allocations[i].villageId == id
    && forall j :: 0 <= j < i ==> allocations[j].villageId != id
  }

  /** `allocations.find(a => a.village_id === v.id)`: the first allocation for that id. */
  function FindAllocation(allocations: seq<Allocation>, id: Option<string>): (r: Option<Allocation>)
    ensures r.None? <==> forall i :: 0 <= i < |allocations| ==> allocations[i].villageId != id
    ensures r.Some? ==> exists i :: FirstWithId(allocations, id, i) && allocations[i] == r.value
  {
    if allocations == [] then None
    else if allocations[0].villageId == id then
      assert FirstWithId(allocations, id, 0);
      Some(allocations[0])
    else
      var r := FindAllocation(allocations[1..], id);
      if r.Some? then
        var i :| FirstWithId(allocations[1..], id, i) && allocations[1..][i] == r.value;
        assert FirstWithId(allocations, id, i + 1);
        r
      else r
  }

  datatype Row = Row(village: Village, severity: SeverityStyle, tankers: JsNumber)

  /** One table row: the tier of `(v.wsi || 0)` and the tankers allocated to the village, or 0 when it has no allocation. */
  function RowOf(v: Village, allocations: Option<seq<Allocation>>): (r: Row)
    ensures r.severity == GetSeverity(WsiOrZero(v))
    ensures FindAllocation(OrNil(allocations), v.id).None? ==> r.tankers == Some(0.0)
    ensures FindAllocation(OrNil(allocations), v.id).Some? ==> r.tankers == FindAllocation(OrNil(allocations), v.id).value.tankersAllocated
  {
    var alloc := FindAllocation(OrNil(allocations), v.id);
    Row(v, GetSeverity(OrZero(v.wsi)), if alloc.Some? then alloc.value.tankersAllocated else Some(0.0))
  }

  function RowsOf(vs: seq<Village>, allocations: Option<seq<Allocation>>): (r: seq<Row>)
    ensures |r| == |vs|
    ensures forall i :: 0 <= i < |vs| ==> r[i] == RowOf(vs[i], allocations)
  {
    if vs == [] then [] else RowsOf(vs[..|vs| - 1], allocations) + [RowOf(vs[|vs| - 1], allocations)]
  }

  datatype Body = Spinner | NoMatch | Rows(rows: seq<Row>)

  /** The table body: a spinner while loading an empty list, a notice when the page is empty, else one row per paged village. */
  function TableBody(loading: bool, villages: Option<seq<Village>>, allocations: Option<seq<Allocation>>,
                     searchTerm: string, statusFilter: string, currentPage: int): (b: Body)
    ensures b == Spinner <==> loading && OrNil(villages) == []
    ensures b.Rows? ==> b.rows == RowsOf(PagedVillages(FilteredVillages(villages, searchTerm, statusFilter), currentPage), allocations)
    ensures b.Rows? ==> |b.rows| == |PagedVillages(FilteredVillages(villages, searchTerm, statusFilter), currentPage)| > 0
    ensures b == NoMatch <==> !(loading && OrNil(villages) == []) && PagedVillages(FilteredVillages(villages, searchTerm, statusFilter), currentPage) == []
  {
    var paged := PagedVillages(FilteredVillages(villages, searchTerm, statusFilter), currentPage);
    if loading && |OrNil(villages)| == 0 then Spinner
    else if |paged| == 0 then NoMatch
    else Rows(RowsOf(paged, allocations))
  }

  // ---- Panel state ---------------------------------------------------------------

  /** The panel's own state (`searchTerm`, `currentPage`, `statusFilter`) and the
      `villages` prop it renders. */
  class PanelState {
    var villages: Option<seq<Village>>
    var searchTerm: string
    var currentPage: int
    var statusFilter: string

    predicate Valid()
      reads this
    {
      currentPage >= 1
    }

    function Filtered(): seq<Village>
      reads this
    {
      FilteredVillages(villages, searchTerm, statusFilter)
    }

    function Pages(): nat
      reads this
    {
      TotalPages(|Filtered()|)
    }

    constructor (villages: Option<seq<Village>>)
      ensures Valid()
      ensures this.villages == villages && searchTerm == "" && currentPage == 1 && statusFilter == "all"
    {
      this.villages := villages;
      searchTerm := "";
      currentPage := 1;
      statusFilter := "all";
    }

    /** Typing in the search box: the term changes and the pager goes back to page 1. */
    method SetSearchTerm(term: string)
      modifies this
      ensures Valid()
      ensures searchTerm == term && currentPage == 1
      ensures villages == old(villages) && statusFilter == old(statusFilter)
    {
      searchTerm := term;
      currentPage := 1;
    }

    /** Clicking a status chip: the filter changes and the pager goes back to page 1. */
    method SetStatusFilter(key: string)
      modifies this
      ensures Valid()
      ensures statusFilter == key && currentPage == 1
      ensures villages == old(villages) && searchTerm == old(searchTerm)
    {
      statusFilter := key;
      currentPage := 1;
    }

    /** New villages from the parent; the current page is kept as it is, even past the last page. */
    method SetVillages(vs: Option<seq<Village>>)
      modifies this
      requires Valid()
      ensures Valid()
      ensures villages == vs
      ensures currentPage == old(currentPage) && searchTerm == old(searchTerm) && statusFilter == old(statusFilter)
    {
      villages := vs;
    }

    /** The Previous button: `p => Math.max(1, p - 1)`. */
    method Previous()
      modifies this
      requires Valid()
      ensures Valid()
      ensures currentPage == MaxInt(1, old(currentPage) - 1)
      ensures old(currentPage) <= Pages() ==> 1 <= currentPage <= Pages()
      ensures villages == old(villages) && searchTerm == old(searchTerm) && statusFilter == old(statusFilter)
    {
      currentPage := MaxInt(1, currentPage - 1);
    }

    /** The Next button: `p => Math.min(totalPages, p + 1)`. */
    method Next()
      modifies this
      requires Valid()
      ensures Valid()
      ensures currentPage == MinInt(Pages(), old(currentPage) + 1)
      ensures 1 <= currentPage <= Pages()
      ensures villages == old(villages) && searchTerm == old(searchTerm) && statusFilter == old(statusFilter)
    {
      currentPage := MinInt(Pages(), currentPage + 1);
    }

    /** Clicking a numbered button of the pager window. */
    method GoToPage(page: int)
      modifies this
      requires Valid()
      requires page in PageWindow(Pages(), currentPage)
      ensures Valid()
      ensures currentPage == page && 1 <= currentPage <= Pages()
      ensures villages == old(villages) && searchTerm == old(searchTerm) && statusFilter == old(statusFilter)
    {
      WindowBounded(Pages(), currentPage);
      currentPage := page;
    }
  }
}
