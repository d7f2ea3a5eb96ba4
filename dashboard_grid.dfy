/** The sortable village table of frontend/src/components/DashboardGrid.jsx:
    the sort-toggle state and the sorted copy it renders. */
module DashboardGrid {
  import opened Common
  import opened Seqs
  import opened Sorting
  import opened ClientData

  /** The column headers that can be clicked. */
  datatype SortField = Name | Population | GwCurrentLevel | RainfallDevPct | Wsi | PriorityScore

  /** `village[field] ?? 0` for a numeric column (an absent value reads as 0). */
  function FieldValue(v: Village, f: SortField): JsNumber
    requires f != Name
  {
    match f
    case Population => v.population
    case GwCurrentLevel => v.gwCurrentLevel
    case RainfallDevPct => v.rainfallDevPct
    case Wsi => v.wsi
    case PriorityScore => v.priorityScore
  }

  function SortKey(f: SortField): Village -> real
    requires f != Name
  {
    (v: Village) => OrZero(FieldValue(v, f))
  }

  /** `[...villages].sort(cmp)`: a sorted copy. Sorting by name subtracts strings,
      which gives NaN, so that order is left unspecified (None). */
  function Sorted(villages: seq<Village>, f: SortField, asc: bool): (r: Option<seq<Village>>)
    ensures r.None? <==> f == Name
    ensures r.Some? ==> multiset(r.value) == multiset(villages) && SortedBy(r.value, SortKey(f), asc)
  {
    if f == Name then None else Some(SortBy(villages, SortKey(f), asc))
  }

  /** Ascending means non-decreasing in the column, descending non-increasing. */
  lemma SortedOrder(villages: seq<Village>, f: SortField, asc: bool)
    requires f != Name
    ensures var r := Sorted(villages, f, asc).value;
      forall i, j :: 0 <= i < j < |r| ==>
        if asc then OrZero(FieldValue(r[i], f)) <= OrZero(FieldValue(r[j], f))
        else OrZero(FieldValue(r[i], f)) >= OrZero(FieldValue(r[j], f))
  {
    var r := Sorted(villages, f, asc).value;
    assert SortedBy(r, SortKey(f), asc);
    forall i, j | 0 <= i < j < |r|
      ensures if asc then OrZero(FieldValue(r[i], f)) <= OrZero(FieldValue(r[j], f))
              else OrZero(FieldValue(r[i], f)) >= OrZero(FieldValue(r[j], f))
    {
      assert !Before(r[j], r[i], SortKey(f), asc);
    }
  }

  /** Villages with equal column values keep their relative order. */
  lemma SortedStable(villages: seq<Village>, f: SortField, asc: bool, k: real)
    requires f != Name
    ensures Filter(Sorted(villages, f, asc).value, KeyIs(SortKey(f), k)) == Filter(villages, KeyIs(SortKey(f), k))
  {
    SortByStable(villages, SortKey(f), asc, k);
  }

  /** Sorting the sorted copy again with the same column and direction changes nothing. */
  lemma SortedTwice(villages: seq<Village>, f: SortField, asc: bool)
    requires f != Name
    ensures Sorted(Sorted(villages, f, asc).value, f, asc) == Sorted(villages, f, asc)
  {
    SortByIdempotent(villages, SortKey(f), asc);
  }

  /** The sort state (`sortField`, `sortAsc`). */
  class Grid {
    var sortField: SortField
    var sortAsc: bool

    /** Initially by priority score, descending. */
    constructor ()
      ensures sortField == PriorityScore && !sortAsc
    {
      sortField := PriorityScore;
      sortAsc := false;
    }

    /** `handleSort(field)`: the current column flips direction, a new column starts descending. */
    method HandleSort(field: SortField)
      modifies this
      ensures old(sortField) == field ==> sortField == field && sortAsc == !old(sortAsc)
      ensures old(sortField) != field ==> sortField == field && !sortAsc
    {
      if sortField == field {
        sortAsc := !sortAsc;
      } else {
        sortField := field;
        sortAsc := false;
      }
    }
  }
}
