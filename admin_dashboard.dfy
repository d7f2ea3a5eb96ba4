/** The page of frontend/src/pages/AdminDashboard.jsx: one village load on mount,
    the selected village for the advisory panel, and which sections render. */
module AdminDashboard {
  import opened Common
  import opened ClientData

  const DefaultError: string := "Failed to fetch village data. Is the backend running?"

  class Page {
    var villages: seq<Village>
    var loading: bool
    var error: Option<string>
    var selected: Option<Village>

    /** The page loads once: while it is loading, nothing has failed yet; an error text is never empty. */
    predicate Valid()
      reads this
    {
      (loading ==> error.None?) && (error.Some? ==> error.value != "")
    }

    /** The initial state; mounting starts `loadVillages`. */
    constructor ()
      ensures Valid()
      ensures villages == [] && loading && error == None && selected == None
    {
      villages := [];
      loading := true;
      error := None;
      selected := None;
    }

    /** The single load settles: a success stores the list, a failure the detail
        or the default text; loading stops either way. */
    method Loaded(outcome: Response<seq<Village>>)
      modifies this
      requires Valid() && loading
      ensures Valid() && !loading && selected == old(selected)
      ensures outcome.Success? ==> villages == outcome.data && error == None
      ensures outcome.Failure? ==> villages == old(villages) && error == Some(DetailOr(outcome.detail, DefaultError))
    {
      if outcome.Success? {
        villages := outcome.data;
      } else {
        error := Some(DetailOr(outcome.detail, DefaultError));
      }
      loading := false;
    }

    /** `handleAnalyze(village)`. */
    method Analyze(v: Village)
      modifies this
      requires Valid()
      ensures Valid() && selected == Some(v)
      ensures villages == old(villages) && loading == old(loading) && error == old(error)
    {
      selected := Some(v);
    }

    /** `handleCloseInsight()`. */
    method CloseInsight()
      modifies this
      requires Valid()
      ensures Valid() && selected == None
      ensures villages == old(villages) && loading == old(loading) && error == old(error)
    {
      selected := None;
    }

    /** The grid and the tanker section render once loading has finished without an error. */
    function ShowsSections(): (b: bool)
      reads this
      requires Valid()
      ensures b ==> !loading && error.None?
      ensures b <== !loading && error.None?
    {
      !loading && !(error.Some? && error.value != "")
    }

    /** The advisory panel renders inside the sections, exactly when a village is selected. */
    function ShowsInsight(): (b: bool)
      reads this
      requires Valid()
      ensures b <==> ShowsSections() && selected.Some?
    {
      ShowsSections() && selected.Some?
    }
  }
}
