/** The villages page of frontend/src/components/VillagesPanel.jsx: its status
    rule and filter, and the insight drawer driven by `handleAnalyze`, which has
    no guard against stale responses. */
module VillagesPanel {
  import opened Common
  import opened Seqs
  import opened Severity
  import opened ClientData

  /** `getStatus(wsi)` on the raw field. */
  function GetStatus(wsi: JsNumber): (r: string)
    ensures r == "critical" <==> ClientTier(wsi) == Critical
    ensures r == "warning" <==> ClientTier(wsi) == Warning
    ensures r == "safe" <==> ClientTier(wsi) == Safe
    ensures wsi.None? ==> r == "safe"
  {
    if Gt(wsi, 70.0) then "critical"
    else if Gt(wsi, 40.0) then "warning"
    else "safe"
  }

  /** `field?.toLowerCase().includes(term.toLowerCase())`: an absent field never matches. */
  predicate FieldMatches(field: Option<string>, term: string) {
    field.Some? && Contains(Lower(field.value), Lower(term))
  }

  function PanelTest(searchTerm: string, statusFilter: string): Village -> bool {
    (v: Village) => (FieldMatches(v.name, searchTerm) || FieldMatches(v.id, searchTerm))
      && (statusFilter == "all" || GetStatus(v.wsi) == statusFilter)
  }

  /** `filteredVillages`. */
  function FilteredVillages(villages: seq<Village>, searchTerm: string, statusFilter: string): (r: seq<Village>)
    ensures |r| <= |villages|
  {
    Filter(villages, PanelTest(searchTerm, statusFilter))
  }

  /** Every shown village matches the search on its name or its id and has the
      selected status (any status under 'all'); every village that does is shown;
      and the order is the input's. */
  lemma FilteredExactly(villages: seq<Village>, searchTerm: string, statusFilter: string)
    ensures forall i :: 0 <= i < |FilteredVillages(villages, searchTerm, statusFilter)| ==>
      var v := FilteredVillages(villages, searchTerm, statusFilter)[i];
      (FieldMatches(v.name, searchTerm) || FieldMatches(v.id, searchTerm))
      && (statusFilter == "all" || GetStatus(v.wsi) == statusFilter)
    ensures forall i :: (0 <= i < |villages| &&
                         (FieldMatches(villages[i].name, searchTerm) || FieldMatches(villages[i].id, searchTerm)) &&
                         (statusFilter == "all" || GetStatus(villages[i].wsi) == statusFilter))
                         ==> villages[i] in FilteredVillages(villages, searchTerm, statusFilter)
    ensures Subseq(FilteredVillages(villages, searchTerm, statusFilter), villages)
  {
    var p := PanelTest(searchTerm, statusFilter);
    forall i | 0 <= i < |villages| && p(villages[i])
      ensures villages[i] in Filter(villages, p)
    {
      FilterKeeps(villages, p, i);
    }
    FilterSubseq(villages, p);
  }

  /** A village with neither a name nor an id is never shown, even for an empty search. */
  lemma NamelessNeverShown(villages: seq<Village>, statusFilter: string, i: int)
    requires 0 <= i < |villages| && villages[i].name.None? && villages[i].id.None?
    ensures villages[i] !in FilteredVillages(villages, "", statusFilter)
  {
  }

  /** The empty search term matches every present name. */
  lemma EmptyTermMatchesAnyName(v: Village)
    requires v.name.Some?
    ensures FieldMatches(v.name, "")
  {
    ContainsEmpty(Lower(v.name.value));
  }

  /** What `api.get` is asked for: the rendered village id and the language. */
  datatype InsightRequest = InsightRequest(villageId: string, lang: string)

  /** The body of a successful insight response; only its `insight` field is read. */
  datatype InsightBody = InsightBody(insight: Option<string>)

  const DefaultInsightError: string := "Failed to generate AI insight."

  /** The drawer state. `requests` lists every request issued (its index is the
      request's token) and `pending` the tokens not yet settled. */
  class Panel {
    var isDrawerOpen: bool
    var selected: Option<Village>
    var insight: Option<string>
    var loadingInsight: bool
    var insightLanguage: string
    var insightError: Option<string>
    var requests: seq<InsightRequest>
    var pending: set<nat>

    predicate Valid()
      reads this
    {
      forall t :: t in pending ==> t < |requests|
    }

    constructor ()
      ensures Valid()
      ensures !isDrawerOpen && selected == None && insight == None && !loadingInsight
      ensures insightLanguage == "English" && insightError == None
      ensures requests == [] && pending == {}
    {
      isDrawerOpen := false;
      selected := None;
      insight := None;
      loadingInsight := false;
      insightLanguage := "English";
      insightError := None;
      requests := [];
      pending := {};
    }

    /** `handleAnalyze(village)` up to its await: select, open, clear, start loading, send. */
    method Analyze(village: Village) returns (token: nat)
      modifies this
      requires Valid()
      ensures Valid()
      ensures selected == Some(village) && isDrawerOpen && insight == None && insightError == None && loadingInsight
      ensures token == |old(requests)| && requests == old(requests) + [InsightRequest(Render(village.id), insightLanguage)]
      ensures pending == old(pending) + {token}
      ensures insightLanguage == old(insightLanguage)
    {
      selected := Some(village);
      isDrawerOpen := true;
      insight := None;
      insightError := None;
      loadingInsight := true;
      token := |requests|;
      requests := requests + [InsightRequest(Render(village.id), insightLanguage)];
      pending := pending + {token};
    }

    /** The rest of `handleAnalyze` once its request settles. Nothing checks whether
        the request is still the latest one: any outcome writes, and always stops
        the spinner. */
    method Resolve(token: nat, outcome: Response<InsightBody>)
      modifies this
      requires Valid()
      requires token in pending
      ensures Valid()
      ensures outcome.Success? ==> insight == outcome.data.insight && insightError == old(insightError)
      ensures outcome.Failure? ==>
                insightError == Some(FirstTruthy(outcome.detail, outcome.message, DefaultInsightError)) && insight == old(insight)
      ensures !loadingInsight
      ensures pending == old(pending) - {token} && requests == old(requests)
      ensures isDrawerOpen == old(isDrawerOpen) && selected == old(selected) && insightLanguage == old(insightLanguage)
    {
      if outcome.Success? {
        insight := outcome.data.insight;
      } else {
        insightError := Some(FirstTruthy(outcome.detail, outcome.message, DefaultInsightError));
      }
      loadingInsight := false;
      pending := pending - {token};
    }

    /** A new language from the drawer. The effect on `insightLanguage` runs only
        when the value changes, and re-analyses only when a village is selected
        and the drawer is open. */
    method SetLanguage(lang: string) returns (token: Option<nat>)
      modifies this
      requires Valid()
      ensures Valid()
      ensures insightLanguage == lang
      ensures token.Some? <==> lang != old(insightLanguage) && old(selected).Some? && old(isDrawerOpen)
      ensures token.Some? ==>
                token.value == |old(requests)| &&
                requests == old(requests) + [InsightRequest(Render(old(selected).value.id), lang)] &&
                loadingInsight && insight == None && insightError == None
      ensures token.None? ==>
                requests == old(requests) && pending == old(pending) &&
                insight == old(insight) && insightError == old(insightError) && loadingInsight == old(loadingInsight)
      ensures selected == old(selected) && isDrawerOpen == old(isDrawerOpen)
    {
      token := None;
      if lang != insightLanguage {
        insightLanguage := lang;
        if selected.Some? && isDrawerOpen {
          var t := Analyze(selected.value);
          token := Some(t);
        }
      }
    }

    /** The drawer's close button: only the open flag changes. */
    method CloseDrawer()
      modifies this
      requires Valid()
      ensures Valid()
      ensures !isDrawerOpen
      ensures selected == old(selected) && insight == old(insight) && insightError == old(insightError)
      ensures loadingInsight == old(loadingInsight) && insightLanguage == old(insightLanguage)
      ensures requests == old(requests) && pending == old(pending)
    {
      isDrawerOpen := false;
    }
  }
}
