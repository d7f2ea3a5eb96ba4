/** The advisory panel of frontend/src/components/InsightPanel.jsx. Its effect runs
    whenever the village or the language changes; each run sends one request, and
    the cleanup of the run before sets that run's `cancelled` flag, so only the
    most recent run may write the panel's state. */
module InsightPanel {
  import opened Common
  import opened ClientData

  const DefaultError: string := "Failed to generate insight. Is the AI service running?"

  /** One call `fetchVillageInsight(village.id, lang)`. */
  datatype InsightRequest = InsightRequest(villageId: string, lang: string)

  /** The body the panel stores; it reads its `insight_text` field. */
  datatype Advisory = Advisory(insightText: Option<string>)

  class Panel {
    var village: Option<Village>
    var lang: string
    var insight: Option<Advisory>
    var loading: bool
    var error: Option<string>
    var mounted: bool
    /** Every request sent, numbered by position: a run's token. */
    var requests: seq<InsightRequest>
    /** The runs whose `cancelled` flag is set. */
    var cancelled: set<nat>
    /** The runs whose request has settled, and what each successful one answered. */
    ghost var settled: set<nat>
    ghost var answers: map<nat, Advisory>

    /** The request the current props call for. */
    function Wanted(): InsightRequest
      reads this
      requires village.Some?
    {
      InsightRequest(Render(village.value.id), lang)
    }

    ghost predicate Valid()
      reads this
    {
      (forall t :: t in cancelled ==> t < |requests|)
      && (forall t :: 0 <= t < |requests| - 1 ==> t in cancelled)
      && (forall t :: t in settled ==> t < |requests|)
      && (forall t :: t in answers ==> t in settled)
      && (mounted && village.Some? ==>
            |requests| > 0 && |requests| - 1 !in cancelled && requests[|requests| - 1] == Wanted())
      && (!mounted || village.None? ==> forall t :: 0 <= t < |requests| ==> t in cancelled)
      // The shown advisory is the answer to the latest request, which is for the
      // current village and language.
      && (mounted && village.Some? && insight.Some? ==>
            |requests| - 1 in answers && insight == Some(answers[|requests| - 1]))
    }

    /** Mounting with the `village` prop: the first effect run. */
    constructor (v: Option<Village>)
      ensures Valid() && mounted && village == v && lang == "english"
      ensures insight == None && error == None && loading == v.Some?
      ensures v.None? ==> requests == []
      ensures v.Some? ==> requests == [InsightRequest(Render(v.value.id), "english")]
      ensures cancelled == {}
    {
      village := v;
      lang := "english";
      insight := None;
      error := None;
      mounted := true;
      cancelled := {};
      settled := {};
      answers := map[];
      if v.Some? {
        requests := [InsightRequest(Render(v.value.id), "english")];
        loading := true;
      } else {
        requests := [];
        loading := false;
      }
    }

    /** The cleanup of the previous run, then the new run: with no village it
        only returns; otherwise it resets the panel and sends a request. */
    method Effect() returns (token: Option<nat>)
      modifies this
      requires mounted
      requires forall t :: t in cancelled ==> t < |requests|
      requires forall t :: 0 <= t < |requests| - 1 ==> t in cancelled
      requires forall t :: t in settled ==> t < |requests|
      requires forall t :: t in answers ==> t in settled
      ensures Valid()
      ensures cancelled == old(cancelled) + (if |old(requests)| > 0 then {|old(requests)| - 1} else {})
      ensures village == old(village) && lang == old(lang) && mounted
      ensures settled == old(settled) && answers == old(answers)
      ensures token.Some? <==> village.Some?
      ensures village.None? ==>
        requests == old(requests) && insight == old(insight) && error == old(error) && loading == old(loading)
      ensures village.Some? ==>
        token.value == |old(requests)| && requests == old(requests) + [Wanted()]
        && loading && error == None && insight == None
    {
      if |requests| > 0 {
        cancelled := cancelled + {|requests| - 1};
      }
      token := None;
      if village.Some? {
        loading := true;
        error := None;
        insight := None;
        token := Some(|requests|);
        requests := requests + [Wanted()];
      }
    }

    /** A new `village` prop; the effect re-runs only when it differs. */
    method SetVillage(v: Option<Village>) returns (token: Option<nat>)
      modifies this
      requires Valid() && mounted
      ensures Valid() && mounted && village == v && lang == old(lang)
      ensures v == old(village) ==>
        token.None? && requests == old(requests) && cancelled == old(cancelled)
        && insight == old(insight) && error == old(error) && loading == old(loading)
      ensures v != old(village) ==> (token.Some? <==> v.Some?)
      ensures token.Some? ==>
        token.value == |old(requests)| && requests == old(requests) + [Wanted()]
        && loading && error == None && insight == None
    {
      token := None;
      if v != village {
        village := v;
        token := Effect();
      }
    }

    /** The language selector; the effect re-runs only when the value changes. */
    method SetLang(l: string) returns (token: Option<nat>)
      modifies this
      requires Valid() && mounted
      ensures Valid() && mounted && lang == l && village == old(village)
      ensures l == old(lang) ==>
        token.None? && requests == old(requests) && cancelled == old(cancelled)
        && insight == old(insight) && error == old(error) && loading == old(loading)
      ensures l != old(lang) ==> (token.Some? <==> village.Some?)
      ensures token.Some? ==>
        token.value == |old(requests)| && requests == old(requests) + [Wanted()]
        && loading && error == None && insight == None
    {
      token := None;
      if l != lang {
        lang := l;
        token := Effect();
      }
    }

    /** Unmounting runs the last cleanup. */
    method Unmount()
      modifies this
      requires Valid() && mounted
      ensures Valid() && !mounted
      ensures forall t :: 0 <= t < |requests| ==> t in cancelled
      ensures requests == old(requests) && insight == old(insight) && error == old(error) && loading == old(loading)
    {
      if |requests| > 0 {
        cancelled := cancelled + {|requests| - 1};
      }
      mounted := false;
    }

    /** Run `token`'s request settles. A cancelled run writes nothing; the live
        run stores the advisory or the error text and stops the spinner. */
    method Resolve(token: nat, outcome: Response<Advisory>)
      modifies this
      requires Valid()
      requires token < |requests| && token !in settled
      ensures Valid()
      ensures requests == old(requests) && cancelled == old(cancelled)
      ensures village == old(village) && lang == old(lang) && mounted == old(mounted)
      ensures outcome.Success? ==> answers == old(answers)[token := outcome.data]
      ensures token in old(cancelled) ==>
        insight == old(insight) && error == old(error) && loading == old(loading)
      ensures token !in old(cancelled) ==>
        token == |requests| - 1 && mounted && village.Some? && requests[token] == Wanted() && !loading
        && (outcome.Success? ==> insight == Some(outcome.data) && error == old(error))
        && (outcome.Failure? ==> error == Some(DetailOr(outcome.detail, DefaultError)) && insight == old(insight))
    {
      settled := settled + {token};
      if outcome.Success? {
        answers := answers[token := outcome.data];
      }
      if token !in cancelled {
        if outcome.Success? {
          insight := Some(outcome.data);
        } else {
          error := Some(DetailOr(outcome.detail, DefaultError));
        }
        loading := false;
      }
    }
  }
}
