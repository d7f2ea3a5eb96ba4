/** The live incident feed of frontend/src/components/IncidentFeed.jsx: one alert
    per stressed village, then a fixed status alert. */
module IncidentFeed {
  import opened Common
  import opened Seqs
  import opened ClientData

  datatype Action = Action(caption: string, primary: bool)

  /** An alert; its clock time and message text are not modelled. */
  datatype Alert = Alert(id: string, kind: string, color: string, actions: seq<Action>)

  const CriticalActions: seq<Action> := [Action("REROUTE", true), Action("CONTACT", false)]
  const StatusAlert: Alert := Alert("mock-1", "Status Update", "slate", [])

  /** `v.wsi > 70` and, failing that, `v.wsi > 40`, on the raw field. */
  predicate RaisesCritical(v: Village) { Gt(v.wsi, 70.0) }
  predicate RaisesWarning(v: Village) { !Gt(v.wsi, 70.0) && Gt(v.wsi, 40.0) }

  /** The alert one village raises, if any. */
  function AlertFor(v: Village): (a: Option<Alert>)
    ensures a.Some? <==> RaisesCritical(v) || RaisesWarning(v)
    ensures RaisesCritical(v) ==> a == Some(Alert("crit-" + Render(v.id), "Critical Failure", "primary", CriticalActions))
    ensures RaisesWarning(v) ==> a == Some(Alert("warn-" + Render(v.id), "Supply Degradation", "orange", []))
  {
    if Gt(v.wsi, 70.0) then Some(Alert("crit-" + Render(v.id), "Critical Failure", "primary", CriticalActions))
    else if Gt(v.wsi, 40.0) then Some(Alert("warn-" + Render(v.id), "Supply Degradation", "orange", []))
    else None
  }

  function AsList(a: Option<Alert>): seq<Alert> {
    if a.Some? then [a.value] else []
  }

  /** The village alerts in input order. */
  function VillageAlerts(vs: seq<Village>): (r: seq<Alert>)
    ensures |r| <= |vs|
  {
    if vs == [] then [] else VillageAlerts(vs[..|vs| - 1]) + AsList(AlertFor(vs[|vs| - 1]))
  }

  /** The `incidents` memo: a `forEach` pushing each village's alert, then the status alert. */
  method Incidents(villages: Option<seq<Village>>) returns (alerts: seq<Alert>)
    ensures villages.None? ==> alerts == []
    ensures villages.Some? ==> alerts == VillageAlerts(villages.value) + [StatusAlert]
  {
    if villages.None? {
      return [];
    }
    var vs := villages.value;
    alerts := [];
    var i := 0;
    while i < |vs|
      invariant 0 <= i <= |vs|
      invariant alerts == VillageAlerts(vs[..i])
    {
      var v := vs[i];
      assert vs[..i + 1][..i] == vs[..i];
      if Gt(v.wsi, 70.0) {
        alerts := alerts + [Alert("crit-" + Render(v.id), "Critical Failure", "primary", CriticalActions)];
      } else if Gt(v.wsi, 40.0) {
        alerts := alerts + [Alert("warn-" + Render(v.id), "Supply Degradation", "orange", [])];
      }
      i := i + 1;
    }
    assert vs[..i] == vs;
    alerts := alerts + [StatusAlert];
  }

  /** One alert per critical village and one per warning village. */
  lemma {:induction false} AlertCount(vs: seq<Village>)
    ensures |VillageAlerts(vs)| == |Filter(vs, RaisesCritical)| + |Filter(vs, RaisesWarning)|
    decreases |vs|
  {
    if vs != [] {
      AlertCount(vs[..|vs| - 1]);
    }
  }

  /** Critical alerts carry REROUTE (primary) and CONTACT; all the others carry no actions. */
  lemma {:induction false} AlertActions(vs: seq<Village>)
    ensures forall i :: 0 <= i < |VillageAlerts(vs)| ==>
      (VillageAlerts(vs)[i].kind == "Critical Failure" && VillageAlerts(vs)[i].actions == CriticalActions)
      || (VillageAlerts(vs)[i].kind == "Supply Degradation" && VillageAlerts(vs)[i].actions == [])
    decreases |vs|
  {
    if vs != [] {
      AlertActions(vs[..|vs| - 1]);
    }
  }

  /** The rendered village ids are pairwise distinct. */
  predicate DistinctIds(vs: seq<Village>) {
    forall i, j :: 0 <= i < j < |vs| ==> Render(vs[i].id) != Render(vs[j].id)
  }

  predicate DistinctAlertIds(alerts: seq<Alert>) {
    forall i, j :: 0 <= i < j < |alerts| ==> alerts[i].id != alerts[j].id
  }

  /** Every village alert id starts with "crit-" or "warn-". */
  lemma {:induction false} AlertIdShape(vs: seq<Village>)
    ensures forall i :: 0 <= i < |VillageAlerts(vs)| ==>
      |VillageAlerts(vs)[i].id| >= 5 && VillageAlerts(vs)[i].id[..5] in {"crit-", "warn-"}
    decreases |vs|
  {
    if vs != [] {
      AlertIdShape(vs[..|vs| - 1]);
      var v := vs[|vs| - 1];
      if AlertFor(v).Some? {
        assert AlertFor(v).value.id[..5] in {"crit-", "warn-"};
      }
    }
  }

  /** After its prefix, a village alert id is the id of the village that raised it,
      so it avoids every string that no village id renders to. */
  lemma {:induction false} AlertIdsAvoid(vs: seq<Village>, x: string)
    requires forall j :: 0 <= j < |vs| ==> Render(vs[j].id) != x
    ensures forall i :: 0 <= i < |VillageAlerts(vs)| ==>
      |VillageAlerts(vs)[i].id| >= 5 && VillageAlerts(vs)[i].id[5..] != x
    decreases |vs|
  {
    AlertIdShape(vs);
    if vs != [] {
      AlertIdsAvoid(vs[..|vs| - 1], x);
      var v := vs[|vs| - 1];
      if AlertFor(v).Some? {
        assert AlertFor(v).value.id[5..] == Render(v.id);
      }
    }
  }

  /** The village alert ids are unique whenever the village ids are. */
  lemma {:induction false} VillageAlertIdsUnique(vs: seq<Village>)
    requires DistinctIds(vs)
    ensures DistinctAlertIds(VillageAlerts(vs))
    decreases |vs|
  {
    if vs != [] {
      var init := vs[..|vs| - 1];
      var v := vs[|vs| - 1];
      VillageAlertIdsUnique(init);
      var before := VillageAlerts(init);
      if AlertFor(v).Some? {
        AlertIdsAvoid(init, Render(v.id));
        var a := AlertFor(v).value;
        assert a.id[5..] == Render(v.id);
        var all := before + [a];
        assert VillageAlerts(vs) == all;
        forall i, j | 0 <= i < j < |all|
          ensures all[i].id != all[j].id
        {
          if j == |before| {
            assert before[i].id[5..] != a.id[5..];
          }
        }
      }
    }
  }

  /** Alert ids are unique whenever the village ids are, the status alert included. */
  lemma AlertIdsUnique(vs: seq<Village>)
    requires DistinctIds(vs)
    ensures DistinctAlertIds(VillageAlerts(vs) + [StatusAlert])
  {
    VillageAlertIdsUnique(vs);
    AlertIdShape(vs);
    var before := VillageAlerts(vs);
    var all := before + [StatusAlert];
    assert StatusAlert.id[..5] == "mock-";
    forall i, j | 0 <= i < j < |all|
      ensures all[i].id != all[j].id
    {
      if j == |before| {
        assert before[i].id[..5] != StatusAlert.id[..5];
      }
    }
  }
}
