/** The headline metrics strip of frontend/src/components/CommandMetrics.jsx. */
module CommandMetrics {
  import opened Common
  import opened Seqs
  import opened ClientData

  /** `v.wsi > 70` on the raw field. */
  predicate IsSevere(v: Village) { Gt(v.wsi, 70.0) }

  datatype Metrics = Metrics(severeCount: nat, activeTankers: nat, popAtRisk: real, waterDeficit: real, timestamp: Option<string>)

  /** The `metrics` memo: one pass over the villages counting the severe ones and
      adding up their population; the other figures are fixed. */
  method ComputeMetrics(villages: Option<seq<Village>>, timestamp: Option<string>) returns (m: Metrics)
    ensures m.severeCount == |Filter(OrNil(villages), IsSevere)|
    ensures m.popAtRisk == Sum(Filter(OrNil(villages), IsSevere), PopulationOrZero)
    ensures m.activeTankers == 108 && m.waterDeficit == -1.1 && m.timestamp == timestamp
    ensures villages.None? ==> m.severeCount == 0 && m.popAtRisk == 0.0
  {
    var severeCount := 0;
    var popAtRisk := 0.0;
    var waterDeficit := -1.1;
    if villages.Some? {
      var vs := villages.value;
      var i := 0;
      while i < |vs|
        invariant 0 <= i <= |vs|
        invariant severeCount == |Filter(vs[..i], IsSevere)|
        invariant popAtRisk == Sum(Filter(vs[..i], IsSevere), PopulationOrZero)
      {
        var v := vs[i];
        assert vs[..i + 1][..i] == vs[..i];
        if Gt(v.wsi, 70.0) {
          assert Filter(vs[..i + 1], IsSevere) == Filter(vs[..i], IsSevere) + [v];
          SumSnoc(Filter(vs[..i], IsSevere), v, PopulationOrZero);
          severeCount := severeCount + 1;
          popAtRisk := popAtRisk + OrZero(v.population);
        } else {
          assert Filter(vs[..i + 1], IsSevere) == Filter(vs[..i], IsSevere);
        }
        i := i + 1;
      }
      assert vs[..i] == vs;
    }
    m := Metrics(severeCount, 108, popAtRisk, waterDeficit, timestamp);
  }

  /** The severe-count bar: `Math.min(severeCount * 10, 100)` percent. */
  function BarWidth(severeCount: nat): (r: nat)
    ensures r <= 100
    ensures severeCount <= 10 ==> r == severeCount * 10
    ensures severeCount >= 10 ==> r == 100
  {
    MinInt(severeCount * 10, 100)
  }

  /** Population at risk is never negative when populations are not. */
  lemma PopAtRiskNonNegative(vs: seq<Village>)
    requires forall i :: 0 <= i < |vs| ==> PopulationOrZero(vs[i]) >= 0.0
    ensures Sum(Filter(vs, IsSevere), PopulationOrZero) >= 0.0
  {
    var f := Filter(vs, IsSevere);
    forall i | 0 <= i < |f|
      ensures PopulationOrZero(f[i]) >= 0.0
    {
      FilterFrom(vs, IsSevere, i);
    }
    SumNonNeg(f, PopulationOrZero);
  }
}
