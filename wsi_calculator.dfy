/** The deterministic scores of backend/app/services/wsi_calculator.py. */
module WsiCalculator {
  import opened Helpers
  import Severity

  /** How far, in percent of the minimum, the level lies below the minimum; 0 when
      the minimum is not positive. */
  function GroundwaterStress(current: real, minRequired: real): (r: real)
    ensures minRequired <= 0.0 ==> r == 0.0
    ensures minRequired > 0.0 ==> (r <= 0.0 <==> current >= minRequired)
    ensures minRequired > 0.0 && current >= 0.0 ==> r <= 100.0
  {
    if minRequired > 0.0 then (minRequired - current) / minRequired * 100.0 else 0.0
  }

  /** The rainfall deficit: `abs(dev)` for a negative deviation, else 0. */
  function RainfallStress(dev: real): (r: real)
    ensures r >= 0.0
    ensures r == 0.0 <==> dev >= 0.0
    ensures dev < 0.0 ==> r == -dev
  {
    if dev < 0.0 then -dev else 0.0
  }

  /** `compute_wsi`: the weighted composite, clamped into [0, 100]. */
  function ComputeWsi(current: real, minRequired: real, dev: real): (r: real)
    ensures Severity.WsiMin <= r <= Severity.WsiMax
  {
    Clamp(0.6 * GroundwaterStress(current, minRequired) + 0.4 * RainfallStress(dev), Severity.WsiMin, Severity.WsiMax)
  }

  /** No stress from either source gives a WSI of 0. */
  lemma NoStressNoWsi(current: real, minRequired: real, dev: real)
    requires current >= minRequired && dev >= 0.0
    ensures ComputeWsi(current, minRequired, dev) == 0.0
  {
  }

  /** Without a positive minimum only the rainfall counts, at 40 percent weight. */
  lemma RainfallOnly(current: real, minRequired: real, dev: real)
    requires minRequired <= 0.0
    ensures ComputeWsi(current, minRequired, dev) == Clamp(0.4 * RainfallStress(dev), 0.0, 100.0)
    ensures ComputeWsi(current, minRequired, dev) <= 0.4 * RainfallStress(dev)
  {
  }

  /** A higher groundwater level or a better rainfall never raises the WSI. */
  lemma WsiMonotone(c1: real, c2: real, minRequired: real, d1: real, d2: real)
    requires c1 <= c2 && d1 <= d2
    ensures ComputeWsi(c2, minRequired, d2) <= ComputeWsi(c1, minRequired, d1)
  {
    if minRequired > 0.0 {
      assert (minRequired - c2) / minRequired <= (minRequired - c1) / minRequired;
    }
    ClampMonotone(0.6 * GroundwaterStress(c2, minRequired) + 0.4 * RainfallStress(d2),
                  0.6 * GroundwaterStress(c1, minRequired) + 0.4 * RainfallStress(d1), 0.0, 100.0);
  }

  /** `compute_priority_score`: thousands of people times the WSI. */
  function PriorityScore(population: int, wsi: real): (r: real)
    ensures population >= 0 && wsi >= 0.0 ==> r >= 0.0
    ensures population == 0 || wsi == 0.0 ==> r == 0.0
  {
    (population as real / 1000.0) * wsi
  }

  /** With the population fixed, more stress never lowers the priority. */
  lemma PriorityMonotone(population: int, w1: real, w2: real)
    requires population >= 0 && w1 <= w2
    ensures PriorityScore(population, w1) <= PriorityScore(population, w2)
  {
    assert (population as real / 1000.0) * (w2 - w1) >= 0.0;
  }

  /** `calculate_rainfall_deviation`: the shortfall in percent of the expectation, within [0, 100]. */
  function RainfallDeviation(actual: real, expected: real): (r: real)
    ensures 0.0 <= r <= 100.0
    ensures expected <= 0.0 ==> r == 0.0
    ensures expected > 0.0 && actual >= expected ==> r == 0.0
    ensures expected > 0.0 && actual == 0.0 ==> r == 100.0
    ensures expected > 0.0 && 0.0 <= actual <= expected ==> r == (expected - actual) / expected * 100.0
  {
    if expected <= 0.0 then 0.0
    else
      var deviation := (expected - actual) / expected * 100.0;
      var m := if deviation <= 100.0 then deviation else 100.0;
      if 0.0 >= m then 0.0 else m
  }
}
