/** The water-stress severity rule every view of the dashboard applies:
    a Water Stress Index (WSI) above 70 is critical, above 40 (up to 70) is a
    warning, and anything else is safe. The thresholds are those of
    backend/app/core/constants.py. */
module Severity {
  import opened Common

  const CriticalThreshold: real := 70.0
  const ModerateThreshold: real := 40.0
  const WsiMax: real := 100.0
  const WsiMin: real := 0.0

  datatype Tier = Critical | Warning | Safe

  /** The tier of a WSI value; the three tiers partition the number line. */
  function TierOf(w: real): (t: Tier)
    ensures t == Critical <==> w > CriticalThreshold
    ensures t == Warning <==> ModerateThreshold < w <= CriticalThreshold
    ensures t == Safe <==> w <= ModerateThreshold
  {
    if w > CriticalThreshold then Critical
    else if w > ModerateThreshold then Warning
    else Safe
  }

  /** The tier a client view gives a WSI field that may be absent: the views
      either write `(v.wsi || 0)` or compare the raw field, and in both cases an
      absent WSI ends up safe. */
  function ClientTier(w: JsNumber): (t: Tier)
    ensures w.None? ==> t == Safe
    ensures w.Some? ==> t == TierOf(w.value)
  {
    if Gt(w, CriticalThreshold) then Critical
    else if Gt(w, ModerateThreshold) then Warning
    else Safe
  }

  /** The tier the summary-card counters give a WSI field: each tier is its own
      comparison on the raw field, and every comparison with an absent value is
      false, so an absent WSI lands in no tier at all. */
  function StrictTier(w: JsNumber): (t: Option<Tier>)
    ensures w.None? <==> t.None?
    ensures w.Some? ==> t == Some(TierOf(w.value))
  {
    if Gt(w, CriticalThreshold) then Some(Critical)
    else if Gt(w, ModerateThreshold) && Le(w, CriticalThreshold) then Some(Warning)
    else if Le(w, ModerateThreshold) then Some(Safe)
    else None
  }

  /** The two client rules agree on every present WSI and disagree exactly on
      an absent one, which one rule counts as safe and the other nowhere. */
  lemma ClientAndStrictTier(w: JsNumber)
    ensures StrictTier(w) == Some(ClientTier(w)) <==> w.Some?
    ensures w.None? ==> ClientTier(w) == Safe && StrictTier(w) == None
  {
  }

  /** Tiers are ordered by severity: a larger WSI is never in a milder tier. */
  function Rank(t: Tier): (r: nat)
    ensures r <= 2
    ensures r == 2 <==> t == Critical
    ensures r == 0 <==> t == Safe
  {
    match t
    case Critical => 2
    case Warning => 1
    case Safe => 0
  }

  lemma TierMonotone(a: real, b: real)
    requires a <= b
    ensures Rank(TierOf(a)) <= Rank(TierOf(b))
  {
  }

  /** The boundaries are strict: 70 itself is a warning and 40 itself is safe. */
  lemma Boundaries()
    ensures TierOf(70.0) == Warning
    ensures TierOf(40.0) == Safe
    ensures forall w :: w > 70.0 ==> TierOf(w) == Critical
  {
  }
}
