/** The summary cards of frontend/src/components/DashboardStats.jsx. Unlike the
    other views they compare the raw WSI field, so a village without one is in
    no tier. */
module DashboardStats {
  import opened Common
  import opened Seqs
  import opened Severity
  import opened ClientData

  predicate StrictCritical(v: Village) { Gt(v.wsi, 70.0) }
  predicate StrictWarning(v: Village) { Gt(v.wsi, 40.0) && Le(v.wsi, 70.0) }
  predicate StrictSafe(v: Village) { Le(v.wsi, 40.0) }
  predicate WsiMissing(v: Village) { v.wsi.None? }

  /** The tests are the strict tiers: a present WSI gets its tier, an absent one none. */
  lemma StrictTestsAreTiers(v: Village)
    ensures StrictCritical(v) <==> StrictTier(v.wsi) == Some(Critical)
    ensures StrictWarning(v) <==> StrictTier(v.wsi) == Some(Warning)
    ensures StrictSafe(v) <==> StrictTier(v.wsi) == Some(Safe)
    ensures WsiMissing(v) ==> !StrictCritical(v) && !StrictWarning(v) && !StrictSafe(v)
  {
  }

  datatype Stats = Stats(total: nat, critical: nat, warning: nat, safe: nat)

  function ComputeStats(villages: seq<Village>): (s: Stats)
    ensures s.total == |villages|
    ensures s.critical == |Filter(villages, StrictCritical)|
    ensures s.warning == |Filter(villages, StrictWarning)|
    ensures s.safe == |Filter(villages, StrictSafe)|
  {
    Stats(|villages|, |Filter(villages, StrictCritical)|, |Filter(villages, StrictWarning)|, |Filter(villages, StrictSafe)|)
  }

  /** The three cards plus the villages without a WSI add up to the total. */
  lemma {:induction false} StatsCountMissing(villages: seq<Village>)
    ensures var s := ComputeStats(villages);
      s.critical + s.warning + s.safe + |Filter(villages, WsiMissing)| == s.total
    decreases |villages|
  {
    if villages != [] {
      StatsCountMissing(villages[..|villages| - 1]);
    }
  }

  /** The tier tests are pairwise disjoint, so the cards never exceed the total. */
  lemma StatsDisjoint(villages: seq<Village>)
    ensures var s := ComputeStats(villages); s.critical + s.warning + s.safe <= s.total
    ensures forall v: Village ::
              !(StrictCritical(v) && StrictWarning(v)) && !(StrictCritical(v) && StrictSafe(v)) && !(StrictWarning(v) && StrictSafe(v))
  {
    StatsCountMissing(villages);
  }

  /** When every WSI is present the cards add up to the total. */
  lemma StatsPartitionWhenPresent(villages: seq<Village>)
    requires forall i :: 0 <= i < |villages| ==> villages[i].wsi.Some?
    ensures var s := ComputeStats(villages); s.critical + s.warning + s.safe == s.total
  {
    StatsCountMissing(villages);
    FilterNone(villages, WsiMissing);
  }

  /** A village without a WSI: the grid and overview count it safe, these cards in no tier. */
  lemma MissingWsiDiffers(v: Village)
    requires v.wsi.None?
    ensures IsSafe(v)
    ensures !StrictCritical(v) && !StrictWarning(v) && !StrictSafe(v)
    ensures ComputeStats([v]) == Stats(1, 0, 0, 0)
  {
    assert [v][..0] == [];
  }
}
