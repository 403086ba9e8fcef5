/**
  Agreement between the pages that compute the same quantity in different
  ways: the build cost on the TCO page, on the simulation page and in the
  cost heuristic; a tier's enhancement on the TCO and simulation pages; and
  the hours saved by Model 2 against the Agent Efficiency simulator.
 */
module PageConsistency {
  import opened Numeric
  import opened Tiers
  import Tco
  import SimulationTier
  import CostHeuristic
  import AgentEfficiency
  import CommercialModels

  /** The TCO page truncates the build hours before multiplying, the simulation
      page truncates the product, the heuristics do not truncate: with whole
      hours the TCO and heuristic figures coincide and the simulation's is
      their truncation; otherwise the TCO figure is never the larger. */
  lemma BuildCostsAgree(p: TierProfile)
    requires p.buildHours >= 0.0 && p.hourlyRate >= 0.0
    ensures Tco.TcoBuildCost(p) <= CostHeuristic.BuildCost(p)
    ensures IsWhole(p.buildHours) ==>
              && Tco.TcoBuildCost(p) == CostHeuristic.BuildCost(p)
              && SimulationTier.BuildOneTime(p) == Trunc(Tco.TcoBuildCost(p))
  {
  }

  /** With the same whole build cost, a year of the TCO page's monthly
      enhancement for every agent of the tier, truncated, is the simulation
      page's annual enhancement for the tier. */
  lemma EnhancementAgrees(build: int, enhPct: real, count: int)
    ensures Trunc(12.0 * Tco.PctOfBuildMonthly(build as real, enhPct) * count as real)
            == SimulationTier.EnhYearlyTotal(enhPct, build, count)
  {
    var m := Tco.PctOfBuildMonthly(build as real, enhPct);
    MonthlyTwelfths(m, build as real, enhPct, count as real);
  }

  /** Twelve months of a yearly percentage spread monthly, for `c` agents. */
  lemma MonthlyTwelfths(m: real, build: real, pct: real, c: real)
    requires 1200.0 * m == build * pct
    ensures 12.0 * m * c == pct / 100.0 * build * c
  {
    assert pct / 100.0 * build == (build * pct) / 100.0;
    assert 12.0 * m == pct / 100.0 * build;
  }

  /** Model 2's hours saved are the Agent Efficiency simulator's hours at the
      old time less its hours at the new time, for the same cases. */
  lemma Model2MatchesEfficiency(cases: int, baseTimeMin: real, newTimeMin: real, humanCostHr: real)
    ensures CommercialModels.Model2(cases, baseTimeMin, newTimeMin, humanCostHr).hoursSavedAnn
            == AgentEfficiency.TotalHours(baseTimeMin, cases) - AgentEfficiency.TotalHours(newTimeMin, cases)
  {
    var c := cases as real;
    assert 60.0 * CommercialModels.Model2(cases, baseTimeMin, newTimeMin, humanCostHr).hoursSavedAnn
           == baseTimeMin * c - newTimeMin * c;
  }
}
