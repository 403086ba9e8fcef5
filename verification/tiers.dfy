/**
  The four agent tiers and the cost profile the TCO page keeps for each of them
  under the `tco_<field>_<tier>` session keys.
 */
module Tiers {

  datatype Tier = Utility | Standard | Professional | Enterprise

  /** The tiers in the order every page walks them. */
  const AgentTypes: seq<Tier> := [Utility, Standard, Professional, Enterprise]

  /**
    A tier's cost profile. Each field holds the value after the conversion the
    pages apply when they read it; build hours stay a `real` because the TCO
    page truncates them with `int()` while the simulation and the pricing
    heuristics read them with `float()`.
   */
  datatype TierProfile = TierProfile(
    buildHours: real,    // tco_build_hours_<tier>
    hourlyRate: real,    // tco_hourly_<tier>
    maintPct: real,      // tco_maint_pct_<tier>, % of build per year
    enhPct: real,        // tco_enh_pct_<tier>, % of build per year
    maintPerSlab: int,   // tco_maint_per_slab_<tier>, SEK per slab per month
    maintSlab: int,      // tco_maint_slab_<tier>, agents per slab
    agentHours: int,     // tco_agent_hours_<tier>, agent hours per month
    humanPct: int,       // tco_human_pct_<tier>, human-in-loop % per agent
    humanRate: real      // tco_human_rate_<tier>, SEK per human hour
  )

  /** The bounds the TCO page's widgets put on a profile. */
  predicate ProfileWidgetBounds(p: TierProfile) {
    && p.buildHours >= 0.0 && p.hourlyRate >= 0.0
    && 0.0 <= p.maintPct <= 100.0 && 0.0 <= p.enhPct <= 100.0
    && p.maintPerSlab >= 0 && p.maintSlab >= 1
    && p.agentHours >= 1 && 0 <= p.humanPct <= 100 && p.humanRate >= 0.0
  }
}
