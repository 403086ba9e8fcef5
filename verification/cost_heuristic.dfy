/**
  The heuristic monthly cost of one agent that the Agent Efficiency and
  Commercial Models pages derive from the TCO profiles: the average build
  cost amortised over 36 months, the average yearly maintenance percentage of
  that average build spread over twelve months, and the recurring licence
  shared over the minimum agent bundle.
 */
module CostHeuristic {
  import opened Numeric
  import opened Tiers

  /** One agent's build cost as the heuristics read it: hours times rate, untruncated. */
  function BuildCost(p: TierProfile): real {
    p.buildHours * p.hourlyRate
  }

  /** Sum of the build costs, first tier to last. */
  function SumBuildCost(ps: seq<TierProfile>): real {
    if |ps| == 0 then 0.0 else SumBuildCost(ps[..|ps| - 1]) + BuildCost(ps[|ps| - 1])
  }

  /** Sum of the yearly maintenance percentages, first tier to last. */
  function SumMaintPct(ps: seq<TierProfile>): real {
    if |ps| == 0 then 0.0 else SumMaintPct(ps[..|ps| - 1]) + ps[|ps| - 1].maintPct
  }

  /** The recurring licence per agent of the minimum bundle; a bundle below one counts as one. */
  function InfraSharePerAgent(recurringLicense: real, minAgents: int): (r: real)
    ensures r * Max(1, minAgents) as real == recurringLicense
    ensures recurringLicense >= 0.0 ==> 0.0 <= r <= recurringLicense
  {
    var n := Max(1, minAgents) as real;
    MulLeq(1.0, n, recurringLicense / n);
    MulLeq(0.0, recurringLicense / n, n);
    recurringLicense / n
  }

  datatype Heuristic = Heuristic(averageBuild: real, amortMonth: real, maintMonth: real,
                                 infraMonth: real, total: real)

  /** The Commercial Models form of the heuristic, over the tiers' profiles. */
  function ApproxAgentMonthlyCost(ps: seq<TierProfile>, recurringLicense: real, minAgents: int): (h: Heuristic)
    requires |ps| > 0
    ensures h.averageBuild * |ps| as real == SumBuildCost(ps)
    ensures 36.0 * h.amortMonth == h.averageBuild
    ensures 1200.0 * h.maintMonth * |ps| as real == SumMaintPct(ps) * h.averageBuild
    ensures h.infraMonth == InfraSharePerAgent(recurringLicense, minAgents)
    ensures h.total == h.amortMonth + h.maintMonth + h.infraMonth
  {
    var n := |ps| as real;
    var avgBuild := SumBuildCost(ps) / Max(1, |ps|) as real;
    var amort := avgBuild / 36.0;
    var maint := (SumMaintPct(ps) / n) * avgBuild / 1200.0;
    var infra := InfraSharePerAgent(recurringLicense, minAgents);
    Heuristic(avgBuild, amort, maint, infra, amort + maint + infra)
  }

  /** The Agent Efficiency page's loop: accumulate build cost and maintenance
      percentage per tier, average them when there was any tier, then add up
      amortisation, maintenance and the licence share. */
  method EfficiencyApproxCost(ps: seq<TierProfile>, recurringLicense: real, minAgents: int)
    returns (cost: real)
    ensures |ps| > 0 ==> cost == ApproxAgentMonthlyCost(ps, recurringLicense, minAgents).total
    ensures |ps| == 0 ==> cost == InfraSharePerAgent(recurringLicense, minAgents)
  {
    var avgBuild := 0.0;
    var avgMaintPct := 0.0;
    var cnt := 0;
    var i := 0;
    while i < |ps|
      invariant 0 <= i <= |ps|
      invariant cnt == i
      invariant avgBuild == SumBuildCost(ps[..i])
      invariant avgMaintPct == SumMaintPct(ps[..i])
    {
      assert ps[..i + 1][..i] == ps[..i];
      avgBuild := avgBuild + ps[i].buildHours * ps[i].hourlyRate;
      avgMaintPct := avgMaintPct + ps[i].maintPct;
      cnt := cnt + 1;
      i := i + 1;
    }
    assert ps[..|ps|] == ps;
    if cnt != 0 {
      avgBuild := avgBuild / cnt as real;
      avgMaintPct := avgMaintPct / cnt as real;
    }
    var amortMonth := avgBuild / 36.0;
    var maintMonth := (avgMaintPct / 100.0) * avgBuild / 12.0;
    var infra := InfraSharePerAgent(recurringLicense, minAgents);
    cost := amortMonth + maintMonth + infra;
    if |ps| > 0 {
      SameMaintenance(avgMaintPct, avgBuild);
    }
  }

  /** Maintenance spread the Agent Efficiency way equals the Commercial Models way. */
  lemma SameMaintenance(pct: real, build: real)
    ensures (pct / 100.0) * build / 12.0 == pct * build / 1200.0
  {
  }

  /** Tiers that all share one build cost and maintenance percentage average to them. */
  lemma {:induction false} UniformSums(ps: seq<TierProfile>, build: real, pct: real)
    requires forall i :: 0 <= i < |ps| ==> BuildCost(ps[i]) == build && ps[i].maintPct == pct
    ensures SumBuildCost(ps) == |ps| as real * build
    ensures SumMaintPct(ps) == |ps| as real * pct
  {
    if |ps| > 0 {
      var init := ps[..|ps| - 1];
      assert forall i :: 0 <= i < |init| ==> init[i] == ps[i];
      UniformSums(init, build, pct);
    }
  }

  /** With one shared profile the heuristic is that profile's cost: its build
      amortised over 36 months, its maintenance share and the licence share. */
  lemma UniformTiersCost(ps: seq<TierProfile>, build: real, pct: real, recurringLicense: real, minAgents: int)
    requires |ps| > 0
    requires forall i :: 0 <= i < |ps| ==> BuildCost(ps[i]) == build && ps[i].maintPct == pct
    ensures var h := ApproxAgentMonthlyCost(ps, recurringLicense, minAgents);
            && h.averageBuild == build
            && h.total == build / 36.0 + pct * build / 1200.0 + InfraSharePerAgent(recurringLicense, minAgents)
  {
    UniformSums(ps, build, pct);
    var h := ApproxAgentMonthlyCost(ps, recurringLicense, minAgents);
    var n := |ps| as real;
    assert h.averageBuild * n == n * build;
    assert h.averageBuild == build;
    assert 1200.0 * h.maintMonth * n == n * pct * build;
    assert 1200.0 * h.maintMonth == pct * build;
  }

  /** Sums of non-negative terms are non-negative. */
  lemma {:induction false} SumsNonNegative(ps: seq<TierProfile>)
    requires forall i :: 0 <= i < |ps| ==> ProfileWidgetBounds(ps[i])
    ensures SumBuildCost(ps) >= 0.0 && SumMaintPct(ps) >= 0.0
  {
    if |ps| > 0 {
      var init := ps[..|ps| - 1];
      assert forall i :: 0 <= i < |init| ==> init[i] == ps[i];
      SumsNonNegative(init);
      var last := ps[|ps| - 1];
      MulLeq(0.0, last.buildHours, last.hourlyRate);
    }
  }

  /** Within the TCO widgets' bounds the heuristic cost is not negative, and it
      is at least the licence share. */
  lemma HeuristicNonNegative(ps: seq<TierProfile>, recurringLicense: real, minAgents: int)
    requires |ps| > 0 && recurringLicense >= 0.0
    requires forall i :: 0 <= i < |ps| ==> ProfileWidgetBounds(ps[i])
    ensures var h := ApproxAgentMonthlyCost(ps, recurringLicense, minAgents);
            && h.amortMonth >= 0.0 && h.maintMonth >= 0.0
            && h.total >= h.infraMonth >= 0.0
  {
    SumsNonNegative(ps);
    var h := ApproxAgentMonthlyCost(ps, recurringLicense, minAgents);
    var n := |ps| as real;
    NonNegFactor(h.averageBuild, n, SumBuildCost(ps));
    var weighted := SumMaintPct(ps) * h.averageBuild;
    assert weighted >= 0.0 by { MulLeq(0.0, SumMaintPct(ps), h.averageBuild); }
    NonNegFactor(1200.0 * h.maintMonth, n, weighted);
    assert h.maintMonth >= 0.0;
    assert h.amortMonth >= 0.0;
  }
}
