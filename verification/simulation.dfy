/**
  The simulation page end to end: the tier rows, the allocation of the total
  hours between agents and humans, human pricing, the revenue and cost
  totals, the three-line financial summary (Agent, Human, Combined) and the
  true financial margins.
 */
module Simulation {
  import opened Numeric
  import opened Tiers
  import opened SimulationTier
  import opened SimulationCapacity
  import opened SimulationFinancials

  /** What the page reads: its own widgets and, per tier, the TCO profile. */
  datatype SimulationInput = SimulationInput(
    totalHours: real,             // sim_hours, annual
    agentRatioPct: int,           // sim_agent_ratio_pct
    agentCmPct: int,              // sim_agent_cm_pct
    agentTrioPct: int,            // sim_agent_trio_pct
    tiers: seq<TierInput>,
    humanProdHoursPerMonth: int,  // sim_prod_human
    humanBlendCostHr: real,       // sim_human_blend_cost_hr
    humanCmPct: int,              // sim_human_cm_pct
    humanTrioPct: int,            // sim_human_trio_pct
    humanInloopPercent: int       // sim_human_inloop_pct_percent
  )

  /** The bounds the page's widgets (and the TCO page's, for the profiles) impose. */
  predicate WidgetBounds(s: SimulationInput) {
    && s.totalHours >= 1.0 && 0 <= s.agentRatioPct <= 100
    && 0 <= s.agentCmPct <= 100 && 0 <= s.agentTrioPct <= 100
    && (forall i :: 0 <= i < |s.tiers| ==> TierWidgetBounds(s.tiers[i]))
    && s.humanProdHoursPerMonth >= 1 && s.humanBlendCostHr >= 0.0
    && 0 <= s.humanCmPct <= 100 && 0 <= s.humanTrioPct <= 100
    && 0 <= s.humanInloopPercent <= 100
  }

  datatype SimulationResult = SimulationResult(
    rows: seq<TierRow>,
    allocation: Allocation,
    agentRevenue: int,
    agentDirectCost: int,
    human: HumanPricing,
    totals: Totals,
    agentLine: FinancialRow,
    humanLine: FinancialRow,
    combinedLine: FinancialRow,
    trueMargins: TrueMargins,
    shortfallWarning: bool,
    spareCapacityNotice: bool
  )

  /** Everything the page computes from its inputs. */
  function Simulate(s: SimulationInput): (r: SimulationResult)
    ensures r.rows == Rows(s.tiers, s.agentCmPct, s.agentTrioPct)
    ensures r.allocation == Allocate(s.totalHours, s.agentRatioPct, r.rows,
                                     s.humanInloopPercent, s.humanProdHoursPerMonth)
    ensures r.human == HumanPricingOf(r.allocation.humanHoursAnn, s.humanBlendCostHr, s.humanCmPct, s.humanTrioPct)
    ensures r.agentRevenue == AgentRevenue(r.rows)
    ensures r.agentDirectCost == AgentDirectCost(r.rows)
    ensures r.totals == TotalsOf(r.agentRevenue, r.agentDirectCost, r.human, s.agentTrioPct, s.humanTrioPct)
    ensures r.trueMargins == TrueMarginsOf(r.totals)
    ensures r.agentLine.headcount == AgentHeadcount(r.rows)
    ensures r.agentLine.costHr == CostPerHour(r.agentDirectCost as real, r.agentLine.totalHr)
    ensures 12.0 * r.agentLine.costMonth == r.agentDirectCost as real
    ensures r.humanLine.costHr == s.humanBlendCostHr
    ensures r.humanLine.costMonth == HumanCostMonth(r.human.costDirect)
    ensures r.combinedLine.costHr == CostPerHour(r.totals.totalDirectCost, r.combinedLine.totalHr)
    ensures 12.0 * r.combinedLine.costMonth == r.totals.totalDirectCost
    ensures var am := CategoryMargins(AgentHeadcount(r.rows) > 0, s.agentCmPct, s.agentTrioPct);
            var hm := CategoryMargins(r.allocation.humanHoursAnn > 0, s.humanCmPct, s.humanTrioPct);
            var b := CombinedBlend(r.agentRevenue as real, r.human.revenue, r.allocation.totalAgentCapacity,
                                   r.allocation.humanHoursAnn, am, hm);
            r.combinedLine.cmPct == b.cmPct && r.combinedLine.trioPct == b.trioPct
    ensures r.totals.totalRevenue == r.agentRevenue as real + r.human.revenue
    ensures r.totals.totalDirectCost == r.agentDirectCost as real + r.human.costDirect
    ensures r.agentLine.totalHr == r.allocation.totalAgentCapacity
    ensures r.humanLine.totalHr == r.allocation.humanHoursAnn
    ensures r.humanLine.headcount == r.allocation.humanHeadcount
    ensures r.combinedLine.headcount == r.agentLine.headcount + r.humanLine.headcount
    ensures r.combinedLine.totalHr == r.agentLine.totalHr + r.humanLine.totalHr
    ensures var m := CategoryMargins(AgentHeadcount(r.rows) > 0, s.agentCmPct, s.agentTrioPct);
            r.agentLine.cmPct == m.cmPct as real && r.agentLine.trioPct == m.trioPct as real
    ensures var m := CategoryMargins(r.allocation.humanHoursAnn > 0, s.humanCmPct, s.humanTrioPct);
            r.humanLine.cmPct == m.cmPct as real && r.humanLine.trioPct == m.trioPct as real
    ensures r.agentLine.gopPct == r.agentLine.cmPct - r.agentLine.trioPct
    ensures r.humanLine.gopPct == r.humanLine.cmPct - r.humanLine.trioPct
    ensures r.combinedLine.gopPct == r.combinedLine.cmPct - r.combinedLine.trioPct
    ensures r.shortfallWarning <==> r.allocation.agentHoursDelivered < r.allocation.targets.agentHrMax
    ensures r.spareCapacityNotice <==> r.allocation.agentHoursDelivered < r.allocation.totalAgentCapacity
  {
    var rows := Rows(s.tiers, s.agentCmPct, s.agentTrioPct);
    var a := Allocate(s.totalHours, s.agentRatioPct, rows, s.humanInloopPercent, s.humanProdHoursPerMonth);
    var revenue := AgentRevenue(rows);
    var cost := AgentDirectCost(rows);
    var headcount := AgentHeadcount(rows);
    var human := HumanPricingOf(a.humanHoursAnn, s.humanBlendCostHr, s.humanCmPct, s.humanTrioPct);
    var totals := TotalsOf(revenue, cost, human, s.agentTrioPct, s.humanTrioPct);
    var agentMargins := CategoryMargins(headcount > 0, s.agentCmPct, s.agentTrioPct);
    var humanMargins := CategoryMargins(a.humanHoursAnn > 0, s.humanCmPct, s.humanTrioPct);
    var blend := CombinedBlend(revenue as real, human.revenue, a.totalAgentCapacity, a.humanHoursAnn,
                               agentMargins, humanMargins);
    var hours := a.totalAgentCapacity + a.humanHoursAnn;
    WarningsMatchDelivery(a.totalAgentCapacity, a.targets.agentHrMax);
    SimulationResult(
      rows, a, revenue, cost, human, totals,
      MarginsRow(headcount, a.totalAgentCapacity, CostPerHour(cost as real, a.totalAgentCapacity),
                 cost as real / 12.0, agentMargins),
      MarginsRow(a.humanHeadcount, a.humanHoursAnn, s.humanBlendCostHr,
                 HumanCostMonth(human.costDirect), humanMargins),
      FinancialRow(headcount + a.humanHeadcount, hours, CostPerHour(totals.totalDirectCost, hours),
                   totals.totalDirectCost / 12.0, blend.cmPct, blend.trioPct, blend.gopPct),
      TrueMarginsOf(totals),
      ShortfallWarning(a.totalAgentCapacity, a.targets.agentHrMax),
      SpareCapacityNotice(a.totalAgentCapacity, a.targets.agentHrMax))
  }

  /** Annual revenue over rows with no negative price or count is not negative. */
  lemma {:induction false} AgentRevenueNonNegative(rows: seq<TierRow>)
    requires forall i :: 0 <= i < |rows| ==> rows[i].blendedPriceMonth >= 0 && rows[i].count >= 0
    ensures AgentRevenue(rows) >= 0
  {
    if |rows| > 0 {
      assert forall i :: 0 <= i < |rows| - 1 ==> rows[1..][i] == rows[i + 1];
      AgentRevenueNonNegative(rows[1..]);
      MulMono(0, rows[0].blendedPriceMonth * 12, rows[0].count);
    }
  }

  /** Within the widgets' bounds every row is free of negative figures. */
  lemma RowsNonNegative(s: SimulationInput)
    requires WidgetBounds(s)
    ensures var rows := Rows(s.tiers, s.agentCmPct, s.agentTrioPct);
            forall i :: 0 <= i < |rows| ==>
              && rows[i].capacityAnn >= 0 && rows[i].count >= 0 && rows[i].blendedPriceMonth >= 0
              && rows[i].pricePerHr >= 0 && rows[i].maintMonthly >= 0 && rows[i].enhYearlyTotal >= 0
  {
    forall i | 0 <= i < |s.tiers|
      ensures var r := TierRowOf(s.tiers[i], s.agentCmPct, s.agentTrioPct);
              && r.capacityAnn >= 0 && r.count >= 0 && r.blendedPriceMonth >= 0
              && r.pricePerHr >= 0 && r.maintMonthly >= 0 && r.enhYearlyTotal >= 0
    {
      TierRowNonNegative(s.tiers[i], s.agentCmPct, s.agentTrioPct);
    }
  }

  /** The allocation within the widgets' bounds: agents deliver what they can up
      to their target, delivered and residual hours add up to a whole total,
      the human hours cover the human target, and the headcount is the least
      that covers the human hours. */
  lemma AllocationInvariants(s: SimulationInput)
    requires WidgetBounds(s)
    ensures var a := Simulate(s).allocation;
            && 0 <= a.agentHoursDelivered <= a.totalAgentCapacity
            && a.agentHoursDelivered <= a.targets.agentHrMax
            && (IsWhole(s.totalHours) ==>
                  && (a.agentHoursDelivered + a.residualHours) as real == s.totalHours
                  && a.humanHoursAnn >= a.targets.humanHrMax)
            && a.humanHoursAnn >= a.residualHours >= 0
            && a.humanHeadcount * a.humanCapacityPerPerson >= a.humanHoursAnn
            && (a.humanHeadcount - 1) * a.humanCapacityPerPerson < a.humanHoursAnn
  {
    var rows := Rows(s.tiers, s.agentCmPct, s.agentTrioPct);
    RowsNonNegative(s);
    TotalCapacityNonNegative(rows);
    if IsWhole(s.totalHours) {
      HoursConserved(s.totalHours, s.agentRatioPct, rows, s.humanInloopPercent, s.humanProdHoursPerMonth);
    }
  }

  /** Human pricing within the widgets' bounds: revenue covers the direct cost,
      and a margin above Trio lifts the hourly price above the hourly cost. */
  lemma HumanPricingInvariants(s: SimulationInput)
    requires WidgetBounds(s)
    ensures var r := Simulate(s);
            && r.human.revenue >= r.human.costDirect >= 0.0
            && (r.allocation.humanHoursAnn > 0 ==> r.human.priceHr >= s.humanBlendCostHr)
  {
    var a := Simulate(s).allocation;
    AllocationInvariants(s);
    HumanPricingCovers(a.humanHoursAnn, s.humanBlendCostHr, s.humanCmPct, s.humanTrioPct);
  }

  /** The combined CM and Trio lie between the agent line's and the human line's
      whenever there is any revenue or any hours to weigh them by. */
  lemma CombinedBetweenCategories(s: SimulationInput)
    requires WidgetBounds(s)
    ensures var r := Simulate(s);
            var am := CategoryMargins(AgentHeadcount(r.rows) > 0, s.agentCmPct, s.agentTrioPct);
            var hm := CategoryMargins(r.allocation.humanHoursAnn > 0, s.humanCmPct, s.humanTrioPct);
            r.totals.totalRevenue > 0.0 || r.combinedLine.totalHr > 0 ==>
              && Min(am.cmPct, hm.cmPct) as real <= r.combinedLine.cmPct <= Max(am.cmPct, hm.cmPct) as real
              && Min(am.trioPct, hm.trioPct) as real <= r.combinedLine.trioPct <= Max(am.trioPct, hm.trioPct) as real
  {
    var r := Simulate(s);
    var rows := r.rows;
    var a := r.allocation;
    RowsNonNegative(s);
    AgentRevenueNonNegative(rows);
    AllocationInvariants(s);
    HumanPricingInvariants(s);
    var agentMargins := CategoryMargins(AgentHeadcount(rows) > 0, s.agentCmPct, s.agentTrioPct);
    var humanMargins := CategoryMargins(a.humanHoursAnn > 0, s.humanCmPct, s.humanTrioPct);
    if r.totals.totalRevenue > 0.0 || r.combinedLine.totalHr > 0 {
      CombinedBlendBetween(r.agentRevenue as real, r.human.revenue, a.totalAgentCapacity, a.humanHoursAnn,
                           agentMargins, humanMargins);
    }
  }

  /** With no agent deployed the agent line is all zero and humans carry the whole total. */
  lemma NoAgentsAllHuman(s: SimulationInput)
    requires WidgetBounds(s) && IsWhole(s.totalHours)
    requires forall i :: 0 <= i < |s.tiers| ==> s.tiers[i].count == 0
    ensures var r := Simulate(s);
            && r.agentRevenue == 0 && r.agentDirectCost == 0 && r.agentLine.headcount == 0
            && r.agentLine.totalHr == 0 && r.agentLine.cmPct == 0.0 && r.agentLine.trioPct == 0.0
            && r.allocation.agentHoursDelivered == 0
            && r.allocation.residualHours as real == s.totalHours
  {
    NoAgentsNoAgentFigures(s.tiers, s.agentCmPct, s.agentTrioPct);
    AllocationInvariants(s);
  }
}
