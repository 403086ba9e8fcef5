/**
  The Commercial Models page: Model 1 (replace FTEs with agents), Model 2
  (productivity uplift) and Model 4 (hybrid agent and elastic human
  workload). Each takes the heuristic agent cost where it needs one.
 */
module CommercialModels {
  import opened Numeric

  /** The FTE hours a year Model 2 divides by: 160 hours a month for twelve months. */
  const FteHoursPerYear: int := 160 * 12

  /** A price marked up by a margin percentage. */
  function WithMargin(cost: real, marginPct: int): (r: real)
    ensures 100.0 * r == cost * (100 + marginPct) as real
    ensures cost >= 0.0 && marginPct >= 0 ==> r >= cost
  {
    MulLeq(1.0, 1.0 + marginPct as real / 100.0, cost);
    cost * (1.0 + marginPct as real / 100.0)
  }

  datatype Model1Result = Model1Result(
    agentPriceMonth: real,
    humanTotalMonthHours: int,
    agentsNeeded: int,
    totalAgentPriceMonth: real,
    humanCostMonth: real,
    savingsMonth: real,
    negativeSavingsWarning: bool
  )

  /** Model 1: the agents needed to cover the current FTEs' monthly hours, what
      they cost at the marked-up heuristic price, and the monthly saving against
      the humans' cost, with a warning when the saving is negative. */
  function Model1(curFtes: int, humanCostHr: real, humanProdHrsMo: int, baseAgentCostMonth: real,
                  agentMarginPct: int, agentProdHrs: int): (r: Model1Result)
    ensures r.humanTotalMonthHours == curFtes * humanProdHrsMo
    ensures r.agentsNeeded == CeilDiv(r.humanTotalMonthHours, agentProdHrs)
    ensures r.agentPriceMonth == WithMargin(baseAgentCostMonth, agentMarginPct)
    ensures r.totalAgentPriceMonth == r.agentsNeeded as real * r.agentPriceMonth
    ensures r.humanCostMonth == r.humanTotalMonthHours as real * humanCostHr
    ensures r.humanCostMonth - r.savingsMonth == r.totalAgentPriceMonth
    ensures r.negativeSavingsWarning <==> r.humanCostMonth < r.totalAgentPriceMonth
  {
    var price := WithMargin(baseAgentCostMonth, agentMarginPct);
    var hours := curFtes * humanProdHrsMo;
    var agents := CeilDiv(hours, agentProdHrs);
    var agentTotal := agents as real * price;
    RealOfProduct(curFtes, humanProdHrsMo);
    var humanCost := curFtes as real * humanProdHrsMo as real * humanCostHr;
    var savings := humanCost - agentTotal;
    Model1Result(price, hours, agents, agentTotal, humanCost, savings, savings < 0.0)
  }

  /** Model 1 within its widgets' bounds: the agents needed cover the humans'
      hours and one fewer would not, no FTEs need no agents and save nothing. */
  lemma Model1Coverage(curFtes: int, humanCostHr: real, humanProdHrsMo: int, baseAgentCostMonth: real,
                       agentMarginPct: int, agentProdHrs: int)
    requires curFtes >= 0 && humanProdHrsMo >= 1 && agentProdHrs >= 1
    ensures var r := Model1(curFtes, humanCostHr, humanProdHrsMo, baseAgentCostMonth, agentMarginPct, agentProdHrs);
            && r.agentsNeeded >= 0
            && r.agentsNeeded * agentProdHrs >= curFtes * humanProdHrsMo
            && (r.agentsNeeded - 1) * agentProdHrs < curFtes * humanProdHrsMo
            && (curFtes == 0 ==> r.agentsNeeded == 0 && r.savingsMonth == 0.0 && !r.negativeSavingsWarning)
  {
    MulMono(0, curFtes, humanProdHrsMo);
  }

  /** A higher agent margin never increases Model 1's saving. */
  lemma Model1MarginLowersSavings(curFtes: int, humanCostHr: real, humanProdHrsMo: int,
                                  baseAgentCostMonth: real, lowMargin: int, highMargin: int, agentProdHrs: int)
    requires curFtes >= 0 && humanProdHrsMo >= 1 && agentProdHrs >= 1
    requires baseAgentCostMonth >= 0.0 && lowMargin <= highMargin
    ensures Model1(curFtes, humanCostHr, humanProdHrsMo, baseAgentCostMonth, highMargin, agentProdHrs).savingsMonth
            <= Model1(curFtes, humanCostHr, humanProdHrsMo, baseAgentCostMonth, lowMargin, agentProdHrs).savingsMonth
  {
    var lo := Model1(curFtes, humanCostHr, humanProdHrsMo, baseAgentCostMonth, lowMargin, agentProdHrs);
    var hi := Model1(curFtes, humanCostHr, humanProdHrsMo, baseAgentCostMonth, highMargin, agentProdHrs);
    var agents := CeilDiv(curFtes * humanProdHrsMo, agentProdHrs);
    MulMono(0, curFtes, humanProdHrsMo);
    assert agents >= 0;
    assert lo.agentsNeeded == agents && hi.agentsNeeded == agents;
    var pLo, pHi := WithMargin(baseAgentCostMonth, lowMargin), WithMargin(baseAgentCostMonth, highMargin);
    WithMarginMonotone(baseAgentCostMonth, lowMargin, highMargin);
    MulLeq(pLo, pHi, agents as real);
    assert lo.totalAgentPriceMonth == agents as real * pLo;
    assert hi.totalAgentPriceMonth == agents as real * pHi;
    assert lo.totalAgentPriceMonth <= hi.totalAgentPriceMonth;
    assert lo.humanCostMonth == hi.humanCostMonth;
  }

  /** A higher margin never lowers a non-negative price. */
  lemma WithMarginMonotone(cost: real, lowMargin: int, highMargin: int)
    requires cost >= 0.0 && lowMargin <= highMargin
    ensures WithMargin(cost, lowMargin) <= WithMargin(cost, highMargin)
  {
    MulLeq((100 + lowMargin) as real, (100 + highMargin) as real, cost);
    assert cost * (100 + lowMargin) as real <= cost * (100 + highMargin) as real;
  }

  datatype Model2Result = Model2Result(hoursSavedAnn: real, fteEquiv: real, annSaving: real)

  /** Model 2: the annual hours a faster case time saves, the FTEs they free
      and the labour cost they save. */
  function Model2(baseCases: int, baseTimeMin: real, newTimeMin: real, humanCostHr: real): (r: Model2Result)
    ensures 60.0 * r.hoursSavedAnn == (baseTimeMin - newTimeMin) * baseCases as real
    ensures r.fteEquiv * FteHoursPerYear as real == r.hoursSavedAnn
    ensures r.annSaving == r.hoursSavedAnn * humanCostHr
  {
    var saved := (baseTimeMin - newTimeMin) / 60.0 * baseCases as real;
    Model2Result(saved, saved / FteHoursPerYear as real, saved * humanCostHr)
  }

  /** Model 2 saves hours exactly when the new time is shorter (for at least one case). */
  lemma Model2Sign(baseCases: int, baseTimeMin: real, newTimeMin: real, humanCostHr: real)
    requires baseCases >= 1
    ensures var r := Model2(baseCases, baseTimeMin, newTimeMin, humanCostHr);
            && (r.hoursSavedAnn > 0.0 <==> newTimeMin < baseTimeMin)
            && (r.hoursSavedAnn == 0.0 <==> newTimeMin == baseTimeMin)
            && (r.hoursSavedAnn > 0.0 && humanCostHr >= 0.0 ==> r.annSaving >= 0.0 && r.fteEquiv > 0.0)
  {
    var r := Model2(baseCases, baseTimeMin, newTimeMin, humanCostHr);
    var d := baseTimeMin - newTimeMin;
    var c := baseCases as real;
    MulLess(0.0, d, c);
    MulLess(d, 0.0, c);
    MulLeq(0.0, r.hoursSavedAnn, humanCostHr);
  }

  datatype Model4Result = Model4Result(
    agentHours: real,
    humanHours: real,
    steadyHumanHours: real,
    burstHours: real,
    agentPriceMonth: real,
    agentsNeeded: int,
    totalAgentCostAnn: real,
    humanCostAnn: real,
    combinedCostAnn: real
  )

  /** Model 4: agents take their coverage share of the hours, humans the rest,
      split into a steady part and a burst headroom; a positive price override
      replaces the heuristic price; enough agents are counted to cover their
      share at their annual productive hours. */
  function Model4(totalWorkHours: real, agentCoveragePct: int, burstPct: int, humanCostHr: real,
                  priceOverride: real, heuristicPrice: real, agentProdHrsMo: int): (r: Model4Result)
    ensures r.agentHours + r.humanHours == totalWorkHours
    ensures 100.0 * r.agentHours == totalWorkHours * agentCoveragePct as real
    ensures r.steadyHumanHours + r.burstHours == r.humanHours
    ensures 100.0 * r.burstHours == r.humanHours * burstPct as real
    ensures priceOverride <= 0.0 ==> r.agentPriceMonth == heuristicPrice
    ensures priceOverride > 0.0 ==> r.agentPriceMonth == priceOverride
    ensures agentProdHrsMo <= 0 ==> r.agentsNeeded == 0
    ensures agentProdHrsMo > 0 ==>
              && r.agentsNeeded as real * (12 * agentProdHrsMo) as real >= r.agentHours
              && (r.agentsNeeded - 1) as real * (12 * agentProdHrsMo) as real < r.agentHours
    ensures r.totalAgentCostAnn == r.agentsNeeded as real * r.agentPriceMonth * 12.0
    ensures r.humanCostAnn == r.humanHours * humanCostHr
    ensures r.combinedCostAnn == r.totalAgentCostAnn + r.humanCostAnn
  {
    var agentHours := totalWorkHours * (agentCoveragePct as real / 100.0);
    var humanHours := totalWorkHours - agentHours;
    var steady := humanHours * (1.0 - burstPct as real / 100.0);
    var burst := humanHours - steady;
    var price := if priceOverride <= 0.0 then heuristicPrice else priceOverride;
    var agents :=
      if agentProdHrsMo > 0 then
        CeilQuotientReal(agentHours, (agentProdHrsMo * 12) as real);
        Ceil(agentHours / (agentProdHrsMo * 12) as real)
      else 0;
    var agentCost := agents as real * price * 12.0;
    var humanCost := humanHours * humanCostHr;
    Model4Result(agentHours, humanHours, steady, burst, price, agents, agentCost, humanCost, agentCost + humanCost)
  }

  /** Model 4 within its widgets' bounds: every share lies between zero and
      what it is a share of, and no fewer agents would cover theirs. */
  lemma Model4Bounds(totalWorkHours: real, agentCoveragePct: int, burstPct: int, humanCostHr: real,
                     priceOverride: real, heuristicPrice: real, agentProdHrsMo: int, fewer: int)
    requires totalWorkHours >= 1.0 && 0 <= agentCoveragePct <= 100 && 0 <= burstPct <= 100
    requires agentProdHrsMo >= 1
    ensures var r := Model4(totalWorkHours, agentCoveragePct, burstPct, humanCostHr,
                            priceOverride, heuristicPrice, agentProdHrsMo);
            && 0.0 <= r.agentHours <= totalWorkHours
            && 0.0 <= r.humanHours <= totalWorkHours
            && 0.0 <= r.burstHours <= r.humanHours
            && r.agentsNeeded >= 0
            && (fewer as real * (12 * agentProdHrsMo) as real >= r.agentHours ==> fewer >= r.agentsNeeded)
  {
    var r := Model4(totalWorkHours, agentCoveragePct, burstPct, humanCostHr,
                    priceOverride, heuristicPrice, agentProdHrsMo);
    PercentPart(totalWorkHours, agentCoveragePct as real, r.agentHours);
    PercentPart(r.humanHours, burstPct as real, r.burstHours);
    var unit := (agentProdHrsMo * 12) as real;
    assert r.agentsNeeded == Ceil(r.agentHours / unit);
    CeilQuotientRealLeast(r.agentHours, unit, fewer);
    CeilQuotientRealLeast(r.agentHours, unit, 0);
  }
}
