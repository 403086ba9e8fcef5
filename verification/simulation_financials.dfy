/**
  Pricing and margin on the simulation page: agent revenue and direct cost
  from the tier rows, human pricing with the markup clamped at zero, the
  per-category CM/Trio/GOP display values, the combined blend, and the "true"
  financial CM and GOP computed from revenue and cost.
 */
module SimulationFinancials {
  import opened Numeric
  import opened SimulationTier
  import opened SimulationCapacity

  /** Annual agent revenue: each tier's blended monthly price for a year, per agent. */
  function AgentRevenue(rows: seq<TierRow>): int {
    if |rows| == 0 then 0
    else rows[0].blendedPriceMonth * 12 * rows[0].count + AgentRevenue(rows[1..])
  }

  /** A tier's share of the annual agent direct cost: a year of development
      amortisation per agent, a year of the tier's maintenance, and its annual
      enhancement. The year of amortisation is truncated to whole units before
      it is multiplied by the count, so the amortisation part is a multiple of
      the count whose share per agent is that truncated year. */
  function RowDirectCost(row: TierRow): (c: int)
    ensures var amortised := c - (row.maintMonthly * 12 + row.enhYearlyTotal);
            var year := row.devAmortMonth * 12.0;
            && (row.count == 0 ==> amortised == 0)
            && (row.count > 0 ==> amortised % row.count == 0)
            && (row.count > 0 && year >= 0.0 ==>
                  (amortised / row.count) as real <= year < (amortised / row.count) as real + 1.0)
            && (IsWhole(year) ==> amortised == year.Floor * row.count)
  {
    var year := row.devAmortMonth * 12.0;
    TruncOfWhole(year.Floor);
    MulDivExact(Trunc(year), row.count);
    Trunc(year) * row.count + row.maintMonthly * 12 + row.enhYearlyTotal
  }

  /** Annual agent direct cost: amortisation, maintenance and enhancement summed over the tiers. */
  function AgentDirectCost(rows: seq<TierRow>): int {
    if |rows| == 0 then 0 else RowDirectCost(rows[0]) + AgentDirectCost(rows[1..])
  }

  /** Number of deployed agents over all tiers. */
  function AgentHeadcount(rows: seq<TierRow>): int {
    if |rows| == 0 then 0 else rows[0].count + AgentHeadcount(rows[1..])
  }

  /** The page's sums run over the tiers from the first: one more tier adds
      its year of revenue and its direct cost to the totals so far. */
  lemma {:induction false} TotalsAppend(rows: seq<TierRow>, row: TierRow)
    ensures AgentRevenue(rows + [row]) == AgentRevenue(rows) + row.blendedPriceMonth * 12 * row.count
    ensures AgentDirectCost(rows + [row]) == AgentDirectCost(rows) + RowDirectCost(row)
  {
    if |rows| > 0 {
      assert (rows + [row])[0] == rows[0];
      assert (rows + [row])[1..] == rows[1..] + [row];
      TotalsAppend(rows[1..], row);
    }
  }

  /** One more tier adds its agents to the headcount so far. */
  lemma {:induction false} HeadcountAppend(rows: seq<TierRow>, row: TierRow)
    ensures AgentHeadcount(rows + [row]) == AgentHeadcount(rows) + row.count
  {
    if |rows| > 0 {
      assert (rows + [row])[1..] == rows[1..] + [row];
      HeadcountAppend(rows[1..], row);
    }
  }

  /** A year of amortisation gives back the whole build cost for every agent. */
  lemma RowDirectCostOfTier(t: TierInput, cmPct: int, trioPct: int)
    ensures var r := TierRowOf(t, cmPct, trioPct);
            RowDirectCost(r) == r.buildOneTime * t.count + 12 * r.maintMonthly + r.enhYearlyTotal
  {
    var r := TierRowOf(t, cmPct, trioPct);
    assert r.devAmortMonth * 12.0 == r.buildOneTime as real;
    TruncOfWhole(r.buildOneTime);
  }

  /** The blended price of one agent carries the maintenance of the whole tier:
      with no build cost, one agent per slab and no markup, a year of revenue
      recovers the tier's maintenance once per agent, `count` times its cost. */
  lemma PriceCarriesTierMaintenance(t: TierInput, pct: int)
    requires t.profile.buildHours * t.profile.hourlyRate == 0.0
    requires t.profile.maintSlab <= 1 && t.count >= 1
    ensures var r := TierRowOf(t, pct, pct);
            && r.blendedPriceMonth * 12 * r.count == 12 * t.profile.maintPerSlab * t.count * t.count
            && RowDirectCost(r) == 12 * t.profile.maintPerSlab * t.count
  {
    var r := TierRowOf(t, pct, pct);
    ZeroBuildRow(t, pct);
    assert r.blendedPriceMonth * 12 * r.count == 12 * t.profile.maintPerSlab * t.count * t.count;
    RowDirectCostOfTier(t, pct, pct);
  }

  /** The row of a tier with no build cost, one agent per slab and no markup. */
  lemma ZeroBuildRow(t: TierInput, pct: int)
    requires t.profile.buildHours * t.profile.hourlyRate == 0.0
    requires t.profile.maintSlab <= 1 && t.count >= 1
    ensures var r := TierRowOf(t, pct, pct);
            && r.buildOneTime == 0 && r.enhYearlyTotal == 0
            && r.maintMonthly == t.profile.maintPerSlab * t.count
            && r.blendedPriceMonth == t.profile.maintPerSlab * t.count
  {
    var r := TierRowOf(t, pct, pct);
    var p := t.profile;
    var m := p.maintPerSlab * t.count;
    assert r.buildOneTime == 0 by {
      assert BuildOneTime(p) == Trunc(p.buildHours * p.hourlyRate);
      TruncOfWhole(0);
    }
    assert r.maintMonthly == m by {
      assert SlabCount(t.count, p.maintSlab) == t.count;
    }
    assert r.enhYearlyTotal == 0 by {
      assert EnhYearlyTotal(p.enhPct, 0, t.count) == Trunc(p.enhPct / 100.0 * 0.0 * t.count as real);
      TruncOfWhole(0);
    }
    assert r.blendedPriceMonth == m by {
      assert MonthlyBaseCost(0, m, 0) == m as real;
      assert Markup(pct, pct) == 1.0;
      assert BlendedPriceMonth(t.count, m as real, pct, pct) == MarkedUpPrice(m as real, 1.0);
      assert m as real * 1.0 == m as real;
      RoundOfWhole(m);
    }
  }

  /** When no tier has agents, the agent side has no capacity, revenue, cost or headcount. */
  lemma {:induction false} NoAgentsNoAgentFigures(ins: seq<TierInput>, cmPct: int, trioPct: int)
    requires forall i :: 0 <= i < |ins| ==> ins[i].count == 0
    ensures var rows := Rows(ins, cmPct, trioPct);
            && TotalCapacity(rows) == 0 && AgentRevenue(rows) == 0
            && AgentDirectCost(rows) == 0 && AgentHeadcount(rows) == 0
  {
    if |ins| > 0 {
      var rows := Rows(ins, cmPct, trioPct);
      NoAgentsNoAgentFigures(ins[1..], cmPct, trioPct);
      assert rows[1..] == Rows(ins[1..], cmPct, trioPct);
      RowDirectCostOfTier(ins[0], cmPct, trioPct);
    }
  }

  /** With no negative count, the headcount is zero exactly when every tier is empty. */
  lemma {:induction false} AgentHeadcountZeroIff(rows: seq<TierRow>)
    requires forall i :: 0 <= i < |rows| ==> rows[i].count >= 0
    ensures AgentHeadcount(rows) >= 0
    ensures AgentHeadcount(rows) == 0 <==> forall i :: 0 <= i < |rows| ==> rows[i].count == 0
  {
    if |rows| > 0 {
      assert forall i :: 0 <= i < |rows| - 1 ==> rows[1..][i] == rows[i + 1];
      AgentHeadcountZeroIff(rows[1..]);
      if AgentHeadcount(rows) == 0 {
        forall i | 0 <= i < |rows|
          ensures rows[i].count == 0
        {
          if i > 0 { assert rows[i] == rows[1..][i - 1]; }
        }
      }
    }
  }

  datatype HumanPricing = HumanPricing(costDirect: real, priceHr: real, revenue: real)

  /** Human cost and price: the price per hour marks the blended cost up by
      CM minus Trio, never by a negative amount; no human hours means no
      price and no revenue. */
  function HumanPricingOf(hours: int, costHr: real, cmPct: int, trioPct: int): (r: HumanPricing)
    ensures r.costDirect == costHr * hours as real
    ensures hours == 0 ==> r.priceHr == 0.0 && r.revenue == 0.0
    ensures hours != 0 ==> r.revenue == r.priceHr * hours as real
    ensures hours != 0 && cmPct <= trioPct ==> r.priceHr == costHr
    ensures hours != 0 && trioPct < cmPct ==>
              100.0 * r.priceHr == costHr * (100 + cmPct - trioPct) as real
    ensures hours != 0 && costHr >= 0.0 ==> r.priceHr >= costHr
    ensures hours >= 0 && costHr >= 0.0 ==> r.revenue >= r.costDirect
  {
    var direct := costHr * hours as real;
    if hours == 0 then HumanPricing(direct, 0.0, 0.0)
    else
      var markup := 1.0 + Max(0, cmPct - trioPct) as real / 100.0;
      var price := costHr * markup;
      MulLeq(1.0, markup, costHr);
      MulLeq(costHr, price, hours as real);
      HumanPricing(direct, price, price * hours as real)
  }

  /** With no negative hours or cost, the human direct cost is not negative,
      revenue covers it, and a priced hour costs no less than the blended cost. */
  lemma HumanPricingCovers(hours: int, costHr: real, cmPct: int, trioPct: int)
    requires hours >= 0 && costHr >= 0.0
    ensures var h := HumanPricingOf(hours, costHr, cmPct, trioPct);
            && h.revenue >= h.costDirect >= 0.0
            && (hours > 0 ==> h.priceHr >= costHr)
  {
    MulLeq(0.0, costHr, hours as real);
  }

  datatype Margins = Margins(cmPct: int, trioPct: int, gopPct: int)

  /** A category's displayed CM, Trio and GOP: the configured percentages when
      the category is active, all zero otherwise. */
  function CategoryMargins(active: bool, cmPct: int, trioPct: int): (m: Margins)
    ensures m.gopPct == m.cmPct - m.trioPct
    ensures active ==> m.cmPct == cmPct && m.trioPct == trioPct
    ensures !active ==> m.cmPct == 0 && m.trioPct == 0
  {
    if active then Margins(cmPct, trioPct, cmPct - trioPct) else Margins(0, 0, 0)
  }

  function PositivePart(x: real): real {
    if x > 0.0 then x else 0.0
  }

  /** The average of two values weighted by `w1` and `w2`. */
  function WeightedMean(w1: real, x1: real, w2: real, x2: real): real
    requires w1 + w2 != 0.0
  {
    (w1 * x1 + w2 * x2) / (w1 + w2)
  }

  /** The revenue-weighted mean the page shows: only categories with positive
      revenue weigh in, but the divisor is the whole revenue. */
  function RevenueShareMean(agentRevenue: real, agentPct: real, humanRevenue: real, humanPct: real): real
    requires agentRevenue + humanRevenue != 0.0
  {
    (PositivePart(agentRevenue) * agentPct + PositivePart(humanRevenue) * humanPct) / (agentRevenue + humanRevenue)
  }

  /** With no negative revenue this is the ordinary revenue-weighted mean. */
  lemma RevenueShareMeanIsWeightedMean(agentRevenue: real, agentPct: real, humanRevenue: real, humanPct: real)
    requires agentRevenue >= 0.0 && humanRevenue >= 0.0 && agentRevenue + humanRevenue > 0.0
    ensures RevenueShareMean(agentRevenue, agentPct, humanRevenue, humanPct)
            == WeightedMean(agentRevenue, agentPct, humanRevenue, humanPct)
  {
    assert PositivePart(agentRevenue) == agentRevenue && PositivePart(humanRevenue) == humanRevenue;
  }

  /** With non-negative weights the weighted mean lies between the two values. */
  lemma WeightedMeanBetween(w1: real, x1: real, w2: real, x2: real)
    requires w1 >= 0.0 && w2 >= 0.0 && w1 + w2 > 0.0
    ensures x1 <= x2 ==> x1 <= WeightedMean(w1, x1, w2, x2) <= x2
    ensures x2 <= x1 ==> x2 <= WeightedMean(w1, x1, w2, x2) <= x1
  {
    if x1 <= x2 {
      WeightedMeanOrdered(w1, x1, w2, x2);
    }
    if x2 <= x1 {
      WeightedMeanOrdered(w2, x2, w1, x1);
      assert WeightedMean(w2, x2, w1, x1) == WeightedMean(w1, x1, w2, x2);
    }
  }

  lemma WeightedMeanOrdered(w1: real, x1: real, w2: real, x2: real)
    requires w1 >= 0.0 && w2 >= 0.0 && w1 + w2 > 0.0 && x1 <= x2
    ensures x1 <= WeightedMean(w1, x1, w2, x2) <= x2
  {
    var s := w1 + w2;
    var num := w1 * x1 + w2 * x2;
    var m := WeightedMean(w1, x1, w2, x2);
    assert m * s == num;
    assert x1 * s <= num by {
      MulLeq(x1, x2, w2);
      assert x1 * s == w1 * x1 + x1 * w2;
    }
    assert num <= x2 * s by {
      MulLeq(x1, x2, w1);
      assert x2 * s == x2 * w1 + w2 * x2;
    }
    if m < x1 { MulLess(m, x1, s); }
    if m > x2 { MulLess(x2, m, s); }
  }

  /** A percentage weighted by revenue over the categories that earn any,
      as a share of the total revenue. */
  function RevenueBlendPct(agentRevenue: real, humanRevenue: real, agentPct: int, humanPct: int): (r: real)
    requires agentRevenue + humanRevenue > 0.0
    ensures r == RevenueShareMean(agentRevenue, agentPct as real, humanRevenue, humanPct as real)
  {
    var fromAgent := if agentRevenue > 0.0 then agentRevenue * (agentPct as real / 100.0) else 0.0;
    var fromHuman := if humanRevenue > 0.0 then humanRevenue * (humanPct as real / 100.0) else 0.0;
    var weighted := fromAgent + fromHuman;
    assert 100.0 * weighted == PositivePart(agentRevenue) * agentPct as real
                               + PositivePart(humanRevenue) * humanPct as real;
    (weighted / (agentRevenue + humanRevenue)) * 100.0
  }

  /** A percentage weighted by hours. */
  function HoursBlendPct(agentHours: int, humanHours: int, agentPct: int, humanPct: int): (r: real)
    requires agentHours + humanHours > 0
    ensures r == WeightedMean(agentHours as real, agentPct as real, humanHours as real, humanPct as real)
  {
    RealOfProduct(agentHours, agentPct);
    RealOfProduct(humanHours, humanPct);
    ((agentHours * agentPct) + (humanHours * humanPct)) as real / (agentHours + humanHours) as real
  }

  datatype Blend = Blend(cmPct: real, trioPct: real, gopPct: real)

  /** The combined CM and Trio: weighted by revenue over the categories that
      earn any when total revenue is positive, else weighted by hours when
      there are any, else zero. GOP is always CM minus Trio. */
  function CombinedBlend(agentRevenue: real, humanRevenue: real, agentHours: int, humanHours: int,
                         agent: Margins, human: Margins): (b: Blend)
    ensures b.gopPct == b.cmPct - b.trioPct
    ensures agentRevenue + humanRevenue > 0.0 ==>
              && b.cmPct == RevenueShareMean(agentRevenue, agent.cmPct as real, humanRevenue, human.cmPct as real)
              && b.trioPct == RevenueShareMean(agentRevenue, agent.trioPct as real, humanRevenue, human.trioPct as real)
    ensures agentRevenue + humanRevenue <= 0.0 && agentHours + humanHours > 0 ==>
              && b.cmPct == WeightedMean(agentHours as real, agent.cmPct as real, humanHours as real, human.cmPct as real)
              && b.trioPct == WeightedMean(agentHours as real, agent.trioPct as real, humanHours as real, human.trioPct as real)
    ensures agentRevenue + humanRevenue <= 0.0 && agentHours + humanHours <= 0 ==>
              b.cmPct == 0.0 && b.trioPct == 0.0
  {
    var cm := BlendPct(agentRevenue, humanRevenue, agentHours, humanHours, agent.cmPct, human.cmPct);
    var trio := BlendPct(agentRevenue, humanRevenue, agentHours, humanHours, agent.trioPct, human.trioPct);
    Blend(cm, trio, cm - trio)
  }

  /** The three-way choice for one combined percentage. */
  function BlendPct(agentRevenue: real, humanRevenue: real, agentHours: int, humanHours: int,
                    agentPct: int, humanPct: int): (p: real)
    ensures agentRevenue + humanRevenue > 0.0 ==>
              p == RevenueShareMean(agentRevenue, agentPct as real, humanRevenue, humanPct as real)
    ensures agentRevenue + humanRevenue <= 0.0 && agentHours + humanHours > 0 ==>
              p == WeightedMean(agentHours as real, agentPct as real, humanHours as real, humanPct as real)
    ensures agentRevenue + humanRevenue <= 0.0 && agentHours + humanHours <= 0 ==> p == 0.0
  {
    if agentRevenue + humanRevenue > 0.0 then RevenueBlendPct(agentRevenue, humanRevenue, agentPct, humanPct)
    else if agentHours + humanHours > 0 then HoursBlendPct(agentHours, humanHours, agentPct, humanPct)
    else 0.0
  }

  lemma BlendPctBetween(agentRevenue: real, humanRevenue: real, agentHours: int, humanHours: int,
                        agentPct: int, humanPct: int)
    requires agentRevenue >= 0.0 && humanRevenue >= 0.0 && agentHours >= 0 && humanHours >= 0
    requires agentRevenue + humanRevenue > 0.0 || agentHours + humanHours > 0
    ensures var p := BlendPct(agentRevenue, humanRevenue, agentHours, humanHours, agentPct, humanPct);
            && (agentPct <= humanPct ==> agentPct as real <= p <= humanPct as real)
            && (humanPct <= agentPct ==> humanPct as real <= p <= agentPct as real)
  {
    if agentRevenue + humanRevenue > 0.0 {
      RevenueShareMeanIsWeightedMean(agentRevenue, agentPct as real, humanRevenue, humanPct as real);
      WeightedMeanBetween(agentRevenue, agentPct as real, humanRevenue, humanPct as real);
    } else {
      WeightedMeanBetween(agentHours as real, agentPct as real, humanHours as real, humanPct as real);
    }
  }

  /** When both revenues (or, with no revenue, both hour counts) are non-negative,
      the combined CM and Trio lie between the agent's and the human's values. */
  lemma CombinedBlendBetween(agentRevenue: real, humanRevenue: real, agentHours: int, humanHours: int,
                             agent: Margins, human: Margins)
    requires agentRevenue >= 0.0 && humanRevenue >= 0.0 && agentHours >= 0 && humanHours >= 0
    requires agentRevenue + humanRevenue > 0.0 || agentHours + humanHours > 0
    ensures var b := CombinedBlend(agentRevenue, humanRevenue, agentHours, humanHours, agent, human);
            && (agent.cmPct <= human.cmPct ==> agent.cmPct as real <= b.cmPct <= human.cmPct as real)
            && (human.cmPct <= agent.cmPct ==> human.cmPct as real <= b.cmPct <= agent.cmPct as real)
            && (agent.trioPct <= human.trioPct ==> agent.trioPct as real <= b.trioPct <= human.trioPct as real)
            && (human.trioPct <= agent.trioPct ==> human.trioPct as real <= b.trioPct <= agent.trioPct as real)
  {
    BlendPctBetween(agentRevenue, humanRevenue, agentHours, humanHours, agent.cmPct, human.cmPct);
    BlendPctBetween(agentRevenue, humanRevenue, agentHours, humanHours, agent.trioPct, human.trioPct);
  }

  datatype Totals = Totals(totalRevenue: real, totalDirectCost: real, contribution: real,
                           trioFinancial: real, gopFinancial: real)

  /** Revenue and cost of both categories, the contribution left after direct
      cost, and the GOP left after the Trio share of each category's revenue. */
  function TotalsOf(agentRevenue: int, agentDirectCost: int, human: HumanPricing,
                    agentTrioPct: int, humanTrioPct: int): (t: Totals)
    ensures t.totalRevenue - t.totalDirectCost == t.contribution
    ensures t.totalRevenue == agentRevenue as real + human.revenue
    ensures t.totalDirectCost == agentDirectCost as real + human.costDirect
    ensures 100.0 * t.trioFinancial == agentRevenue as real * agentTrioPct as real + human.revenue * humanTrioPct as real
    ensures t.contribution - t.trioFinancial == t.gopFinancial
  {
    var revenue := agentRevenue as real + human.revenue;
    var cost := agentDirectCost as real + human.costDirect;
    var contribution := revenue - cost;
    var trio := agentRevenue as real * (agentTrioPct as real / 100.0) + human.revenue * (humanTrioPct as real / 100.0);
    Totals(revenue, cost, contribution, trio, contribution - trio)
  }

  datatype TrueMargins = TrueMargins(cmPct: real, gopPct: real)

  /** The accounting view: contribution and GOP as percentages of total revenue,
      zero when there is no revenue. */
  function TrueMarginsOf(t: Totals): (m: TrueMargins)
    ensures t.totalRevenue > 0.0 ==>
              m.cmPct * t.totalRevenue == 100.0 * t.contribution &&
              m.gopPct * t.totalRevenue == 100.0 * t.gopFinancial
    ensures t.totalRevenue <= 0.0 ==> m.cmPct == 0.0 && m.gopPct == 0.0
  {
    if t.totalRevenue > 0.0 then
      TrueMargins(t.contribution / t.totalRevenue * 100.0, t.gopFinancial / t.totalRevenue * 100.0)
    else TrueMargins(0.0, 0.0)
  }

  /** The true GOP is the true CM less the Trio amount's share of revenue. */
  lemma TrueGopIsCmLessTrioShare(t: Totals)
    requires t.totalRevenue > 0.0 && t.gopFinancial == t.contribution - t.trioFinancial
    ensures TrueMarginsOf(t).gopPct == TrueMarginsOf(t).cmPct - 100.0 * t.trioFinancial / t.totalRevenue
  {
  }

  /** A cost spread over hours, zero when there are none. */
  function CostPerHour(cost: real, hours: int): (r: real)
    ensures hours > 0 ==> r * hours as real == cost
    ensures hours <= 0 ==> r == 0.0
  {
    if hours > 0 then cost / hours as real else 0.0
  }

  /** The human monthly cost shown: a twelfth of a positive annual cost, else zero. */
  function HumanCostMonth(costDirect: real): (r: real)
    ensures costDirect > 0.0 ==> 12.0 * r == costDirect
    ensures costDirect <= 0.0 ==> r == 0.0
  {
    if costDirect > 0.0 then costDirect / 12.0 else 0.0
  }

  /** One line of the financial summary table. */
  datatype FinancialRow = FinancialRow(headcount: int, totalHr: int, costHr: real, costMonth: real,
                                       cmPct: real, trioPct: real, gopPct: real)

  function MarginsRow(headcount: int, totalHr: int, costHr: real, costMonth: real, m: Margins): FinancialRow {
    FinancialRow(headcount, totalHr, costHr, costMonth, m.cmPct as real, m.trioPct as real, m.gopPct as real)
  }
}
