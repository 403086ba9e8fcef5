/**
  The aggregates of the TCO page: one-time foundation and licence totals, the
  monthly infrastructure bill for the minimum agent bundle, and each tier's
  build cost, percentage-based maintenance and enhancement, and human-in-loop
  effort.
 */
module Tco {
  import opened Numeric
  import opened Tiers

  /** Part 1: one-time foundation setup costs in whole SEK (the widgets set no lower bound). */
  datatype Foundation = Foundation(identity: int, vpc: int, observability: int, security: int)

  function FoundationItems(f: Foundation): seq<int> {
    [f.identity, f.vpc, f.observability, f.security]
  }

  function FoundationTotal(f: Foundation): (r: int)
    ensures r == SumInt(FoundationItems(f))
  {
    SumIntOfFour(f.identity, f.vpc, f.observability, f.security);
    f.identity + f.vpc + f.observability + f.security
  }

  /** Part 6: one-time licence costs in whole SEK (each read with default 0). */
  datatype Licences = Licences(rpa: int, orchestration: int, analytics: int, other: int)

  function LicenceItems(l: Licences): seq<int> {
    [l.rpa, l.orchestration, l.analytics, l.other]
  }

  function LicenceTotal(l: Licences): (r: int)
    ensures r == SumInt(LicenceItems(l))
  {
    SumIntOfFour(l.rpa, l.orchestration, l.analytics, l.other);
    l.rpa + l.orchestration + l.analytics + l.other
  }

  /** A one-time total with no negative item covers every item and is not negative. */
  lemma OneTimeTotalsBound(f: Foundation, l: Licences)
    ensures (forall i :: 0 <= i < 4 ==> FoundationItems(f)[i] >= 0) ==>
              0 <= FoundationTotal(f) &&
              forall i :: 0 <= i < 4 ==> FoundationItems(f)[i] <= FoundationTotal(f)
    ensures (forall i :: 0 <= i < 4 ==> LicenceItems(l)[i] >= 0) ==>
              0 <= LicenceTotal(l) &&
              forall i :: 0 <= i < 4 ==> LicenceItems(l)[i] <= LicenceTotal(l)
  {
    if forall i :: 0 <= i < 4 ==> FoundationItems(f)[i] >= 0 {
      SumIntBounds(FoundationItems(f));
    }
    if forall i :: 0 <= i < 4 ==> LicenceItems(l)[i] >= 0 {
      SumIntBounds(LicenceItems(l));
    }
  }

  /** Part 3 inputs: usage of the minimum agent bundle and the fixed monthly bills. */
  datatype Infra = Infra(
    agents: int,                // tco_min_agents
    avgTokens: int,             // tokens per interaction
    interactionsPerAgent: int,  // interactions per agent per month
    tokenPricePer1k: real,
    runtimeCostPerCall: real,
    recurringLicense: real,
    vectorDb: real,
    embedding: real,
    logging: real,
    apiGateway: real,
    cicd: real
  )

  /** The lower bounds the Part 3 widgets put on their inputs. */
  predicate InfraWidgetBounds(i: Infra) {
    && i.agents >= 1 && i.avgTokens >= 1 && i.interactionsPerAgent >= 0
    && i.tokenPricePer1k >= 0.0 && i.runtimeCostPerCall >= 0.0
    && i.recurringLicense >= 0.0 && i.vectorDb >= 0.0 && i.embedding >= 0.0
    && i.logging >= 0.0 && i.apiGateway >= 0.0 && i.cicd >= 0.0
  }

  function CallsPerMonth(i: Infra): int {
    i.agents * i.interactionsPerAgent
  }

  function TokensPerMonth(i: Infra): int {
    CallsPerMonth(i) * i.avgTokens
  }

  /** The bills that do not depend on usage. */
  function FixedMonthly(i: Infra): real {
    i.vectorDb + i.embedding + i.logging + i.apiGateway + i.cicd + i.recurringLicense
  }

  /** What one more agent adds to the monthly bill: its tokens and its calls. */
  function VariablePerAgent(i: Infra): real {
    (i.interactionsPerAgent * i.avgTokens) as real * i.tokenPricePer1k / 1000.0
    + i.interactionsPerAgent as real * i.runtimeCostPerCall
  }

  datatype InfraCosts = InfraCosts(tokenCost: real, runtimeCost: real, totalMonthly: real)

  /** Part 3: token cost, runtime cost and the total monthly infrastructure bill. */
  function InfraMonthly(i: Infra): (r: InfraCosts)
    ensures r.tokenCost * 1000.0 == TokensPerMonth(i) as real * i.tokenPricePer1k
    ensures r.runtimeCost == CallsPerMonth(i) as real * i.runtimeCostPerCall
    ensures r.totalMonthly - FixedMonthly(i) == r.tokenCost + r.runtimeCost
    ensures InfraWidgetBounds(i) ==>
              0.0 <= r.tokenCost && 0.0 <= r.runtimeCost && FixedMonthly(i) <= r.totalMonthly
  {
    var token := (i.agents * i.interactionsPerAgent * i.avgTokens) as real * i.tokenPricePer1k / 1000.0;
    var runtime := (i.agents * i.interactionsPerAgent) as real * i.runtimeCostPerCall;
    var total := token + runtime + i.vectorDb + i.embedding + i.logging + i.apiGateway + i.cicd + i.recurringLicense;
    InfraCosts(token, runtime, total)
  }

  /** The monthly bill is the fixed part plus the same variable amount per agent. */
  lemma InfraIsPerAgentPlusFixed(i: Infra)
    ensures InfraMonthly(i).totalMonthly == FixedMonthly(i) + i.agents as real * VariablePerAgent(i)
  {
    var n, k, t := i.agents as real, i.interactionsPerAgent as real, i.avgTokens as real;
    assert (i.agents * i.interactionsPerAgent * i.avgTokens) as real == n * (k * t);
    assert (i.interactionsPerAgent * i.avgTokens) as real == k * t;
    assert (i.agents * i.interactionsPerAgent) as real == n * k;
  }

  /** With non-negative usage prices, a larger bundle never costs less. */
  lemma InfraGrowsWithAgents(i: Infra, more: int)
    requires InfraWidgetBounds(i) && i.agents <= more
    ensures InfraMonthly(i).totalMonthly <= InfraMonthly(i.(agents := more)).totalMonthly
  {
    var j := i.(agents := more);
    InfraIsPerAgentPlusFixed(i);
    InfraIsPerAgentPlusFixed(j);
    VariablePerAgentNonNegative(i);
    assert VariablePerAgent(j) == VariablePerAgent(i);
    MulLeq(i.agents as real, more as real, VariablePerAgent(i));
  }

  lemma VariablePerAgentNonNegative(i: Infra)
    requires InfraWidgetBounds(i)
    ensures VariablePerAgent(i) >= 0.0
  {
    var tokens := (i.interactionsPerAgent * i.avgTokens) as real;
    MulMono(0, i.interactionsPerAgent, i.avgTokens);
    MulLeq(0.0, tokens, i.tokenPricePer1k);
    MulLeq(0.0, i.interactionsPerAgent as real, i.runtimeCostPerCall);
  }

  /** Part 2: build cost of one agent; the build hours go through `int()` first. */
  function TcoBuildCost(p: TierProfile): (r: real)
    ensures p.buildHours >= 0.0 && p.hourlyRate >= 0.0 ==>
              0.0 <= r <= p.buildHours * p.hourlyRate
    ensures IsWhole(p.buildHours) ==> r == p.buildHours * p.hourlyRate
    ensures p.buildHours >= 0.0 ==> r == p.buildHours.Floor as real * p.hourlyRate
  {
    TruncatedHoursCost(p.buildHours, p.hourlyRate);
    Trunc(p.buildHours) as real * p.hourlyRate
  }

  lemma TruncatedHoursCost(hours: real, rate: real)
    ensures hours >= 0.0 && rate >= 0.0 ==>
              0.0 <= Trunc(hours) as real * rate <= hours * rate
    ensures IsWhole(hours) ==> Trunc(hours) as real == hours
    ensures hours >= 0.0 ==> Trunc(hours) == hours.Floor
  {
    var t := Trunc(hours) as real;
    if hours >= 0.0 && rate >= 0.0 {
      assert 0.0 <= t <= hours;
      MulLeq(0.0, t, rate);
      MulLeq(t, hours, rate);
    }
    if IsWhole(hours) {
      TruncOfWhole(hours.Floor);
    }
  }

  /** Part 4: a yearly percentage of the build cost, spread over twelve months. */
  function PctOfBuildMonthly(build: real, pctYear: real): (r: real)
    ensures 1200.0 * r == build * pctYear
    ensures 0.0 <= build && 0.0 <= pctYear <= 100.0 ==> 0.0 <= 12.0 * r <= build
  {
    PctOfBuildBounds(build, pctYear);
    (build * pctYear / 100.0) / 12.0
  }

  lemma PctOfBuildBounds(build: real, pctYear: real)
    ensures 0.0 <= build && 0.0 <= pctYear <= 100.0 ==>
              0.0 <= 12.0 * ((build * pctYear / 100.0) / 12.0) <= build
  {
    var y := build * pctYear;
    assert 12.0 * ((y / 100.0) / 12.0) == y / 100.0;
    if 0.0 <= build && 0.0 <= pctYear <= 100.0 {
      assert 0.0 <= y by { MulLeq(0.0, pctYear, build); }
      assert y <= 100.0 * build by { MulLeq(pctYear, 100.0, build); }
    }
  }

  /** Part 5: human-in-loop effort for one deployed agent. */
  datatype InLoop = InLoop(hours: real, cost: real)

  function HumanInLoop(p: TierProfile): (r: InLoop)
    ensures 100.0 * r.hours == (p.agentHours * p.humanPct) as real
    ensures p.agentHours >= 0 && 0 <= p.humanPct <= 100 ==>
              0.0 <= r.hours <= p.agentHours as real
    ensures 100.0 * r.cost == (p.agentHours * p.humanPct) as real * p.humanRate
  {
    MulMono(p.humanPct, 100, p.agentHours);
    var hours := (p.agentHours * p.humanPct) as real / 100.0;
    InLoop(hours, hours * p.humanRate)
  }

  /** Everything the TCO page shows for one tier. */
  datatype TcoTier = TcoTier(buildCost: real, maintMonthly: real, enhMonthly: real, inLoop: InLoop)

  function TcoTierFigures(p: TierProfile): (r: TcoTier)
    ensures r.buildCost == TcoBuildCost(p)
    ensures 1200.0 * r.maintMonthly == r.buildCost * p.maintPct
    ensures 1200.0 * r.enhMonthly == r.buildCost * p.enhPct
    ensures r.inLoop == HumanInLoop(p)
  {
    var build := TcoBuildCost(p);
    TcoTier(build, PctOfBuildMonthly(build, p.maintPct), PctOfBuildMonthly(build, p.enhPct), HumanInLoop(p))
  }
}
