/**
  Capacity and allocation on the simulation page: the agent and human hour
  targets, the hours agents actually deliver, the human in-loop and residual
  hours, and the human headcount needed to cover them.
 */
module SimulationCapacity {
  import opened Numeric
  import opened SimulationTier

  datatype HourTargets = HourTargets(agentHrMax: int, humanHrMax: int)

  /** The agent target is the ratio's share of the total hours, truncated; the
      human target is what is left of the total, truncated. */
  function Targets(totalHours: real, agentRatioPct: int): (r: HourTargets)
    ensures totalHours >= 0.0 && 0 <= agentRatioPct <= 100 ==>
              0 <= r.agentHrMax && r.agentHrMax as real <= totalHours && 0 <= r.humanHrMax
    ensures totalHours >= 0.0 && 0 <= agentRatioPct ==>
              r.agentHrMax as real <= totalHours * (agentRatioPct as real / 100.0) < r.agentHrMax as real + 1.0
    ensures totalHours >= 0.0 && 0 <= agentRatioPct <= 100 ==>
              r.humanHrMax as real <= totalHours - r.agentHrMax as real < r.humanHrMax as real + 1.0
    ensures totalHours >= 0.0 && 0 <= agentRatioPct <= 100 && IsWhole(totalHours) ==>
              (r.agentHrMax + r.humanHrMax) as real == totalHours
  {
    var agent := Trunc(totalHours * (agentRatioPct as real / 100.0));
    TargetFacts(totalHours, agentRatioPct, agent);
    HourTargets(agent, Trunc(totalHours - agent as real))
  }

  lemma TargetFacts(totalHours: real, agentRatioPct: int, agent: int)
    requires agent == Trunc(totalHours * (agentRatioPct as real / 100.0))
    ensures totalHours >= 0.0 && 0 <= agentRatioPct ==>
              0.0 <= totalHours * (agentRatioPct as real / 100.0)
    ensures totalHours >= 0.0 && 0 <= agentRatioPct <= 100 ==>
              agent as real <= totalHours && 0 <= Trunc(totalHours - agent as real)
    ensures totalHours >= 0.0 && 0 <= agentRatioPct <= 100 ==>
              Trunc(totalHours - agent as real) as real <= totalHours - agent as real
              < Trunc(totalHours - agent as real) as real + 1.0
    ensures totalHours >= 0.0 && 0 <= agentRatioPct <= 100 && IsWhole(totalHours) ==>
              (agent + Trunc(totalHours - agent as real)) as real == totalHours
  {
    if totalHours >= 0.0 && 0 <= agentRatioPct <= 100 {
      ShareWithinTotal(totalHours, agentRatioPct);
      var share := totalHours * (agentRatioPct as real / 100.0);
      assert agent as real <= share <= totalHours;
      assert 0.0 <= totalHours - agent as real;
      if IsWhole(totalHours) {
        WholeRemainder(totalHours, agent);
      }
    } else if totalHours >= 0.0 && 0 <= agentRatioPct {
      ShareWithinTotal(totalHours, agentRatioPct);
    }
  }

  lemma ShareWithinTotal(totalHours: real, agentRatioPct: int)
    requires totalHours >= 0.0 && 0 <= agentRatioPct
    ensures 0.0 <= totalHours * (agentRatioPct as real / 100.0)
    ensures agentRatioPct <= 100 ==> totalHours * (agentRatioPct as real / 100.0) <= totalHours
  {
    var f := agentRatioPct as real / 100.0;
    MulLeq(0.0, f, totalHours);
    MulLeq(f, 1.0, totalHours);
  }

  lemma WholeRemainder(totalHours: real, agent: int)
    requires IsWhole(totalHours) && agent as real <= totalHours
    ensures (agent + Trunc(totalHours - agent as real)) as real == totalHours
  {
    var n := totalHours.Floor;
    assert totalHours - agent as real == (n - agent) as real;
    TruncOfWhole(n - agent);
  }

  /** Sum of the tiers' annual capacities. */
  function TotalCapacity(rows: seq<TierRow>): int {
    if |rows| == 0 then 0 else rows[0].capacityAnn + TotalCapacity(rows[1..])
  }

  /** The page sums the capacities tier by tier from the first: the total of a
      list with one more tier is the earlier total plus that tier's capacity. */
  lemma {:induction false} TotalCapacityAppend(rows: seq<TierRow>, row: TierRow)
    ensures TotalCapacity(rows + [row]) == TotalCapacity(rows) + row.capacityAnn
  {
    if |rows| > 0 {
      assert (rows + [row])[1..] == rows[1..] + [row];
      TotalCapacityAppend(rows[1..], row);
    }
  }

  /** Capacities that are each non-negative add up to a non-negative total. */
  lemma {:induction false} TotalCapacityNonNegative(rows: seq<TierRow>)
    requires forall i :: 0 <= i < |rows| ==> rows[i].capacityAnn >= 0
    ensures TotalCapacity(rows) >= 0
  {
    if |rows| > 0 {
      assert forall i :: 0 <= i < |rows| - 1 ==> rows[1..][i] == rows[i + 1];
      TotalCapacityNonNegative(rows[1..]);
    }
  }

  /** Agents deliver no more than their capacity and no more than their target. */
  function Delivered(capacity: int, agentHrMax: int): (r: int)
    ensures r <= capacity && r <= agentHrMax
    ensures r == capacity || r == agentHrMax
  {
    Min(capacity, agentHrMax)
  }

  /** The warning shown when capacity falls short of the agent target: it
      fires exactly when agents deliver less than their target. */
  predicate ShortfallWarning(capacity: int, agentHrMax: int)
    ensures ShortfallWarning(capacity, agentHrMax) <==> Delivered(capacity, agentHrMax) < agentHrMax
  {
    capacity < agentHrMax
  }

  /** The notice shown when capacity exceeds the agent target: it appears
      exactly when some capacity is left undelivered. */
  predicate SpareCapacityNotice(capacity: int, agentHrMax: int)
    ensures SpareCapacityNotice(capacity, agentHrMax) <==> Delivered(capacity, agentHrMax) < capacity
  {
    capacity > agentHrMax
  }

  /** The page never shows both messages; without the warning agents meet
      their target, and with neither message capacity matches it exactly. */
  lemma WarningsMatchDelivery(capacity: int, agentHrMax: int)
    ensures !(ShortfallWarning(capacity, agentHrMax) && SpareCapacityNotice(capacity, agentHrMax))
    ensures !ShortfallWarning(capacity, agentHrMax) ==> Delivered(capacity, agentHrMax) == agentHrMax
    ensures !ShortfallWarning(capacity, agentHrMax) && !SpareCapacityNotice(capacity, agentHrMax) ==>
              capacity == agentHrMax
  {
  }

  /** Human oversight hours: the global in-loop percentage of the delivered
      agent hours, rounded half to even. */
  function InloopHours(delivered: int, inloopPercent: int): (r: int)
    ensures var x := delivered as real * (inloopPercent as real / 100.0);
            && x - 0.5 <= r as real <= x + 0.5
            && (r as real - x == 0.5 || x - r as real == 0.5 ==> r % 2 == 0)
    ensures delivered >= 0 && 0 <= inloopPercent <= 100 ==> 0 <= r <= delivered
    ensures inloopPercent == 0 || delivered == 0 ==> r == 0
  {
    InloopBounds(delivered, inloopPercent);
    Round(delivered as real * (inloopPercent as real / 100.0))
  }

  lemma InloopBounds(delivered: int, inloopPercent: int)
    ensures var x := delivered as real * (inloopPercent as real / 100.0);
            && (delivered >= 0 && 0 <= inloopPercent <= 100 ==> 0 <= Round(x) <= delivered)
            && (inloopPercent == 0 || delivered == 0 ==> Round(x) == 0)
  {
    var d := delivered as real;
    var p := inloopPercent as real;
    var x := d * (p / 100.0);
    FractionBounds(d, p);
    if delivered >= 0 && 0 <= inloopPercent <= 100 {
      assert 0.0 <= d && 0.0 <= p <= 100.0;
      assert 0.0 <= x <= d;
      RoundNonNegative(x);
      RoundMonotone(x, d);
      RoundOfWhole(delivered);
    }
    if inloopPercent == 0 || delivered == 0 {
      assert x == 0.0;
      RoundOfWhole(0);
    }
  }

  /** Hours of the total not delivered by agents, never negative. */
  function ResidualHours(totalHours: real, delivered: int): (r: int)
    ensures r >= 0
    ensures delivered as real <= totalHours ==> r == totalHours.Floor - delivered
    ensures totalHours <= delivered as real ==> r == 0
  {
    Max(0, Trunc(totalHours - delivered as real))
  }

  /** Annual capacity of one human: productive hours per month times twelve;
      it is positive, so that a headcount is computed, exactly when the monthly
      hours are. */
  function HumanCapacityPerPerson(humanProdHoursPerMonth: int): (r: int)
    ensures r == 12 * humanProdHoursPerMonth
    ensures r > 0 <==> humanProdHoursPerMonth > 0
  {
    humanProdHoursPerMonth * 12
  }

  datatype Allocation = Allocation(
    targets: HourTargets,
    totalAgentCapacity: int,
    agentHoursDelivered: int,
    humanInloopHours: int,
    residualHours: int,
    humanHoursAnn: int,
    humanCapacityPerPerson: int,
    humanHeadcount: int
  )

  /** The allocation of the simulation page for the given agent rows. */
  function Allocate(totalHours: real, agentRatioPct: int, rows: seq<TierRow>,
                    inloopPercent: int, humanProdHoursPerMonth: int): (a: Allocation)
    ensures a.targets == Targets(totalHours, agentRatioPct)
    ensures a.totalAgentCapacity == TotalCapacity(rows)
    ensures a.agentHoursDelivered == Min(a.totalAgentCapacity, a.targets.agentHrMax)
    ensures a.humanInloopHours == InloopHours(a.agentHoursDelivered, inloopPercent)
    ensures a.residualHours == ResidualHours(totalHours, a.agentHoursDelivered)
    ensures a.agentHoursDelivered <= a.totalAgentCapacity
    ensures a.agentHoursDelivered <= a.targets.agentHrMax
    ensures a.residualHours >= 0
    ensures a.humanHoursAnn == a.residualHours + a.humanInloopHours
    ensures a.agentHoursDelivered >= 0 && 0 <= inloopPercent <= 100 ==>
              a.humanHoursAnn >= a.residualHours
    ensures a.humanCapacityPerPerson == 12 * humanProdHoursPerMonth
    ensures a.humanHeadcount == CeilDiv(a.humanHoursAnn, a.humanCapacityPerPerson)
  {
    var targets := Targets(totalHours, agentRatioPct);
    var capacity := TotalCapacity(rows);
    var delivered := Delivered(capacity, targets.agentHrMax);
    var inloop := InloopHours(delivered, inloopPercent);
    var residual := ResidualHours(totalHours, delivered);
    var humanHours := residual + inloop;
    var perPerson := HumanCapacityPerPerson(humanProdHoursPerMonth);
    Allocation(targets, capacity, delivered, inloop, residual, humanHours, perPerson,
               CeilDiv(humanHours, perPerson))
  }

  /** Conservation: with a whole number of total hours, a ratio in [0,100] and no
      negative capacity, delivered agent hours and residual human hours add up to
      the total, and the residual covers at least the human target. */
  lemma {:induction false} HoursConserved(totalHours: real, agentRatioPct: int, rows: seq<TierRow>,
                                          inloopPercent: int, humanProdHoursPerMonth: int)
    requires totalHours >= 0.0 && IsWhole(totalHours) && 0 <= agentRatioPct <= 100
    requires forall i :: 0 <= i < |rows| ==> rows[i].capacityAnn >= 0
    ensures var a := Allocate(totalHours, agentRatioPct, rows, inloopPercent, humanProdHoursPerMonth);
            && (a.agentHoursDelivered + a.residualHours) as real == totalHours
            && a.residualHours >= a.targets.humanHrMax
            && a.agentHoursDelivered >= 0
  {
    var a := Allocate(totalHours, agentRatioPct, rows, inloopPercent, humanProdHoursPerMonth);
    TotalCapacityNonNegative(rows);
    assert 0 <= a.agentHoursDelivered;
    assert a.agentHoursDelivered as real <= totalHours;
    assert totalHours.Floor as real == totalHours;
  }
}
