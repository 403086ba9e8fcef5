/**
  The Agent Efficiency page: for each operation mode (Manual, Assistive,
  Semi-autonomous, Autonomous) the annual hours, FTEs, cost and savings
  against the manual mode for a number of cases, and the quick per-mode
  price derived from the cost heuristic.
 */
module AgentEfficiency {
  import opened Numeric

  /** The modes' default average minutes per case, Manual first. */
  const DefaultModeTimes: seq<real> := [55.0, 25.0, 12.5, 4.0]

  /** Annual hours of handling `cases` cases at `timeMin` minutes each. */
  function TotalHours(timeMin: real, cases: int): (r: real)
    ensures 60.0 * r == timeMin * cases as real
    ensures timeMin >= 0.0 && cases >= 0 ==> r >= 0.0
  {
    MulLeq(0.0, timeMin / 60.0, cases as real);
    (timeMin / 60.0) * cases as real
  }

  datatype ModeResult = ModeResult(timeHr: real, totalHours: real, fteRequired: int,
                                   cost: real, savingsPct: real)

  /** One mode's row: hours for the cases, FTEs rounded up, labour cost, and
      the percentage of the manual hours it saves (zero when manual takes no time). */
  function ModeResultOf(timeMin: real, manualTimeMin: real, cases: int,
                        hoursPerFte: int, humanCostHr: real): (r: ModeResult)
    requires hoursPerFte >= 1
    ensures 60.0 * r.timeHr == timeMin
    ensures r.totalHours == TotalHours(timeMin, cases)
    ensures r.fteRequired as real * hoursPerFte as real >= r.totalHours
    ensures (r.fteRequired - 1) as real * hoursPerFte as real < r.totalHours
    ensures r.cost == r.totalHours * humanCostHr
    ensures TotalHours(manualTimeMin, cases) > 0.0 ==>
              r.savingsPct * TotalHours(manualTimeMin, cases)
              == 100.0 * (TotalHours(manualTimeMin, cases) - r.totalHours)
    ensures TotalHours(manualTimeMin, cases) <= 0.0 ==> r.savingsPct == 0.0
  {
    var timeHr := timeMin / 60.0;
    var total := timeHr * cases as real;
    var fte := total / hoursPerFte as real;
    CeilQuotientReal(total, hoursPerFte as real);
    var manual := TotalHours(manualTimeMin, cases);
    var savings := if manual > 0.0 then (manual - total) / manual * 100.0 else 0.0;
    ModeResult(timeHr, total, Ceil(fte), total * humanCostHr, savings)
  }

  /** The FTE count is the least number of people whose hours cover the mode's hours. */
  lemma FteIsLeast(timeMin: real, manualTimeMin: real, cases: int, hoursPerFte: int,
                   humanCostHr: real, n: int)
    requires hoursPerFte >= 1
    ensures var r := ModeResultOf(timeMin, manualTimeMin, cases, hoursPerFte, humanCostHr);
            n as real * hoursPerFte as real >= r.totalHours ==> n >= r.fteRequired
  {
    var r := ModeResultOf(timeMin, manualTimeMin, cases, hoursPerFte, humanCostHr);
    CeilQuotientRealLeast(r.totalHours, hoursPerFte as real, n);
  }

  /** The savings percentage depends only on the times, not on the number of
      cases: it is the mode's time saved as a share of the manual time. */
  lemma SavingsIndependentOfCases(timeMin: real, manualTimeMin: real, cases: int,
                                  hoursPerFte: int, humanCostHr: real)
    requires hoursPerFte >= 1 && cases >= 1 && manualTimeMin > 0.0
    ensures ModeResultOf(timeMin, manualTimeMin, cases, hoursPerFte, humanCostHr).savingsPct * manualTimeMin
            == 100.0 * (manualTimeMin - timeMin)
  {
    var r := ModeResultOf(timeMin, manualTimeMin, cases, hoursPerFte, humanCostHr);
    var c := cases as real;
    var m := TotalHours(manualTimeMin, cases);
    MulLess(0.0, manualTimeMin / 60.0, c);
    assert m > 0.0;
    assert r.savingsPct * m == 100.0 * (m - r.totalHours);
    assert 60.0 * m == manualTimeMin * c;
    assert 60.0 * r.totalHours == timeMin * c;
    assert r.savingsPct * manualTimeMin * c == 100.0 * (manualTimeMin - timeMin) * c;
  }

  /** Against a manual mode that takes time: the manual mode saves nothing, a
      faster mode saves a positive share, a slower one a negative share, and no
      mode saves more than all of the manual hours. */
  lemma SavingsSign(timeMin: real, manualTimeMin: real, cases: int, hoursPerFte: int, humanCostHr: real)
    requires hoursPerFte >= 1 && cases >= 1 && manualTimeMin > 0.0
    ensures var s := ModeResultOf(timeMin, manualTimeMin, cases, hoursPerFte, humanCostHr).savingsPct;
            && (timeMin == manualTimeMin ==> s == 0.0)
            && (timeMin < manualTimeMin ==> s > 0.0)
            && (timeMin > manualTimeMin ==> s < 0.0)
            && (0.0 <= timeMin ==> s <= 100.0)
  {
    SavingsIndependentOfCases(timeMin, manualTimeMin, cases, hoursPerFte, humanCostHr);
    var s := ModeResultOf(timeMin, manualTimeMin, cases, hoursPerFte, humanCostHr).savingsPct;
    if timeMin < manualTimeMin && s <= 0.0 { MulLeq(s, 0.0, manualTimeMin); }
    if timeMin > manualTimeMin && s >= 0.0 { MulLeq(0.0, s, manualTimeMin); }
    if 0.0 <= timeMin && s > 100.0 { MulLess(100.0, s, manualTimeMin); }
  }

  /** A faster mode needs no more hours and no more FTEs than a slower one. */
  lemma FasterModeNeedsLess(fast: real, slow: real, manualTimeMin: real, cases: int,
                            hoursPerFte: int, humanCostHr: real)
    requires hoursPerFte >= 1 && cases >= 0 && fast <= slow
    ensures var f := ModeResultOf(fast, manualTimeMin, cases, hoursPerFte, humanCostHr);
            var s := ModeResultOf(slow, manualTimeMin, cases, hoursPerFte, humanCostHr);
            f.totalHours <= s.totalHours && f.fteRequired <= s.fteRequired
  {
    var f := ModeResultOf(fast, manualTimeMin, cases, hoursPerFte, humanCostHr);
    var s := ModeResultOf(slow, manualTimeMin, cases, hoursPerFte, humanCostHr);
    MulLeq(fast / 60.0, slow / 60.0, cases as real);
    assert f.totalHours <= s.totalHours;
    assert f.fteRequired == Ceil(f.totalHours / hoursPerFte as real);
    CeilQuotientRealLeast(f.totalHours, hoursPerFte as real, s.fteRequired);
  }

  /** The page's summary table: every mode against the first (manual) mode. */
  function ModeResults(times: seq<real>, cases: int, hoursPerFte: int, humanCostHr: real): (rs: seq<ModeResult>)
    requires |times| > 0 && hoursPerFte >= 1
    ensures |rs| == |times|
    ensures forall i :: 0 <= i < |times| ==>
              rs[i] == ModeResultOf(times[i], times[0], cases, hoursPerFte, humanCostHr)
  {
    seq(|times|, i requires 0 <= i < |times| => ModeResultOf(times[i], times[0], cases, hoursPerFte, humanCostHr))
  }

  /** With the default times the manual row saves nothing and every other row
      saves a positive share that grows mode by mode. */
  lemma DefaultSavingsOrdered(cases: int, hoursPerFte: int, humanCostHr: real)
    requires cases >= 1 && hoursPerFte >= 1
    ensures var rs := ModeResults(DefaultModeTimes, cases, hoursPerFte, humanCostHr);
            && rs[0].savingsPct == 0.0
            && 0.0 < rs[1].savingsPct < rs[2].savingsPct < rs[3].savingsPct < 100.0
  {
    var rs := ModeResults(DefaultModeTimes, cases, hoursPerFte, humanCostHr);
    forall i | 0 <= i < 4
      ensures rs[i].savingsPct * 55.0 == 100.0 * (55.0 - DefaultModeTimes[i])
    {
      SavingsIndependentOfCases(DefaultModeTimes[i], 55.0, cases, hoursPerFte, humanCostHr);
    }
  }

  /** The quick-view price of an agent per month: the heuristic cost marked up
      by the margin, truncated; the page shows the same price for every mode. */
  function QuickViewPrice(approxCost: real, marginPct: int): (r: int)
    ensures approxCost >= 0.0 && 0 <= marginPct ==>
              && 0 <= r
              && r as real <= approxCost * (1.0 + marginPct as real / 100.0) < r as real + 1.0
    ensures approxCost >= 0.0 && 0 <= marginPct ==> Trunc(approxCost) <= r
  {
    var m := 1.0 + marginPct as real / 100.0;
    MulLeq(1.0, m, approxCost);
    MulLeq(0.0, approxCost, m);
    TruncMonotone(approxCost, approxCost * m);
    Trunc(approxCost * m)
  }
}
