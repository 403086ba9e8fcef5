/**
  The per-tier economics of the simulation page: for one tier's TCO profile
  and the productive hours and count chosen on the page, the build cost,
  slab-based maintenance, annual enhancement, development amortisation,
  blended monthly price, price per hour and annual capacity. A tier with no
  deployed agents shows zero for every monthly and annual figure.
 */
module SimulationTier {
  import opened Numeric
  import opened Tiers

  /** A tier as the simulation page reads it. */
  datatype TierInput = TierInput(
    tier: Tier,
    profile: TierProfile,
    prodHrs: int,   // sim_agent_prodhrs_<tier>, at least 1 by its widget
    count: int      // sim_count_<tier>, at least 0 by its widget
  )

  /** One entry of the page's list of agent rows. */
  datatype TierRow = TierRow(
    tier: Tier,
    count: int,
    prodHrs: int,
    capacityAnn: int,
    buildOneTime: int,
    maintMonthly: int,
    enhYearlyTotal: int,
    devAmortMonth: real,
    blendedPriceMonth: int,
    pricePerHr: int,
    cmPct: int,
    trioPct: int
  )

  /** One agent's build cost, truncated to whole SEK. */
  function BuildOneTime(p: TierProfile): (r: int)
    ensures p.buildHours * p.hourlyRate >= 0.0 ==>
              0 <= r && r as real <= p.buildHours * p.hourlyRate < r as real + 1.0
    ensures p.buildHours >= 0.0 && p.hourlyRate >= 0.0 ==> r >= 0
  {
    MulLeq(0.0, p.buildHours, p.hourlyRate);
    Trunc(p.buildHours * p.hourlyRate)
  }

  /** Number of maintenance slabs: the slab size is taken as at least 1. */
  function SlabCount(count: int, slabSize: int): (s: int)
    ensures s * Max(1, slabSize) >= count
    ensures (s - 1) * Max(1, slabSize) < count
    ensures forall t: int :: t * Max(1, slabSize) >= count ==> t >= s
    ensures count >= 1 ==> 1 <= s <= count
    ensures slabSize <= 1 ==> s == count
  {
    var size := Max(1, slabSize);
    CeilQuotient(count, size);
    var s := Ceil(count as real / size as real);
    MulMono(s, 0, size);
    MulMono(count, s - 1, size);
    MulMono(1, size, count);
    s
  }

  /** Slab-based monthly maintenance; no agents means no maintenance charge. */
  function SlabMaintenance(count: int, perSlab: int, slabSize: int): (r: int)
    ensures count == 0 ==> r == 0
    ensures count != 0 ==> r == perSlab * SlabCount(count, slabSize)
    ensures count >= 1 && perSlab >= 0 ==> perSlab <= r <= perSlab * count
  {
    if count == 0 then 0
    else
      var s := SlabCount(count, slabSize);
      MulMono(1, s, perSlab);
      MulMono(s, count, perSlab);
      perSlab * s
  }

  /** One more full slab of agents costs exactly one more slab charge. */
  lemma SlabStep(count: int, slabSize: int)
    requires count >= 1 && slabSize >= 1
    ensures SlabCount(count + slabSize, slabSize) == SlabCount(count, slabSize) + 1
  {
    var s := SlabCount(count, slabSize);
    var s' := SlabCount(count + slabSize, slabSize);
    assert Max(1, slabSize) == slabSize;
    assert (s + 1) * slabSize == s * slabSize + slabSize;
    assert s' >= s + 1;
    assert (s' - 1) * slabSize == s' * slabSize - slabSize;
    assert (s' - 1) * slabSize >= count ==> s' - 1 >= s;
    if s' > s + 1 {
      MulMono(s + 1, s' - 1, slabSize);
    }
  }

  /** Yearly enhancement for all agents of the tier, truncated to whole SEK. */
  function EnhYearlyTotal(enhPct: real, build: int, count: int): (r: int)
    ensures count == 0 ==> r == 0
    ensures enhPct / 100.0 * build as real * count as real >= 0.0 ==>
              r as real <= enhPct / 100.0 * build as real * count as real < r as real + 1.0
    ensures enhPct >= 0.0 && build >= 0 && count >= 0 ==> r >= 0
  {
    MulLeq(0.0, enhPct / 100.0, build as real);
    MulLeq(0.0, enhPct / 100.0 * build as real, count as real);
    Trunc(enhPct / 100.0 * build as real * count as real)
  }

  /** One agent's build cost spread over a year. */
  function DevAmortMonth(build: int): (r: real)
    ensures 12.0 * r == build as real
  {
    build as real / 12.0
  }

  /** Monthly cost before margin: one agent's amortisation plus the tier's
      maintenance and a twelfth of its yearly enhancement. */
  function MonthlyBaseCost(build: int, maint: int, enhYearly: int): (r: real)
    ensures 12.0 * r == (build + 12 * maint + enhYearly) as real
  {
    DevAmortMonth(build) + maint as real + enhYearly as real / 12.0
  }

  /** The CM/Trio markup factor applied to the base cost. */
  function Markup(cmPct: int, trioPct: int): real {
    1.0 + (cmPct - trioPct) as real / 100.0
  }

  /** Blended monthly price, rounded half to even; zero for an empty tier. */
  function BlendedPriceMonth(count: int, base: real, cmPct: int, trioPct: int): (r: int)
    ensures count == 0 ==> r == 0
    ensures count != 0 ==>
              base * Markup(cmPct, trioPct) - 0.5 <= r as real <= base * Markup(cmPct, trioPct) + 0.5
    ensures count != 0 && base >= 0.0 && trioPct <= cmPct ==> r >= Round(base)
    ensures base >= 0.0 && Markup(cmPct, trioPct) >= 0.0 ==> r >= 0
  {
    if count == 0 then 0
    else
      MarkupAtLeastOne(cmPct, trioPct);
      MarkedUpPrice(base, Markup(cmPct, trioPct))
  }

  /** A CM at least as large as Trio never marks a price down. */
  lemma MarkupAtLeastOne(cmPct: int, trioPct: int)
    ensures trioPct <= cmPct ==> Markup(cmPct, trioPct) >= 1.0
  {
  }

  /** A price marked up by a factor, rounded half to even: a factor of at
      least one never rounds below the unmarked price, and a non-negative
      factor never gives a negative price. */
  function MarkedUpPrice(base: real, m: real): (r: int)
    ensures base * m - 0.5 <= r as real <= base * m + 0.5
    ensures base >= 0.0 && m >= 1.0 ==> r >= Round(base)
    ensures base >= 0.0 && m >= 0.0 ==> r >= 0
  {
    MarkedUpRound(base, m);
    Round(base * m)
  }

  lemma MarkedUpRound(base: real, m: real)
    ensures base >= 0.0 && m >= 1.0 ==> Round(base * m) >= Round(base)
    ensures base >= 0.0 && m >= 0.0 ==> Round(base * m) >= 0
  {
    var x := base * m;
    if base >= 0.0 && m >= 0.0 {
      ScaleBounds(base, m);
      assert 0.0 <= x;
      RoundNonNegative(x);
      if m >= 1.0 {
        assert base <= x;
        RoundMonotone(base, x);
      }
    }
  }

  /** Price per productive hour, truncated; zero for an empty tier or no hours. */
  function PricePerHour(count: int, blended: int, prodHrs: int): (r: int)
    ensures count == 0 || prodHrs <= 0 ==> r == 0
    ensures count != 0 && prodHrs > 0 && blended >= 0 ==> r == blended / prodHrs
  {
    if count == 0 then 0
    else if prodHrs > 0 then
      var q := blended as real / prodHrs as real;
      FloorOfQuotient(blended, prodHrs);
      Trunc(q)
    else 0
  }

  /** For whole, non-negative operands `int(a / b)` is Dafny's `a / b`. */
  lemma FloorOfQuotient(a: int, b: int)
    requires b > 0
    ensures a >= 0 ==> Trunc(a as real / b as real) == a / b
  {
    if a >= 0 {
      var q := a / b;
      assert q * b <= a < (q + 1) * b;
      RealOfProduct(q, b);
      RealOfProduct(q + 1, b);
      QuotientBetween(a as real, b as real, q as real);
    }
  }

  /** A quotient lies between two consecutive multiples' factors. */
  lemma QuotientBetween(a: real, b: real, q: real)
    requires b > 0.0 && q * b <= a < (q + 1.0) * b
    ensures q <= a / b < q + 1.0
  {
    var x := a / b;
    assert x * b == a;
    if x < q { MulLess(x, q, b); }
    if x >= q + 1.0 { MulLeq(q + 1.0, x, b); }
  }

  /** The row the page appends for one tier, given the global agent CM and Trio. */
  function TierRowOf(t: TierInput, cmPct: int, trioPct: int): (r: TierRow)
    ensures r.tier == t.tier && r.count == t.count && r.prodHrs == t.prodHrs
    ensures r.count == 0 ==>
              r.maintMonthly == 0 && r.enhYearlyTotal == 0 && r.blendedPriceMonth == 0 &&
              r.pricePerHr == 0 && r.cmPct == 0 && r.trioPct == 0 && r.capacityAnn == 0
    ensures r.count != 0 ==> r.cmPct == cmPct && r.trioPct == trioPct
    ensures r.capacityAnn == 12 * t.prodHrs * t.count
    ensures 12.0 * r.devAmortMonth == r.buildOneTime as real
    ensures r.buildOneTime == BuildOneTime(t.profile)
    ensures r.maintMonthly == SlabMaintenance(t.count, t.profile.maintPerSlab, t.profile.maintSlab)
    ensures r.enhYearlyTotal == EnhYearlyTotal(t.profile.enhPct, r.buildOneTime, t.count)
    ensures r.blendedPriceMonth ==
              BlendedPriceMonth(t.count, MonthlyBaseCost(r.buildOneTime, r.maintMonthly, r.enhYearlyTotal), cmPct, trioPct)
    ensures r.pricePerHr == PricePerHour(t.count, r.blendedPriceMonth, t.prodHrs)
  {
    var build := BuildOneTime(t.profile);
    var maint := SlabMaintenance(t.count, t.profile.maintPerSlab, t.profile.maintSlab);
    var enh := EnhYearlyTotal(t.profile.enhPct, build, t.count);
    var blended := BlendedPriceMonth(t.count, MonthlyBaseCost(build, maint, enh), cmPct, trioPct);
    TierRow(
      t.tier, t.count, t.prodHrs, t.prodHrs * 12 * t.count, build, maint, enh, DevAmortMonth(build),
      blended, PricePerHour(t.count, blended, t.prodHrs),
      if t.count == 0 then 0 else cmPct,
      if t.count == 0 then 0 else trioPct)
  }

  /** The bounds the simulation page's widgets put on a tier. */
  predicate TierWidgetBounds(t: TierInput) {
    ProfileWidgetBounds(t.profile) && t.prodHrs >= 1 && t.count >= 0
  }

  /** Within the widgets' bounds no figure of a row is negative. */
  lemma TierRowNonNegative(t: TierInput, cmPct: int, trioPct: int)
    requires TierWidgetBounds(t) && 0 <= cmPct <= 100 && 0 <= trioPct <= 100
    ensures var r := TierRowOf(t, cmPct, trioPct);
            && r.capacityAnn >= 0 && r.buildOneTime >= 0 && r.maintMonthly >= 0
            && r.enhYearlyTotal >= 0 && r.blendedPriceMonth >= 0 && r.pricePerHr >= 0
  {
    var r := TierRowOf(t, cmPct, trioPct);
    assert r.capacityAnn >= 0 by { MulMono(0, 12 * t.prodHrs, t.count); }
    assert r.buildOneTime >= 0 && r.maintMonthly >= 0 && r.enhYearlyTotal >= 0;
    var base := MonthlyBaseCost(r.buildOneTime, r.maintMonthly, r.enhYearlyTotal);
    assert 12.0 * base >= 0.0;
    assert Markup(cmPct, trioPct) >= 0.0;
    assert r.blendedPriceMonth >= 0;
  }

  /** The page's list of agent rows, one per tier in order. */
  function Rows(ins: seq<TierInput>, cmPct: int, trioPct: int): (rows: seq<TierRow>)
    ensures |rows| == |ins|
    ensures forall i :: 0 <= i < |ins| ==> rows[i] == TierRowOf(ins[i], cmPct, trioPct)
  {
    seq(|ins|, i requires 0 <= i < |ins| => TierRowOf(ins[i], cmPct, trioPct))
  }
}
