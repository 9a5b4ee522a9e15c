/** How far rounding to cents separates exact amounts from what is recomputed from rounded rows. */
module FinanceRounding {
  import opened Outcomes
  import opened Rounding
  import opened Tiers
  import opened Telemetry
  import opened FinanceEngine
  import opened FinanceScenarios
  import opened FinanceGuardrails
  import opened FinancePacket
  import opened FinanceAcceptance

  // ----- the per-tier margin recheck -----

  lemma MarginGap(e: real, c: real, e': real, c': real, m: real, m': real)
    requires e > 0.0 && e' > 0.0 && 0.0 <= c <= e
    requires Abs(e' - e) <= 0.005 && Abs(c' - c) <= 0.015
    requires m * e == e - c && m' * e' == e' - c'
    ensures -0.02 <= m' * e' - m * e' <= 0.02
  {
    UnitFactor(m, e, e - c);
    var d, keep := e' - e, 1.0 - m;
    assert m' * e' - m * e' == keep * d - (c' - c);
    ShareOfSmall(d, keep, 0.005);
  }

  lemma CentRounding(x: real)
    ensures Abs(Round(x, PLACES2) - x) <= 0.005
  {
    RoundWithinHalfUnit(x, PLACES2);
  }

  lemma PercentGap(e: real, c: real, e': real, c': real)
    requires e > 0.0 && e' > 0.0 && 0.0 <= c <= e
    requires Abs(e' - e) <= 0.005 && Abs(c' - c) <= 0.015
    ensures Abs(CalcMargin(e', c') - SafeMargin(e, c)) <= 2.0 / e'
  {
    var m, m' := (e - c) / e, (e' - c') / e';
    DivMul(e - c, e);
    DivMul(e' - c', e');
    MarginGap(e, c, e', c', m, m');
    DivMul(2.0, e');
    DistanceCancel(m' * 100.0, m * 100.0, 2.0 / e', e');
  }

  /** The margin recomputed from the rounded row is within 2 / effective of the exact margin. */
  lemma RecomputedMarginBound(a: Amounts)
    requires AmountsShape(a) && a.Cogs() <= a.effective && Rounded(a).effective > 0.0
    ensures var r := Rounded(a); Abs(CalcMargin(r.effective, RowCogs(r)) - a.Margin()) <= 2.0 / r.effective
  {
    hide Round, SafeMargin, CalcMargin;
    CentRounding(a.effective);
    CentRounding(a.llm);
    CentRounding(a.infra);
    CentRounding(a.support);
    PositiveCents(a.effective);
    PercentGap(a.effective, a.Cogs(), Rounded(a).effective, RowCogs(Rounded(a)));
  }

  lemma PositiveCents(x: real)
    requires Round(x, PLACES2) > 0.0
    ensures x > 0.0
  {
    if x <= 0.0 {
      IntegerOnGrid(0, 100);
      RoundAgainstGridPoint(x, 0.0, PLACES2);
    }
  }

  lemma NearestStep(a: real, b: real)
    requires Abs(a - b) <= 0.5
    ensures Abs((Nearest(a) - Nearest(b)) as real) <= 1.0
  {
  }

  lemma RoundStep(x: real, y: real)
    requires Abs(x - y) <= 0.005
    ensures Abs(Round(x, PLACES2) - Round(y, PLACES2)) <= 0.01
  {
    NearestStep(x * 100.0, y * 100.0);
  }

  lemma BoundAt400(e: real)
    requires e >= 400.0
    ensures 2.0 / e <= 0.005
  {
    DivMul(2.0, e);
    var q := 2.0 / e;
    if q > 0.005 {
      MulMonotone(400.0, e, q);
    }
  }

  /** From 400 USD of effective revenue the two rounded margins are at most one cent of a percent apart. */
  lemma RoundedMarginsWithinOneStep(a: Amounts)
    requires AmountsShape(a) && a.Cogs() <= a.effective && Rounded(a).effective >= 400.0
    ensures var r := Rounded(a); Abs(Round(CalcMargin(r.effective, RowCogs(r)), PLACES2) - r.margin) <= 0.01
  {
    hide Round, SafeMargin, CalcMargin;
    var r := Rounded(a);
    RecomputedMarginBound(a);
    BoundAt400(r.effective);
    RoundStep(CalcMargin(r.effective, RowCogs(r)), a.Margin());
  }

  /** The recheck passes when no rounding boundary lies within the bound of the exact margin. */
  lemma RecheckPassesAwayFromBoundary(a: Amounts)
    requires AmountsShape(a) && a.Cogs() <= a.effective && Rounded(a).effective > 0.0
    requires var slack := 2.0 / Rounded(a).effective;
             Round(a.Margin() - slack, PLACES2) == Round(a.Margin() + slack, PLACES2)
    ensures RowMarginRecheck(Rounded(a)) && AmountsSurvive(a)
  {
    hide Round, SafeMargin, CalcMargin;
    var r, m := Rounded(a), a.Margin();
    var slack, m' := 2.0 / r.effective, CalcMargin(r.effective, RowCogs(r));
    RecomputedMarginBound(a);
    RoundMonotone(m - slack, m, PLACES2);
    RoundMonotone(m, m + slack, PLACES2);
    RoundMonotone(m - slack, m', PLACES2);
    RoundMonotone(m', m + slack, PLACES2);
    RoundIdempotent(m, PLACES2);
    SafeMarginNonNegative(a.effective, a.Cogs());
    RoundNonNegative(m, PLACES2);
    hide AmountsSurvive;
    RowCheckExact(a);
  }

  lemma SafeMarginNonNegative(revenue: real, cogs: real)
    requires cogs <= revenue
    ensures SafeMargin(revenue, cogs) >= 0.0
  {
    if revenue > 0.0 {
      DivMul(revenue - cogs, revenue);
      FactorBounds((revenue - cogs) / revenue, revenue);
    }
  }

  /** The recheck passes on amounts that are already whole cents. */
  lemma RecheckPassesOnWholeCents(a: Amounts)
    requires a.effective > 0.0
    requires OnGrid(a.effective, PLACES2) && OnGrid(a.llm, PLACES2) && OnGrid(a.infra, PLACES2) && OnGrid(a.support, PLACES2)
    ensures RowMarginRecheck(Rounded(a))
  {
    hide Round, OnGrid;
    RoundExactOnGrid(a.effective, PLACES2);
    RoundExactOnGrid(a.llm, PLACES2);
    RoundExactOnGrid(a.infra, PLACES2);
    RoundExactOnGrid(a.support, PLACES2);
    RoundIdempotent(a.Margin(), PLACES2);
    assert a.Margin() == CalcMargin(a.effective, a.Cogs());
  }

  lemma RoundedTo(x: real, cents: int)
    requires cents as real - 0.5 < x * 100.0 < cents as real + 0.5
    ensures Round(x, PLACES2) == cents as real / 100.0
  {
    NearestIs(x * 100.0, cents);
    assert x * PLACES2 == x * 100.0;
  }

  lemma NearestIs(y: real, k: int)
    requires k as real - 0.5 < y < k as real + 0.5
    ensures Nearest(y) == k
  {
  }

  // ----- the all-ones scenario -----

  ghost predicate AllOnes(sc: Scenario) {
    forall i :: 0 <= i < |TRACKED| ==>
      TRACKED[i] in sc.subscriptionMult && TRACKED[i] in sc.priceMult &&
      sc.subscriptionMult[TRACKED[i]] == 1.0 && sc.priceMult[TRACKED[i]] == 1.0
  }

  /** Dividing by max(active, 1) and multiplying back loses nothing: without subscriptions there is no revenue. */
  lemma AllOnesProjection(u: Unit, paid: real)
    requires u.active >= 0 && (u.active == 0 ==> u.economics.mrr == 0.0)
    ensures Project(u, paid, 1.0, 1.0).effective == u.economics.mrr * paid
    ensures u.active > 0 ==> Project(u, paid, 1.0, 1.0).llm == u.economics.llm && Project(u, paid, 1.0, 1.0).support == u.economics.support
  {
    if u.active > 0 {
      DivMul(u.economics.mrr, u.active as real);
      DivMul(u.economics.llm, u.active as real);
      DivMul(u.economics.support, u.active as real);
    }
  }

  lemma PaidRoundingGap(gross: real, paid: real, exact: real, mrr: real, effective: real, projected: real)
    requires 0.0 <= paid <= 1.0
    requires exact == gross * paid && projected == mrr * paid
    requires Abs(mrr - gross) <= 0.005 && Abs(effective - exact) <= 0.005
    ensures Abs(projected - effective) <= 0.01
  {
    var d := mrr - gross;
    assert projected - exact == paid * d;
    ShareOfSmall(d, paid, 0.005);
  }

  lemma GrossOfAmounts(p: Pricing, s: Subscription, llmCost: real, mix: real, infraPct: real, perSub: real, perDunning: real)
    ensures var a := AmountsFrom(p, s, llmCost, mix, infraPct, perSub, perDunning);
            a.effective == a.gross * DiscountFactor(mix, p.factor) && (s.active == 0 ==> a.gross == 0.0)
  {
  }

  lemma RoundZero()
    ensures Round(0.0, PLACES2) == 0.0
  {
    RoundedTo(0.0, 0);
  }

  /** For one tier the projection is at most a cent away from the baseline row. */
  lemma AllOnesTier(t: Snapshot, c: CostModel, i: int)
    requires EconomicsParse(t) && CostsParse(c) && 0 <= i < |TRACKED|
    ensures var u, paid := UnitRowFor(t, c, TRACKED[i]).data, DiscountFactor(c.annualMix[TRACKED[i]], t.pricing[TRACKED[i]].factor);
            Abs(Project(u, paid, 1.0, 1.0).effective - u.economics.effective) <= 0.01
  {
    hide Round, DiscountFactor, SafeMargin, Project, AmountsFrom, Index;
    var tier := TRACKED[i];
    assert TierParses(t, tier) && TierCostsParse(c, tier);
    var a, p, s := AmountsOf(t, c, tier), t.pricing[tier], SubscriptionOf(t, tier);
    var u, paid := UnitRowFor(t, c, tier).data, DiscountFactor(c.annualMix[tier], p.factor);
    GrossOfAmounts(p, s, LlmOf(t, tier).totalCost, c.annualMix[tier], c.infraPct[tier], c.supportPerSub[tier], c.supportPerDunning);
    RoundZero();
    AllOnesProjection(u, paid);
    DiscountFactorRange(c.annualMix[tier], p.factor);
    CentRounding(a.gross);
    CentRounding(a.effective);
    PaidRoundingGap(a.gross, paid, a.effective, u.economics.mrr, u.economics.effective, Project(u, paid, 1.0, 1.0).effective);
  }

  lemma AllOnesRow(t: Snapshot, c: CostModel, sc: Scenario, k: nat)
    requires EconomicsParse(t) && CostsParse(c) && AllOnes(sc) && MultipliersParse(sc) && k < |TRACKED|
    ensures var tier, b, e := TRACKED[k], BasisFor(t, c), Evidence(UnitRows(t, c))[k].data.effective;
            && Abs(Project(b.units[tier], b.paid[tier], sc.subscriptionMult[tier], sc.priceMult[tier]).effective - e) <= 0.01
            && OnGrid(e, PLACES2)
  {
    hide Project, Rounded, AmountsOf, DiscountFactor, Index, OnGrid;
    AllOnesTier(t, c, k);
    IndexOfUnitRows(t, c);
    CentGrid(AmountsOf(t, c, TRACKED[k]));
  }

  lemma {:induction false} AllOnesPrefix(t: Snapshot, c: CostModel, sc: Scenario, n: nat)
    requires EconomicsParse(t) && CostsParse(c) && AllOnes(sc) && MultipliersParse(sc) && n <= |TRACKED|
    ensures var rows := Evidence(UnitRows(t, c));
            Abs(Projected(BasisFor(t, c), sc, n).effective - SumRows(rows[..n]).effective) <= 0.01 * n as real
    ensures OnGrid(SumRows(Evidence(UnitRows(t, c))[..n]).effective, PLACES2)
  {
    hide Project, OnGrid, SumRows, BasisFor, UnitRows, Evidence, EconomicsParse, AllOnes, Projected;
    var rows := Evidence(UnitRows(t, c));
    if n == 0 {
      EmptySum(rows);
      ProjectedStart(BasisFor(t, c), sc);
    } else {
      AllOnesPrefix(t, c, sc, n - 1);
      AllOnesRow(t, c, sc, n - 1);
      SumRowsStep(rows, n - 1);
      ProjectedStep(BasisFor(t, c), sc, n);
      GridSum(SumRows(rows[..n - 1]).effective, rows[n - 1].data.effective, PLACES2);
    }
  }

  lemma ProjectedStart(b: Basis, sc: Scenario)
    requires BasisCovers(b) && MultipliersParse(sc)
    ensures Projected(b, sc, 0).effective == 0.0 && Projected(b, sc, 0).Cogs() == 0.0
  {
  }

  lemma ProjectedStep(b: Basis, sc: Scenario, n: nat)
    requires BasisCovers(b) && MultipliersParse(sc) && 0 < n <= |TRACKED|
    ensures var tier := TRACKED[n - 1];
            var p := Project(b.units[tier], b.paid[tier], sc.subscriptionMult[tier], sc.priceMult[tier]);
            && Projected(b, sc, n).effective == Projected(b, sc, n - 1).effective + p.effective
            && Projected(b, sc, n).Cogs() == Projected(b, sc, n - 1).Cogs() + p.Cogs()
  {
    hide Project;
  }

  lemma EmptySum(rows: seq<Row<Economics>>)
    ensures SumRows(rows[..0]).effective == 0.0 && OnGrid(0.0, PLACES2)
  {
    IntegerOnGrid(0, 100);
  }

  lemma CentGrid(a: Amounts)
    ensures OnGrid(Rounded(a).effective, PLACES2)
  {
    RoundIsOnGrid(a.effective, PLACES2);
  }

  lemma FourCentsOnGrid()
    ensures OnGrid(0.04, PLACES2)
  {
    assert 0.04 * PLACES2 == 4.0;
  }

  /** The all-ones scenario reports the baseline revenue up to four cents, whatever the telemetry. */
  lemma AllOnesReproducesBaseline(t: Snapshot, c: CostModel, sc: Scenario)
    requires EconomicsParse(t) && CostsParse(c) && AllOnes(sc) && MultipliersParse(sc)
    ensures Abs(ScenarioReport(BasisFor(t, c), sc).effective - TotalsOf(UnitRows(t, c)).effective) <= 0.04
  {
    hide Round, Projected, SumRows, SafeMargin, OnGrid, BasisFor, UnitRowFor;
    var rows := Evidence(UnitRows(t, c));
    AllOnesPrefix(t, c, sc, |TRACKED|);
    assert rows[..|TRACKED|] == rows;
    var s, x := SumRows(rows).effective, Projected(BasisFor(t, c), sc, |TRACKED|).effective;
    RoundExactOnGrid(s, PLACES2);
    FourCentsOnGrid();
    GridSum(s, 0.04, PLACES2);
    RoundAgainstGridPoint(x, s + 0.04, PLACES2);
    RoundAgainstGridPoint(x, s - 0.04, PLACES2);
  }
}
