/** When the independent verifier accepts what the packet builder wrote. */
module FinanceAcceptance {
  import opened Outcomes
  import opened Rounding
  import opened Tiers
  import opened Telemetry
  import opened FinanceEngine
  import opened FinanceScenarios
  import opened FinanceGuardrails
  import opened FinancePacket

  // ----- one tier -----

  ghost predicate AmountsShape(a: Amounts) {
    0.0 <= a.effective <= a.gross && a.llm >= 0.0 && a.infra >= 0.0 && a.support >= 0.0
  }

  lemma DiscountFactorRange(mix: real, factor: real)
    requires 0.0 <= mix <= 1.0 && 0.0 <= factor <= 1.0
    ensures 0.0 <= DiscountFactor(mix, factor) <= 1.0
  {
    var d := 1.0 - factor;
    MulNonNegative(mix, d);
    MulAtMost(mix, d);
    assert DiscountFactor(mix, factor) == 1.0 - mix * d;
  }

  lemma AmountsHaveShape(p: Pricing, s: Subscription, llmCost: real, mix: real, infraPct: real, perSub: real, perDunning: real)
    requires p.monthly >= 0.0 && 0.0 <= p.factor <= 1.0 && s.active >= 0 && s.dunning >= 0 && llmCost >= 0.0
    requires 0.0 <= mix <= 1.0 && infraPct >= 0.0 && perSub >= 0.0 && perDunning >= 0.0
    ensures AmountsShape(AmountsFrom(p, s, llmCost, mix, infraPct, perSub, perDunning))
  {
    hide DiscountFactor;
    var gross, paid := p.monthly * s.active as real, DiscountFactor(mix, p.factor);
    MulNonNegative(p.monthly, s.active as real);
    DiscountFactorRange(mix, p.factor);
    MulNonNegative(gross, paid);
    MulAtMost(paid, gross);
    MulNonNegative(gross * paid, infraPct / 100.0);
    MulNonNegative(s.active as real, perSub);
    MulNonNegative(s.dunning as real, perDunning);
  }

  lemma SafeMarginAtMost100(revenue: real, cogs: real)
    requires cogs >= 0.0
    ensures SafeMargin(revenue, cogs) <= 100.0
  {
    if revenue > 0.0 {
      DivMul(revenue - cogs, revenue);
      FactorBounds((revenue - cogs) / revenue, revenue);
    }
  }

  lemma HundredOnGrid()
    ensures OnGrid(100.0, PLACES2)
  {
    IntegerOnGrid(100, 100);
  }

  lemma RoundedRowShape(a: Amounts)
    requires AmountsShape(a)
    ensures RowShape(Rounded(a)) && Rounded(a).margin <= 100.0
  {
    hide Round, SafeMargin;
    RoundNonNegative(a.effective, PLACES2);
    RoundMonotone(a.effective, a.gross, PLACES2);
    RoundNonNegative(a.llm, PLACES2);
    RoundNonNegative(a.infra, PLACES2);
    RoundNonNegative(a.support, PLACES2);
    SafeMarginAtMost100(a.effective, a.Cogs());
    HundredOnGrid();
    RoundAgainstGridPoint(a.Margin(), 100.0, PLACES2);
  }

  lemma PacketRowShape(t: Snapshot, c: CostModel, i: int)
    requires EconomicsParse(t) && CostsParse(c) && 0 <= i < |TRACKED|
    ensures AmountsShape(AmountsOf(t, c, TRACKED[i]))
    ensures RowShape(Rounded(AmountsOf(t, c, TRACKED[i]))) && Rounded(AmountsOf(t, c, TRACKED[i])).margin <= 100.0
  {
    hide AmountsFrom, Rounded;
    assert TierParses(t, TRACKED[i]) && TierCostsParse(c, TRACKED[i]);
    AmountsHaveShape(t.pricing[TRACKED[i]], SubscriptionOf(t, TRACKED[i]), LlmOf(t, TRACKED[i]).totalCost,
                     c.annualMix[TRACKED[i]], c.infraPct[TRACKED[i]], c.supportPerSub[TRACKED[i]], c.supportPerDunning);
    RoundedRowShape(AmountsOf(t, c, TRACKED[i]));
  }

  // ----- totals and metrics -----

  ghost predicate AllShaped(rows: seq<Row<Economics>>) {
    forall i :: 0 <= i < |rows| ==> RowShape(rows[i].data)
  }

  ghost predicate TotalsShape(t: Totals) {
    0.0 <= t.effective <= t.mrr && t.llm >= 0.0 && t.infra >= 0.0 && t.support >= 0.0
  }

  lemma {:induction false} SumShape(rows: seq<Row<Economics>>)
    requires AllShaped(rows)
    ensures TotalsShape(SumRows(rows))
    ensures (exists i :: 0 <= i < |rows| && rows[i].data.effective > 0.0) ==> SumRows(rows).effective > 0.0
  {
    if rows != [] {
      var n := |rows| - 1;
      var init := rows[..n];
      assert AllShaped(init);
      SumShape(init);
      if i :| 0 <= i < |rows| && rows[i].data.effective > 0.0 {
        assert i < n ==> init[i].data.effective > 0.0;
      }
    }
  }

  /** Costs that grow lower the safe margin. */
  lemma SafeMarginAntitone(revenue: real, cogs: real, more: real)
    requires cogs <= more
    ensures SafeMargin(revenue, more) <= SafeMargin(revenue, cogs)
  {
    if revenue > 0.0 {
      var x, y := (revenue - more) / revenue, (revenue - cogs) / revenue;
      DivMul(revenue - more, revenue);
      DivMul(revenue - cogs, revenue);
      MulCancel(x, y, revenue);
    }
  }

  lemma DiscountImpactRange(t: Totals)
    requires TotalsShape(t)
    ensures 0.0 <= DiscountImpact(t) <= 100.0
  {
    if t.mrr > 0.0 {
      var q := (t.mrr - t.effective) / t.mrr;
      DivMul(t.mrr - t.effective, t.mrr);
      FactorBounds(q, t.mrr);
    }
  }

  lemma StressedCogsGrow(t: Totals, multiplier: real)
    requires t.infra >= 0.0 && multiplier >= 1.0
    ensures t.Cogs() <= t.StressedCogs(multiplier) && (multiplier == 1.0 ==> t.Cogs() == t.StressedCogs(multiplier))
  {
    MulAtLeast(multiplier, t.infra);
  }

  /** Bounds every metric obeys on any telemetry; in particular the stress margin is never above the blended one. */
  lemma MetricBounds(t: Totals, worst: real, conv: Conversion, multiplier: real)
    requires TotalsShape(t) && worst >= 0.0 && multiplier >= 1.0
    ensures var m := MetricsFrom(t, worst, conv, multiplier);
            m.stress <= m.blended <= 100.0 && m.p95Share >= 0.0 && Percentage(m.discount)
    ensures multiplier == 1.0 ==> MetricsFrom(t, worst, conv, multiplier).stress == MetricsFrom(t, worst, conv, multiplier).blended
  {
    hide Round, SafeMargin, DiscountImpact, t.StressedCogs;
    StressedCogsGrow(t, multiplier);
    SafeMarginAntitone(t.effective, t.Cogs(), t.StressedCogs(multiplier));
    RoundMonotone(SafeMargin(t.effective, t.StressedCogs(multiplier)), SafeMargin(t.effective, t.Cogs()), PLACES2);
    SafeMarginAtMost100(t.effective, t.Cogs());
    HundredOnGrid();
    RoundAgainstGridPoint(SafeMargin(t.effective, t.Cogs()), 100.0, PLACES2);
    RoundNonNegative(worst, PLACES2);
    DiscountImpactRange(t);
    RoundNonNegative(DiscountImpact(t), PLACES2);
    RoundAgainstGridPoint(DiscountImpact(t), 100.0, PLACES2);
  }

  /** The verifier's two recomputations from the rows agree with the engine's metrics. */
  lemma TotalsAlwaysMatch(t: Totals, worst: real, conv: Conversion, multiplier: real)
    requires t.effective > 0.0 && t.mrr > 0.0
    ensures TotalsMatch(t, MetricsFrom(t, worst, conv, multiplier))
  {
    hide Round;
    assert SafeMargin(t.effective, t.Cogs()) == CalcMargin(t.effective, t.Cogs());
    RoundIdempotent(CalcMargin(t.effective, t.Cogs()), PLACES2);
    RoundIdempotent(DiscountImpact(t), PLACES2);
  }

  // ----- the verdict on the builder's evidence -----

  /** An amount in whole cents. */
  function Cents(x: real): int {
    Nearest(x * 100.0)
  }

  function CogsCents(a: Amounts): int {
    Cents(a.llm) + Cents(a.infra) + Cents(a.support)
  }

  /**
    The margin that the costs leave of the revenue, in steps of a hundredth of a percent, is
    nearest to k; on a tie k is even.  Stated without dividing by the revenue.
   */
  predicate MarginStep(revenue: real, cogs: real, k: int) {
    var gap := 10000.0 * (revenue - cogs) - k as real * revenue;
    -revenue <= 2.0 * gap <= revenue && ((2.0 * gap == revenue || 2.0 * gap == -revenue) ==> k % 2 == 0)
  }

  /**
    The condition on a tier's exact amounts: its revenue is at least a cent after rounding, and
    the exact amounts and the amounts in whole cents leave the same margin step, not below zero.
   */
  ghost predicate AmountsSurvive(a: Amounts) {
    && Cents(a.effective) > 0
    && exists k: nat :: MarginStep(a.effective, a.Cogs(), k) && MarginStep(Cents(a.effective) as real, CogsCents(a) as real, k)
  }

  lemma StepOfQuotient(revenue: real, cogs: real, q: real, k: int)
    requires revenue > 0.0 && q * revenue == 10000.0 * (revenue - cogs)
    ensures MarginStep(revenue, cogs, k) <==> Nearest(q) == k
  {
    var d := q - k as real;
    assert 10000.0 * (revenue - cogs) - k as real * revenue == d * revenue;
    StepBounds(d, revenue);
    NearestIff(q, k);
  }

  lemma StepBounds(d: real, revenue: real)
    requires revenue > 0.0
    ensures -revenue <= 2.0 * (d * revenue) <==> -0.5 <= d
    ensures 2.0 * (d * revenue) <= revenue <==> d <= 0.5
    ensures 2.0 * (d * revenue) == revenue <==> d == 0.5
    ensures 2.0 * (d * revenue) == -revenue <==> d == -0.5
  {
    var x := 2.0 * d;
    assert 2.0 * (d * revenue) == x * revenue;
    if x <= 1.0 { MulMonotone(x, 1.0, revenue); }
    if x >= 1.0 { MulMonotone(1.0, x, revenue); }
    if x <= -1.0 { MulMonotone(x, -1.0, revenue); }
    if x >= -1.0 { MulMonotone(-1.0, x, revenue); }
  }

  lemma NearestIff(y: real, k: int)
    ensures Nearest(y) == k <==>
      -0.5 <= y - k as real <= 0.5 && ((y - k as real == 0.5 || y - k as real == -0.5) ==> k % 2 == 0)
  {
  }

  /** A margin of positive revenue rounds to the step it is nearest to. */
  lemma MarginRoundsToStep(revenue: real, cogs: real, k: int)
    requires revenue > 0.0
    ensures MarginStep(revenue, cogs, k) <==> Round(CalcMargin(revenue, cogs), PLACES2) == k as real / 100.0
  {
    hide MarginStep, Nearest;
    var q := CalcMargin(revenue, cogs) * 100.0;
    DivMul(revenue - cogs, revenue);
    ScaledQuotient((revenue - cogs) / revenue, revenue, revenue - cogs, q);
    StepOfQuotient(revenue, cogs, q, k);
    assert Round(CalcMargin(revenue, cogs), PLACES2) == Nearest(q) as real / 100.0;
  }

  lemma ScaledQuotient(m: real, revenue: real, left: real, q: real)
    requires m * revenue == left && q == m * 100.0 * 100.0
    ensures q * revenue == 10000.0 * left
  {
  }

  /** The margin does not depend on the unit of account. */
  lemma MarginInCents(revenue: real, cogs: real)
    requires revenue > 0.0
    ensures CalcMargin(revenue / 100.0, cogs / 100.0) == CalcMargin(revenue, cogs)
  {
    var m := (revenue / 100.0 - cogs / 100.0) / (revenue / 100.0);
    DivMul(revenue / 100.0 - cogs / 100.0, revenue / 100.0);
    assert m * revenue == revenue - cogs;
  }

  /** What the row check comes to: it passes exactly when the exact amounts survive rounding to cents. */
  lemma RowCheckExact(a: Amounts)
    requires AmountsShape(a)
    ensures Rounded(a).margin >= 0.0 && RowMarginRecheck(Rounded(a)) <==> AmountsSurvive(a)
  {
    hide Nearest, MarginStep, CalcMargin, SafeMargin;
    var r, e, c := Rounded(a), Cents(a.effective), CogsCents(a);
    assert r.effective == e as real / 100.0 && RowCogs(r) == c as real / 100.0;
    if e > 0 {
      PositiveAmount(a.effective);
      SafeIsCalc(a.effective, a.Cogs());
      MarginInCents(e as real, c as real);
      var k := Nearest(a.Margin() * 100.0);
      assert r.margin == k as real / 100.0;
      RoundIdempotent(a.Margin(), PLACES2);
      MarginRoundsToStep(a.effective, a.Cogs(), k);
      MarginRoundsToStep(e as real, c as real, k);
      if AmountsSurvive(a) {
        var j: nat :| MarginStep(a.effective, a.Cogs(), j) && MarginStep(e as real, c as real, j);
        MarginRoundsToStep(a.effective, a.Cogs(), j);
        assert j == k;
      }
    }
  }

  lemma SafeIsCalc(revenue: real, cogs: real)
    requires revenue > 0.0
    ensures SafeMargin(revenue, cogs) == CalcMargin(revenue, cogs)
  {
  }

  lemma PositiveAmount(x: real)
    requires Cents(x) > 0
    ensures x > 0.0
  {
  }

  ghost predicate RowsSurvive(t: Snapshot, c: CostModel)
    requires EconomicsParse(t) && CostsParse(c)
  {
    forall i :: 0 <= i < |TRACKED| ==> AmountsSurvive(AmountsOf(t, c, TRACKED[i]))
  }

  lemma PacketRows(t: Snapshot, c: CostModel)
    requires EconomicsParse(t) && CostsParse(c)
    ensures var rows := Evidence(UnitRows(t, c));
            && AllShaped(rows) && |rows| == |TRACKED| && TiersPresent(rows)
            && ((forall i :: 0 <= i < |rows| ==> RowAccepted(rows[i])) <==> RowsSurvive(t, c))
  {
    hide Rounded, AmountsOf, RowMarginRecheck, Index, AmountsSurvive;
    var rows := Evidence(UnitRows(t, c));
    forall i | 0 <= i < |TRACKED|
      ensures rows[i].tier == TRACKED[i] && rows[i].data == Rounded(AmountsOf(t, c, TRACKED[i]))
      ensures rows[i].tier != Blank && RowShape(rows[i].data) && rows[i].data.margin <= 100.0
    {
      PacketRowShape(t, c, i);
      assert i == 0 || i == 1 || i == 2 || i == 3;
    }
    forall k | 0 <= k < |TRACKED|
      ensures HasTier(rows, TRACKED[k])
    {
      assert rows[k].tier == TRACKED[k];
    }
    forall i | 0 <= i < |rows|
      ensures RowAccepted(rows[i]) <==> AmountsSurvive(AmountsOf(t, c, TRACKED[i]))
    {
      PacketRowShape(t, c, i);
      RowCheckExact(AmountsOf(t, c, TRACKED[i]));
    }
  }

  lemma ClosesOfPacket(closes: seq<Close>, name: string, margin: real, n: int)
    requires ClosesParse(closes) && 1 <= n <= |closes| + 1
    ensures RecentClosesParse(closes + [Close(name, margin)], n) <==> Percentage(margin)
  {
    var all := closes + [Close(name, margin)];
    assert all[|closes|] == Close(name, margin);
    assert forall i :: 0 <= i < |closes| ==> all[i] == closes[i] && CloseParses(closes[i]);
  }

  /** Integrity of the builder's evidence comes down to the window, the stress margin and the rows. */
  lemma IntegrityOfPacket(t: Snapshot, a: Assumptions, now: int)
    requires OutputsDefined(t, a)
    ensures Integrity(GuardrailsOf(t, a, now)) <==>
            t.window.start <= t.window.end && PacketMetrics(t, a).stress >= 0.0 && RowsSurvive(t, a.costs)
  {
    hide Round, MetricsFrom, WorstShare, UnitRows, SumRows, RowAccepted, RowsSurvive, TotalsMatch, RecentClosesPass,
         TiersPresent, Index;
    var g, m := GuardrailsOf(t, a, now), PacketMetrics(t, a);
    var rows := Evidence(UnitRows(t, a.costs));
    var sum, worst := SumRows(rows), WorstShare(UnitRows(t, a.costs), Index(t.llm));
    PacketRows(t, a.costs);
    SumShape(rows);
    MetricBounds(sum, worst, a.conversion, a.stressMultiplier);
    ClosesOfPacket(a.closes, t.window.name, m.blended, a.thresholds.requiredCloses);
    if RowsSurvive(t, a.costs) {
      assert RowAccepted(rows[0]);
      RowAcceptedIsPositive(rows[0]);
      TotalsAlwaysMatch(sum, worst, a.conversion, a.stressMultiplier);
    }
  }

  lemma RowAcceptedIsPositive(row: Row<Economics>)
    requires RowAccepted(row)
    ensures row.data.effective > 0.0
  {
  }

  /**
    The independent verifier accepts the builder's evidence exactly when it is fresh, its
    window is ordered, the stress margin is not negative, every row survives, and the gates
    pass or failed gates are allowed.  Every other check of the verifier always passes.
   */
  lemma GuardrailAcceptance(t: Snapshot, a: Assumptions, now: int, later: int, maxAge: Option<real>, allowFailedGates: bool)
    requires OutputsDefined(t, a)
    ensures var g := GuardrailsOf(t, a, now);
            EvidenceAccepted(g, later, maxAge, allowFailedGates) <==>
              && FreshEnough(later, now, maxAge)
              && t.window.start <= t.window.end
              && PacketMetrics(t, a).stress >= 0.0
              && RowsSurvive(t, a.costs)
              && (g.gates.All() || allowFailedGates)
  {
    hide PacketMetrics, Integrity, RowsSurvive, RecentClosesPass, FreshEnough, UnitRows;
    var g := GuardrailsOf(t, a, now);
    IntegrityOfPacket(t, a, now);
    assert g.gates == RecomputedGates(g);
  }

  /** A tier without subscriptions earns nothing, so no evidence about it is ever accepted. */
  lemma NoSubscriptionsRejected(t: Snapshot, a: Assumptions, now: int, later: int, maxAge: Option<real>, allowFailedGates: bool, i: nat)
    requires OutputsDefined(t, a) && i < |TRACKED| && SubscriptionOf(t, TRACKED[i]).active == 0
    ensures !EvidenceAccepted(GuardrailsOf(t, a, now), later, maxAge, allowFailedGates)
  {
    hide EvidenceAccepted, GuardrailsOf, PacketMetrics, FreshEnough, MarginStep;
    GuardrailAcceptance(t, a, now, later, maxAge, allowFailedGates);
    var m := AmountsOf(t, a.costs, TRACKED[i]);
    NothingEarned(t.pricing[TRACKED[i]].monthly, DiscountFactor(a.costs.annualMix[TRACKED[i]], t.pricing[TRACKED[i]].factor));
    assert Cents(m.effective) == 0;
    assert !AmountsSurvive(m);
  }

  lemma NothingEarned(monthly: real, paid: real)
    ensures monthly * 0.0 * paid == 0.0 && Cents(0.0) == 0
  {
  }

  // ----- scenarios of the packet -----

  /** What the packet hands to its scenarios has the shape the price-rise theorem needs. */
  lemma BasisForHasShape(t: Snapshot, c: CostModel)
    requires EconomicsParse(t) && CostsParse(c)
    ensures BasisShape(BasisFor(t, c))
  {
    hide Rounded, AmountsOf, Index, DiscountFactor;
    IndexOfUnitRows(t, c);
    forall i | 0 <= i < |TRACKED|
      ensures UnitShape(BasisFor(t, c).units[TRACKED[i]]) && 0.0 <= BasisFor(t, c).paid[TRACKED[i]] <= 1.0
    {
      PacketRowShape(t, c, i);
      assert TierParses(t, TRACKED[i]) && TierCostsParse(c, TRACKED[i]);
      DiscountFactorRange(c.annualMix[TRACKED[i]], t.pricing[TRACKED[i]].factor);
    }
  }

  /** In every packet: scaling all prices of a scenario by the same k >= 1 lowers neither reported number. */
  lemma PacketPriceRise(t: Snapshot, c: CostModel, sc: Scenario, k: real)
    requires EconomicsParse(t) && CostsParse(c) && MultipliersParse(sc) && k >= 1.0
    ensures MultipliersParse(ScalePrices(sc, k))
    ensures ScenarioReport(BasisFor(t, c), sc).effective <= ScenarioReport(BasisFor(t, c), ScalePrices(sc, k)).effective
    ensures ScenarioReport(BasisFor(t, c), sc).margin <= ScenarioReport(BasisFor(t, c), ScalePrices(sc, k)).margin
  {
    hide BasisShape, ScenarioReport, ScalePrices, BasisFor;
    BasisForHasShape(t, c);
    UniformPriceRise(BasisFor(t, c), sc, k);
  }
}
