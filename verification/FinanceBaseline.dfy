/** The all-ones scenario against the packet's own margin. */
module FinanceBaseline {
  import opened Outcomes
  import opened Rounding
  import opened Tiers
  import opened Telemetry
  import opened FinanceEngine
  import opened FinanceScenarios
  import opened FinanceGuardrails
  import opened FinancePacket
  import opened FinanceAcceptance
  import opened FinanceRounding

  /** A tier either has subscriptions and at least a dollar of revenue, or no subscriptions. */
  ghost predicate Substantial(u: Unit) {
    u.active == 0 || (u.active > 0 && u.economics.effective >= 1.0)
  }

  /** Usage and support of a tier without subscriptions, which a scenario does not carry over. */
  function DroppedOf(u: Unit): real {
    if u.active > 0 then 0.0 else u.economics.llm + u.economics.support
  }

  function Dropped(rows: seq<Row<Unit>>): real {
    if rows == [] then 0.0 else Dropped(rows[..|rows| - 1]) + DroppedOf(rows[|rows| - 1].data)
  }

  // ----- one tier -----

  lemma InfraDrift(infra: real, effective: real, projectedInfra: real, projected: real)
    requires 0.0 <= infra <= effective && effective >= 1.0
    requires projectedInfra * effective == infra * projected && -0.01 <= projected - effective <= 0.01
    ensures -0.01 <= projectedInfra - infra <= 0.01
  {
    var d, q := projected - effective, infra / effective;
    DivMul(infra, effective);
    FactorBounds(q, effective);
    ShareOfSmall(d, q, 0.01);
    SameDrift(projectedInfra, infra, effective, projected, q, d);
  }

  lemma SameDrift(projectedInfra: real, infra: real, effective: real, projected: real, q: real, d: real)
    requires effective > 0.0 && q * effective == infra && d == projected - effective && projectedInfra * effective == infra * projected
    ensures projectedInfra - infra == q * d
  {
    assert (projectedInfra - infra) * effective == infra * d;
    assert (q * d) * effective == infra * d by { assert (q * d) * effective == (q * effective) * d; }
    MulCancel(projectedInfra - infra, q * d, effective);
    MulCancel(q * d, projectedInfra - infra, effective);
  }

  /** The projected costs of one tier are its written costs, less what is dropped, up to a cent. */
  lemma TierCostsDrift(u: Unit, paid: real)
    requires Substantial(u) && 0.0 <= u.economics.infra <= u.economics.effective
    requires u.active == 0 ==> u.economics.mrr == 0.0 && u.economics.effective == 0.0
    requires var p := Project(u, paid, 1.0, 1.0).effective; -0.01 <= p - u.economics.effective <= 0.01
    ensures var drift := Project(u, paid, 1.0, 1.0).Cogs() - (RowCogs(u.economics) - DroppedOf(u)); -0.01 <= drift <= 0.01
  {
    hide Project;
    var e, p := u.economics, Project(u, paid, 1.0, 1.0);
    ProjectionLaw(u, paid, 1.0, 1.0);
    if u.active > 0 {
      AllOnesProjection(u, paid);
      InfraDrift(e.infra, e.effective, p.infra, p.effective);
    } else {
      NothingProjected(u, paid);
    }
  }

  lemma NothingProjected(u: Unit, paid: real)
    requires u.active == 0 && u.economics.infra == 0.0
    ensures Project(u, paid, 1.0, 1.0) == Projection(0.0, 0.0, 0.0, 0.0)
  {
    var zero := u.active as real * 1.0;
    assert zero == 0.0;
    ZeroProducts(u.economics.mrr, u.economics.llm, u.economics.support, paid);
  }

  lemma ZeroProducts(mrr: real, llm: real, support: real, paid: real)
    ensures 0.0 * (mrr / 1.0 * 1.0) * paid == 0.0 && llm / 1.0 * 0.0 == 0.0 && support / 1.0 * 0.0 == 0.0
  {
  }

  lemma ShareAtMost(effective: real, share: real, infra: real)
    requires effective >= 0.0 && 0.0 <= share <= 1.0 && infra == effective * share
    ensures 0.0 <= infra <= effective
  {
    MulAtMost(share, effective);
    MulNonNegative(effective, share);
  }

  lemma AmountsInfra(p: Pricing, s: Subscription, llmCost: real, mix: real, infraPct: real, perSub: real, perDunning: real)
    requires 0.0 <= infraPct <= 100.0 && AmountsShape(AmountsFrom(p, s, llmCost, mix, infraPct, perSub, perDunning))
    ensures var a := AmountsFrom(p, s, llmCost, mix, infraPct, perSub, perDunning);
            a.infra <= a.effective && (s.active == 0 ==> a.gross == 0.0 && a.effective == 0.0)
  {
    var a := AmountsFrom(p, s, llmCost, mix, infraPct, perSub, perDunning);
    var share := infraPct / 100.0;
    assert a.infra == a.effective * share;
    ShareAtMost(a.effective, share, a.infra);
    if s.active == 0 {
      NothingEarned(p.monthly, DiscountFactor(mix, p.factor));
    }
  }

  lemma RowInfra(t: Snapshot, c: CostModel, i: nat)
    requires EconomicsParse(t) && CostsParse(c) && i < |TRACKED| && c.infraPct[TRACKED[i]] <= 100.0
    ensures var u := UnitRowFor(t, c, TRACKED[i]).data;
            && 0.0 <= u.economics.infra <= u.economics.effective
            && (u.active == 0 ==> u.economics.mrr == 0.0 && u.economics.effective == 0.0)
  {
    hide Round, SafeMargin, AmountsFrom;
    var tier := TRACKED[i];
    assert TierParses(t, tier) && TierCostsParse(c, tier);
    PacketRowShape(t, c, i);
    var a := AmountsOf(t, c, tier);
    AmountsInfra(t.pricing[tier], SubscriptionOf(t, tier), LlmOf(t, tier).totalCost,
                 c.annualMix[tier], c.infraPct[tier], c.supportPerSub[tier], c.supportPerDunning);
    RoundMonotone(a.infra, a.effective, PLACES2);
    RoundNonNegative(a.infra, PLACES2);
    RoundZero();
  }

  // ----- all tiers -----

  ghost predicate AllSubstantial(t: Snapshot, c: CostModel)
    requires EconomicsParse(t) && CostsParse(c)
  {
    forall i :: 0 <= i < |TRACKED| ==> c.infraPct[TRACKED[i]] <= 100.0 && Substantial(UnitRows(t, c)[i].data)
  }

  lemma RowDrift(t: Snapshot, c: CostModel, sc: Scenario, k: nat)
    requires EconomicsParse(t) && CostsParse(c) && AllOnes(sc) && MultipliersParse(sc) && k < |TRACKED| && AllSubstantial(t, c)
    ensures var tier, b, u := TRACKED[k], BasisFor(t, c), UnitRows(t, c)[k].data;
            var drift := Project(b.units[tier], b.paid[tier], sc.subscriptionMult[tier], sc.priceMult[tier]).Cogs()
                         - (RowCogs(u.economics) - DroppedOf(u));
            -0.01 <= drift <= 0.01
  {
    hide Project, Rounded, AmountsOf, DiscountFactor, Index, RowCogs, DroppedOf;
    AllOnesTier(t, c, k);
    IndexOfUnitRows(t, c);
    RowInfra(t, c, k);
    var tier, b := TRACKED[k], BasisFor(t, c);
    TierCostsDrift(UnitRowFor(t, c, tier).data, DiscountFactor(c.annualMix[tier], t.pricing[tier].factor));
  }

  lemma {:induction false} CostsDrift(t: Snapshot, c: CostModel, sc: Scenario, n: nat)
    requires EconomicsParse(t) && CostsParse(c) && AllOnes(sc) && MultipliersParse(sc) && n <= |TRACKED| && AllSubstantial(t, c)
    ensures var rows := UnitRows(t, c);
            var drift := Projected(BasisFor(t, c), sc, n).Cogs() - (SumRows(Evidence(rows)[..n]).Cogs() - Dropped(rows[..n]));
            -0.01 * n as real <= drift <= 0.01 * n as real
  {
    hide Project, SumRows, BasisFor, UnitRows, Evidence, EconomicsParse, AllOnes, DroppedOf, AllSubstantial, Projected;
    var rows := UnitRows(t, c);
    if n == 0 {
      EmptyCogs(Evidence(rows));
      ProjectedStart(BasisFor(t, c), sc);
    } else {
      CostsDrift(t, c, sc, n - 1);
      RowDrift(t, c, sc, n - 1);
      ProjectedStep(BasisFor(t, c), sc, n);
      SumRowsStep(Evidence(rows), n - 1);
      EvidenceAt(rows, n - 1);
      assert rows[..n][..n - 1] == rows[..n - 1];
    }
  }

  lemma EmptyCogs(rows: seq<Row<Economics>>)
    ensures SumRows(rows[..0]).Cogs() == 0.0
  {
  }

  lemma EvidenceAt(rows: seq<Row<Unit>>, i: nat)
    requires i < |rows|
    ensures Evidence(rows)[i].data == rows[i].data.economics
  {
  }

  // ----- margins -----

  /** Two margins whose revenues and costs differ by at most d each, without dividing. */
  lemma MarginDrift(revenue: real, cogs: real, revenue': real, cogs': real, m: real, m': real, d: real)
    requires revenue > 0.0 && revenue' > 0.0 && 0.0 <= cogs
    requires -d <= revenue' - revenue <= d && -d <= cogs' - cogs <= d
    requires m * revenue == 100.0 * (revenue - cogs) && m' * revenue' == 100.0 * (revenue' - cogs')
    ensures -(100.0 * d * (revenue + cogs)) <= (m' - m) * (revenue * revenue') <= 100.0 * d * (revenue + cogs)
  {
    var x, y := revenue' - revenue, cogs' - cogs;
    CrossMargins(revenue, cogs, revenue', cogs', m, m');
    MulMonotone(-d, x, cogs);
    MulMonotone(x, d, cogs);
    MulMonotone(-d, y, revenue);
    MulMonotone(y, d, revenue);
    assert cogs * revenue' - cogs' * revenue == x * cogs - y * revenue;
  }

  lemma CrossMargins(revenue: real, cogs: real, revenue': real, cogs': real, m: real, m': real)
    requires m * revenue == 100.0 * (revenue - cogs) && m' * revenue' == 100.0 * (revenue' - cogs')
    ensures (m' - m) * (revenue * revenue') == 100.0 * (cogs * revenue' - cogs' * revenue)
  {
    assert (m' - m) * (revenue * revenue') == (m' * revenue') * revenue - (m * revenue) * revenue';
  }

  /** With costs not above revenue, the drift is at most 200 d over the new revenue. */
  lemma MarginDriftBound(revenue: real, cogs: real, revenue': real, gap: real, d: real)
    requires revenue > 0.0 && revenue' > 0.0 && d >= 0.0 && 0.0 <= cogs <= revenue
    requires gap * (revenue * revenue') <= 100.0 * d * (revenue + cogs)
    ensures gap * revenue' <= 200.0 * d
  {
    var g := gap * revenue';
    assert gap * (revenue * revenue') == g * revenue;
    MulMonotone(revenue + cogs, 2.0 * revenue, 100.0 * d);
    assert (revenue + cogs) * (100.0 * d) == 100.0 * d * (revenue + cogs);
    assert 2.0 * revenue * (100.0 * d) == 200.0 * d * revenue;
    MulCancel(g, 200.0 * d, revenue);
  }

  lemma SafeMarginTimes(revenue: real, cogs: real)
    requires revenue > 0.0
    ensures SafeMargin(revenue, cogs) * revenue == 100.0 * (revenue - cogs)
  {
    DivMul(revenue - cogs, revenue);
    var q := (revenue - cogs) / revenue;
    assert q * 100.0 * revenue == 100.0 * (q * revenue);
  }

  lemma RoundedGap(x: real, y: real, bound: real, scale: real)
    requires scale > 0.0 && -bound <= (x - y) * scale <= bound
    ensures Abs(Round(x, PLACES2) - Round(y, PLACES2)) <= bound / scale + 0.01
  {
    hide Round;
    CentRounding(x);
    CentRounding(y);
    DivMul(bound, scale);
    MulCancel(x - y, bound / scale, scale);
    MulCancel(-(bound / scale), x - y, scale);
  }

  lemma MarginsClose(revenue: real, cogs: real, revenue': real, cogs': real)
    requires revenue >= 1.0 && 0.0 <= cogs <= revenue
    requires -0.04 <= revenue' - revenue <= 0.04 && -0.04 <= cogs' - cogs <= 0.04
    ensures Abs(Round(SafeMargin(revenue', cogs'), PLACES2) - Round(SafeMargin(revenue, cogs), PLACES2)) <= 8.0 / revenue' + 0.01
  {
    hide Round, SafeMargin;
    var m, m' := SafeMargin(revenue, cogs), SafeMargin(revenue', cogs');
    SafeMarginTimes(revenue, cogs);
    SafeMarginTimes(revenue', cogs');
    MarginDrift(revenue, cogs, revenue', cogs', m, m', 0.04);
    var product := revenue * revenue';
    assert (m - m') * product == -((m' - m) * product);
    MarginDriftBound(revenue, cogs, revenue', m' - m, 0.04);
    MarginDriftBound(revenue, cogs, revenue', m - m', 0.04);
    RoundedGap(m', m, 8.0, revenue');
  }

  /**
    The all-ones scenario reports the margin of the packet without the costs of idle tiers, up
    to a hundredth of a percent and eight percent over the projected revenue.  If idle tiers
    cost nothing, that margin is the packet's blended margin.
   */
  lemma AllOnesMargin(t: Snapshot, a: Assumptions, sc: Scenario)
    requires EconomicsParse(t) && CostsParse(a.costs) && AllOnes(sc) && MultipliersParse(sc) && AllSubstantial(t, a.costs)
    requires var sum, dropped := SumRows(Evidence(UnitRows(t, a.costs))), Dropped(UnitRows(t, a.costs));
             sum.effective >= 1.0 && 0.0 <= sum.Cogs() - dropped <= sum.effective
    ensures var rows, b := UnitRows(t, a.costs), BasisFor(t, a.costs);
            var sum, projected := SumRows(Evidence(rows)), Projected(b, sc, |TRACKED|).effective;
            && projected >= sum.effective - 0.04
            && Abs(ScenarioReport(b, sc).margin - Round(SafeMargin(sum.effective, sum.Cogs() - Dropped(rows)), PLACES2))
               <= 8.0 / projected + 0.01
            && (Dropped(rows) == 0.0 ==> Abs(ScenarioReport(b, sc).margin - PacketMetrics(t, a).blended) <= 8.0 / projected + 0.01)
  {
    hide Round, Projected, SumRows, SafeMargin, BasisFor, UnitRowFor, Dropped, AllSubstantial, AllOnes, EconomicsParse, WorstShare, Index;
    var rows, b := UnitRows(t, a.costs), BasisFor(t, a.costs);
    var p, sum := Projected(b, sc, |TRACKED|), SumRows(Evidence(rows));
    AllOnesPrefix(t, a.costs, sc, |TRACKED|);
    CostsDrift(t, a.costs, sc, |TRACKED|);
    assert rows[..|TRACKED|] == rows && Evidence(rows)[..|TRACKED|] == Evidence(rows);
    MarginsClose(sum.effective, sum.Cogs() - Dropped(rows), p.effective, p.Cogs());
  }
}
