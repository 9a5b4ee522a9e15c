/** The packet in terms of what it was built from: rows, totals, metrics and gates, stated without division. */
module FinanceLaws {
  import opened Outcomes
  import opened Rounding
  import opened Tiers
  import opened Telemetry
  import opened SnapshotVerifier
  import opened FinanceEngine
  import opened FinanceScenarios
  import opened FinanceGuardrails
  import opened FinancePacket
  import opened FinanceAcceptance
  import opened FinanceRounding
  import opened FinanceAssumptions
  import opened FinanceEndToEnd

  // ----- rows -----

  /** One subscription's revenue: the annual payers pay the factor, the others the list price. */
  function PaidPerSubscription(p: Pricing, mix: real): real {
    (1.0 - mix) * p.monthly + mix * (p.factor * p.monthly)
  }

  function PaidRevenue(p: Pricing, s: Subscription, mix: real): real {
    PaidPerSubscription(p, mix) * s.active as real
  }

  function ListRevenue(p: Pricing, s: Subscription): real {
    p.monthly * s.active as real
  }

  function SupportDue(s: Subscription, perSub: real, perDunning: real): real {
    s.active as real * perSub + s.dunning as real * perDunning
  }

  function Share(amount: real, percent: real): real {
    percent * amount / 100.0
  }

  ghost predicate WithinHalfCent(written: real, exact: real) {
    -0.005 <= written - exact <= 0.005
  }

  /** The written row is within half a cent of what the subscriptions, the usage and the cost assumptions come to. */
  ghost predicate RowFollows(e: Economics, p: Pricing, s: Subscription, llmCost: real,
                             mix: real, infraPct: real, perSub: real, perDunning: real) {
    && WithinHalfCent(e.mrr, ListRevenue(p, s))
    && WithinHalfCent(e.effective, PaidRevenue(p, s, mix))
    && WithinHalfCent(e.llm, llmCost)
    && WithinHalfCent(e.infra, Share(PaidRevenue(p, s, mix), infraPct))
    && WithinHalfCent(e.support, SupportDue(s, perSub, perDunning))
  }

  lemma AmountsAre(p: Pricing, s: Subscription, llmCost: real, mix: real, infraPct: real, perSub: real, perDunning: real)
    ensures AmountsFrom(p, s, llmCost, mix, infraPct, perSub, perDunning)
            == Amounts(ListRevenue(p, s), PaidRevenue(p, s, mix), llmCost, Share(PaidRevenue(p, s, mix), infraPct), SupportDue(s, perSub, perDunning))
  {
    var n, d := s.active as real, DiscountFactor(mix, p.factor);
    var effective := p.monthly * n * d;
    assert p.monthly * d == PaidPerSubscription(p, mix);
    assert effective == p.monthly * d * n;
    assert effective * (infraPct / 100.0) == Share(effective, infraPct);
  }

  lemma HalfCent(x: real)
    ensures WithinHalfCent(Round(x, PLACES2), x)
  {
    CentRounding(x);
  }

  lemma AmountsFollow(p: Pricing, s: Subscription, llmCost: real, mix: real, infraPct: real, perSub: real, perDunning: real)
    ensures RowFollows(Rounded(AmountsFrom(p, s, llmCost, mix, infraPct, perSub, perDunning)), p, s, llmCost, mix, infraPct, perSub, perDunning)
  {
    hide Round, SafeMargin, AmountsFrom, ListRevenue, PaidRevenue, Share, SupportDue, WithinHalfCent;
    var a := AmountsFrom(p, s, llmCost, mix, infraPct, perSub, perDunning);
    AmountsAre(p, s, llmCost, mix, infraPct, perSub, perDunning);
    HalfCent(a.gross);
    HalfCent(a.effective);
    HalfCent(a.llm);
    HalfCent(a.infra);
    HalfCent(a.support);
  }

  /** Every row of every packet, in the order of the tracked tiers. */
  lemma PacketRowsFollow(t: Snapshot, c: CostModel, i: nat)
    requires EconomicsParse(t) && CostsParse(c) && i < |TRACKED|
    ensures var row, tier, s := UnitRows(t, c)[i], TRACKED[i], SubscriptionOf(t, TRACKED[i]);
            && row.tier == tier && row.data.active == s.active && row.data.dunning == s.dunning
            && RowFollows(row.data.economics, t.pricing[tier], s, LlmOf(t, tier).totalCost,
                          c.annualMix[tier], c.infraPct[tier], c.supportPerSub[tier], c.supportPerDunning)
  {
    hide RowFollows, Rounded, AmountsFrom;
    var tier := TRACKED[i];
    assert TierParses(t, tier) && TierCostsParse(c, tier);
    AmountsFollow(t.pricing[tier], SubscriptionOf(t, tier), LlmOf(t, tier).totalCost,
                  c.annualMix[tier], c.infraPct[tier], c.supportPerSub[tier], c.supportPerDunning);
  }

  // ----- totals -----

  /** The totals are the plain sums of the four rows. */
  lemma FourRowSums(rows: seq<Row<Economics>>)
    requires |rows| == 4
    ensures var a, b, c, d := rows[0].data, rows[1].data, rows[2].data, rows[3].data;
            SumRows(rows) == Totals(a.mrr + b.mrr + c.mrr + d.mrr, a.effective + b.effective + c.effective + d.effective,
                                    a.llm + b.llm + c.llm + d.llm, a.infra + b.infra + c.infra + d.infra,
                                    a.support + b.support + c.support + d.support)
  {
    SumRowsStep(rows, 0);
    SumRowsStep(rows, 1);
    SumRowsStep(rows, 2);
    SumRowsStep(rows, 3);
    assert rows[..4] == rows;
  }

  ghost predicate RowOnGrid(e: Economics) {
    OnGrid(e.mrr, PLACES2) && OnGrid(e.effective, PLACES2) && OnGrid(e.llm, PLACES2) && OnGrid(e.infra, PLACES2) && OnGrid(e.support, PLACES2)
  }

  ghost predicate TotalsOnGrid(t: Totals) {
    OnGrid(t.mrr, PLACES2) && OnGrid(t.effective, PLACES2) && OnGrid(t.llm, PLACES2) && OnGrid(t.infra, PLACES2) && OnGrid(t.support, PLACES2)
  }

  lemma RoundedOnGrid(a: Amounts)
    ensures RowOnGrid(Rounded(a))
  {
    hide Round, OnGrid;
    RoundIsOnGrid(a.gross, PLACES2);
    RoundIsOnGrid(a.effective, PLACES2);
    RoundIsOnGrid(a.llm, PLACES2);
    RoundIsOnGrid(a.infra, PLACES2);
    RoundIsOnGrid(a.support, PLACES2);
  }

  lemma {:induction false} SumOnGrid(rows: seq<Row<Economics>>)
    requires forall i :: 0 <= i < |rows| ==> RowOnGrid(rows[i].data)
    ensures TotalsOnGrid(SumRows(rows))
  {
    hide OnGrid;
    if rows == [] {
      IntegerOnGrid(0, 100);
    } else {
      var init, e := rows[..|rows| - 1], rows[|rows| - 1].data;
      SumOnGrid(init);
      var t := SumRows(init);
      GridSum(t.mrr, e.mrr, PLACES2);
      GridSum(t.effective, e.effective, PLACES2);
      GridSum(t.llm, e.llm, PLACES2);
      GridSum(t.infra, e.infra, PLACES2);
      GridSum(t.support, e.support, PLACES2);
    }
  }

  /** Rounding the totals of a packet changes nothing: they are sums of cents. */
  lemma PacketTotalsExact(t: Snapshot, c: CostModel)
    requires EconomicsParse(t) && CostsParse(c)
    ensures TotalsOf(UnitRows(t, c)) == SumRows(Evidence(UnitRows(t, c)))
  {
    hide Round, OnGrid, Rounded, AmountsOf, SumRows, Index;
    var rows := Evidence(UnitRows(t, c));
    forall i | 0 <= i < |rows|
      ensures RowOnGrid(rows[i].data)
    {
      RoundedOnGrid(AmountsOf(t, c, TRACKED[i]));
    }
    SumOnGrid(rows);
    var sum := SumRows(rows);
    RoundExactOnGrid(sum.mrr, PLACES2);
    RoundExactOnGrid(sum.effective, PLACES2);
    RoundExactOnGrid(sum.llm, PLACES2);
    RoundExactOnGrid(sum.infra, PLACES2);
    RoundExactOnGrid(sum.support, PLACES2);
  }

  // ----- gates -----

  /** The close the packet appends counts first, then as many earlier ones as are still required. */
  lemma RecentClosesLaw(closes: seq<Close>, last: Close, n: int, floor: real)
    requires 1 <= n <= |closes| + 1
    ensures RecentClosesPass(closes + [last], n, floor) <==>
            last.margin >= floor && (n > 1 ==> RecentClosesPass(closes, n - 1, floor))
  {
    var all := closes + [last];
    assert all[|closes|] == last;
    assert forall i :: 0 <= i < |closes| ==> all[i] == closes[i];
  }

  /** The costs leave at least that percentage of the revenue; without revenue there must be no costs. */
  predicate KeepsMargin(revenue: real, cogs: real, percent: real) {
    if revenue > 0.0 then 100.0 * (revenue - cogs) >= percent * revenue else cogs <= 0.0
  }

  /** The discount takes at most that percentage of the gross revenue. */
  predicate DiscountWithin(mrr: real, effective: real, percent: real) {
    mrr > 0.0 ==> 100.0 * (mrr - effective) <= percent * mrr
  }

  lemma RoundedAgainstEvenCents(x: real, k: int)
    requires k % 2 == 0
    ensures Round(x, PLACES2) >= k as real / 100.0 <==> 100.0 * x >= k as real - 0.5
    ensures Round(x, PLACES2) <= k as real / 100.0 <==> 100.0 * x <= k as real + 0.5
  {
    var n := Nearest(x * 100.0);
    assert Round(x, PLACES2) == n as real / 100.0;
    assert n >= k <==> 100.0 * x >= k as real - 0.5;
    assert n <= k <==> 100.0 * x <= k as real + 0.5;
  }

  lemma QuotientAgainst(part: real, whole: real, percent: real)
    requires whole > 0.0
    ensures part / whole * 100.0 >= percent <==> 100.0 * part >= percent * whole
    ensures part / whole * 100.0 <= percent <==> 100.0 * part <= percent * whole
  {
    var q := part / whole;
    DivMul(part, whole);
    assert 100.0 * part == (q * 100.0) * whole;
    if q * 100.0 >= percent { MulMonotone(percent, q * 100.0, whole); } else { StrictProduct(q * 100.0, percent, whole); }
    if q * 100.0 <= percent { MulMonotone(q * 100.0, percent, whole); } else { StrictProduct(percent, q * 100.0, whole); }
  }

  lemma MarginAgainst(revenue: real, cogs: real, k: int)
    requires k % 2 == 0 && 0 < k < 10000
    ensures Round(SafeMargin(revenue, cogs), PLACES2) >= k as real / 100.0 <==>
            KeepsMargin(revenue, cogs, (k as real - 0.5) / 100.0)
  {
    hide Round;
    RoundedAgainstEvenCents(SafeMargin(revenue, cogs), k);
    var percent := (k as real - 0.5) / 100.0;
    if revenue > 0.0 {
      QuotientAgainst(revenue - cogs, revenue, percent);
    }
  }

  lemma DiscountAgainst(t: Totals, k: int)
    requires k % 2 == 0 && k > 0
    ensures Round(DiscountImpact(t), PLACES2) <= k as real / 100.0 <==> DiscountWithin(t.mrr, t.effective, (k as real + 0.5) / 100.0)
  {
    hide Round;
    RoundedAgainstEvenCents(DiscountImpact(t), k);
    if t.mrr > 0.0 {
      QuotientAgainst(t.mrr - t.effective, t.mrr, (k as real + 0.5) / 100.0);
    }
  }

  /** The costs with infrastructure grown by the stress multiplier. */
  function StressedCosts(t: Totals, multiplier: real): real {
    t.llm + t.infra * multiplier + t.support
  }

  /** The five gates decided on written rows: no metric, threshold or rounding is left in the conditions. */
  ghost predicate GatesOnRows(g: Gates, rows: seq<Row<Unit>>, llm: map<TierKey, LlmUsage>, multiplier: real) {
    var sum := SumRows(Evidence(rows));
    && (g.marginFloor <==> KeepsMargin(sum.effective, sum.llm + sum.infra + sum.support, 59.995))
    && (g.llmContainment <==> forall i :: 0 <= i < |rows| ==> ShareWithin(rows[i], llm, 35.005))
    && (g.discountImpact <==> DiscountWithin(sum.mrr, sum.effective, 35.005))
    && g.expansion
    && (g.stress <==> KeepsMargin(sum.effective, StressedCosts(sum, multiplier), 44.995))
  }

  lemma ExpectedGatesOnRows(rows: seq<Row<Unit>>, llm: map<TierKey, LlmUsage>, conv: Conversion, multiplier: real)
    ensures GatesOnRows(ExpectedGates(MetricsOf(rows, llm, conv, multiplier)), rows, llm, multiplier)
  {
    hide Round, SafeMargin, DiscountImpact, KeepsMargin, DiscountWithin, WorstShare, SumRows, ShareWithin;
    var sum := SumRows(Evidence(rows));
    MarginAgainst(sum.effective, sum.Cogs(), 6000);
    RoundedAgainstEvenCents(WorstShare(rows, llm), 3500);
    WorstShareAtMost(rows, llm, 35.005);
    DiscountAgainst(sum, 3500);
    assert sum.StressedCogs(multiplier) == StressedCosts(sum, multiplier);
    hide StressedCosts, sum.StressedCogs;
    MarginAgainst(sum.effective, StressedCosts(sum, multiplier), 4500);
  }

  lemma DerivedGatesOnRows(t: Snapshot, now: int, maxAge: Option<real>, clock: Clock, built: int)
    requires SnapshotAccepted(t, now, maxAge) && clock.previousMonth != ""
    ensures DerivationDefined(t) && OutputsDefined(t, Derived(t, clock))
    ensures GatesOnRows(GuardrailsOf(t, Derived(t, clock), built).gates, UnitRows(t, Derived(t, clock).costs), Index(t.llm),
                        Derived(t, clock).stressMultiplier)
  {
    hide PacketMetrics, UnitRows, MetricsOf, TotalsOf, GuardrailsOf, SnapshotAccepted, OutputsDefined, CostsFrom, ProgressTo,
         Index, StressMultiplierFrom, ConversionFrom, ThresholdsFrom, GatesOnRows, ExpectedGates;
    DerivedPacketGates(t, now, maxAge, clock, built);
    ExpectedGatesOnRows(UnitRows(t, DerivedCosts(t)), Index(t.llm), ConversionFrom(t), StressMultiplierFrom(ProgressTo(t, |TRACKED|)));
  }
}
