/** Unit economics, metrics and gates of the finance committee packet. */
module FinanceEngine {
  import opened Outcomes
  import opened Rounding
  import opened Tiers
  import opened Telemetry

  /** The cost assumptions, per tier where the scripts keep a dictionary. */
  datatype CostModel = CostModel(
    annualMix: map<TierKey, real>,
    infraPct: map<TierKey, real>,
    supportPerSub: map<TierKey, real>,
    supportPerDunning: real)

  datatype Economics = Economics(mrr: real, effective: real, llm: real, infra: real, support: real, margin: real)
  datatype Unit = Unit(economics: Economics, active: int, dunning: int)
  datatype Conversion = Conversion(growthToPro: real, proToEnterprise: real)
  datatype Metrics = Metrics(
    blended: real, p95Share: real, discount: real,
    growthToPro: real, proToEnterprise: real, stress: real)
  datatype Totals = Totals(mrr: real, effective: real, llm: real, infra: real, support: real) {
    function Cogs(): real { llm + infra + support }
    function StressedCogs(infraMultiplier: real): real { llm + infra * infraMultiplier + support }
  }

  ghost predicate Covers<T>(m: map<TierKey, T>) {
    forall i :: 0 <= i < |TRACKED| ==> TRACKED[i] in m
  }

  ghost predicate CostsCover(c: CostModel) {
    Covers(c.annualMix) && Covers(c.infraPct) && Covers(c.supportPerSub)
  }

  // ----- one tier -----

  function SubscriptionOf(t: Snapshot, tier: TierKey): Subscription {
    var m := Index(t.subscriptions);
    if tier in m then m[tier] else Subscription(0, 0, 0)
  }

  function LlmOf(t: Snapshot, tier: TierKey): LlmUsage {
    var m := Index(t.llm);
    if tier in m then m[tier] else LlmUsage(0.0, 0.0, 0.0, 0.0)
  }

  predicate TierParses(t: Snapshot, tier: TierKey) {
    && tier in t.pricing
    && t.pricing[tier].monthly >= 0.0
    && 0.0 <= t.pricing[tier].factor <= 1.0
    && SubscriptionOf(t, tier).active >= 0
    && SubscriptionOf(t, tier).dunning >= 0
    && LlmOf(t, tier).totalCost >= 0.0
  }

  ghost predicate EconomicsParse(t: Snapshot) {
    && !HasBlank(t.subscriptions)
    && !HasBlank(t.llm)
    && forall i :: 0 <= i < |TRACKED| ==> TierParses(t, TRACKED[i])
  }

  function SafeMargin(revenue: real, cogs: real): real {
    if revenue <= 0.0 then (if cogs <= 0.0 then 100.0 else 0.0)
    else (revenue - cogs) / revenue * 100.0
  }

  /** What is left of a price when `mix` of the subscribers pay the annual factor. */
  function DiscountFactor(mix: real, factor: real): real {
    1.0 - mix * (1.0 - factor)
  }

  /** The exact, unrounded amounts of one tier. */
  datatype Amounts = Amounts(gross: real, effective: real, llm: real, infra: real, support: real) {
    function Cogs(): real { llm + infra + support }
    function Margin(): real { SafeMargin(effective, Cogs()) }
  }

  function AmountsFrom(p: Pricing, s: Subscription, llmCost: real,
                       mix: real, infraPct: real, supportPerSub: real, supportPerDunning: real): Amounts {
    var gross := p.monthly * s.active as real;
    var effective := gross * DiscountFactor(mix, p.factor);
    Amounts(gross, effective, llmCost, effective * (infraPct / 100.0),
            s.active as real * supportPerSub + s.dunning as real * supportPerDunning)
  }

  function AmountsOf(t: Snapshot, c: CostModel, tier: TierKey): Amounts
    requires tier in t.pricing && tier in c.annualMix && tier in c.infraPct && tier in c.supportPerSub
  {
    AmountsFrom(t.pricing[tier], SubscriptionOf(t, tier), LlmOf(t, tier).totalCost,
                c.annualMix[tier], c.infraPct[tier], c.supportPerSub[tier], c.supportPerDunning)
  }

  function Rounded(a: Amounts): Economics {
    Economics(
      Round(a.gross, PLACES2), Round(a.effective, PLACES2), Round(a.llm, PLACES2),
      Round(a.infra, PLACES2), Round(a.support, PLACES2), Round(a.Margin(), PLACES2))
  }

  function UnitRowFor(t: Snapshot, c: CostModel, tier: TierKey): Row<Unit>
    requires tier in t.pricing && tier in c.annualMix && tier in c.infraPct && tier in c.supportPerSub
  {
    var s := SubscriptionOf(t, tier);
    Row(tier, Unit(Rounded(AmountsOf(t, c, tier)), s.active, s.dunning))
  }

  function UnitRows(t: Snapshot, c: CostModel): (rows: seq<Row<Unit>>)
    requires EconomicsParse(t) && CostsCover(c)
    ensures |rows| == |TRACKED|
    ensures forall i :: 0 <= i < |TRACKED| ==> rows[i] == UnitRowFor(t, c, TRACKED[i])
  {
    seq(|TRACKED|, i requires 0 <= i < |TRACKED| => UnitRowFor(t, c, TRACKED[i]))
  }

  method UnitEconomics(p: Pricing, s: Subscription, llmCost: real,
                       mix: real, infraPct: real, supportPerSub: real, supportPerDunning: real) returns (e: Economics)
    ensures e == Rounded(AmountsFrom(p, s, llmCost, mix, infraPct, supportPerSub, supportPerDunning))
  {
    hide Nearest, SafeMargin;
    var gross := p.monthly * s.active as real;
    var effective := gross * (1.0 - mix * (1.0 - p.factor));
    var infra := effective * (infraPct / 100.0);
    var support := s.active as real * supportPerSub + s.dunning as real * supportPerDunning;
    var margin := SafeMargin(effective, llmCost + infra + support);
    e := Economics(Round(gross, PLACES2), Round(effective, PLACES2), Round(llmCost, PLACES2),
                   Round(infra, PLACES2), Round(support, PLACES2), Round(margin, PLACES2));
    ghost var a := AmountsFrom(p, s, llmCost, mix, infraPct, supportPerSub, supportPerDunning);
    assert a == Amounts(gross, effective, llmCost, infra, support);
  }

  method BuildUnitRow(t: Snapshot, c: CostModel, tier: TierKey,
                      subscriptions: map<TierKey, Subscription>, llmUsage: map<TierKey, LlmUsage>)
    returns (r: Result<Row<Unit>>)
    requires tier in c.annualMix && tier in c.infraPct && tier in c.supportPerSub
    requires subscriptions == Index(t.subscriptions) && llmUsage == Index(t.llm)
    ensures r.Ok? <==> TierParses(t, tier)
    ensures r.Ok? ==> r.value == UnitRowFor(t, c, tier)
  {
    hide Rounded, AmountsFrom;
    if tier !in t.pricing { return Error("pricing_reference tier must be an object"); }
    var pricing := t.pricing[tier];
    var subscription := if tier in subscriptions then subscriptions[tier] else Subscription(0, 0, 0);
    var usage := if tier in llmUsage then llmUsage[tier] else LlmUsage(0.0, 0.0, 0.0, 0.0);
    if pricing.monthly < 0.0 { return Error("monthly_price_usd must be >= 0"); }
    if pricing.factor < 0.0 || pricing.factor > 1.0 { return Error("annual_monthly_factor must be in 0..1"); }
    if subscription.active < 0 { return Error("active_subscriptions must be >= 0"); }
    if subscription.dunning < 0 { return Error("dunning_events must be >= 0"); }
    if usage.totalCost < 0.0 { return Error("total_cost_usd must be >= 0"); }
    var economics := UnitEconomics(pricing, subscription, usage.totalCost, c.annualMix[tier], c.infraPct[tier],
                                   c.supportPerSub[tier], c.supportPerDunning);
    return Ok(Row(tier, Unit(economics, subscription.active, subscription.dunning)));
  }

  method BuildTierUnitEconomics(t: Snapshot, c: CostModel) returns (r: Result<seq<Row<Unit>>>)
    requires CostsCover(c)
    ensures r.Ok? <==> EconomicsParse(t)
    ensures r.Ok? ==> r.value == UnitRows(t, c)
  {
    var subscriptions := IndexByTier(t.subscriptions);
    if subscriptions.Error? { return Error(subscriptions.message); }
    var llmUsage := IndexByTier(t.llm);
    if llmUsage.Error? { return Error(llmUsage.message); }
    var rows: seq<Row<Unit>> := [];
    for i := 0 to |TRACKED|
      invariant |rows| == i
      invariant forall k :: 0 <= k < i ==> TierParses(t, TRACKED[k])
      invariant forall k :: 0 <= k < i ==> rows[k] == UnitRowFor(t, c, TRACKED[k])
    {
      var row := BuildUnitRow(t, c, TRACKED[i], subscriptions.value, llmUsage.value);
      if row.Error? { return Error(row.message); }
      rows := rows + [row.value];
    }
    return Ok(rows);
  }

  // ----- totals and metrics -----

  function Evidence(rows: seq<Row<Unit>>): (e: seq<Row<Economics>>)
    ensures |e| == |rows|
    ensures forall i :: 0 <= i < |rows| ==> e[i] == Row(rows[i].tier, rows[i].data.economics)
  {
    seq(|rows|, i requires 0 <= i < |rows| => Row(rows[i].tier, rows[i].data.economics))
  }

  function AddRow(t: Totals, e: Economics): Totals {
    Totals(t.mrr + e.mrr, t.effective + e.effective, t.llm + e.llm, t.infra + e.infra, t.support + e.support)
  }

  function SumRows(rows: seq<Row<Economics>>): Totals {
    if rows == [] then Totals(0.0, 0.0, 0.0, 0.0, 0.0)
    else AddRow(SumRows(rows[..|rows| - 1]), rows[|rows| - 1].data)
  }

  lemma SumRowsStep(rows: seq<Row<Economics>>, i: nat)
    requires i < |rows|
    ensures SumRows(rows[..0]) == Totals(0.0, 0.0, 0.0, 0.0, 0.0)
    ensures SumRows(rows[..i + 1]) == AddRow(SumRows(rows[..i]), rows[i].data)
  {
    hide AddRow;
    assert rows[..i + 1][..i] == rows[..i];
  }

  /** The p95 tenant cost of a row's tier as a share of the revenue per subscription. */
  function TenantShare(row: Row<Unit>, llm: map<TierKey, LlmUsage>): real {
    var p95 := if row.tier in llm then llm[row.tier].p95 else 0.0;
    var perTenant :=
      if row.data.active > 0 then row.data.economics.effective / row.data.active as real else 0.0;
    if perTenant > 0.0 then p95 / perTenant * 100.0 else 0.0
  }

  function WorstShare(rows: seq<Row<Unit>>, llm: map<TierKey, LlmUsage>): (w: real)
    ensures w >= 0.0
  {
    if rows == [] then 0.0
    else Max(WorstShare(rows[..|rows| - 1], llm), TenantShare(rows[|rows| - 1], llm))
  }

  /** The worst share bounds every tier's share, and is one of them unless it is zero. */
  lemma {:induction false} WorstShareIsMaximum(rows: seq<Row<Unit>>, llm: map<TierKey, LlmUsage>)
    ensures forall i :: 0 <= i < |rows| ==> TenantShare(rows[i], llm) <= WorstShare(rows, llm)
    ensures WorstShare(rows, llm) == 0.0 || exists i :: 0 <= i < |rows| && TenantShare(rows[i], llm) == WorstShare(rows, llm)
  {
    hide TenantShare;
    if rows != [] {
      var n := |rows| - 1;
      var init := rows[..n];
      WorstShareIsMaximum(init, llm);
      assert forall i :: 0 <= i < n ==> rows[i] == init[i];
      if WorstShare(rows, llm) != 0.0 && WorstShare(rows, llm) == WorstShare(init, llm) {
        var i :| 0 <= i < n && TenantShare(init[i], llm) == WorstShare(init, llm);
        assert TenantShare(rows[i], llm) == WorstShare(rows, llm);
      }
    }
  }

  /** A row that has a tenant share: subscriptions, revenue and recorded usage. */
  predicate Earning(row: Row<Unit>, llm: map<TierKey, LlmUsage>) {
    row.data.active > 0 && row.data.economics.effective > 0.0 && row.tier in llm
  }

  /** The p95 cost per subscription is at most `percent` of the revenue per subscription. */
  predicate ShareWithin(row: Row<Unit>, llm: map<TierKey, LlmUsage>, percent: real) {
    Earning(row, llm) ==> llm[row.tier].p95 * row.data.active as real * 100.0 <= percent * row.data.economics.effective
  }

  predicate ShareIs(row: Row<Unit>, llm: map<TierKey, LlmUsage>, percent: real) {
    Earning(row, llm) && llm[row.tier].p95 * row.data.active as real * 100.0 == percent * row.data.economics.effective
  }

  lemma ShareCrossMultiplied(row: Row<Unit>, llm: map<TierKey, LlmUsage>)
    ensures Earning(row, llm) ==>
      TenantShare(row, llm) * row.data.economics.effective == llm[row.tier].p95 * row.data.active as real * 100.0
    ensures !Earning(row, llm) ==> TenantShare(row, llm) == 0.0
  {
    if row.data.active > 0 {
      var e, n := row.data.economics.effective, row.data.active as real;
      var perTenant := e / n;
      DivMul(e, n);
      SignOfQuotient(e, n);
      if perTenant > 0.0 {
        var p95 := if row.tier in llm then llm[row.tier].p95 else 0.0;
        DivMul(p95, perTenant);
        ChainShare(p95 / perTenant, perTenant, n, e, p95);
      }
    }
  }

  lemma SignOfQuotient(e: real, n: real)
    requires n > 0.0
    ensures e / n > 0.0 <==> e > 0.0
  {
  }

  lemma ChainShare(q: real, perTenant: real, n: real, e: real, p95: real)
    requires q * perTenant == p95 && perTenant * n == e
    ensures q * 100.0 * e == p95 * n * 100.0
  {
    assert q * e == p95 * n by { assert q * (perTenant * n) == q * perTenant * n; }
  }

  /**
    The worst p95 cost of a tenant as a percentage of the revenue per subscription, without
    dividing: it bounds every earning row, and some earning row attains it unless it is zero.
   */
  lemma WorstShareLaw(rows: seq<Row<Unit>>, llm: map<TierKey, LlmUsage>)
    ensures forall i :: 0 <= i < |rows| ==> ShareWithin(rows[i], llm, WorstShare(rows, llm))
    ensures WorstShare(rows, llm) == 0.0 || exists i :: 0 <= i < |rows| && ShareIs(rows[i], llm, WorstShare(rows, llm))
  {
    hide TenantShare, WorstShare;
    var worst := WorstShare(rows, llm);
    WorstShareIsMaximum(rows, llm);
    forall i | 0 <= i < |rows|
      ensures ShareWithin(rows[i], llm, worst)
    {
      if Earning(rows[i], llm) {
        ShareCrossMultiplied(rows[i], llm);
        MulMonotone(TenantShare(rows[i], llm), worst, rows[i].data.economics.effective);
      }
    }
    if worst != 0.0 {
      var i :| 0 <= i < |rows| && TenantShare(rows[i], llm) == worst;
      ShareCrossMultiplied(rows[i], llm);
      assert ShareIs(rows[i], llm, worst);
    }
  }

  /** Hence a bound on the worst share is a bound on every row. */
  lemma WorstShareAtMost(rows: seq<Row<Unit>>, llm: map<TierKey, LlmUsage>, percent: real)
    requires percent >= 0.0
    ensures WorstShare(rows, llm) <= percent <==> forall i :: 0 <= i < |rows| ==> ShareWithin(rows[i], llm, percent)
  {
    hide WorstShare;
    var worst := WorstShare(rows, llm);
    WorstShareLaw(rows, llm);
    if worst <= percent {
      forall i | 0 <= i < |rows|
        ensures ShareWithin(rows[i], llm, percent)
      {
        if Earning(rows[i], llm) {
          MulMonotone(worst, percent, rows[i].data.economics.effective);
        }
      }
    } else {
      var i :| 0 <= i < |rows| && ShareIs(rows[i], llm, worst);
      StrictProduct(percent, worst, rows[i].data.economics.effective);
      assert !ShareWithin(rows[i], llm, percent);
    }
  }

  lemma StrictProduct(a: real, b: real, s: real)
    requires a < b && s > 0.0
    ensures a * s < b * s
  {
  }

  ghost predicate P95Parses(rows: seq<Row<Unit>>, llm: map<TierKey, LlmUsage>) {
    forall i :: 0 <= i < |rows| && rows[i].tier in llm ==> llm[rows[i].tier].p95 >= 0.0
  }

  function DiscountImpact(t: Totals): real {
    if t.mrr > 0.0 then (t.mrr - t.effective) / t.mrr * 100.0 else 0.0
  }

  function MetricsFrom(t: Totals, worstShare: real, conv: Conversion, stressMultiplier: real): Metrics {
    Metrics(
      Round(SafeMargin(t.effective, t.Cogs()), PLACES2),
      Round(worstShare, PLACES2),
      Round(DiscountImpact(t), PLACES2),
      Round(conv.growthToPro, PLACES4),
      Round(conv.proToEnterprise, PLACES4),
      Round(SafeMargin(t.effective, t.StressedCogs(stressMultiplier)), PLACES2))
  }

  function RoundTotals(t: Totals): Totals {
    Totals(Round(t.mrr, PLACES2), Round(t.effective, PLACES2), Round(t.llm, PLACES2),
           Round(t.infra, PLACES2), Round(t.support, PLACES2))
  }

  function MetricsOf(rows: seq<Row<Unit>>, llm: map<TierKey, LlmUsage>, conv: Conversion, stressMultiplier: real): Metrics {
    MetricsFrom(SumRows(Evidence(rows)), WorstShare(rows, llm), conv, stressMultiplier)
  }

  function TotalsOf(rows: seq<Row<Unit>>): Totals {
    RoundTotals(SumRows(Evidence(rows)))
  }

  method AccumulateRows(rows: seq<Row<Unit>>, llm: map<TierKey, LlmUsage>) returns (r: Result<(Totals, real)>)
    ensures r.Ok? <==> P95Parses(rows, llm)
    ensures r.Ok? ==> r.value == (SumRows(Evidence(rows)), WorstShare(rows, llm))
  {
    hide TenantShare;
    var total, worst := Totals(0.0, 0.0, 0.0, 0.0, 0.0), 0.0;
    for i := 0 to |rows|
      invariant total == SumRows(Evidence(rows)[..i])
      invariant worst == WorstShare(rows[..i], llm)
      invariant P95Parses(rows[..i], llm)
    {
      var row := rows[i];
      var e := row.data.economics;
      total := Totals(total.mrr + e.mrr, total.effective + e.effective, total.llm + e.llm,
                      total.infra + e.infra, total.support + e.support);
      SumRowsStep(Evidence(rows), i);
      if row.tier in llm && llm[row.tier].p95 < 0.0 { return Error("p95 must be >= 0"); }
      var share := ShareOf(row, llm);
      if share > worst { worst := share; }
      assert rows[..i + 1][..i] == rows[..i];
    }
    assert rows[..|rows|] == rows && Evidence(rows)[..|rows|] == Evidence(rows);
    return Ok((total, worst));
  }

  method ShareOf(row: Row<Unit>, llm: map<TierKey, LlmUsage>) returns (share: real)
    ensures share == TenantShare(row, llm)
  {
    var p95 := 0.0;
    if row.tier in llm { p95 := llm[row.tier].p95; }
    share := 0.0;
    if row.data.active > 0 {
      var perTenant := row.data.economics.effective / row.data.active as real;
      if perTenant > 0.0 { share := p95 / perTenant * 100.0; }
    }
  }

  method BuildMetrics(total: Totals, worst: real, conv: Conversion, stressMultiplier: real) returns (m: Metrics)
    ensures m == MetricsFrom(total, worst, conv, stressMultiplier)
  {
    hide Round, SafeMargin;
    var cogs := total.llm + total.infra + total.support;
    var discount := 0.0;
    if total.mrr > 0.0 { discount := (total.mrr - total.effective) / total.mrr * 100.0; }
    var stressed := total.llm + total.infra * stressMultiplier + total.support;
    assert cogs == total.Cogs() && stressed == total.StressedCogs(stressMultiplier) && discount == DiscountImpact(total);
    hide DiscountImpact;
    m := Metrics(
      Round(SafeMargin(total.effective, cogs), PLACES2), Round(worst, PLACES2), Round(discount, PLACES2),
      Round(conv.growthToPro, PLACES4), Round(conv.proToEnterprise, PLACES4),
      Round(SafeMargin(total.effective, stressed), PLACES2));
  }

  method ComputeMetrics(rows: seq<Row<Unit>>, llmRows: seq<Row<LlmUsage>>, conv: Conversion, stressMultiplier: real)
    returns (r: Result<(Metrics, Totals)>)
    ensures r.Ok? <==> !HasBlank(llmRows) && P95Parses(rows, Index(llmRows))
    ensures r.Ok? ==> r.value == (MetricsOf(rows, Index(llmRows), conv, stressMultiplier), TotalsOf(rows))
  {
    hide MetricsFrom, Round;
    var indexed := IndexByTier(llmRows);
    if indexed.Error? { return Error(indexed.message); }
    var accumulated := AccumulateRows(rows, indexed.value);
    if accumulated.Error? { return Error(accumulated.message); }
    var (total, worst) := accumulated.value;
    var metrics := BuildMetrics(total, worst, conv, stressMultiplier);
    return Ok((metrics, Totals(Round(total.mrr, PLACES2), Round(total.effective, PLACES2), Round(total.llm, PLACES2),
                               Round(total.infra, PLACES2), Round(total.support, PLACES2))));
  }

  // ----- gates -----

  datatype Thresholds = Thresholds(
    minBlended: real, maxP95Share: real, maxDiscount: real,
    minGrowthToPro: real, minProToEnterprise: real, minStress: real,
    requiredCloses: int)

  datatype Close = Close(month: string, margin: real)
  datatype Gates = Gates(marginFloor: bool, llmContainment: bool, discountImpact: bool, expansion: bool, stress: bool) {
    predicate All() { marginFloor && llmContainment && discountImpact && expansion && stress }
  }

  predicate ThresholdsParse(th: Thresholds) {
    && 0.0 <= th.minBlended <= 100.0
    && th.maxP95Share >= 0.0
    && 0.0 <= th.maxDiscount <= 100.0
    && 0.0 <= th.minStress <= 100.0
    && th.requiredCloses >= 1
  }

  /** The last `n` closes are at or above the floor. */
  predicate RecentClosesPass(closes: seq<Close>, n: int, floor: real)
    requires 1 <= n <= |closes|
  {
    forall i :: |closes| - n <= i < |closes| ==> closes[i].margin >= floor
  }

  function BuildGateResults(m: Metrics, th: Thresholds, closes: seq<Close>): Result<Gates>
    requires th.requiredCloses >= 1
  {
    if |closes| < th.requiredCloses then Error("close_history has too few entries") else
    Ok(Gates(
      m.blended >= th.minBlended && RecentClosesPass(closes, th.requiredCloses, th.minBlended),
      m.p95Share <= th.maxP95Share,
      m.discount <= th.maxDiscount,
      m.growthToPro >= th.minGrowthToPro && m.proToEnterprise >= th.minProToEnterprise,
      m.stress >= th.minStress))
  }
}
