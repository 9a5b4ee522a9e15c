/** Derivation of the committee assumptions from telemetry, and what the packet then reports. */
module FinanceAssumptions {
  import opened Outcomes
  import opened Rounding
  import opened Tiers
  import opened Telemetry
  import opened SnapshotVerifier
  import opened FinanceEngine
  import opened FinanceScenarios
  import opened FinanceGuardrails
  import opened FinancePacket
  import opened FinanceAcceptance

  // ----- per-tier assumptions -----

  function AtLeastZero(n: int): nat {
    if n < 0 then 0 else n
  }

  function AnnualMix(tier: TierKey, active: nat, factor: real): real {
    var discount := Max(0.0, 1.0 - Clamp(factor, 0.5, 1.0));
    var base := 0.42 + Min(0.25, active as real / 400.0) + Min(0.12, discount * 0.8);
    Round(Clamp(if tier == Enterprise then base - 0.12 else base, 0.25, 0.82), PLACES2)
  }

  function InfraPct(tier: TierKey, llmCogs: real, grossMrr: real): real {
    var llmShare := if grossMrr > 0.0 then llmCogs / grossMrr * 100.0 else 0.0;
    var base := 5.0 + llmShare * 0.35;
    Round(Clamp(if tier == Starter || tier == Growth then base + 0.3 else base, 4.5, 15.0), PLACES2)
  }

  function TierLift(tier: TierKey): real {
    match tier
    case Starter => 1.0
    case Growth => 1.2
    case Pro => 1.5
    case _ => 1.8
  }

  function SupportPerSub(tier: TierKey, monthly: real, active: nat, dunning: nat): real {
    var dunningRate := dunning as real / Max(active as real, 1.0);
    Round(Clamp((4.0 + monthly * 0.018 + dunningRate * 6.0) * TierLift(tier), 4.0, 42.0), PLACES2)
  }

  /** What the derivation reads of one tier. */
  datatype TierFacts = TierFacts(monthly: real, factor: real, active: nat, dunning: nat, llmCogs: real) {
    function Gross(): real { Max(0.0, monthly * active as real) }
  }

  function FactsOf(t: Snapshot, tier: TierKey): TierFacts
    requires tier in t.pricing
  {
    var s := SubscriptionOf(t, tier);
    TierFacts(t.pricing[tier].monthly, t.pricing[tier].factor, AtLeastZero(s.active), AtLeastZero(s.dunning),
              Max(0.0, LlmOf(t, tier).totalCost))
  }

  /** The three dictionaries and the two totals after the first n tiers. */
  datatype Progress = Progress(
    mix: map<TierKey, real>, infra: map<TierKey, real>, support: map<TierKey, real>,
    supportSum: real, llmSum: real, grossSum: real)

  function Extend(p: Progress, tier: TierKey, f: TierFacts): Progress {
    var support := SupportPerSub(tier, f.monthly, f.active, f.dunning);
    Progress(
      p.mix[tier := AnnualMix(tier, f.active, f.factor)],
      p.infra[tier := InfraPct(tier, f.llmCogs, f.Gross())],
      p.support[tier := support],
      p.supportSum + support, p.llmSum + f.llmCogs, p.grossSum + f.Gross())
  }

  function ProgressTo(t: Snapshot, n: nat): Progress
    requires n <= |TRACKED| && Covers(t.pricing)
  {
    if n == 0 then Progress(map[], map[], map[], 0.0, 0.0, 0.0)
    else Extend(ProgressTo(t, n - 1), TRACKED[n - 1], FactsOf(t, TRACKED[n - 1]))
  }

  function CostsFrom(p: Progress): CostModel {
    CostModel(p.mix, p.infra, p.support, Round(Clamp(p.supportSum / 4.0 * 1.4, 12.0, 45.0), PLACES2))
  }

  function DeltaSignal(upper: nat, lower: nat, typical: real): real {
    Round(Clamp((upper as real / Max(lower as real, 1.0) - typical) * 0.8, -3.0, 3.0), PLACES4)
  }

  function ConversionFrom(t: Snapshot): Conversion {
    var growth, pro, enterprise :=
      AtLeastZero(SubscriptionOf(t, Growth).active), AtLeastZero(SubscriptionOf(t, Pro).active),
      AtLeastZero(SubscriptionOf(t, Enterprise).active);
    Conversion(DeltaSignal(pro, growth, 0.25), DeltaSignal(enterprise, pro, 0.15))
  }

  function StressMultiplierFrom(p: Progress): real {
    Round(Clamp(1.5 + p.llmSum / Max(p.grossSum, 1.0) * 2.0, 1.4, 2.5), PLACES2)
  }

  // ----- thresholds, close history, scenarios -----

  function MarginFloor(margin: real, slack: real, minimum: real): real {
    Round(Clamp(margin - slack, minimum, 86.0), PLACES2)
  }

  function ThresholdsFrom(m: Metrics): Thresholds {
    Thresholds(
      MarginFloor(m.blended, 2.5, 60.0),
      Round(Clamp(Max(m.p95Share + 2.0, m.p95Share * 1.2), 6.0, 35.0), PLACES2),
      Round(Clamp(Max(m.discount + 3.0, 12.0), 10.0, 35.0), PLACES2),
      Round(Clamp(m.growthToPro - 0.2, -5.0, 5.0), PLACES4),
      Round(Clamp(m.proToEnterprise - 0.2, -5.0, 5.0), PLACES4),
      MarginFloor(m.stress, 3.0, 45.0),
      2)
  }

  function PreviousMargin(blended: real, minBlended: real): real {
    Round(Clamp(Max(blended + 1.0, minBlended + 0.5), 45.0, 95.0), PLACES2)
  }

  function PerTier(starter: real, growth: real, pro: real, enterprise: real): map<TierKey, real> {
    map[Starter := starter, Growth := growth, Pro := pro, Enterprise := enterprise]
  }

  const ONES: map<TierKey, real> := PerTier(1.0, 1.0, 1.0, 1.0)

  const DEFAULT_SCENARIOS: seq<Scenario> := [
    Scenario("baseline", ONES, ONES),
    Scenario("pro_price_plus_15_growth_retention", PerTier(1.0, 0.99, 0.96, 1.02), PerTier(1.0, 1.0, 1.15, 1.0)),
    Scenario("enterprise_expansion_signal", PerTier(1.0, 1.01, 1.03, 1.08), ONES)
  ]

  function SelfHostedFrom(arr: real): SelfHosted {
    SelfHosted(Round(Max(220000.0, arr * 0.28), PLACES2), Round(Max(70000.0, arr * 0.055), PLACES2),
               Round(Max(45000.0, arr * 0.035), PLACES2), Round(Max(55000.0, arr * 0.045), PLACES2),
               Round(Max(22000.0, arr * 0.018), PLACES2))
  }

  // ----- the derivation -----

  /** The clock readings the derivation takes. */
  datatype Clock = Clock(now: int, today: string, previousMonth: string)

  ghost predicate DerivationDefined(t: Snapshot) {
    && Covers(t.pricing)
    && CostsCover(CostsFrom(ProgressTo(t, |TRACKED|)))
    && EconomicsParse(t)
    && P95Parses(UnitRows(t, CostsFrom(ProgressTo(t, |TRACKED|))), Index(t.llm))
  }

  function DerivedCosts(t: Snapshot): CostModel
    requires Covers(t.pricing)
  {
    CostsFrom(ProgressTo(t, |TRACKED|))
  }

  /** The metrics the derivation itself computes before it sets any threshold. */
  function DerivedMetrics(t: Snapshot): Metrics
    requires DerivationDefined(t)
  {
    MetricsOf(UnitRows(t, DerivedCosts(t)), Index(t.llm), ConversionFrom(t), StressMultiplierFrom(ProgressTo(t, |TRACKED|)))
  }

  function DerivedFrom(t: Snapshot, clock: Clock, costs: CostModel, multiplier: real, m: Metrics, totals: Totals): Assumptions {
    var th := ThresholdsFrom(m);
    Assumptions(
      clock.now,
      if t.window.name != "" then t.window.name else clock.today,
      th, costs, ConversionFrom(t), multiplier,
      [Close(clock.previousMonth, PreviousMargin(m.blended, th.minBlended))],
      DEFAULT_SCENARIOS,
      SelfHostedFrom(totals.effective * 12.0))
  }

  function Derived(t: Snapshot, clock: Clock): Assumptions
    requires DerivationDefined(t)
  {
    DerivedFrom(t, clock, DerivedCosts(t), StressMultiplierFrom(ProgressTo(t, |TRACKED|)),
                DerivedMetrics(t), TotalsOf(UnitRows(t, DerivedCosts(t))))
  }

  lemma {:induction false} ProgressCovers(t: Snapshot, n: nat)
    requires n <= |TRACKED| && Covers(t.pricing)
    ensures var p := ProgressTo(t, n);
            forall i :: 0 <= i < n ==>
              var f := FactsOf(t, TRACKED[i]);
              && TRACKED[i] in p.mix && TRACKED[i] in p.infra && TRACKED[i] in p.support
              && p.mix[TRACKED[i]] == AnnualMix(TRACKED[i], f.active, f.factor)
              && p.infra[TRACKED[i]] == InfraPct(TRACKED[i], f.llmCogs, f.Gross())
              && p.support[TRACKED[i]] == SupportPerSub(TRACKED[i], f.monthly, f.active, f.dunning)
  {
    hide AnnualMix, InfraPct, SupportPerSub, FactsOf;
    if n > 0 {
      ProgressCovers(t, n - 1);
      forall i | 0 <= i < n - 1
        ensures TRACKED[i] != TRACKED[n - 1]
      {
        assert i == 0 || i == 1 || i == 2;
      }
    }
  }

  method DeriveAssumptionsInputs(t: Snapshot, clock: Clock) returns (r: Result<Assumptions>)
    ensures r.Ok? <==> DerivationDefined(t)
    ensures r.Ok? ==> r.value == Derived(t, clock)
  {
    hide Extend, CostsFrom, StressMultiplierFrom, MetricsOf, TotalsOf, DerivedFrom, UnitRowFor, TierParses, Index;
    var subscriptions := IndexSkippingBlanks(t.subscriptions);
    var llmUsage := IndexSkippingBlanks(t.llm);
    var progress := Progress(map[], map[], map[], 0.0, 0.0, 0.0);
    for i := 0 to |TRACKED|
      invariant forall k :: 0 <= k < i ==> TRACKED[k] in t.pricing
      invariant Covers(t.pricing) ==> progress == ProgressTo(t, i)
    {
      var tier := TRACKED[i];
      if tier !in t.pricing { return Error("pricing_reference tier must be an object"); }
      var subscription := if tier in subscriptions then subscriptions[tier] else Subscription(0, 0, 0);
      var usage := if tier in llmUsage then llmUsage[tier] else LlmUsage(0.0, 0.0, 0.0, 0.0);
      var facts := TierFacts(t.pricing[tier].monthly, t.pricing[tier].factor, AtLeastZero(subscription.active),
                             AtLeastZero(subscription.dunning), Max(0.0, usage.totalCost));
      assert tier != Blank by { assert i == 0 || i == 1 || i == 2 || i == 3; }
      assert facts == FactsOf(t, tier);
      progress := Extend(progress, tier, facts);
    }
    var costs, multiplier := CostsFrom(progress), StressMultiplierFrom(progress);
    assert CostsCover(costs) by { DerivedCostsCover(t); }
    var units := BuildTierUnitEconomics(t, costs);
    if units.Error? { return Error(units.message); }
    var computed := ComputeMetrics(units.value, t.llm, ConversionFrom(t), multiplier);
    if computed.Error? { return Error(computed.message); }
    return Ok(DerivedFrom(t, clock, costs, multiplier, computed.value.0, computed.value.1));
  }

  lemma DerivedCostsCover(t: Snapshot)
    requires Covers(t.pricing)
    ensures CostsCover(CostsFrom(ProgressTo(t, |TRACKED|)))
  {
    hide AnnualMix, InfraPct, SupportPerSub, FactsOf, ProgressTo;
    ProgressCovers(t, |TRACKED|);
  }

  // ----- ranges -----

  /** A clamped and rounded number stays between clamp bounds that are grid points. */
  lemma RoundedClampRange(x: real, lo: real, hi: real, s: Scale)
    requires lo <= hi && OnGrid(lo, s) && OnGrid(hi, s)
    ensures lo <= Round(Clamp(x, lo, hi), s) <= hi
  {
    hide Round, OnGrid;
    RoundAgainstGridPoint(Clamp(x, lo, hi), lo, s);
    RoundAgainstGridPoint(Clamp(x, lo, hi), hi, s);
  }

  lemma CentsOnGrid(x: real, k: int)
    requires x * 100.0 == k as real
    ensures OnGrid(x, PLACES2)
  {
    assert x * PLACES2 == k as real;
    FloorOfInteger(k);
  }

  lemma TierAssumptionRanges(tier: TierKey, f: TierFacts)
    ensures 0.0 <= AnnualMix(tier, f.active, f.factor) <= 1.0
    ensures InfraPct(tier, f.llmCogs, f.Gross()) >= 0.0
    ensures SupportPerSub(tier, f.monthly, f.active, f.dunning) >= 0.0
  {
    hide Round, Clamp, OnGrid;
    CentsOnGrid(0.25, 25);
    CentsOnGrid(0.82, 82);
    CentsOnGrid(4.5, 450);
    CentsOnGrid(15.0, 1500);
    CentsOnGrid(4.0, 400);
    CentsOnGrid(42.0, 4200);
    ClampRanges(0.25, 0.82);
    ClampRanges(4.5, 15.0);
    ClampRanges(4.0, 42.0);
  }

  lemma ClampRanges(lo: real, hi: real)
    requires lo <= hi && OnGrid(lo, PLACES2) && OnGrid(hi, PLACES2)
    ensures forall x :: lo <= Round(Clamp(x, lo, hi), PLACES2) <= hi
  {
    forall x
      ensures lo <= Round(Clamp(x, lo, hi), PLACES2) <= hi
    {
      RoundedClampRange(x, lo, hi, PLACES2);
    }
  }

  lemma DerivedCostsParse(t: Snapshot)
    requires Covers(t.pricing)
    ensures CostsParse(DerivedCosts(t))
  {
    hide AnnualMix, InfraPct, SupportPerSub, FactsOf, ProgressTo, Round, Clamp, OnGrid;
    ProgressCovers(t, |TRACKED|);
    forall i | 0 <= i < |TRACKED|
      ensures TierCostsParse(DerivedCosts(t), TRACKED[i])
    {
      TierAssumptionRanges(TRACKED[i], FactsOf(t, TRACKED[i]));
    }
    CentsOnGrid(12.0, 1200);
    CentsOnGrid(45.0, 4500);
    ClampRanges(12.0, 45.0);
  }

  lemma StressMultiplierRange(p: Progress)
    ensures StressMultiplierFrom(p) >= 1.0
  {
    hide Round, Clamp, OnGrid;
    CentsOnGrid(1.4, 140);
    CentsOnGrid(2.5, 250);
    ClampRanges(1.4, 2.5);
  }

  lemma ThresholdRanges(m: Metrics)
    ensures ThresholdsParse(ThresholdsFrom(m))
    ensures Percentage(PreviousMargin(m.blended, ThresholdsFrom(m).minBlended))
  {
    hide Round, Clamp, OnGrid;
    CentsOnGrid(60.0, 6000);
    CentsOnGrid(45.0, 4500);
    CentsOnGrid(86.0, 8600);
    CentsOnGrid(95.0, 9500);
    CentsOnGrid(6.0, 600);
    CentsOnGrid(10.0, 1000);
    CentsOnGrid(35.0, 3500);
    ClampRanges(60.0, 86.0);
    ClampRanges(45.0, 86.0);
    ClampRanges(45.0, 95.0);
    ClampRanges(6.0, 35.0);
    ClampRanges(10.0, 35.0);
  }

  lemma DefaultScenariosParse()
    ensures ScenariosParse(DEFAULT_SCENARIOS)
  {
    forall i | 0 <= i < |DEFAULT_SCENARIOS|
      ensures ScenarioParses(DEFAULT_SCENARIOS[i])
    {
      assert i == 0 || i == 1 || i == 2;
      forall k | 0 <= k < |TRACKED|
        ensures NonNegativeAt(DEFAULT_SCENARIOS[i].subscriptionMult, TRACKED[k])
        ensures NonNegativeAt(DEFAULT_SCENARIOS[i].priceMult, TRACKED[k])
      {
        assert k == 0 || k == 1 || k == 2 || k == 3;
      }
    }
  }

  lemma SelfHostedParses(arr: real)
    ensures SelfHostedFrom(arr).Parses()
  {
    hide Round;
    RoundNonNegative(Max(220000.0, arr * 0.28), PLACES2);
    RoundNonNegative(Max(70000.0, arr * 0.055), PLACES2);
    RoundNonNegative(Max(45000.0, arr * 0.035), PLACES2);
    RoundNonNegative(Max(55000.0, arr * 0.045), PLACES2);
    RoundNonNegative(Max(22000.0, arr * 0.018), PLACES2);
  }
}
