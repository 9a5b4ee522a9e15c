/** From a verified telemetry snapshot, through derived assumptions and the packet, to the guardrail verdict. */
module FinanceEndToEnd {
  import opened Outcomes
  import opened Rounding
  import opened Tiers
  import opened Telemetry
  import opened SnapshotVerifier
  import opened FinanceEngine
  import opened FinanceScenarios
  import opened FinanceGuardrails
  import opened FinancePacket
  import opened FinanceAcceptance
  import opened FinanceAssumptions

  // ----- verified telemetry parses -----

  lemma TrackedAreCollected(i: int)
    requires 0 <= i < |TRACKED|
    ensures TRACKED[i] == COLLECTED[i + 1]
  {
    assert i == 0 || i == 1 || i == 2 || i == 3;
  }

  lemma SubscriptionOfVerified(t: Snapshot, tier: TierKey)
    requires SubscriptionsAccepted(t.subscriptions)
    ensures SubscriptionOf(t, tier).active >= 0 && SubscriptionOf(t, tier).dunning >= 0
  {
    hide Index;
    if tier in Index(t.subscriptions) {
      IndexedFromRow(t.subscriptions, tier);
    }
  }

  lemma LlmOfVerified(t: Snapshot, tier: TierKey)
    requires UsagesAccepted(t.llm)
    ensures LlmOf(t, tier).totalCost >= 0.0 && LlmOf(t, tier).p95 >= 0.0
  {
    hide Index;
    if tier in Index(t.llm) {
      IndexedFromRow(t.llm, tier);
    }
  }

  lemma VerifiedTierParses(t: Snapshot, i: int)
    requires PricingsAccepted(t.pricing) && SubscriptionsAccepted(t.subscriptions) && UsagesAccepted(t.llm)
    requires 0 <= i < |TRACKED|
    ensures TierParses(t, TRACKED[i])
  {
    hide FactorMatches, SubscriptionOf, LlmOf, SubscriptionsAccepted, UsagesAccepted;
    TrackedAreCollected(i);
    assert PricingAccepted(t.pricing[COLLECTED[i + 1]]);
    SubscriptionOfVerified(t, TRACKED[i]);
    LlmOfVerified(t, TRACKED[i]);
  }

  lemma VerifiedTelemetryParses(t: Snapshot)
    requires PricingsAccepted(t.pricing) && SubscriptionsAccepted(t.subscriptions) && UsagesAccepted(t.llm)
    ensures DerivationDefined(t)
  {
    hide UnitRowFor, Index, PricingsAccepted, ProgressTo, CostsFrom;
    forall i | 0 <= i < |TRACKED|
      ensures TierParses(t, TRACKED[i])
    {
      VerifiedTierParses(t, i);
    }
    assert EconomicsParse(t);
    DerivedCostsCover(t);
    var rows := UnitRows(t, CostsFrom(ProgressTo(t, |TRACKED|)));
    forall i | 0 <= i < |rows| && rows[i].tier in Index(t.llm)
      ensures Index(t.llm)[rows[i].tier].p95 >= 0.0
    {
      LlmOfVerified(t, rows[i].tier);
    }
  }

  // ----- each threshold against the metric it was derived from -----

  lemma MarginFloorGate(margin: real, slack: real, minimum: real)
    requires OnGrid(margin, PLACES2) && OnGrid(minimum, PLACES2) && slack >= 0.0 && minimum <= 86.0
    ensures margin >= MarginFloor(margin, slack, minimum) <==> margin >= minimum
  {
    hide Round, OnGrid;
    var x := Clamp(margin - slack, minimum, 86.0);
    RoundAgainstGridPoint(x, margin, PLACES2);
    RoundAgainstGridPoint(x, minimum, PLACES2);
  }

  lemma CapGate(metric: real, raised: real, minimum: real, cap: real)
    requires OnGrid(metric, PLACES2) && OnGrid(cap, PLACES2) && raised >= metric && minimum <= cap
    ensures metric <= Round(Clamp(raised, minimum, cap), PLACES2) <==> metric <= cap
  {
    hide Round, OnGrid;
    var x := Clamp(raised, minimum, cap);
    RoundAgainstGridPoint(x, metric, PLACES2);
    RoundAgainstGridPoint(x, cap, PLACES2);
  }

  lemma DeltaGate(delta: real)
    requires OnGrid(delta, PLACES4) && -3.0 <= delta <= 3.0
    ensures delta >= Round(Clamp(delta - 0.2, -5.0, 5.0), PLACES4)
  {
    hide Round, OnGrid;
    RoundAgainstGridPoint(Clamp(delta - 0.2, -5.0, 5.0), delta, PLACES4);
  }

  lemma PreviousCloseGate(blended: real, floor: real)
    requires OnGrid(floor, PLACES2) && floor <= 86.0
    ensures PreviousMargin(blended, floor) >= floor
  {
    hide Round, OnGrid;
    RoundAgainstGridPoint(Clamp(Max(blended + 1.0, floor + 0.5), 45.0, 95.0), floor, PLACES2);
  }

  ghost predicate MetricsOnGrid(m: Metrics) {
    && OnGrid(m.blended, PLACES2) && OnGrid(m.p95Share, PLACES2) && OnGrid(m.discount, PLACES2) && OnGrid(m.stress, PLACES2)
    && OnGrid(m.growthToPro, PLACES4) && OnGrid(m.proToEnterprise, PLACES4)
  }

  lemma MetricsAreOnGrid(t: Totals, worst: real, conv: Conversion, multiplier: real)
    ensures MetricsOnGrid(MetricsFrom(t, worst, conv, multiplier))
  {
    hide Round, OnGrid, SafeMargin, DiscountImpact, t.StressedCogs;
    RoundIsOnGrid(SafeMargin(t.effective, t.Cogs()), PLACES2);
    RoundIsOnGrid(worst, PLACES2);
    RoundIsOnGrid(DiscountImpact(t), PLACES2);
    RoundIsOnGrid(SafeMargin(t.effective, t.StressedCogs(multiplier)), PLACES2);
    RoundIsOnGrid(conv.growthToPro, PLACES4);
    RoundIsOnGrid(conv.proToEnterprise, PLACES4);
  }

  lemma SignalRange(upper: nat, lower: nat, typical: real)
    ensures -3.0 <= Round(DeltaSignal(upper, lower, typical), PLACES4) <= 3.0
  {
    hide Round, OnGrid;
    assert OnGrid(-3.0, PLACES4) && OnGrid(3.0, PLACES4) by { IntegerOnGrid(-3, 10000); IntegerOnGrid(3, 10000); }
    var ratio := upper as real / Max(lower as real, 1.0);
    RoundedClampRange((ratio - typical) * 0.8, -3.0, 3.0, PLACES4);
    RoundIdempotent(Clamp((ratio - typical) * 0.8, -3.0, 3.0), PLACES4);
  }

  /** The verdicts the derived thresholds give, in terms of the metrics alone. */
  function ExpectedGates(m: Metrics): Gates {
    Gates(m.blended >= 60.0, m.p95Share <= 35.0, m.discount <= 35.0, true, m.stress >= 45.0)
  }

  lemma DerivedThresholdGates(m: Metrics, previousMonth: string, name: string)
    requires MetricsOnGrid(m) && m.p95Share >= 0.0
    requires -3.0 <= m.growthToPro <= 3.0 && -3.0 <= m.proToEnterprise <= 3.0
    ensures var th := ThresholdsFrom(m);
            GatesFor(m, th, [Close(previousMonth, PreviousMargin(m.blended, th.minBlended)), Close(name, m.blended)])
            == ExpectedGates(m)
  {
    hide Round, OnGrid, Clamp, PreviousMargin, MarginFloor;
    var th := ThresholdsFrom(m);
    CentsOnGrid(60.0, 6000);
    CentsOnGrid(45.0, 4500);
    CentsOnGrid(35.0, 3500);
    MarginFloorGate(m.blended, 2.5, 60.0);
    MarginFloorGate(m.stress, 3.0, 45.0);
    CapGate(m.p95Share, Max(m.p95Share + 2.0, m.p95Share * 1.2), 6.0, 35.0);
    CapGate(m.discount, Max(m.discount + 3.0, 12.0), 10.0, 35.0);
    DeltaGate(m.growthToPro);
    DeltaGate(m.proToEnterprise);
    FloorIsGridPoint(m.blended, 2.5, 60.0);
    PreviousCloseGate(m.blended, th.minBlended);
  }

  lemma FloorIsGridPoint(margin: real, slack: real, minimum: real)
    requires minimum <= 86.0
    ensures OnGrid(MarginFloor(margin, slack, minimum), PLACES2) && MarginFloor(margin, slack, minimum) <= 86.0
  {
    hide Round, OnGrid;
    CentsOnGrid(86.0, 8600);
    RoundIsOnGrid(Clamp(margin - slack, minimum, 86.0), PLACES2);
    RoundAgainstGridPoint(Clamp(margin - slack, minimum, 86.0), 86.0, PLACES2);
  }

  // ----- the derived packet -----

  /** On verified telemetry the derived assumptions never make the packet builder raise. */
  lemma DerivedPacketDefined(t: Snapshot, clock: Clock)
    requires DerivationDefined(t) && t.window.name != "" && clock.previousMonth != ""
    ensures OutputsDefined(t, Derived(t, clock))
    ensures PacketMetrics(t, Derived(t, clock)) == DerivedMetrics(t)
  {
    hide MetricsOf, TotalsOf, UnitRows, StressMultiplierFrom, ThresholdsFrom, PreviousMargin, ThresholdsParse, CostsFrom,
         SelfHostedFrom, ConversionFrom, EconomicsParse, Index, ScenariosParse;
    DerivedCostsParse(t);
    StressMultiplierRange(ProgressTo(t, |TRACKED|));
    ThresholdRanges(DerivedMetrics(t));
    ThresholdsNeedTwoCloses(DerivedMetrics(t));
    DefaultScenariosParse();
    SelfHostedParses(TotalsOf(UnitRows(t, DerivedCosts(t))).effective * 12.0);
  }

  lemma ThresholdsNeedTwoCloses(m: Metrics)
    ensures ThresholdsFrom(m).requiredCloses == 2
  {
  }

  lemma DerivedMetricFacts(t: Snapshot)
    requires DerivationDefined(t)
    ensures var m := DerivedMetrics(t);
            MetricsOnGrid(m) && m.p95Share >= 0.0 && -3.0 <= m.growthToPro <= 3.0 && -3.0 <= m.proToEnterprise <= 3.0
  {
    hide Round, OnGrid, SafeMargin, DiscountImpact, UnitRowFor, StressMultiplierFrom, DeltaSignal, Index, CostsFrom, ProgressTo, SumRows, Evidence;
    var rows, multiplier := UnitRows(t, DerivedCosts(t)), StressMultiplierFrom(ProgressTo(t, |TRACKED|));
    MetricsAreOnGrid(SumRows(Evidence(rows)), WorstShare(rows, Index(t.llm)), ConversionFrom(t), multiplier);
    RoundNonNegative(WorstShare(rows, Index(t.llm)), PLACES2);
    SignalRange(AtLeastZero(SubscriptionOf(t, Pro).active), AtLeastZero(SubscriptionOf(t, Growth).active), 0.25);
    SignalRange(AtLeastZero(SubscriptionOf(t, Enterprise).active), AtLeastZero(SubscriptionOf(t, Pro).active), 0.15);
  }

  /**
    On verified telemetry the packet built from the derived assumptions never raises, recomputes
    the metrics the derivation saw, always passes the expansion gate, and passes the other four
    exactly when the blended margin is at least 60, the p95 share and the discount impact are at
    most 35, and the stress margin is at least 45.
   */
  lemma DerivedPacketGates(t: Snapshot, now: int, maxAge: Option<real>, clock: Clock, built: int)
    requires SnapshotAccepted(t, now, maxAge) && clock.previousMonth != ""
    ensures DerivationDefined(t) && OutputsDefined(t, Derived(t, clock))
    ensures GuardrailsOf(t, Derived(t, clock), built).metrics == DerivedMetrics(t)
    ensures GuardrailsOf(t, Derived(t, clock), built).gates == ExpectedGates(DerivedMetrics(t))
  {
    hide PacketMetrics, ThresholdsFrom, PreviousMargin, UnitRows, DerivedMetrics, MetricsOf, TotalsOf, GatesFor, MetricsOnGrid,
         PricingsAccepted, SubscriptionsAccepted, UsagesAccepted, GuardrailsAccepted, WatchParses, RatioAccepted, FreshEnough,
         AssumptionsParse, EconomicsParse, P95Parses, CostsFrom, ProgressTo, Index;
    VerifiedTelemetryParses(t);
    DerivedPacketDefined(t, clock);
    DerivedMetricFacts(t);
    var a, m := Derived(t, clock), DerivedMetrics(t);
    DerivedThresholdGates(m, clock.previousMonth, t.window.name);
    assert a.closes + [Close(t.window.name, m.blended)]
        == [Close(clock.previousMonth, PreviousMargin(m.blended, a.thresholds.minBlended)), Close(t.window.name, m.blended)];
  }

  /** The whole chain: what the verifier decides about evidence derived from a verified snapshot. */
  lemma VerifiedTelemetryToVerdict(t: Snapshot, now: int, maxAge: Option<real>, clock: Clock,
                                   built: int, later: int, maxEvidenceAge: Option<real>, allowFailedGates: bool)
    requires SnapshotAccepted(t, now, maxAge) && clock.previousMonth != ""
    ensures DerivationDefined(t) && OutputsDefined(t, Derived(t, clock))
    ensures var m := DerivedMetrics(t);
            EvidenceAccepted(GuardrailsOf(t, Derived(t, clock), built), later, maxEvidenceAge, allowFailedGates) <==>
              && FreshEnough(later, built, maxEvidenceAge)
              && m.stress >= 0.0
              && RowsSurvive(t, DerivedCosts(t))
              && (allowFailedGates || (m.blended >= 60.0 && m.p95Share <= 35.0 && m.discount <= 35.0 && m.stress >= 45.0))
  {
    hide PacketMetrics, UnitRows, DerivedMetrics, MetricsOf, TotalsOf, GuardrailsOf, EvidenceAccepted, RowsSurvive,
         PricingsAccepted, SubscriptionsAccepted, UsagesAccepted, GuardrailsAccepted, WatchParses, RatioAccepted, FreshEnough,
         OutputsDefined, CostsFrom, ProgressTo;
    DerivedPacketGates(t, now, maxAge, clock, built);
    DerivedPacketDefined(t, clock);
    GuardrailAcceptance(t, Derived(t, clock), built, later, maxEvidenceAge, allowFailedGates);
  }
}
