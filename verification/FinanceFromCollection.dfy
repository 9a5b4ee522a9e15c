/** The whole finance chain, from one collection of telemetry to the guardrail verdict. */
module FinanceFromCollection {
  import opened Outcomes
  import opened Rounding
  import opened Tiers
  import opened Telemetry
  import opened Percentiles
  import opened SnapshotVerifier
  import opened SnapshotCollector
  import opened SnapshotAgreement
  import opened FinanceEngine
  import opened FinanceGuardrails
  import opened FinancePacket
  import opened FinanceAcceptance
  import opened FinanceAssumptions
  import opened FinanceEndToEnd

  /** A sane collection whose free-tier cost hides no overrun leads to the same verdict as its exact amounts. */
  lemma CollectionToVerdict(x: Inputs, now: int, clock: Clock, built: int, later: int, maxAge: Option<real>, allowFailedGates: bool)
    requires SaneInputs(x) && x.windowEndExclusive - 1 <= now && clock.previousMonth != ""
    requires !HiddenOverrun(Usage(x.costRows, Free).totalCost, StarterGross(x))
    ensures SnapshotAccepted(Collected(x, now), now, None)
    ensures DerivationDefined(Collected(x, now)) && OutputsDefined(Collected(x, now), Derived(Collected(x, now), clock))
    ensures var t := Collected(x, now); var m := DerivedMetrics(t);
            EvidenceAccepted(GuardrailsOf(t, Derived(t, clock), built), later, maxAge, allowFailedGates) <==>
              && FreshEnough(later, built, maxAge)
              && m.stress >= 0.0
              && RowsSurvive(t, DerivedCosts(t))
              && (allowFailedGates || (m.blended >= 60.0 && m.p95Share <= 35.0 && m.discount <= 35.0 && m.stress >= 45.0))
  {
    assert Configured(x.prices);
    hide SaneInputs, Configured, HiddenOverrun, Usage, StarterGross, Collected, SnapshotAccepted, DerivationDefined, OutputsDefined, EvidenceAccepted,
         GuardrailsOf, DerivedMetrics, RowsSurvive, DerivedCosts, Derived;
    CollectorVerifierAgreement(x, now, now, None);
    assert FreshEnough(now, now, None);
    VerifiedTelemetryToVerdict(Collected(x, now), now, None, clock, built, later, maxAge, allowFailedGates);
  }

  // ----- a launch month that the recheck rejects -----

  /** The growth tier at its list price with one subscription and no usage cost. */
  ghost predicate GrowthAtLaunch(t: Snapshot) {
    && Growth in t.pricing && t.pricing[Growth].monthly == 149.0 && t.pricing[Growth].factor == 0.833333
    && SubscriptionOf(t, Growth).active == 1 && SubscriptionOf(t, Growth).dunning == 0
    && LlmOf(t, Growth).totalCost == 0.0
  }

  lemma CentsAre(x: real, k: int)
    requires k as real - 0.5 < x * 100.0 < k as real + 0.5
    ensures Nearest(x * 100.0) == k && Round(x, PLACES2) == k as real / 100.0
  {
    assert x * PLACES2 == x * 100.0;
  }

  lemma LaunchAssumptions()
    ensures AnnualMix(Growth, 1, 0.833333) == 0.54
    ensures InfraPct(Growth, 0.0, 149.0) == 5.3
    ensures SupportPerSub(Growth, 149.0, 1, 0) == 8.02
  {
    hide Round;
    CentsAre(0.5425, 54);
    CentsAre(5.3, 530);
    CentsAre(8.0184, 802);
  }

  /** The builder writes 88.79 percent; the cents it writes beside it give 88.78. */
  lemma LaunchAmounts(a: Amounts)
    requires a == Amounts(149.0, 135.58997318, 0.0, 7.18626857854, 8.02)
    ensures !AmountsSurvive(a)
  {
    hide Nearest;
    CentsAre(135.58997318, 13559);
    CentsAre(0.0, 0);
    CentsAre(7.18626857854, 719);
    CentsAre(8.02, 802);
    forall k: nat | MarginStep(a.effective, a.Cogs(), k)
      ensures k == 8879
    {
    }
    assert !MarginStep(13559.0, 1521.0, 8879);
  }

  lemma LaunchCosts(t: Snapshot)
    requires Covers(t.pricing) && GrowthAtLaunch(t)
    ensures TierCostsParse(DerivedCosts(t), TRACKED[1])
    ensures AmountsOf(t, DerivedCosts(t), TRACKED[1]) == Amounts(149.0, 135.58997318, 0.0, 7.18626857854, 8.02)
  {
    hide AnnualMix, InfraPct, SupportPerSub, SubscriptionOf, LlmOf, ProgressTo;
    DerivedCostsParse(t);
    ProgressCovers(t, |TRACKED|);
    LaunchAssumptions();
    assert TRACKED[1] == Growth;
    var f, c := FactsOf(t, Growth), DerivedCosts(t);
    assert f == TierFacts(149.0, 0.833333, 1, 0, 0.0);
    assert TierCostsParse(c, TRACKED[1]);
    assert c.annualMix[TRACKED[1]] == 0.54 && c.infraPct[TRACKED[1]] == 5.3 && c.supportPerSub[TRACKED[1]] == 8.02;
    NoDunning(c.supportPerDunning);
  }

  lemma NoDunning(perEvent: real)
    ensures 0.0 * perEvent == 0.0
  {
  }

  /** Whatever else such a verified snapshot holds, evidence derived from it is rejected, failed gates allowed or not. */
  lemma GrowthAtLaunchRejected(t: Snapshot, now: int, maxSnapshotAge: Option<real>, clock: Clock,
                               built: int, later: int, maxAge: Option<real>, allowFailedGates: bool)
    requires SnapshotAccepted(t, now, maxSnapshotAge) && GrowthAtLaunch(t) && clock.previousMonth != ""
    ensures DerivationDefined(t) && OutputsDefined(t, Derived(t, clock))
    ensures !EvidenceAccepted(GuardrailsOf(t, Derived(t, clock), built), later, maxAge, allowFailedGates)
  {
    hide SnapshotAccepted, GrowthAtLaunch, OutputsDefined, EvidenceAccepted, GuardrailsOf, DerivedMetrics, Derived, DerivedCosts,
         RowsSurvive, DerivationDefined, FreshEnough;
    VerifiedTelemetryToVerdict(t, now, maxSnapshotAge, clock, built, later, maxAge, allowFailedGates);
    LaunchRowFails(t);
  }

  lemma LaunchRowFails(t: Snapshot)
    requires DerivationDefined(t) && GrowthAtLaunch(t)
    ensures CostsParse(DerivedCosts(t)) && !RowsSurvive(t, DerivedCosts(t))
  {
    hide GrowthAtLaunch, DerivedCosts, AmountsSurvive, AmountsOf, EconomicsParse, P95Parses, UnitRows;
    DerivedCostsParse(t);
    LaunchCosts(t);
    LaunchAmounts(AmountsOf(t, DerivedCosts(t), TRACKED[1]));
  }

  /** The fallback price list, one active subscription in every paid tier, and no usage cost. */
  const LAUNCH: Inputs := Inputs(
    0, 1, "launch", LIST_PRICES, [Limit("llm_analyses_per_day", 1, 2)],
    [Row(Starter, Subscription(1, 1, 0)), Row(Growth, Subscription(1, 1, 0)),
     Row(Pro, Subscription(1, 1, 0)), Row(Enterprise, Subscription(1, 1, 0))], [])

  lemma LaunchIsSane()
    ensures SaneInputs(LAUNCH) && !HiddenOverrun(Usage(LAUNCH.costRows, Free).totalCost, StarterGross(LAUNCH))
  {
    hide SanePrices, Resolve, StarterGross, Round;
    forall k | 0 <= k < |COLLECTED|
      ensures COLLECTED[k] in LIST_PRICES && SanePrices(Resolve(COLLECTED[k], LIST_PRICES[COLLECTED[k]]))
    {
      ListPricesSane(k);
    }
    Micros(0.0, 0);
    assert Usage(LAUNCH.costRows, Free).totalCost == 0.0;
  }

  lemma LaunchPrice()
    ensures PricingFor(Prices(149.0, 1490.0)).monthly == 149.0 && PricingFor(Prices(149.0, 1490.0)).factor == 0.833333
  {
    WholeDollarsOnGrid(149);
    var f := AnnualFactor(Prices(149.0, 1490.0));
    assert f == 1490.0 / 1788.0;
    assert 833332.5 < f * 1000000.0 < 833333.5;
    assert f * PLACES6 == f * 1000000.0;
    assert Nearest(f * 1000000.0) == 833333;
  }

  lemma LaunchSubscribers()
    ensures Subscribers(LAUNCH.subscriptionRows, Growth) == Subscription(1, 1, 0)
  {
    hide Index;
    var rows := LAUNCH.subscriptionRows;
    IndexKeys(rows);
    assert rows[1].tier == Growth;
    IndexedFromRow(rows, Growth);
    assert LastRowFor(rows, Growth, 1);
  }

  /** The packet reads the collector's rows back. */
  lemma CollectedRows(x: Inputs, now: int, k: nat)
    requires Configured(x.prices) && k < |COLLECTED|
    ensures SubscriptionOf(Collected(x, now), COLLECTED[k]) == Subscribers(x.subscriptionRows, COLLECTED[k])
    ensures LlmOf(Collected(x, now), COLLECTED[k]) == Usage(x.costRows, COLLECTED[k])
  {
    hide Index, Usage, Subscribers, PricingReference, RevenueRowsOf, GuardrailsFor, WatchFor, CollectorGuarded, StarterGross;
    var t, tier := Collected(x, now), COLLECTED[k];
    CollectedDistinct(k);
    IndexKeys(t.subscriptions);
    IndexKeys(t.llm);
    assert t.subscriptions[k].tier == tier && t.llm[k].tier == tier;
    IndexedFromRow(t.subscriptions, tier);
    IndexedFromRow(t.llm, tier);
    assert LastRowFor(t.subscriptions, tier, k) && LastRowFor(t.llm, tier, k);
  }

  lemma CollectedDistinct(k: nat)
    requires k < |COLLECTED|
    ensures forall j :: k < j < |COLLECTED| ==> COLLECTED[j] != COLLECTED[k]
  {
    assert k == 0 || k == 1 || k == 2 || k == 3 || k == 4;
  }

  /**
    The recheck can fail on the builder's own rows: this collection is sane and its snapshot is
    accepted, yet the evidence derived from it is rejected even when failed gates are allowed.
   */
  lemma RecheckCanFail(now: int, clock: Clock, built: int, later: int, maxAge: Option<real>, allowFailedGates: bool)
    requires now >= 0 && clock.previousMonth != ""
    ensures SaneInputs(LAUNCH) && SnapshotAccepted(Collected(LAUNCH, now), now, None)
    ensures var t := Collected(LAUNCH, now);
            && DerivationDefined(t) && OutputsDefined(t, Derived(t, clock))
            && !EvidenceAccepted(GuardrailsOf(t, Derived(t, clock), built), later, maxAge, allowFailedGates)
  {
    LaunchIsSane();
    assert Configured(LAUNCH.prices);
    hide SaneInputs, Configured, HiddenOverrun, StarterGross, SnapshotAccepted, DerivationDefined, OutputsDefined, EvidenceAccepted,
         GuardrailsOf, Derived, GrowthAtLaunch;
    CollectorVerifierAgreement(LAUNCH, now, now, None);
    LaunchFacts(now);
    GrowthAtLaunchRejected(Collected(LAUNCH, now), now, None, clock, built, later, maxAge, allowFailedGates);
  }

  lemma LaunchFacts(now: int)
    requires Configured(LAUNCH.prices)
    ensures GrowthAtLaunch(Collected(LAUNCH, now))
  {
    hide Round, SubscriptionOf, LlmOf, Subscribers, PricingFor, GuardrailsFor, WatchFor, CollectorGuarded, StarterGross;
    assert COLLECTED[2] == Growth;
    CollectedRows(LAUNCH, now, 2);
    LaunchSubscribers();
    LaunchPrice();
    Micros(0.0, 0);
    assert Collected(LAUNCH, now).pricing[COLLECTED[2]] == PricingFor(Prices(149.0, 1490.0));
  }
}
