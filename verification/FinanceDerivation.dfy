/** What the derived assumptions come to, quantity by quantity, in terms of the snapshot. */
module FinanceDerivation {
  import opened Outcomes
  import opened Rounding
  import opened Tiers
  import opened Telemetry
  import opened FinanceEngine
  import opened FinanceScenarios
  import opened FinanceGuardrails
  import opened FinancePacket
  import opened FinanceAcceptance
  import opened FinanceAssumptions
  import opened FinanceEndToEnd

  /** The written number is the exact one, up to half a step, held between two bounds. */
  ghost predicate ClampedNear(written: real, exact: real, lo: real, hi: real, half: real) {
    && (exact <= lo ==> written == lo)
    && (exact >= hi ==> written == hi)
    && (lo <= exact <= hi ==> -half <= written - exact <= half)
  }

  lemma RoundedClampNear(x: real, lo: real, hi: real, s: Scale, half: real)
    requires lo <= hi && OnGrid(lo, s) && OnGrid(hi, s) && half == 0.5 / s
    ensures ClampedNear(Round(Clamp(x, lo, hi), s), x, lo, hi, half)
  {
    hide Round, OnGrid;
    RoundExactOnGrid(lo, s);
    RoundExactOnGrid(hi, s);
    RoundWithinHalfUnit(x, s);
  }

  /** Clamping to bounds in cents and rounding to cents. */
  lemma CentsNear(x: real, lo: real, hi: real, a: int, b: int)
    requires lo <= hi && lo * 100.0 == a as real && hi * 100.0 == b as real
    ensures ClampedNear(Round(Clamp(x, lo, hi), PLACES2), x, lo, hi, 0.005)
  {
    hide Round, OnGrid, ClampedNear;
    CentsOnGrid(lo, a);
    CentsOnGrid(hi, b);
    assert 0.5 / PLACES2 == 0.005;
    RoundedClampNear(x, lo, hi, PLACES2, 0.005);
  }

  // ----- one tier -----

  /** Percentages before usage: starter and growth carry three tenths more. */
  function InfraBase(i: nat): real {
    if i < 2 then 5.3 else 5.0
  }

  /** The base and 35 times the share of usage in gross revenue, multiplied by the gross revenue. */
  predicate InfraComesTo(i: nat, llm: real, gross: real, x: real) {
    if gross > 0.0 then x * gross == InfraBase(i) * gross + 35.0 * llm else x == InfraBase(i)
  }

  lemma InfraOf(tier: TierKey, i: nat, llm: real, gross: real, x: real)
    requires i < |TRACKED| && tier == TRACKED[i] && InfraComesTo(i, llm, gross, x)
    ensures ClampedNear(InfraPct(tier, llm, gross), x, 4.5, 15.0, 0.005)
  {
    hide Round, ClampedNear, Clamp;
    assert i == 0 || i == 1 || i == 2 || i == 3;
    if gross > 0.0 {
      DivMul(llm, gross);
      SameQuotient(x, InfraBase(i) + llm / gross * 35.0, gross, InfraBase(i) * gross + 35.0 * llm);
    }
    CentsNear(x, 4.5, 15.0, 450, 1500);
  }

  /** A product with a positive number determines the factor. */
  lemma SameQuotient(x: real, y: real, s: real, product: real)
    requires s > 0.0 && x * s == product && y * s == product
    ensures x == y
  {
  }

  lemma MixOf(tier: TierKey, i: nat, active: nat, factor: real)
    requires i < |TRACKED| && tier == TRACKED[i] && 0.0 <= factor <= 1.0
    ensures var exact := (if i == 3 then 120.0 else 168.0) + Min(100.0, active as real) + (if factor >= 0.85 then 320.0 * (1.0 - factor) else 48.0);
            -2.0 <= 400.0 * AnnualMix(tier, active, factor) - exact <= 2.0
  {
    hide Round, ClampedNear;
    assert i == 0 || i == 1 || i == 2 || i == 3;
    var exact := (if i == 3 then 120.0 else 168.0) + Min(100.0, active as real) + (if factor >= 0.85 then 320.0 * (1.0 - factor) else 48.0);
    var x := exact / 400.0;
    CentsNear(x, 0.25, 0.82, 25, 82);
    NearInside(AnnualMix(tier, active, factor), x, 0.25, 0.82, 0.005);
  }

  lemma NearInside(written: real, exact: real, lo: real, hi: real, half: real)
    requires ClampedNear(written, exact, lo, hi, half) && lo <= exact <= hi
    ensures -half <= written - exact <= half
  {
  }

  function Lift(i: nat): real {
    if i == 0 then 1.0 else if i == 1 then 1.2 else if i == 2 then 1.5 else 1.8
  }

  /** What the price and the dunning per subscription come to, multiplied by the subscriptions. */
  predicate SupportComesTo(i: nat, monthly: real, active: int, dunning: int, x: real) {
    var n := Max(active as real, 1.0);
    x * n == Lift(i) * (4.0 * n + 0.018 * (monthly * n) + 6.0 * dunning as real)
  }

  lemma SupportOf(tier: TierKey, i: nat, monthly: real, active: nat, dunning: nat, x: real)
    requires i < |TRACKED| && tier == TRACKED[i] && SupportComesTo(i, monthly, active, dunning, x)
    ensures ClampedNear(SupportPerSub(tier, monthly, active, dunning), x, 4.0, 42.0, 0.005)
  {
    hide Round, ClampedNear, Clamp;
    assert i == 0 || i == 1 || i == 2 || i == 3;
    assert TierLift(tier) == Lift(i);
    var n := Max(active as real, 1.0);
    var rate := dunning as real / n;
    DivMul(dunning as real, n);
    var base := 4.0 + monthly * 0.018 + rate * 6.0;
    SupportProduct(base, monthly, rate, n, dunning as real, Lift(i));
    SameQuotient(x, base * Lift(i), n, Lift(i) * (4.0 * n + 0.018 * (monthly * n) + 6.0 * dunning as real));
    CentsNear(x, 4.0, 42.0, 400, 4200);
  }

  lemma SupportProduct(base: real, monthly: real, rate: real, n: real, dunning: real, lift: real)
    requires base == 4.0 + monthly * 0.018 + rate * 6.0 && rate * n == dunning
    ensures base * lift * n == lift * (4.0 * n + 0.018 * (monthly * n) + 6.0 * dunning)
  {
    assert base * n == 4.0 * n + 0.018 * (monthly * n) + 6.0 * dunning;
    assert base * lift * n == lift * (base * n);
  }

  /** What the derivation reads of a tier, on telemetry that parses. */
  lemma FactsParse(t: Snapshot, i: nat)
    requires EconomicsParse(t) && i < |TRACKED|
    ensures var p, s, f := t.pricing[TRACKED[i]], SubscriptionOf(t, TRACKED[i]), FactsOf(t, TRACKED[i]);
            && TRACKED[i] in t.pricing && s.active >= 0 && s.dunning >= 0 && 0.0 <= p.factor <= 1.0
            && f == TierFacts(p.monthly, p.factor, s.active, s.dunning, LlmOf(t, TRACKED[i]).totalCost)
            && f.Gross() == p.monthly * s.active as real
  {
    hide SubscriptionOf, LlmOf;
    assert TierParses(t, TRACKED[i]);
    MulNonNegative(t.pricing[TRACKED[i]].monthly, SubscriptionOf(t, TRACKED[i]).active as real);
  }

  function GrossOf(t: Snapshot, i: nat): real
    requires i < |TRACKED| && TRACKED[i] in t.pricing
  {
    t.pricing[TRACKED[i]].monthly * SubscriptionOf(t, TRACKED[i]).active as real
  }

  lemma TierCostsAre(t: Snapshot, i: nat)
    requires EconomicsParse(t) && i < |TRACKED|
    ensures Covers(t.pricing)
    ensures var c, tier, s, p := DerivedCosts(t), TRACKED[i], SubscriptionOf(t, TRACKED[i]), t.pricing[TRACKED[i]];
            && tier in c.annualMix && tier in c.infraPct && tier in c.supportPerSub
            && s.active >= 0 && s.dunning >= 0 && 0.0 <= p.factor <= 1.0
            && c.annualMix[tier] == AnnualMix(tier, s.active, p.factor)
            && c.infraPct[tier] == InfraPct(tier, LlmOf(t, tier).totalCost, GrossOf(t, i))
            && c.supportPerSub[tier] == SupportPerSub(tier, p.monthly, s.active, s.dunning)
  {
    hide AnnualMix, InfraPct, SupportPerSub, FactsOf, ProgressTo, SubscriptionOf, LlmOf, TierParses;
    forall k | 0 <= k < |TRACKED|
      ensures TRACKED[k] in t.pricing
    {
      FactsParse(t, k);
    }
    ProgressCovers(t, |TRACKED|);
    FactsParse(t, i);
  }

  lemma DerivedInfra(t: Snapshot, clock: Clock, i: nat, x: real)
    requires DerivationDefined(t) && i < |TRACKED| && InfraComesTo(i, LlmOf(t, TRACKED[i]).totalCost, GrossOf(t, i), x)
    ensures var c := Derived(t, clock).costs; TRACKED[i] in c.infraPct && ClampedNear(c.infraPct[TRACKED[i]], x, 4.5, 15.0, 0.005)
  {
    hide InfraPct, LlmOf, ClampedNear, GrossOf, InfraComesTo, AnnualMix, SupportPerSub, DerivedCosts, DerivedMetrics, UnitRows, TotalsOf, P95Parses;
    TierCostsAre(t, i);
    InfraOf(TRACKED[i], i, LlmOf(t, TRACKED[i]).totalCost, GrossOf(t, i), x);
  }

  lemma DerivedSupport(t: Snapshot, clock: Clock, i: nat, y: real)
    requires DerivationDefined(t) && i < |TRACKED|
    requires SupportComesTo(i, t.pricing[TRACKED[i]].monthly, SubscriptionOf(t, TRACKED[i]).active, SubscriptionOf(t, TRACKED[i]).dunning, y)
    ensures var c := Derived(t, clock).costs; TRACKED[i] in c.supportPerSub && ClampedNear(c.supportPerSub[TRACKED[i]], y, 4.0, 42.0, 0.005)
  {
    hide InfraPct, LlmOf, SubscriptionOf, ClampedNear, GrossOf, AnnualMix, SupportPerSub, DerivedCosts, DerivedMetrics, UnitRows, TotalsOf,
         P95Parses, SupportComesTo;
    TierCostsAre(t, i);
    var s := SubscriptionOf(t, TRACKED[i]);
    SupportOf(TRACKED[i], i, t.pricing[TRACKED[i]].monthly, s.active, s.dunning, y);
  }

  /** Four hundred times the annual mix: the tier's base, the subscriptions up to 100, and the discount up to 15 percent. */
  function ExactMix(i: nat, active: int, factor: real): real {
    (if i == 3 then 120.0 else 168.0) + Min(100.0, active as real) + (if factor >= 0.85 then 320.0 * (1.0 - factor) else 48.0)
  }

  lemma DerivedMix(t: Snapshot, clock: Clock, i: nat)
    requires DerivationDefined(t) && i < |TRACKED|
    ensures var c := Derived(t, clock).costs;
            TRACKED[i] in c.annualMix &&
            -2.0 <= 400.0 * c.annualMix[TRACKED[i]] - ExactMix(i, SubscriptionOf(t, TRACKED[i]).active, t.pricing[TRACKED[i]].factor) <= 2.0
  {
    hide InfraPct, LlmOf, SubscriptionOf, GrossOf, AnnualMix, SupportPerSub, DerivedCosts, DerivedMetrics, UnitRows, TotalsOf, P95Parses;
    TierCostsAre(t, i);
    MixOf(TRACKED[i], i, SubscriptionOf(t, TRACKED[i]).active, t.pricing[TRACKED[i]].factor);
  }

  // ----- the whole packet -----

  lemma ProgressStep(t: Snapshot, i: nat)
    requires EconomicsParse(t) && i < |TRACKED|
    ensures Covers(t.pricing) && TRACKED[i] in DerivedCosts(t).supportPerSub
    ensures var p, q := ProgressTo(t, i + 1), ProgressTo(t, i);
            && p.supportSum == q.supportSum + DerivedCosts(t).supportPerSub[TRACKED[i]]
            && p.llmSum == q.llmSum + LlmOf(t, TRACKED[i]).totalCost && p.grossSum == q.grossSum + GrossOf(t, i)
  {
    hide AnnualMix, InfraPct, SupportPerSub, FactsOf, SubscriptionOf, LlmOf, TierParses, DerivedCosts;
    TierCostsAre(t, i);
    FactsParse(t, i);
  }

  lemma NoProgress(t: Snapshot)
    requires Covers(t.pricing)
    ensures var p := ProgressTo(t, 0); p.supportSum == 0.0 && p.llmSum == 0.0 && p.grossSum == 0.0
  {
  }

  lemma ProgressTotals(t: Snapshot)
    requires EconomicsParse(t)
    ensures Covers(t.pricing) && forall i :: 0 <= i < |TRACKED| ==> TRACKED[i] in DerivedCosts(t).supportPerSub
    ensures var c, p := DerivedCosts(t), ProgressTo(t, |TRACKED|);
            && p.supportSum == c.supportPerSub[TRACKED[0]] + c.supportPerSub[TRACKED[1]] + c.supportPerSub[TRACKED[2]] + c.supportPerSub[TRACKED[3]]
            && p.llmSum == LlmOf(t, TRACKED[0]).totalCost + LlmOf(t, TRACKED[1]).totalCost
                           + LlmOf(t, TRACKED[2]).totalCost + LlmOf(t, TRACKED[3]).totalCost
            && p.grossSum == GrossOf(t, 0) + GrossOf(t, 1) + GrossOf(t, 2) + GrossOf(t, 3)
  {
    hide LlmOf, TierParses, DerivedCosts, ProgressTo, GrossOf;
    forall i | 0 <= i < |TRACKED|
      ensures TRACKED[i] in t.pricing
    {
      ProgressStep(t, i);
    }
    forall i | 0 <= i < |TRACKED|
      ensures TRACKED[i] in DerivedCosts(t).supportPerSub
    {
      ProgressStep(t, i);
    }
    NoProgress(t);
    ProgressStep(t, 0);
    ProgressStep(t, 1);
    ProgressStep(t, 2);
    ProgressStep(t, 3);
  }

  /** Support per dunning event: 1.4 times the mean of the four support costs. */
  lemma DerivedDunning(t: Snapshot, clock: Clock)
    requires DerivationDefined(t)
    ensures var c := Derived(t, clock).costs;
            && Covers(c.supportPerSub)
            && ClampedNear(c.supportPerDunning,
                           0.35 * (c.supportPerSub[TRACKED[0]] + c.supportPerSub[TRACKED[1]] + c.supportPerSub[TRACKED[2]] + c.supportPerSub[TRACKED[3]]),
                           12.0, 45.0, 0.005)
  {
    hide Round, Clamp, ClampedNear, ProgressTo, DerivedMetrics, UnitRows, TotalsOf, P95Parses, EconomicsParse, LlmOf, GrossOf;
    ProgressTotals(t);
    var sum := ProgressTo(t, |TRACKED|).supportSum;
    assert sum / 4.0 * 1.4 == 0.35 * sum;
    CentsNear(0.35 * sum, 12.0, 45.0, 1200, 4500);
  }

  /** 1.5 plus twice the share of usage cost in gross revenue, multiplied by the gross revenue. */
  predicate StressComesTo(usage: real, gross: real, x: real) {
    x * gross == 1.5 * gross + 2.0 * usage
  }

  lemma StressNear(usage: real, gross: real, x: real)
    requires gross > 0.0 && StressComesTo(usage, gross, x)
    ensures ClampedNear(Round(Clamp(1.5 + usage / gross * 2.0, 1.4, 2.5), PLACES2), x, 1.4, 2.5, 0.005)
  {
    hide Round, Clamp, ClampedNear;
    DivMul(usage, gross);
    SameQuotient(x, 1.5 + usage / gross * 2.0, gross, 1.5 * gross + 2.0 * usage);
    CentsNear(x, 1.4, 2.5, 140, 250);
  }

  lemma MultiplierNear(p: Progress, x: real)
    requires StressComesTo(p.llmSum, Max(p.grossSum, 1.0), x)
    ensures ClampedNear(StressMultiplierFrom(p), x, 1.4, 2.5, 0.005)
  {
    hide Round, Clamp, ClampedNear, StressComesTo;
    StressNear(p.llmSum, Max(p.grossSum, 1.0), x);
  }

  lemma DerivedStress(t: Snapshot, clock: Clock, x: real)
    requires DerivationDefined(t)
    requires StressComesTo(LlmOf(t, TRACKED[0]).totalCost + LlmOf(t, TRACKED[1]).totalCost + LlmOf(t, TRACKED[2]).totalCost + LlmOf(t, TRACKED[3]).totalCost,
                           Max(GrossOf(t, 0) + GrossOf(t, 1) + GrossOf(t, 2) + GrossOf(t, 3), 1.0), x)
    ensures ClampedNear(Derived(t, clock).stressMultiplier, x, 1.4, 2.5, 0.005)
  {
    hide ClampedNear, ProgressTo, DerivedMetrics, UnitRows, TotalsOf, P95Parses, EconomicsParse, LlmOf, GrossOf, DerivedCosts,
         StressComesTo, StressMultiplierFrom;
    ProgressTotals(t);
    MultiplierNear(ProgressTo(t, |TRACKED|), x);
  }

  /** 0.8 times what the ratio of neighbouring tiers exceeds its typical value by, multiplied by the lower tier. */
  predicate SignalComesTo(upper: int, lower: int, typical: real, x: real) {
    x * Max(lower as real, 1.0) == 0.8 * (upper as real - typical * Max(lower as real, 1.0))
  }

  lemma SignalNear(upper: nat, lower: nat, typical: real, x: real)
    requires SignalComesTo(upper, lower, typical, x)
    ensures ClampedNear(DeltaSignal(upper, lower, typical), x, -3.0, 3.0, 0.00005)
  {
    hide Round, OnGrid, Clamp, ClampedNear;
    var n := Max(lower as real, 1.0);
    DivMul(upper as real, n);
    var ratio := upper as real / n;
    SameQuotient(x, (ratio - typical) * 0.8, n, 0.8 * (upper as real - typical * n));
    IntegerOnGrid(-3, 10000);
    IntegerOnGrid(3, 10000);
    assert 0.5 / PLACES4 == 0.00005;
    RoundedClampNear(x, -3.0, 3.0, PLACES4, 0.00005);
  }

  lemma ConversionIs(t: Snapshot)
    requires EconomicsParse(t)
    ensures var growth, pro, enterprise :=
              SubscriptionOf(t, TRACKED[1]).active, SubscriptionOf(t, TRACKED[2]).active, SubscriptionOf(t, TRACKED[3]).active;
            && growth >= 0 && pro >= 0 && enterprise >= 0
            && ConversionFrom(t) == Conversion(DeltaSignal(pro, growth, 0.25), DeltaSignal(enterprise, pro, 0.15))
  {
    hide SubscriptionOf, DeltaSignal, LlmOf;
    assert TierParses(t, TRACKED[1]) && TierParses(t, TRACKED[2]) && TierParses(t, TRACKED[3]);
  }

  /** The two conversion signals. */
  lemma DerivedSignals(t: Snapshot, clock: Clock, x: real, y: real)
    requires DerivationDefined(t)
    requires SignalComesTo(SubscriptionOf(t, TRACKED[2]).active, SubscriptionOf(t, TRACKED[1]).active, 0.25, x)
    requires SignalComesTo(SubscriptionOf(t, TRACKED[3]).active, SubscriptionOf(t, TRACKED[2]).active, 0.15, y)
    ensures ClampedNear(Derived(t, clock).conversion.growthToPro, x, -3.0, 3.0, 0.00005)
    ensures ClampedNear(Derived(t, clock).conversion.proToEnterprise, y, -3.0, 3.0, 0.00005)
  {
    hide ClampedNear, DerivedMetrics, DerivedCosts, UnitRows, TotalsOf, P95Parses, SubscriptionOf, EconomicsParse, DeltaSignal, ConversionFrom,
         SignalComesTo;
    ConversionIs(t);
    var growth: nat, pro: nat, enterprise: nat :=
      SubscriptionOf(t, TRACKED[1]).active, SubscriptionOf(t, TRACKED[2]).active, SubscriptionOf(t, TRACKED[3]).active;
    SignalNear(pro, growth, 0.25, x);
    SignalNear(enterprise, pro, 0.15, y);
  }

  /** The metrics report the signals unchanged. */
  lemma SignalsReported(t: Snapshot, clock: Clock)
    requires DerivationDefined(t)
    ensures DerivedMetrics(t).growthToPro == Derived(t, clock).conversion.growthToPro
    ensures DerivedMetrics(t).proToEnterprise == Derived(t, clock).conversion.proToEnterprise
  {
    hide Round, UnitRows, TotalsOf, P95Parses, SubscriptionOf, EconomicsParse, SafeMargin, WorstShare, DeltaSignal, SumRows, Index, DerivedCosts;
    ConversionIs(t);
    var growth: nat, pro: nat, enterprise: nat :=
      SubscriptionOf(t, TRACKED[1]).active, SubscriptionOf(t, TRACKED[2]).active, SubscriptionOf(t, TRACKED[3]).active;
    SignalOnGrid(pro, growth, 0.25);
    SignalOnGrid(enterprise, pro, 0.15);
  }

  lemma SignalOnGrid(upper: nat, lower: nat, typical: real)
    ensures Round(DeltaSignal(upper, lower, typical), PLACES4) == DeltaSignal(upper, lower, typical)
  {
    hide Round;
    RoundIdempotent(Clamp((upper as real / Max(lower as real, 1.0) - typical) * 0.8, -3.0, 3.0), PLACES4);
  }

  // ----- thresholds, history and the alternative of self-hosting -----

  /** A grid point clamped between grid points is not moved by rounding. */
  lemma ClampOnGrid(x: real, lo: real, hi: real, s: Scale)
    requires lo <= hi && OnGrid(x, s) && OnGrid(lo, s) && OnGrid(hi, s)
    ensures Round(Clamp(x, lo, hi), s) == Clamp(x, lo, hi)
  {
    hide Round, OnGrid;
    RoundExactOnGrid(Clamp(x, lo, hi), s);
  }

  lemma FloorFollows(margin: real, slack: real, slackCents: int, minimum: real, minimumCents: int)
    requires OnGrid(margin, PLACES2) && slack * 100.0 == slackCents as real && minimum * 100.0 == minimumCents as real && minimum <= 86.0
    ensures MarginFloor(margin, slack, minimum) == Clamp(margin - slack, minimum, 86.0)
  {
    hide Round, OnGrid, Clamp;
    CentsOnGrid(slack, slackCents);
    CentsOnGrid(minimum, minimumCents);
    CentsOnGrid(86.0, 8600);
    GridSum(margin, slack, PLACES2);
    ClampOnGrid(margin - slack, minimum, 86.0, PLACES2);
  }

  lemma DiscountCapFollows(discount: real)
    requires OnGrid(discount, PLACES2)
    ensures Round(Clamp(Max(discount + 3.0, 12.0), 10.0, 35.0), PLACES2) == Clamp(Max(discount + 3.0, 12.0), 10.0, 35.0)
  {
    hide Round, OnGrid, Clamp;
    CentsOnGrid(3.0, 300);
    CentsOnGrid(10.0, 1000);
    CentsOnGrid(12.0, 1200);
    CentsOnGrid(35.0, 3500);
    GridSum(discount, 3.0, PLACES2);
    ClampOnGrid(Max(discount + 3.0, 12.0), 10.0, 35.0, PLACES2);
  }

  lemma DeltaFloorFollows(delta: real)
    requires OnGrid(delta, PLACES4) && -3.0 <= delta <= 3.0
    ensures Round(Clamp(delta - 0.2, -5.0, 5.0), PLACES4) == delta - 0.2
  {
    hide Round, OnGrid;
    assert OnGrid(0.2, PLACES4) by { FifthOnGrid(); }
    GridSum(delta, 0.2, PLACES4);
    RoundExactOnGrid(delta - 0.2, PLACES4);
  }

  lemma FifthOnGrid()
    ensures OnGrid(0.2, PLACES4)
  {
    assert 0.2 * PLACES4 == 2000.0;
  }

  lemma PreviousFollows(blended: real, floor: real)
    requires OnGrid(blended, PLACES2) && OnGrid(floor, PLACES2)
    ensures PreviousMargin(blended, floor) == Clamp(Max(blended + 1.0, floor + 0.5), 45.0, 95.0)
  {
    hide Round, OnGrid, Clamp;
    CentsOnGrid(1.0, 100);
    CentsOnGrid(0.5, 50);
    CentsOnGrid(45.0, 4500);
    CentsOnGrid(95.0, 9500);
    GridSum(blended, 1.0, PLACES2);
    GridSum(floor, 0.5, PLACES2);
    ClampOnGrid(Max(blended + 1.0, floor + 0.5), 45.0, 95.0, PLACES2);
  }

  /** What each threshold leaves to its metric, and the close invented for the month before. */
  ghost predicate ThresholdsFollow(m: Metrics, th: Thresholds, previous: real) {
    && th.minBlended == (if m.blended <= 62.5 then 60.0 else if m.blended >= 88.5 then 86.0 else m.blended - 2.5)
    && th.minStress == (if m.stress <= 48.0 then 45.0 else if m.stress >= 89.0 then 86.0 else m.stress - 3.0)
    && th.maxDiscount == (if m.discount <= 9.0 then 12.0 else if m.discount >= 32.0 then 35.0 else m.discount + 3.0)
    && ClampedNear(th.maxP95Share, if m.p95Share <= 10.0 then m.p95Share + 2.0 else 1.2 * m.p95Share, 6.0, 35.0, 0.005)
    && th.minGrowthToPro == m.growthToPro - 0.2
    && th.minProToEnterprise == m.proToEnterprise - 0.2
    && th.requiredCloses == 2
    && previous == (if m.blended <= 59.5 then 60.5 else if m.blended >= 94.0 then 95.0 else m.blended + 1.0)
  }

  lemma ThresholdsFromFollow(m: Metrics)
    requires MetricsOnGrid(m) && m.p95Share >= 0.0
    requires -3.0 <= m.growthToPro <= 3.0 && -3.0 <= m.proToEnterprise <= 3.0
    ensures ThresholdsFollow(m, ThresholdsFrom(m), PreviousMargin(m.blended, ThresholdsFrom(m).minBlended))
  {
    hide Round, OnGrid, ClampedNear;
    FloorFollows(m.blended, 2.5, 250, 60.0, 6000);
    FloorFollows(m.stress, 3.0, 300, 45.0, 4500);
    DiscountCapFollows(m.discount);
    CentsNear(Max(m.p95Share + 2.0, m.p95Share * 1.2), 6.0, 35.0, 600, 3500);
    DeltaFloorFollows(m.growthToPro);
    DeltaFloorFollows(m.proToEnterprise);
    FloorIsGridPoint(m.blended, 2.5, 60.0);
    PreviousFollows(m.blended, MarginFloor(m.blended, 2.5, 60.0));
  }

  lemma DerivedThresholds(t: Snapshot, clock: Clock)
    requires DerivationDefined(t)
    ensures |Derived(t, clock).closes| == 1 && Derived(t, clock).closes[0].month == clock.previousMonth
    ensures ThresholdsFollow(DerivedMetrics(t), Derived(t, clock).thresholds, Derived(t, clock).closes[0].margin)
  {
    hide ThresholdsFollow, ThresholdsFrom, PreviousMargin, DerivedMetrics, MetricsOnGrid, UnitRows, TotalsOf, P95Parses, EconomicsParse;
    DerivedMetricFacts(t);
    ThresholdsFromFollow(DerivedMetrics(t));
  }

  /** A share of the yearly revenue, but not less than a fixed sum. */
  ghost predicate ShareOrLeast(written: real, arr: real, share: real, least: real) {
    && (share * arr <= least ==> written == least)
    && (share * arr >= least ==> -0.005 <= written - share * arr <= 0.005)
  }

  lemma ShareOrLeastOf(arr: real, share: real, least: real, leastUsd: int)
    requires least == leastUsd as real
    ensures ShareOrLeast(Round(Max(least, arr * share), PLACES2), arr, share, least)
  {
    hide Round;
    IntegerOnGrid(leastUsd, 100);
    RoundExactOnGrid(least, PLACES2);
    RoundWithinHalfUnit(arr * share, PLACES2);
    assert 0.5 / PLACES2 == 0.005;
    assert arr * share == share * arr;
  }

  /** The yearly cost of self-hosting, from twelve months of the packet's effective revenue. */
  lemma DerivedSelfHosted(t: Snapshot, clock: Clock)
    requires DerivationDefined(t)
    ensures var h, arr := Derived(t, clock).selfHosted, 12.0 * TotalsOf(UnitRows(t, DerivedCosts(t))).effective;
            && ShareOrLeast(h.staffing, arr, 0.28, 220000.0)
            && ShareOrLeast(h.oncall, arr, 0.055, 70000.0)
            && ShareOrLeast(h.security, arr, 0.035, 45000.0)
            && ShareOrLeast(h.infraOps, arr, 0.045, 55000.0)
            && ShareOrLeast(h.tooling, arr, 0.018, 22000.0)
  {
    hide Round, ShareOrLeast, TotalsOf, UnitRows, ThresholdsFrom, PreviousMargin, DerivedMetrics, CostsFrom, ProgressTo, P95Parses, EconomicsParse;
    var arr := TotalsOf(UnitRows(t, DerivedCosts(t))).effective * 12.0;
    ShareOrLeastOf(arr, 0.28, 220000.0, 220000);
    ShareOrLeastOf(arr, 0.055, 70000.0, 70000);
    ShareOrLeastOf(arr, 0.035, 45000.0, 45000);
    ShareOrLeastOf(arr, 0.045, 55000.0, 55000);
    ShareOrLeastOf(arr, 0.018, 22000.0, 22000);
  }

  lemma BaselineScenario(i: nat)
    requires i < |TRACKED|
    ensures Moved(DEFAULT_SCENARIOS[0], i, 0, 0)
  {
    assert i == 0 || i == 1 || i == 2 || i == 3;
  }

  lemma PriceScenario()
    ensures var sc := DEFAULT_SCENARIOS[1]; Moved(sc, 0, 0, 0) && Moved(sc, 1, -1, 0) && Moved(sc, 2, -4, 15) && Moved(sc, 3, 2, 0)
  {
  }

  lemma ExpansionScenario()
    ensures var sc := DEFAULT_SCENARIOS[2]; Moved(sc, 0, 0, 0) && Moved(sc, 1, 1, 0) && Moved(sc, 2, 3, 0) && Moved(sc, 3, 8, 0)
  {
  }

  /** The first scenario is the baseline; the others move the named multipliers by the named percentages. */
  lemma DerivedScenarios(t: Snapshot, clock: Clock)
    requires DerivationDefined(t)
    ensures var a := Derived(t, clock);
            && a.capturedAt == clock.now
            && (t.window.name != "" ==> a.sourceName == t.window.name) && (t.window.name == "" ==> a.sourceName == clock.today)
            && |a.scenarios| == 3
            && (forall i :: 0 <= i < |TRACKED| ==> Moved(a.scenarios[0], i, 0, 0))
            && Moved(a.scenarios[1], 0, 0, 0) && Moved(a.scenarios[1], 1, -1, 0) && Moved(a.scenarios[1], 2, -4, 15) && Moved(a.scenarios[1], 3, 2, 0)
            && Moved(a.scenarios[2], 0, 0, 0) && Moved(a.scenarios[2], 1, 1, 0) && Moved(a.scenarios[2], 2, 3, 0) && Moved(a.scenarios[2], 3, 8, 0)
  {
    hide ThresholdsFrom, PreviousMargin, DerivedMetrics, DerivedCosts, TotalsOf, UnitRows, SelfHostedFrom, ConversionFrom, StressMultiplierFrom,
         P95Parses, EconomicsParse, Moved, ProgressTo;
    forall i | 0 <= i < |TRACKED|
      ensures Moved(DEFAULT_SCENARIOS[0], i, 0, 0)
    {
      BaselineScenario(i);
    }
    PriceScenario();
    ExpansionScenario();
  }

  /** The scenario moves a tier's subscriptions and price by whole percentages. */
  ghost predicate Moved(sc: Scenario, i: nat, subscriptions: int, price: int)
    requires i < |TRACKED|
  {
    && TRACKED[i] in sc.subscriptionMult && 100.0 * sc.subscriptionMult[TRACKED[i]] == 100.0 + subscriptions as real
    && TRACKED[i] in sc.priceMult && 100.0 * sc.priceMult[TRACKED[i]] == 100.0 + price as real
  }
}
