/** The collector and the snapshot verifier, written apart, agree on all but one family of inputs. */
module SnapshotAgreement {
  import opened Outcomes
  import opened Rounding
  import opened Tiers
  import opened Telemetry
  import opened Percentiles
  import opened SnapshotVerifier
  import opened SnapshotCollector

  /** Four-decimal prices with an annual price of at most twelve months. */
  ghost predicate SanePrices(p: Prices) {
    p.monthly >= 0.0 && p.annual >= 0.0 && p.annual <= p.monthly * 12.0 && OnGrid(p.monthly, PLACES4) && OnGrid(p.annual, PLACES4)
  }

  predicate SaneSubscription(s: Subscription) {
    0 <= s.active <= s.totalTenants && s.dunning >= 0
  }

  ghost predicate SaneInputs(x: Inputs) {
    && Configured(x.prices)
    && (forall k :: 0 <= k < |COLLECTED| ==> SanePrices(Resolve(COLLECTED[k], x.prices[COLLECTED[k]])))
    && (forall i :: 0 <= i < |x.subscriptionRows| ==> SaneSubscription(x.subscriptionRows[i].data))
    && (forall i :: 0 <= i < |x.costRows| ==> x.costRows[i].data >= 0.0)
    && x.limits != [] && (forall i :: 0 <= i < |x.limits| ==> x.limits[i].name != "")
    && x.name != "" && x.windowStart < x.windowEndExclusive
  }

  // ----- prices -----

  lemma FactorRange(p: Prices)
    requires p.monthly >= 0.0 && p.annual >= 0.0 && p.annual <= p.monthly * 12.0
    ensures 0.0 <= AnnualFactor(p) <= 1.0
  {
    if p.monthly > 0.0 && p.annual > 0.0 {
      var year := p.monthly * 12.0;
      var q := p.annual / year;
      DivMul(p.annual, year);
      UnitFactor(q, year, p.annual);
      assert AnnualFactor(p) == q;
    }
  }

  lemma UnitIntervalOnGrid()
    ensures OnGrid(0.0, PLACES6) && OnGrid(1.0, PLACES6)
  {
    IntegerOnGrid(0, 1000000);
    IntegerOnGrid(1, 1000000);
  }

  lemma SanePricingAccepted(p: Prices)
    requires SanePrices(p)
    ensures PricingAccepted(PricingFor(p))
  {
    hide Round, OnGrid, AnnualFactor, ExpectedFactor;
    RoundExactOnGrid(p.monthly, PLACES4);
    RoundExactOnGrid(p.annual, PLACES4);
    FactorRange(p);
    UnitIntervalOnGrid();
    RoundAgainstGridPoint(AnnualFactor(p), 0.0, PLACES6);
    RoundAgainstGridPoint(AnnualFactor(p), 1.0, PLACES6);
    RoundIdempotent(AnnualFactor(p), PLACES6);
    if p.monthly > 0.0 && p.annual > 0.0 {
      SameFactor(p);
    }
  }

  lemma SameFactor(p: Prices)
    requires p.monthly > 0.0 && p.annual > 0.0
    ensures AnnualFactor(p) == ExpectedFactor(p.monthly, p.annual)
  {
  }

  // ----- usage and subscriptions -----

  lemma {:induction false} CostsNonNegative(rows: seq<Row<real>>, tier: TierKey)
    requires forall i :: 0 <= i < |rows| ==> rows[i].data >= 0.0
    ensures forall i :: 0 <= i < |CostsOf(rows, tier)| ==> CostsOf(rows, tier)[i] >= 0.0
  {
    if rows != [] {
      CostsNonNegative(rows[..|rows| - 1], tier);
    }
  }

  lemma {:induction false} SumNonNegative(values: seq<real>)
    requires forall i :: 0 <= i < |values| ==> values[i] >= 0.0
    ensures Sum(values) >= 0.0
  {
    if values != [] {
      SumNonNegative(values[..|values| - 1]);
    }
  }

  /** Percentiles are ordered on any costs; only their sign needs the costs to be non-negative. */
  lemma UsageOrdered(values: seq<real>)
    ensures PercentilesOrdered(UsageFrom(values))
  {
    hide Round, Percentile;
    RoundedPercentilesOrdered(values, 50.0, 95.0);
    RoundedPercentilesOrdered(values, 95.0, 99.0);
  }

  lemma UsageParsesWhenSane(values: seq<real>)
    requires forall i :: 0 <= i < |values| ==> values[i] >= 0.0
    ensures var u := UsageFrom(values); u.totalCost >= 0.0 && u.p50 >= 0.0 && u.p95 >= 0.0 && u.p99 >= 0.0
  {
    hide Round, Percentile;
    SumNonNegative(values);
    PercentileNonNegative(values, 50.0);
    PercentileNonNegative(values, 95.0);
    PercentileNonNegative(values, 99.0);
    RoundNonNegative(Sum(values), PLACES6);
    RoundNonNegative(Percentile(values, 50.0), PLACES6);
    RoundNonNegative(Percentile(values, 95.0), PLACES6);
    RoundNonNegative(Percentile(values, 99.0), PLACES6);
  }

  lemma SaneSubscribers(x: Inputs, tier: TierKey)
    requires SaneInputs(x)
    ensures SaneSubscription(Subscribers(x.subscriptionRows, tier))
  {
    hide Index, SanePrices;
    if tier in Index(x.subscriptionRows) {
      IndexedFromRow(x.subscriptionRows, tier);
    }
  }

  lemma SaneRows(x: Inputs, k: int)
    requires SaneInputs(x) && 0 <= k < |COLLECTED|
    ensures SubscriptionAccepted(SubscriptionRowsOf(x)[k])
    ensures UsageParses(UsageRowsOf(x)[k]) && PercentilesOrdered(UsageRowsOf(x)[k].data)
  {
    hide UsageFrom, CostsOf, Subscribers, SanePrices;
    var tier := COLLECTED[k];
    assert tier != Blank by { assert k == 0 || k == 1 || k == 2 || k == 3 || k == 4; }
    SaneSubscribers(x, tier);
    CostsNonNegative(x.costRows, tier);
    UsageParsesWhenSane(CostsOf(x.costRows, tier));
    UsageOrdered(CostsOf(x.costRows, tier));
  }

  lemma KeyedRowsPresent<T>(rows: seq<Row<T>>)
    requires |rows| == |COLLECTED| && forall k :: 0 <= k < |COLLECTED| ==> rows[k].tier == COLLECTED[k]
    ensures AllKeysPresent(rows)
  {
    forall k | 0 <= k < |COLLECTED|
      ensures KeyPresent(rows, COLLECTED[k])
    {
      assert rows[k].tier == COLLECTED[k];
    }
  }

  lemma PayloadRowsAccepted(x: Inputs)
    requires SaneInputs(x)
    ensures PricingsAccepted(PricingReference(x.prices))
    ensures SubscriptionsAccepted(SubscriptionRowsOf(x)) && UsagesAccepted(UsageRowsOf(x))
  {
    hide PricingFor, PricingAccepted, UsageFrom, CostsOf, Subscribers, SanePrices, SubscriptionAccepted, UsageParses, PercentilesOrdered;
    forall k | 0 <= k < |COLLECTED|
      ensures PricingAccepted(PricingReference(x.prices)[COLLECTED[k]])
    {
      SanePricingAccepted(Resolve(COLLECTED[k], x.prices[COLLECTED[k]]));
    }
    forall k | 0 <= k < |COLLECTED|
      ensures SubscriptionAccepted(SubscriptionRowsOf(x)[k])
      ensures UsageParses(UsageRowsOf(x)[k]) && PercentilesOrdered(UsageRowsOf(x)[k].data)
    {
      SaneRows(x, k);
    }
    KeyedRowsPresent(SubscriptionRowsOf(x));
    KeyedRowsPresent(UsageRowsOf(x));
  }

  lemma PayloadGuardrailsAccepted(limits: seq<Limit>)
    requires limits != [] && forall i :: 0 <= i < |limits| ==> limits[i].name != ""
    ensures GuardrailsAccepted(GuardrailsFor(limits))
  {
  }

  // ----- the free-tier margin watch -----

  lemma RatioNonNegative(cost: real, gross: real)
    requires cost >= 0.0 && gross > 0.0
    ensures ExactRatio(cost, gross) >= 0.0
  {
    DivMul(cost, gross);
    FactorBounds(cost / gross, gross);
  }

  lemma RatioForNonNegative(cost: real, gross: real)
    requires cost >= 0.0
    ensures RatioFor(cost, gross).Some? ==> RatioFor(cost, gross).value >= 0.0
  {
    hide Round, ExactRatio;
    RoundNonNegative(0.0, PLACES6);
    if gross > 0.0 {
      RatioNonNegative(cost, gross);
      RoundNonNegative(ExactRatio(cost, gross), PLACES6);
    }
  }

  lemma RatioIsAccepted(w: MarginWatch)
    requires w.freeCost >= 0.0 && w.ratio == RatioFor(w.freeCost, w.starterGross)
    ensures RatioAccepted(w)
  {
    hide Round, OnGrid;
    UnitIntervalOnGrid();
    RoundExactOnGrid(0.0, PLACES6);
    if w.starterGross > 0.0 {
      assert ExactRatio(w.freeCost, w.starterGross) == w.freeCost / w.starterGross * 100.0;
      RoundIdempotent(ExactRatio(w.freeCost, w.starterGross), PLACES6);
    }
  }

  /** The free tier costs more than the starter revenue, but by less than the sixth decimal of a percent shows. */
  predicate HiddenOverrun(cost: real, gross: real) {
    gross > 0.0 && ExactRatio(cost, gross) > MAX_FREE_COST_PCT && Round(ExactRatio(cost, gross), PLACES6) == MAX_FREE_COST_PCT
  }

  lemma GuardVerdicts(w: MarginWatch, cost: real, gross: real)
    requires w.starterGross == gross && w.freeCost == cost && w.ratio == RatioFor(cost, gross) && w.maxPct == MAX_FREE_COST_PCT
    ensures WatchGuarded(w) == CollectorGuarded(cost, gross) <==> !HiddenOverrun(cost, gross)
  {
    hide Round, OnGrid, ExactRatio;
    if gross > 0.0 {
      IntegerOnGrid(100, 1000000);
      RoundAgainstGridPoint(ExactRatio(cost, gross), MAX_FREE_COST_PCT, PLACES6);
    }
  }

  lemma CollectedAmountsOnGrid(x: Inputs)
    requires Configured(x.prices)
    ensures Round(Usage(x.costRows, Free).totalCost, PLACES6) == Usage(x.costRows, Free).totalCost
    ensures Round(StarterGross(x), PLACES6) == StarterGross(x)
  {
    hide Round, CostsOf, Percentile, PricingReference, Subscribers;
    RoundIdempotent(Sum(CostsOf(x.costRows, Free)), PLACES6);
    var monthly, active := PricingReference(x.prices)[COLLECTED[1]].monthly, Subscribers(x.subscriptionRows, COLLECTED[1]).active;
    RoundIdempotent(monthly * active as real, PLACES6);
    RevenueRounded(monthly, active);
  }

  lemma RevenueRounded(monthly: real, active: int)
    ensures RevenueFor(monthly, active).grossMrr == Round(monthly * active as real, PLACES6)
  {
  }

  lemma StarterGrossNonNegative(x: Inputs)
    requires SaneInputs(x)
    ensures StarterGross(x) >= 0.0
  {
    hide Round, PricingFor, Subscribers, SanePrices, OnGrid;
    var monthly, active := PricingReference(x.prices)[COLLECTED[1]].monthly, Subscribers(x.subscriptionRows, COLLECTED[1]).active;
    SaneSubscribers(x, COLLECTED[1]);
    SanePricingAccepted(Resolve(COLLECTED[1], x.prices[COLLECTED[1]]));
    PriceNonNegative(PricingReference(x.prices)[COLLECTED[1]]);
    MulNonNegative(monthly, active as real);
    RoundNonNegative(monthly * active as real, PLACES6);
    RevenueRounded(monthly, active);
  }

  lemma PriceNonNegative(p: Pricing)
    requires PricingAccepted(p)
    ensures p.monthly >= 0.0
  {
  }

  lemma PayloadWatchParses(x: Inputs)
    requires SaneInputs(x)
    ensures var w := WatchFor(Subscribers(x.subscriptionRows, Free), Usage(x.costRows, Free), StarterGross(x));
            WatchParses(w) && RatioAccepted(w) && w.freeCost == Usage(x.costRows, Free).totalCost && w.starterGross == StarterGross(x)
  {
    hide Round, UsageFrom, CostsOf, StarterGross, Subscribers, RatioFor, RatioAccepted, SanePrices;
    CollectedAmountsOnGrid(x);
    StarterGrossNonNegative(x);
    SaneSubscribers(x, Free);
    CostsNonNegative(x.costRows, Free);
    UsageParsesWhenSane(CostsOf(x.costRows, Free));
    RoundNonNegative(Usage(x.costRows, Free).p95, PLACES6);
    RatioForNonNegative(Usage(x.costRows, Free).totalCost, StarterGross(x));
    RatioIsAccepted(WatchFor(Subscribers(x.subscriptionRows, Free), Usage(x.costRows, Free), StarterGross(x)));
  }

  // ----- agreement -----

  /**
    On sane inputs captured after the window, the verifier accepts the collected snapshot exactly
    when it is fresh and the free-tier cost does not overrun the starter revenue by an amount
    that rounding hides; there the two guard verdicts differ.
   */
  lemma CollectorVerifierAgreement(x: Inputs, now: int, later: int, maxAge: Option<real>)
    requires SaneInputs(x) && x.windowEndExclusive - 1 <= now
    ensures SnapshotAccepted(Collected(x, now), later, maxAge) <==>
            FreshEnough(later, now, maxAge) && !HiddenOverrun(Usage(x.costRows, Free).totalCost, StarterGross(x))
  {
    hide PricingReference, SubscriptionRowsOf, UsageRowsOf, RevenueRowsOf, Usage, StarterGross, Subscribers, WatchParses, RatioAccepted,
         PricingsAccepted, SubscriptionsAccepted, UsagesAccepted, GuardrailsAccepted, CollectorGuarded, FreshEnough, HiddenOverrun,
         SanePrices, LimitsBounded, RatioFor, Round, WatchGuarded;
    PayloadRowsAccepted(x);
    PayloadGuardrailsAccepted(x.limits);
    PayloadWatchParses(x);
    var w := Collected(x, now).watch;
    GuardVerdicts(w, Usage(x.costRows, Free).totalCost, StarterGross(x));
  }

  /** The fallback price list. */
  const LIST_PRICES: map<TierKey, Prices> := map[
    Free := Prices(0.0, 0.0), Starter := Prices(49.0, 490.0), Growth := Prices(149.0, 1490.0),
    Pro := Prices(299.0, 2990.0), Enterprise := Prices(799.0, 7990.0)]

  /** Ten starter subscriptions at 49 and a free tier that costs 490.000001. */
  const OVERRUN: Inputs := Inputs(
    0, 1, "month", LIST_PRICES, [Limit("llm_analyses_per_day", 1, 2)],
    [Row(Starter, Subscription(10, 10, 0))], [Row(Free, 490.000001)])

  lemma WholeDollarsOnGrid(k: int)
    ensures OnGrid(k as real, PLACES4) && Round(k as real, PLACES4) == k as real
  {
    IntegerOnGrid(k, 10000);
    RoundExactOnGrid(k as real, PLACES4);
  }

  lemma ListPricesSane(k: int)
    requires 0 <= k < |COLLECTED|
    ensures COLLECTED[k] in LIST_PRICES && SanePrices(Resolve(COLLECTED[k], LIST_PRICES[COLLECTED[k]]))
  {
    hide OnGrid, Round;
    WholeDollarsOnGrid(0);
    WholeDollarsOnGrid(49);
    WholeDollarsOnGrid(490);
    WholeDollarsOnGrid(149);
    WholeDollarsOnGrid(1490);
    WholeDollarsOnGrid(299);
    WholeDollarsOnGrid(2990);
    WholeDollarsOnGrid(799);
    WholeDollarsOnGrid(7990);
    assert k == 0 || k == 1 || k == 2 || k == 3 || k == 4;
  }

  /** A paid tier without prices has its list prices; without an annual price it has that one. */
  lemma MissingPrices(k: int, monthly: real, annual: real)
    requires 0 < k < |COLLECTED|
    ensures COLLECTED[k] in LIST_PRICES
    ensures monthly <= 0.0 ==> Resolve(COLLECTED[k], Prices(monthly, annual)) == LIST_PRICES[COLLECTED[k]]
    ensures monthly > 0.0 && annual <= 0.0 ==>
      Resolve(COLLECTED[k], Prices(monthly, annual)) == Prices(monthly, LIST_PRICES[COLLECTED[k]].annual)
    ensures monthly > 0.0 && annual > 0.0 ==> Resolve(COLLECTED[k], Prices(monthly, annual)) == Prices(monthly, annual)
  {
    assert k == 1 || k == 2 || k == 3 || k == 4;
  }

  lemma OverrunIsSane()
    ensures SaneInputs(OVERRUN)
  {
    hide SanePrices, Resolve;
    forall k | 0 <= k < |COLLECTED|
      ensures COLLECTED[k] in LIST_PRICES && SanePrices(Resolve(COLLECTED[k], LIST_PRICES[COLLECTED[k]]))
    {
      ListPricesSane(k);
    }
  }

  lemma OverrunAmounts()
    requires Configured(OVERRUN.prices)
    ensures Usage(OVERRUN.costRows, Free).totalCost == 490.000001 && StarterGross(OVERRUN) == 490.0
  {
    hide Round, Percentile;
    var rows := OVERRUN.costRows;
    assert rows[..0] == [];
    assert CostsOf(rows, Free) == [490.000001];
    assert [490.000001][..0] == [];
    assert Sum([490.000001]) == 490.000001;
    Micros(490.000001, 490000001);
    var subs := OVERRUN.subscriptionRows;
    assert subs[..0] == [];
    assert Subscribers(subs, Starter) == Subscription(10, 10, 0);
    WholeDollarsOnGrid(49);
    assert PricingReference(OVERRUN.prices)[COLLECTED[1]].monthly == 49.0;
    Micros(490.0, 490000000);
  }

  lemma Micros(x: real, k: int)
    requires x * 1000000.0 == k as real
    ensures Round(x, PLACES6) == x
  {
    assert x * PLACES6 == k as real;
    FloorOfInteger(k);
    RoundExactOnGrid(x, PLACES6);
  }

  lemma OverrunRatio()
    ensures HiddenOverrun(490.000001, 490.0)
  {
    hide OnGrid;
    var r := ExactRatio(490.000001, 490.0);
    assert 100.0 < r < 100.0000004;
    assert 99999999.5 < r * 1000000.0 < 100000000.5;
    NearestHundred(r);
  }

  lemma NearestHundred(r: real)
    requires 99999999.5 < r * 1000000.0 < 100000000.5
    ensures Round(r, PLACES6) == 100.0
  {
    assert r * PLACES6 == r * 1000000.0;
    assert Nearest(r * 1000000.0) == 100000000;
  }

  /** The verifier rejects this snapshot, however it is timed: the two guard verdicts differ. */
  lemma SnapshotCanBeRejected(now: int, later: int, maxAge: Option<real>)
    requires now >= 0
    ensures SaneInputs(OVERRUN) && !SnapshotAccepted(Collected(OVERRUN, now), later, maxAge)
  {
    hide SaneInputs, SnapshotAccepted, HiddenOverrun, Usage, StarterGross;
    OverrunIsSane();
    assert Configured(OVERRUN.prices) by { OverrunConfigured(); }
    OverrunAmounts();
    OverrunRatio();
    CollectorVerifierAgreement(OVERRUN, now, later, maxAge);
  }

  lemma OverrunConfigured()
    ensures Configured(OVERRUN.prices)
  {
  }
}
