/** The telemetry collector: price reference, query results, guardrails and the snapshot payload. */
module SnapshotCollector {
  import opened Outcomes
  import opened Rounding
  import opened Tiers
  import opened Telemetry
  import opened Percentiles
  import opened SnapshotVerifier

  datatype Prices = Prices(monthly: real, annual: real)
  datatype Limit = Limit(name: string, free: int, starter: int)

  /** Tier configuration, query results and window of one collection. */
  datatype Inputs = Inputs(
    windowStart: int,
    windowEndExclusive: int,
    name: string,
    prices: map<TierKey, Prices>,
    limits: seq<Limit>,
    subscriptionRows: seq<Row<Subscription>>,
    costRows: seq<Row<real>>)

  const MAX_FREE_COST_PCT: real := 100.0

  ghost predicate Configured(prices: map<TierKey, Prices>) {
    forall k :: 0 <= k < |COLLECTED| ==> COLLECTED[k] in prices
  }

  // ----- pricing reference -----

  function Fallback(tier: TierKey): Option<Prices> {
    match tier
    case Starter => Some(Prices(49.0, 490.0))
    case Growth => Some(Prices(149.0, 1490.0))
    case Pro => Some(Prices(299.0, 2990.0))
    case Enterprise => Some(Prices(799.0, 7990.0))
    case _ => None
  }

  /** A paid tier without a monthly price takes both fallback prices, without an annual price only that one. */
  function Resolve(tier: TierKey, p: Prices): Prices {
    var fallback := Fallback(tier);
    if fallback.Some? && p.monthly <= 0.0 then fallback.value
    else if fallback.Some? && p.annual <= 0.0 then Prices(p.monthly, fallback.value.annual)
    else p
  }

  function AnnualFactor(p: Prices): real {
    if p.monthly > 0.0 && p.annual > 0.0 then p.annual / (p.monthly * 12.0) else 0.0
  }

  function PricingFor(p: Prices): Pricing {
    Pricing(Round(p.monthly, PLACES4), Round(p.annual, PLACES4), Round(AnnualFactor(p), PLACES6))
  }

  function PricingReference(prices: map<TierKey, Prices>): (reference: map<TierKey, Pricing>)
    requires Configured(prices)
    ensures forall k :: 0 <= k < |COLLECTED| ==>
              COLLECTED[k] in reference && reference[COLLECTED[k]] == PricingFor(Resolve(COLLECTED[k], prices[COLLECTED[k]]))
  {
    map tier | tier in COLLECTED :: PricingFor(Resolve(tier, prices[tier]))
  }

  method BuildPricing(monthly: real, annual: real) returns (p: Pricing)
    ensures p == PricingFor(Prices(monthly, annual))
  {
    var factor := 0.0;
    if monthly > 0.0 && annual > 0.0 {
      factor := annual / (monthly * 12.0);
    }
    p := Pricing(Round(monthly, PLACES4), Round(annual, PLACES4), Round(factor, PLACES6));
  }

  method BuildPricingReference(prices: map<TierKey, Prices>) returns (reference: map<TierKey, Pricing>)
    requires Configured(prices)
    ensures reference == PricingReference(prices)
  {
    hide PricingFor;
    reference := map[];
    for k := 0 to |COLLECTED|
      invariant reference.Keys == set j | 0 <= j < k :: COLLECTED[j]
      invariant forall j :: 0 <= j < k ==> reference[COLLECTED[j]] == PricingFor(Resolve(COLLECTED[j], prices[COLLECTED[j]]))
    {
      var tier := COLLECTED[k];
      var monthly, annual := prices[tier].monthly, prices[tier].annual;
      var fallback := Fallback(tier);
      if fallback.Some? && monthly <= 0.0 {
        monthly, annual := fallback.value.monthly, fallback.value.annual;
      } else if fallback.Some? && annual <= 0.0 {
        annual := fallback.value.annual;
      }
      var pricing := BuildPricing(monthly, annual);
      reference := reference[tier := pricing];
    }
  }

  // ----- what happens to the query results -----

  /** The costs of one tier, in row order. */
  function CostsOf(rows: seq<Row<real>>, tier: TierKey): seq<real> {
    if rows == [] then [] else
    var last := rows[|rows| - 1];
    CostsOf(rows[..|rows| - 1], tier) + if last.tier == tier then [last.data] else []
  }

  function UsageFrom(values: seq<real>): LlmUsage {
    LlmUsage(Round(Sum(values), PLACES6), Round(Percentile(values, 50.0), PLACES6),
             Round(Percentile(values, 95.0), PLACES6), Round(Percentile(values, 99.0), PLACES6))
  }

  function Usage(rows: seq<Row<real>>, tier: TierKey): LlmUsage {
    UsageFrom(CostsOf(rows, tier))
  }

  /** Rows of tiers that are not collected are dropped; every collected tier gets a list, possibly empty. */
  method GroupCosts(rows: seq<Row<real>>) returns (costs: map<TierKey, seq<real>>)
    ensures forall tier :: tier in costs <==> tier in COLLECTED
    ensures forall tier :: tier in costs ==> costs[tier] == CostsOf(rows, tier)
  {
    costs := map tier | tier in COLLECTED :: [];
    for i := 0 to |rows|
      invariant forall tier :: tier in costs <==> tier in COLLECTED
      invariant forall tier :: tier in costs ==> costs[tier] == CostsOf(rows[..i], tier)
    {
      var tier := rows[i].tier;
      if tier in costs {
        costs := costs[tier := costs[tier] + [rows[i].data]];
      }
      assert rows[..i + 1][..i] == rows[..i];
    }
    assert rows[..|rows|] == rows;
  }

  method TotalCost(values: seq<real>) returns (total: real)
    ensures total == Sum(values)
  {
    total := 0.0;
    for i := 0 to |values|
      invariant total == Sum(values[..i])
    {
      assert values[..i + 1][..i] == values[..i];
      total := total + values[i];
    }
    assert values[..|values|] == values;
  }

  method FetchLlmUsage(rows: seq<Row<real>>) returns (snapshot: map<TierKey, LlmUsage>)
    ensures forall tier :: tier in snapshot <==> tier in COLLECTED
    ensures forall tier :: tier in snapshot ==> snapshot[tier] == Usage(rows, tier)
  {
    hide Round, Percentile, Sum, CostsOf;
    var costs := GroupCosts(rows);
    snapshot := map[];
    for k := 0 to |COLLECTED|
      invariant forall tier :: tier in snapshot <==> tier in COLLECTED[..k]
      invariant forall tier :: tier in snapshot ==> snapshot[tier] == Usage(rows, tier)
    {
      var values := costs[COLLECTED[k]];
      var total := TotalCost(values);
      snapshot := snapshot[COLLECTED[k] := LlmUsage(
        Round(total, PLACES6), Round(Percentile(values, 50.0), PLACES6),
        Round(Percentile(values, 95.0), PLACES6), Round(Percentile(values, 99.0), PLACES6))];
    }
    assert COLLECTED[..|COLLECTED|] == COLLECTED;
  }

  function Subscribers(rows: seq<Row<Subscription>>, tier: TierKey): Subscription {
    var m := Index(rows);
    if tier in m then m[tier] else Subscription(0, 0, 0)
  }

  /** Every collected tier starts at zero; a row of a collected tier replaces what was there. */
  method FetchSubscriptions(rows: seq<Row<Subscription>>) returns (snapshot: map<TierKey, Subscription>)
    ensures forall tier :: tier in snapshot <==> tier in COLLECTED
    ensures forall tier :: tier in snapshot ==> snapshot[tier] == Subscribers(rows, tier)
  {
    snapshot := map tier | tier in COLLECTED :: Subscription(0, 0, 0);
    for i := 0 to |rows|
      invariant forall tier :: tier in snapshot <==> tier in COLLECTED
      invariant forall tier :: tier in snapshot ==> snapshot[tier] == Subscribers(rows[..i], tier)
    {
      if rows[i].tier in snapshot {
        snapshot := snapshot[rows[i].tier := rows[i].data];
      }
      assert rows[..i + 1][..i] == rows[..i];
    }
    assert rows[..|rows|] == rows;
  }

  // ----- guardrails and margin watch -----

  function LimitRowFor(l: Limit): LimitRow {
    var free, starter := if l.free < 0 then 0 else l.free, if l.starter < 0 then 0 else l.starter;
    LimitRow(l.name, free, starter, free <= starter)
  }

  function LimitRows(limits: seq<Limit>): (rows: seq<LimitRow>)
    ensures |rows| == |limits|
    ensures forall i :: 0 <= i < |limits| ==> rows[i] == LimitRowFor(limits[i])
  {
    seq(|limits|, i requires 0 <= i < |limits| => LimitRowFor(limits[i]))
  }

  function GuardrailsFor(limits: seq<Limit>): Guardrails {
    Guardrails(Free, Starter, LimitRows(limits), LimitsBounded(LimitRows(limits)))
  }

  method BuildFreeTierGuardrails(limits: seq<Limit>) returns (g: Guardrails)
    ensures g == GuardrailsFor(limits)
  {
    var rows: seq<LimitRow> := [];
    var bounded := true;
    for i := 0 to |limits|
      invariant |rows| == i && forall j :: 0 <= j < i ==> rows[j] == LimitRowFor(limits[j])
      invariant bounded == forall j :: 0 <= j < i ==> rows[j].free <= rows[j].starter
    {
      var free := if limits[i].free > 0 then limits[i].free else 0;
      var starter := if limits[i].starter > 0 then limits[i].starter else 0;
      var within := free <= starter;
      bounded := bounded && within;
      rows := rows + [LimitRow(limits[i].name, free, starter, within)];
    }
    g := Guardrails(Free, Starter, rows, bounded);
    assert rows == LimitRows(limits);
  }

  /** The collector decides from the exact ratio. */
  function ExactRatio(freeCost: real, starterGross: real): real
    requires starterGross > 0.0
  {
    freeCost / starterGross * 100.0
  }

  function CollectorGuarded(freeCost: real, starterGross: real): bool {
    if starterGross > 0.0 then ExactRatio(freeCost, starterGross) <= MAX_FREE_COST_PCT else freeCost <= 0.0
  }

  function RatioFor(freeCost: real, starterGross: real): Option<real> {
    if starterGross > 0.0 then Some(Round(ExactRatio(freeCost, starterGross), PLACES6))
    else if freeCost <= 0.0 then Some(Round(0.0, PLACES6))
    else None
  }

  function WatchFor(s: Subscription, free: LlmUsage, starterGross: real): MarginWatch {
    MarginWatch(
      if s.totalTenants < 0 then 0 else s.totalTenants, if s.active < 0 then 0 else s.active,
      Round(free.totalCost, PLACES6), Round(free.p95, PLACES6), Round(starterGross, PLACES6),
      RatioFor(free.totalCost, starterGross), MAX_FREE_COST_PCT)
  }

  // ----- the payload -----

  function RevenueFor(monthly: real, active: int): Revenue {
    Revenue(monthly, active, Round(monthly * active as real, PLACES6))
  }

  function RevenueOf(x: Inputs, tier: TierKey): Revenue
    requires Configured(x.prices) && tier in COLLECTED
  {
    RevenueFor(PricingReference(x.prices)[tier].monthly, Subscribers(x.subscriptionRows, tier).active)
  }

  function StarterGross(x: Inputs): real
    requires Configured(x.prices)
  {
    RevenueOf(x, COLLECTED[1]).grossMrr
  }

  function SubscriptionRowsOf(x: Inputs): (rows: seq<Row<Subscription>>)
    ensures |rows| == |COLLECTED|
    ensures forall k :: 0 <= k < |COLLECTED| ==> rows[k] == Row(COLLECTED[k], Subscribers(x.subscriptionRows, COLLECTED[k]))
  {
    seq(|COLLECTED|, k requires 0 <= k < |COLLECTED| => Row(COLLECTED[k], Subscribers(x.subscriptionRows, COLLECTED[k])))
  }

  function UsageRowsOf(x: Inputs): (rows: seq<Row<LlmUsage>>)
    ensures |rows| == |COLLECTED|
    ensures forall k :: 0 <= k < |COLLECTED| ==> rows[k] == Row(COLLECTED[k], Usage(x.costRows, COLLECTED[k]))
  {
    seq(|COLLECTED|, k requires 0 <= k < |COLLECTED| => Row(COLLECTED[k], Usage(x.costRows, COLLECTED[k])))
  }

  function RevenueRowsOf(x: Inputs): (rows: seq<Row<Revenue>>)
    requires Configured(x.prices)
    ensures |rows| == |COLLECTED|
    ensures forall k :: 0 <= k < |COLLECTED| ==> rows[k] == Row(COLLECTED[k], RevenueOf(x, COLLECTED[k]))
  {
    seq(|COLLECTED|, k requires 0 <= k < |COLLECTED| => Row(COLLECTED[k], RevenueOf(x, COLLECTED[k])))
  }

  function Collected(x: Inputs, now: int): Snapshot
    requires Configured(x.prices)
  {
    var g, free, starterGross := GuardrailsFor(x.limits), Usage(x.costRows, Free), StarterGross(x);
    Snapshot(
      now,
      Window(x.windowStart, x.windowEndExclusive - 1, x.name),
      PricingReference(x.prices),
      SubscriptionRowsOf(x),
      RevenueRowsOf(x),
      UsageRowsOf(x),
      g,
      WatchFor(Subscribers(x.subscriptionRows, Free), free, starterGross),
      TelemetryGates(true, true, true, true, g.bounded, CollectorGuarded(free.totalCost, starterGross)))
  }

  method BuildRevenue(monthly: real, active: int) returns (r: Revenue)
    ensures r == RevenueFor(monthly, active)
  {
    var gross := monthly * active as real;
    r := Revenue(monthly, active, Round(gross, PLACES6));
  }

  method BuildTierRows(x: Inputs, subscriptions: map<TierKey, Subscription>, usage: map<TierKey, LlmUsage>,
                       reference: map<TierKey, Pricing>)
    returns (subscriptionRows: seq<Row<Subscription>>, usageRows: seq<Row<LlmUsage>>, revenueRows: seq<Row<Revenue>>)
    requires Configured(x.prices) && reference == PricingReference(x.prices)
    requires forall k :: 0 <= k < |COLLECTED| ==>
               && COLLECTED[k] in subscriptions && subscriptions[COLLECTED[k]] == Subscribers(x.subscriptionRows, COLLECTED[k])
               && COLLECTED[k] in usage && usage[COLLECTED[k]] == Usage(x.costRows, COLLECTED[k])
    ensures subscriptionRows == SubscriptionRowsOf(x) && usageRows == UsageRowsOf(x) && revenueRows == RevenueRowsOf(x)
  {
    hide PricingReference, Usage, Subscribers, RevenueFor;
    subscriptionRows, usageRows, revenueRows := [], [], [];
    ghost var allSubscriptions, allUsage, allRevenue := SubscriptionRowsOf(x), UsageRowsOf(x), RevenueRowsOf(x);
    for k := 0 to |COLLECTED|
      invariant |subscriptionRows| == |usageRows| == |revenueRows| == k
      invariant forall j :: 0 <= j < k ==> subscriptionRows[j] == allSubscriptions[j]
      invariant forall j :: 0 <= j < k ==> usageRows[j] == allUsage[j]
      invariant forall j :: 0 <= j < k ==> revenueRows[j] == allRevenue[j]
    {
      var tier := COLLECTED[k];
      var subscription := subscriptions[tier];
      subscriptionRows := subscriptionRows + [Row(tier, subscription)];
      usageRows := usageRows + [Row(tier, usage[tier])];
      var monthly := reference[tier].monthly;
      var revenue := BuildRevenue(monthly, subscription.active);
      revenueRows := revenueRows + [Row(tier, revenue)];
    }
  }

  method BuildWatch(free: Subscription, usage: LlmUsage, starterGross: real) returns (watch: MarginWatch, guarded: bool)
    ensures watch == WatchFor(free, usage, starterGross) && guarded == CollectorGuarded(usage.totalCost, starterGross)
  {
    hide Round;
    var cost := usage.totalCost;
    var ratio := None;
    guarded := cost <= 0.0;
    if starterGross > 0.0 {
      var exact := cost / starterGross * 100.0;
      ratio, guarded := Some(Round(exact, PLACES6)), exact <= MAX_FREE_COST_PCT;
    } else if cost <= 0.0 {
      ratio := Some(Round(0.0, PLACES6));
    }
    watch := MarginWatch(
      if free.totalTenants > 0 then free.totalTenants else 0, if free.active > 0 then free.active else 0,
      Round(cost, PLACES6), Round(usage.p95, PLACES6), Round(starterGross, PLACES6), ratio, MAX_FREE_COST_PCT);
  }

  method CollectSnapshot(x: Inputs, now: int) returns (s: Snapshot)
    requires Configured(x.prices)
    ensures s == Collected(x, now)
  {
    hide PricingFor, Usage, Subscribers, RevenueFor, WatchFor, CollectorGuarded, GuardrailsFor, PricingReference;
    var subscriptions := FetchSubscriptions(x.subscriptionRows);
    var usage := FetchLlmUsage(x.costRows);
    var reference := BuildPricingReference(x.prices);
    var guardrails := BuildFreeTierGuardrails(x.limits);
    var subscriptionRows, usageRows, revenueRows := BuildTierRows(x, subscriptions, usage, reference);
    assert COLLECTED[0] == Free && COLLECTED[1] == Starter;
    assert Free in COLLECTED && Starter in COLLECTED;
    var starterGross := revenueRows[1].data.grossMrr;
    var watch, guarded := BuildWatch(subscriptions[Free], usage[Free], starterGross);
    s := Snapshot(
      now, Window(x.windowStart, x.windowEndExclusive - 1, x.name), reference,
      subscriptionRows, revenueRows, usageRows, guardrails, watch,
      TelemetryGates(true, true, true, true, guardrails.bounded, guarded));
  }
}
