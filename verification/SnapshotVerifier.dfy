/** The verifier of the finance telemetry snapshot. */
module SnapshotVerifier {
  import opened Outcomes
  import opened Rounding
  import opened Tiers
  import opened Telemetry

  function ExpectedFactor(monthly: real, annual: real): real
    requires monthly > 0.0
  {
    annual / (monthly * 12.0)
  }

  predicate FactorMatches(p: Pricing) {
    p.monthly > 0.0 && p.annual > 0.0 ==>
      Round(p.factor, PLACES6) == Round(ExpectedFactor(p.monthly, p.annual), PLACES6)
  }

  predicate PricingAccepted(p: Pricing) {
    p.monthly >= 0.0 && p.annual >= 0.0 && 0.0 <= p.factor <= 1.0 && FactorMatches(p)
  }

  predicate SubscriptionAccepted(row: Row<Subscription>) {
    var s := row.data;
    && row.tier != Blank
    && s.active >= 0 && s.totalTenants >= 0 && s.dunning >= 0
    && (s.totalTenants > 0 ==> s.active <= s.totalTenants)
  }

  predicate UsageParses(row: Row<LlmUsage>) {
    var u := row.data;
    row.tier != Blank && u.totalCost >= 0.0 && u.p50 >= 0.0 && u.p95 >= 0.0 && u.p99 >= 0.0
  }

  predicate PercentilesOrdered(u: LlmUsage) {
    u.p50 <= u.p95 <= u.p99
  }

  predicate LimitAccepted(l: LimitRow) {
    l.name != "" && l.free >= 0 && l.starter >= 0 && l.freeLeStarter == (l.free <= l.starter)
  }

  predicate LimitsBounded(limits: seq<LimitRow>) {
    forall i :: 0 <= i < |limits| ==> limits[i].free <= limits[i].starter
  }

  predicate GuardrailsAccepted(g: Guardrails) {
    && g.tier == Free && g.reference == Starter && g.limits != []
    && (forall i :: 0 <= i < |g.limits| ==> LimitAccepted(g.limits[i]))
    && g.bounded == LimitsBounded(g.limits)
  }

  predicate WatchParses(w: MarginWatch) {
    && w.freeTenants >= 0 && w.freeActive >= 0
    && (w.freeTenants > 0 ==> w.freeActive <= w.freeTenants)
    && w.freeCost >= 0.0 && w.freeP95 >= 0.0 && w.starterGross >= 0.0 && w.maxPct >= 0.0
    && (w.ratio.Some? ==> w.ratio.value >= 0.0)
  }

  /** The written ratio is the recomputed one; absent exactly where there is none to compute. */
  predicate RatioAccepted(w: MarginWatch) {
    if w.starterGross > 0.0 then
      w.ratio.Some? && Round(w.ratio.value, PLACES6) == Round(w.freeCost / w.starterGross * 100.0, PLACES6)
    else if w.freeCost > 0.0 then
      w.ratio.None?
    else
      w.ratio.Some? ==> Round(w.ratio.value, PLACES6) == 0.0
  }

  /** The verifier decides from the rounded ratio in the payload. */
  predicate WatchGuarded(w: MarginWatch)
    requires w.starterGross > 0.0 ==> w.ratio.Some?
  {
    if w.starterGross > 0.0 then w.ratio.value <= w.maxPct else w.freeCost <= 0.0
  }

  ghost predicate KeyPresent<T>(rows: seq<Row<T>>, tier: TierKey) {
    exists i :: 0 <= i < |rows| && rows[i].tier == tier
  }

  ghost predicate AllKeysPresent<T>(rows: seq<Row<T>>) {
    forall k :: 0 <= k < |COLLECTED| ==> KeyPresent(rows, COLLECTED[k])
  }

  ghost predicate PricingsAccepted(pricing: map<TierKey, Pricing>) {
    forall k :: 0 <= k < |COLLECTED| ==> COLLECTED[k] in pricing && PricingAccepted(pricing[COLLECTED[k]])
  }

  ghost predicate SubscriptionsAccepted(rows: seq<Row<Subscription>>) {
    (forall i :: 0 <= i < |rows| ==> SubscriptionAccepted(rows[i])) && AllKeysPresent(rows)
  }

  ghost predicate UsagesAccepted(rows: seq<Row<LlmUsage>>) {
    && (forall i :: 0 <= i < |rows| ==> UsageParses(rows[i]) && PercentilesOrdered(rows[i].data))
    && AllKeysPresent(rows)
  }

  ghost predicate SnapshotAccepted(s: Snapshot, now: int, maxAge: Option<real>) {
    && FreshEnough(now, s.capturedAt, maxAge)
    && s.window.name != "" && s.window.start <= s.window.end <= s.capturedAt
    && PricingsAccepted(s.pricing)
    && SubscriptionsAccepted(s.subscriptions)
    && UsagesAccepted(s.llm)
    && GuardrailsAccepted(s.guardrails)
    && WatchParses(s.watch) && RatioAccepted(s.watch)
    && s.gates == TelemetryGates(true, true, true, true, s.guardrails.bounded, WatchGuarded(s.watch))
  }

  method CheckFactor(p: Pricing) returns (matches: bool)
    ensures matches == FactorMatches(p)
  {
    matches := true;
    if p.monthly > 0.0 && p.annual > 0.0 {
      var expected := p.annual / (p.monthly * 12.0);
      matches := Round(p.factor, PLACES6) == Round(expected, PLACES6);
    }
  }

  method CheckPricing(pricing: map<TierKey, Pricing>) returns (v: Verdict)
    ensures v.Accept? <==> PricingsAccepted(pricing)
  {
    hide FactorMatches;
    for k := 0 to |COLLECTED|
      invariant forall j :: 0 <= j < k ==> COLLECTED[j] in pricing && PricingAccepted(pricing[COLLECTED[j]])
    {
      var tier := COLLECTED[k];
      if tier !in pricing { return Reject("pricing_reference tier must be an object"); }
      var p := pricing[tier];
      if p.monthly < 0.0 || p.annual < 0.0 || p.factor < 0.0 || p.factor > 1.0 { return Reject("price out of range"); }
      var matches := CheckFactor(p);
      if !matches { return Reject("annual_monthly_factor must match annual/monthly ratio"); }
    }
    return Accept;
  }

  method CheckKeys<T>(rows: seq<Row<T>>, seen: set<TierKey>) returns (present: bool)
    requires forall tier :: tier in seen <==> KeyPresent(rows, tier)
    ensures present == AllKeysPresent(rows)
  {
    for k := 0 to |COLLECTED|
      invariant forall j :: 0 <= j < k ==> KeyPresent(rows, COLLECTED[j])
    {
      if COLLECTED[k] !in seen { return false; }
    }
    return true;
  }

  method CheckSubscriptions(rows: seq<Row<Subscription>>) returns (v: Verdict)
    ensures v.Accept? <==> SubscriptionsAccepted(rows)
  {
    var seen: set<TierKey> := {};
    for i := 0 to |rows|
      invariant forall j :: 0 <= j < i ==> SubscriptionAccepted(rows[j])
      invariant forall j :: 0 <= j < i ==> rows[j].tier in seen
      invariant forall tier :: tier in seen ==> KeyPresent(rows, tier)
    {
      var row := rows[i].data;
      if rows[i].tier == Blank { return Reject("tier must be a non-empty string"); }
      if row.totalTenants < 0 || row.active < 0 || row.dunning < 0 { return Reject("tier_subscription_snapshot count must be >= 0"); }
      if row.totalTenants > 0 && row.active > row.totalTenants { return Reject("active_subscriptions must be <= total_tenants"); }
      assert KeyPresent(rows, rows[i].tier);
      seen := seen + {rows[i].tier};
    }
    var present := CheckKeys(rows, seen);
    return if present then Accept else Reject("missing required tiers");
  }

  method CheckUsages(rows: seq<Row<LlmUsage>>) returns (v: Verdict)
    ensures v.Accept? <==> UsagesAccepted(rows)
  {
    var seen: set<TierKey> := {};
    var percentilesValid := true;
    for i := 0 to |rows|
      invariant forall j :: 0 <= j < i ==> UsageParses(rows[j])
      invariant percentilesValid == forall j :: 0 <= j < i ==> PercentilesOrdered(rows[j].data)
      invariant forall j :: 0 <= j < i ==> rows[j].tier in seen
      invariant forall tier :: tier in seen ==> KeyPresent(rows, tier)
    {
      var row := rows[i].data;
      if rows[i].tier == Blank { return Reject("tier must be a non-empty string"); }
      if row.totalCost < 0.0 || row.p50 < 0.0 || row.p95 < 0.0 || row.p99 < 0.0 { return Reject("tier_llm_usage amount must be >= 0"); }
      assert KeyPresent(rows, rows[i].tier);
      seen := seen + {rows[i].tier};
      if row.p50 > row.p95 || row.p95 > row.p99 { percentilesValid := false; }
    }
    var present := CheckKeys(rows, seen);
    if !present { return Reject("missing required tiers"); }
    if !percentilesValid { return Reject("percentiles must satisfy p50 <= p95 <= p99"); }
    return Accept;
  }

  method CheckGuardrails(g: Guardrails) returns (v: Verdict)
    ensures v.Accept? <==> GuardrailsAccepted(g)
  {
    if g.tier != Free || g.reference != Starter { return Reject("guardrail tiers must be free and starter"); }
    if g.limits == [] { return Reject("limits must be a non-empty array"); }
    var bounded := true;
    for i := 0 to |g.limits|
      invariant forall j :: 0 <= j < i ==> LimitAccepted(g.limits[j])
      invariant bounded == forall j :: 0 <= j < i ==> g.limits[j].free <= g.limits[j].starter
    {
      var row := g.limits[i];
      if row.name == "" { return Reject("limit name must be a non-empty string"); }
      if row.free < 0 || row.starter < 0 { return Reject("limit must be >= 0"); }
      var within := row.free <= row.starter;
      if row.freeLeStarter != within { return Reject("free_le_starter mismatch"); }
      bounded := bounded && within;
    }
    return if g.bounded == bounded then Accept else Reject("bounded_against_starter mismatch");
  }

  method VerifySnapshot(s: Snapshot, now: int, maxAge: Option<real>) returns (v: Verdict)
    ensures v.Accept? <==> SnapshotAccepted(s, now, maxAge)
  {
    hide PricingsAccepted, SubscriptionsAccepted, UsagesAccepted, GuardrailsAccepted, RatioAccepted, AgeHours;
    var timely := CheckAge(now, s.capturedAt, maxAge);
    if !timely { return Reject("captured_at is too old"); }
    if s.window.name == "" { return Reject("window.label must be a non-empty string"); }
    if s.window.end < s.window.start { return Reject("window.end must be >= window.start"); }
    if s.capturedAt < s.window.end { return Reject("captured_at must be >= window.end"); }
    v := CheckPricing(s.pricing);
    if v.Reject? { return; }
    v := CheckSubscriptions(s.subscriptions);
    if v.Reject? { return; }
    v := CheckUsages(s.llm);
    if v.Reject? { return; }
    v := CheckGuardrails(s.guardrails);
    if v.Reject? { return; }
    var guarded;
    v, guarded := CheckWatch(s.watch);
    if v.Reject? { return; }
    var expected := TelemetryGates(true, true, true, true, s.guardrails.bounded, guarded);
    return if s.gates == expected then Accept else Reject("gate mismatch");
  }

  method CheckWatch(w: MarginWatch) returns (v: Verdict, guarded: bool)
    ensures v.Accept? <==> WatchParses(w) && RatioAccepted(w)
    ensures v.Accept? ==> (w.starterGross > 0.0 ==> w.ratio.Some?) && guarded == WatchGuarded(w)
  {
    hide Round;
    guarded := false;
    if w.freeTenants < 0 || w.freeActive < 0 { return Reject("free tier counts must be >= 0"), false; }
    if w.freeTenants > 0 && w.freeActive > w.freeTenants { return Reject("free_active_subscriptions must be <= free_total_tenants"), false; }
    if w.freeCost < 0.0 || w.freeP95 < 0.0 || w.starterGross < 0.0 || w.maxPct < 0.0 { return Reject("amount must be >= 0"), false; }
    if w.ratio.Some? && w.ratio.value < 0.0 { return Reject("ratio must be >= 0"), false; }
    if w.starterGross > 0.0 {
      if w.ratio.None? { return Reject("ratio must be provided"), false; }
      var expected := w.freeCost / w.starterGross * 100.0;
      if Round(w.ratio.value, PLACES6) != Round(expected, PLACES6) { return Reject("ratio must match"), false; }
      guarded := w.ratio.value <= w.maxPct;
    } else if w.freeCost > 0.0 {
      if w.ratio.Some? { return Reject("ratio must be null"), false; }
      guarded := false;
    } else {
      if w.ratio.Some? && Round(w.ratio.value, PLACES6) != 0.0 { return Reject("ratio must be 0"), false; }
      guarded := true;
    }
    v := Accept;
  }
}
