/** Generation of the PKG/FIN policy evidence from a telemetry snapshot. */
module PkgFinGenerator {
  import opened Outcomes
  import opened Rounding
  import opened Tiers
  import opened Telemetry
  import opened FinanceEngine
  import opened SnapshotVerifier
  import opened PkgFinPolicy

  const MICROS_PER_SECOND: int := 1000000
  const ONE_HOUR: int := 3600000000

  /** The tracked tiers in alphabetical order. */
  const ALPHABETICAL: seq<TierKey> := [Enterprise, Growth, Pro, Starter]

  function InfraRatio(tier: TierKey): real {
    match tier
    case Starter => 8.0
    case Growth => 7.5
    case Pro => 6.8
    case _ => 6.0
  }

  function SupportCost(tier: TierKey): real {
    match tier
    case Starter => 6.0
    case Growth => 9.0
    case Pro => 16.0
    case _ => 30.0
  }

  // ----- tier economics -----

  ghost predicate TierRowsPresent(t: Snapshot, tier: TierKey) {
    && tier in Index(t.revenue) && tier in Index(t.llm) && tier in Index(t.subscriptions)
    && Index(t.revenue)[tier].grossMrr >= 0.0
    && (tier in t.pricing ==> t.pricing[tier].factor >= 0.0)
    && Index(t.llm)[tier].totalCost >= 0.0
    && Index(t.subscriptions)[tier].active >= 0
  }

  /** A missing or zero factor counts as no discount; a factor above one is capped. */
  function AppliedFactor(pricing: map<TierKey, Pricing>, tier: TierKey): real {
    if tier in pricing && pricing[tier].factor > 0.0 then Min(pricing[tier].factor, 1.0) else 1.0
  }

  function InfraCost(tier: TierKey, effective: real): real {
    effective * (InfraRatio(tier) / 100.0)
  }

  function SupportTotal(tier: TierKey, active: int): real {
    active as real * SupportCost(tier)
  }

  function Discounted(mrr: real, factor: real): real {
    Round(mrr * factor, PLACES6)
  }

  function CostsFor(tier: TierKey, mrr: real, factor: real, llmCost: real, active: int): TierCosts {
    var effective := Discounted(mrr, factor);
    TierCosts(
      Round(mrr, PLACES6),
      Round(Min(effective, mrr), PLACES6),
      Round(llmCost, PLACES6),
      Round(InfraCost(tier, effective), PLACES6),
      Round(SupportTotal(tier, active), PLACES6))
  }

  function CostsRow(t: Snapshot, tier: TierKey): Row<TierCosts>
    requires tier in Index(t.revenue) && tier in Index(t.llm) && tier in Index(t.subscriptions)
  {
    Row(tier, CostsFor(tier, Index(t.revenue)[tier].grossMrr, AppliedFactor(t.pricing, tier),
                       Index(t.llm)[tier].totalCost, Index(t.subscriptions)[tier].active))
  }

  ghost predicate EconomicsDefined(t: Snapshot) {
    && !HasBlank(t.revenue) && !HasBlank(t.llm) && !HasBlank(t.subscriptions)
    && forall k :: 0 <= k < |ALPHABETICAL| ==> TierRowsPresent(t, ALPHABETICAL[k])
  }

  function CostsRows(t: Snapshot): (rows: seq<Row<TierCosts>>)
    requires EconomicsDefined(t)
    ensures |rows| == |ALPHABETICAL| && forall k :: 0 <= k < |rows| ==> rows[k] == CostsRow(t, ALPHABETICAL[k])
  {
    seq(|ALPHABETICAL|, k requires 0 <= k < |ALPHABETICAL| => CostsRow(t, ALPHABETICAL[k]))
  }

  method BuildCosts(tier: TierKey, mrr: real, factor: real, llmCost: real, active: int) returns (c: TierCosts)
    ensures c == CostsFor(tier, mrr, factor, llmCost, active)
  {
    hide Round, InfraRatio, SupportCost;
    var effective := Round(mrr * factor, PLACES6);
    assert effective == Discounted(mrr, factor);
    var infra := effective * (InfraRatio(tier) / 100.0);
    assert infra == InfraCost(tier, effective);
    var support := active as real * SupportCost(tier);
    assert support == SupportTotal(tier, active);
    hide InfraCost, SupportTotal, Discounted;
    var least := if effective < mrr then effective else mrr;
    c := TierCosts(Round(mrr, PLACES6), Round(least, PLACES6), Round(llmCost, PLACES6), Round(infra, PLACES6), Round(support, PLACES6));
  }

  method BuildCostsRow(t: Snapshot, tier: TierKey, revenue: map<TierKey, Revenue>, llm: map<TierKey, LlmUsage>,
                       subscriptions: map<TierKey, Subscription>) returns (r: Result<Row<TierCosts>>)
    requires revenue == Index(t.revenue) && llm == Index(t.llm) && subscriptions == Index(t.subscriptions)
    ensures r.Ok? <==> TierRowsPresent(t, tier)
    ensures r.Ok? ==> r.value == CostsRow(t, tier)
  {
    hide CostsFor, Index;
    if tier !in revenue || tier !in llm || tier !in subscriptions { return Error("missing required tier row"); }
    if revenue[tier].grossMrr < 0.0 { return Error("gross_mrr_usd must be >= 0"); }
    if tier in t.pricing && t.pricing[tier].factor < 0.0 { return Error("annual_monthly_factor must be >= 0"); }
    if llm[tier].totalCost < 0.0 { return Error("total_cost_usd must be >= 0"); }
    if subscriptions[tier].active < 0 { return Error("active_subscriptions must be >= 0"); }
    var factor := 1.0;
    if tier in t.pricing && t.pricing[tier].factor > 0.0 {
      factor := if t.pricing[tier].factor < 1.0 then t.pricing[tier].factor else 1.0;
    }
    var costs := BuildCosts(tier, revenue[tier].grossMrr, factor, llm[tier].totalCost, subscriptions[tier].active);
    return Ok(Row(tier, costs));
  }

  method BuildTierUnitEconomics(t: Snapshot) returns (r: Result<seq<Row<TierCosts>>>)
    ensures r.Ok? <==> EconomicsDefined(t)
    ensures r.Ok? ==> r.value == CostsRows(t)
  {
    hide CostsRow, TierRowsPresent, Index;
    var revenue := IndexByTier(t.revenue);
    if revenue.Error? { return Error(revenue.message); }
    var llm := IndexByTier(t.llm);
    if llm.Error? { return Error(llm.message); }
    var subscriptions := IndexByTier(t.subscriptions);
    if subscriptions.Error? { return Error(subscriptions.message); }
    var rows: seq<Row<TierCosts>> := [];
    for k := 0 to |ALPHABETICAL|
      invariant |rows| == k
      invariant forall j :: 0 <= j < k ==> TierRowsPresent(t, ALPHABETICAL[j])
      invariant forall j :: 0 <= j < k ==> PresentRow(t, ALPHABETICAL[j], rows[j])
    {
      var row := BuildCostsRow(t, ALPHABETICAL[k], revenue.value, llm.value, subscriptions.value);
      if row.Error? { return Error(row.message); }
      RowsPresent(t, ALPHABETICAL[k]);
      rows := rows + [row.value];
    }
    return Ok(rows);
  }

  ghost predicate PresentRow(t: Snapshot, tier: TierKey, row: Row<TierCosts>) {
    tier in Index(t.revenue) && tier in Index(t.llm) && tier in Index(t.subscriptions) && row == CostsRow(t, tier)
  }

  lemma RowsPresent(t: Snapshot, tier: TierKey)
    requires TierRowsPresent(t, tier)
    ensures tier in Index(t.revenue) && tier in Index(t.llm) && tier in Index(t.subscriptions)
  {
  }

  // ----- decisions -----

  predicate LaunchBlocking(id: DecisionId) {
    match id
    case Pkg(n) => n == 4 || n == 5 || n == 9 || n == 11 || n == 12
    case Fin(n) => n == 1 || n == 2 || n == 3
    case OtherId(_) => false
  }

  predicate Postlaunch(id: DecisionId) {
    match id
    case Pkg(n) => n == 29 || n == 30 || n == 31
    case _ => false
  }

  /** The texts the generator writes: fixed ones, and those that carry an id or the capture date. */
  datatype Texts = Texts(
    financeOwner: string, productOwner: string, gtmOwner: string, criteria: string, record: string,
    summary: DecisionId -> string, itemRecord: DecisionId -> string)

  ghost predicate TextsOk(placeholder: Placeholder, x: Texts) {
    && TextOk(placeholder, x.financeOwner) && TextOk(placeholder, x.productOwner) && TextOk(placeholder, x.gtmOwner)
    && TextOk(placeholder, x.criteria) && TextOk(placeholder, x.record)
    && forall id :: id in Canonical() ==> TextOk(placeholder, x.summary(id)) && TextOk(placeholder, x.itemRecord(id))
  }

  function ItemFor(x: Texts, id: DecisionId, approvedAt: int): DecisionItem {
    var resolution := if Postlaunch(id) then ScheduledPostlaunch else LockedPrelaunch;
    DecisionItem(
      id, if id.Fin? then FinanceOwner else ProductOwner, if id.Fin? then x.financeOwner else x.productOwner,
      x.summary(id), resolution, LaunchBlocking(id), x.itemRecord(id), approvedAt,
      if resolution.ScheduledPostlaunch? then Some(Day(approvedAt + 30 * MICROS_PER_DAY)) else None,
      if resolution.ScheduledPostlaunch? then x.criteria else "")
  }

  function ItemsFor(x: Texts, approvedAt: int): (items: seq<DecisionItem>)
    ensures |items| == 30 && forall i :: 0 <= i < 30 ==> items[i] == ItemFor(x, CanonicalAt(i), approvedAt)
  {
    seq(30, i requires 0 <= i < 30 => ItemFor(x, CanonicalAt(i), approvedAt))
  }

  // ----- payload -----

  const DECISIONS: Decisions :=
    Decisions(Hybrid, Some(799.0), 20.0, false, NonprodOnly, RequiredForProd, GrandfatherTimeboxed, 90)

  /** The clock reading without its fraction of a second. */
  function CaptureInstant(now: int): int {
    now / MICROS_PER_SECOND * MICROS_PER_SECOND
  }

  ghost predicate GenerationDefined(t: Snapshot, months: int) {
    months >= 2 && EconomicsDefined(t)
  }

  function PayloadFrom(t: Snapshot, months: int, rows: seq<Row<TierCosts>>, x: Texts, today: string, now: int): PolicyEvidence {
    var capturedAt := CaptureInstant(now);
    var approvedAt := capturedAt - ONE_HOUR;
    PolicyEvidence(
      capturedAt,
      Window(t.window.start, t.window.end, if t.window.name != "" then t.window.name else today),
      PolicyTelemetry(months, SyntheticPrelaunch, rows),
      DECISIONS,
      Approvals(x.financeOwner, x.productOwner, x.gtmOwner, FounderActingRoles, x.record, approvedAt),
      Backlog(Canonical(), ItemsFor(x, approvedAt)),
      ALL_PASS)
  }

  function Generated(t: Snapshot, months: int, x: Texts, today: string, now: int): PolicyEvidence
    requires GenerationDefined(t, months)
  {
    PayloadFrom(t, months, CostsRows(t), x, today, now)
  }

  method BuildPayload(t: Snapshot, months: int, x: Texts, today: string, now: int) returns (r: Result<PolicyEvidence>)
    ensures r.Ok? <==> GenerationDefined(t, months)
    ensures r.Ok? ==> r.value == Generated(t, months, x, today, now)
  {
    hide EconomicsDefined, CostsRows, CanonicalAt, ItemsFor;
    if months < 2 { return Error("months_observed must be >= 2"); }
    var rows := BuildTierUnitEconomics(t);
    if rows.Error? { return Error(rows.message); }
    var capturedAt := now - now % 1000000;
    var approvedAt := capturedAt - 3600000000;
    var decisions := Decisions(Hybrid, Some(799.0), 20.0, false, NonprodOnly, RequiredForProd, GrandfatherTimeboxed, 90);
    var approvals := Approvals(x.financeOwner, x.productOwner, x.gtmOwner, FounderActingRoles, x.record, approvedAt);
    var items := BuildItems(x, approvedAt);
    var name := if t.window.name == "" then today else t.window.name;
    var payload := PolicyEvidence(
      capturedAt, Window(t.window.start, t.window.end, name), PolicyTelemetry(months, SyntheticPrelaunch, rows.value), decisions, approvals,
      Backlog(Canonical(), items), PolicyGates(true, true, true, true, true, true, true));
    assert payload == PayloadFrom(t, months, rows.value, x, today, now);
    return Ok(payload);
  }

  method BuildItems(x: Texts, approvedAt: int) returns (items: seq<DecisionItem>)
    ensures items == ItemsFor(x, approvedAt)
  {
    hide ItemFor, CanonicalAt;
    items := [];
    var ids := Canonical();
    for i := 0 to 30
      invariant |items| == i && forall j :: 0 <= j < i ==> items[j] == ItemFor(x, CanonicalAt(j), approvedAt)
    {
      var item := BuildDecisionItem(x, ids[i], approvedAt);
      items := items + [item];
    }
  }

  method BuildDecisionItem(x: Texts, id: DecisionId, approvedAt: int) returns (item: DecisionItem)
    ensures item == ItemFor(x, id, approvedAt)
  {
    var blocking := id in {Pkg(4), Pkg(5), Pkg(9), Pkg(11), Pkg(12), Fin(1), Fin(2), Fin(3)};
    var ownedBy, owner := ProductOwner, x.productOwner;
    if id.Fin? { ownedBy, owner := FinanceOwner, x.financeOwner; }
    item := DecisionItem(id, ownedBy, owner, x.summary(id), LockedPrelaunch, blocking, x.itemRecord(id), approvedAt, None, "");
    if id in {Pkg(29), Pkg(30), Pkg(31)} {
      var target := (approvedAt + 30 * 86400000000) / 86400000000;
      item := item.(resolution := ScheduledPostlaunch, targetDay := Some(target), criteria := x.criteria);
    }
  }

  // ----- agreement with the validator -----

  lemma CostsForOk(tier: TierKey, mrr: real, factor: real, llmCost: real, active: int)
    requires tier != Blank && mrr >= 0.0 && 0.0 <= factor <= 1.0 && llmCost >= 0.0 && active >= 0
    ensures CostsRowOk(Row(tier, CostsFor(tier, mrr, factor, llmCost, active)))
  {
    hide Round, InfraCost, SupportTotal, Discounted;
    var effective := Discounted(mrr, factor);
    DiscountedNonNegative(mrr, factor);
    RoundNonNegative(mrr, PLACES6);
    RoundMonotone(Min(effective, mrr), mrr, PLACES6);
    RoundNonNegative(Min(effective, mrr), PLACES6);
    RoundNonNegative(llmCost, PLACES6);
    CostTermsNonNegative(tier, effective, active);
    RoundNonNegative(InfraCost(tier, effective), PLACES6);
    RoundNonNegative(SupportTotal(tier, active), PLACES6);
  }

  /** The percentage of revenue and the amount per subscription that a tier is charged with. */
  function ChargeOf(tier: TierKey): (real, real) {
    if tier == Starter then (8.0, 6.0) else if tier == Growth then (7.5, 9.0) else if tier == Pro then (6.8, 16.0) else (6.0, 30.0)
  }

  /** A generated cost row, on six-decimal amounts: revenue up to the factor, its share of infrastructure, support per subscription. */
  lemma CostsFollow(tier: TierKey, mrr: real, factor: real, llmCost: real, active: int)
    requires OnGrid(mrr, PLACES6) && OnGrid(llmCost, PLACES6) && 0.0 <= factor <= 1.0 && mrr >= 0.0
    ensures var c := CostsFor(tier, mrr, factor, llmCost, active);
            && c.mrr == mrr && c.llm == llmCost
            && -0.0000005 <= c.effective - mrr * factor <= 0.0000005
            && -0.0000005 <= c.infra - c.effective * (ChargeOf(tier).0 / 100.0) <= 0.0000005
            && c.support == active as real * ChargeOf(tier).1
  {
    hide Round, OnGrid, InfraCost, SupportTotal, Discounted;
    var effective := Discounted(mrr, factor);
    EffectiveFollows(mrr, factor);
    RoundExactOnGrid(mrr, PLACES6);
    RoundExactOnGrid(llmCost, PLACES6);
    RoundExactOnGrid(effective, PLACES6);
    SixPlaces(InfraCost(tier, effective));
    InfraFollows(tier, effective);
    SupportFollows(tier, active);
  }

  lemma SixPlaces(x: real)
    ensures -0.0000005 <= Round(x, PLACES6) - x <= 0.0000005
  {
    RoundWithinHalfUnit(x, PLACES6);
    assert 0.5 / PLACES6 == 0.0000005;
  }

  lemma EffectiveFollows(mrr: real, factor: real)
    requires OnGrid(mrr, PLACES6) && 0.0 <= factor <= 1.0 && mrr >= 0.0
    ensures Discounted(mrr, factor) <= mrr && OnGrid(Discounted(mrr, factor), PLACES6)
    ensures -0.0000005 <= Discounted(mrr, factor) - mrr * factor <= 0.0000005
  {
    hide Round, OnGrid;
    MulAtMost(factor, mrr);
    assert factor * mrr == mrr * factor;
    RoundAgainstGridPoint(mrr * factor, mrr, PLACES6);
    RoundIsOnGrid(mrr * factor, PLACES6);
    SixPlaces(mrr * factor);
  }

  lemma InfraFollows(tier: TierKey, effective: real)
    ensures InfraCost(tier, effective) == effective * (ChargeOf(tier).0 / 100.0)
  {
  }

  lemma SupportFollows(tier: TierKey, active: int)
    ensures Round(SupportTotal(tier, active), PLACES6) == active as real * ChargeOf(tier).1
  {
    hide Round;
    var cost := ChargeOf(tier).1.Floor;
    assert SupportCost(tier) == ChargeOf(tier).1 == cost as real;
    assert SupportTotal(tier, active) == (active * cost) as real;
    IntegerOnGrid(active * cost, 1000000);
    RoundExactOnGrid((active * cost) as real, PLACES6);
  }

  lemma DiscountedNonNegative(mrr: real, factor: real)
    requires mrr >= 0.0 && factor >= 0.0
    ensures Discounted(mrr, factor) >= 0.0
  {
    hide Round;
    MulNonNegative(mrr, factor);
    RoundNonNegative(mrr * factor, PLACES6);
  }

  lemma CostTermsNonNegative(tier: TierKey, effective: real, active: int)
    requires effective >= 0.0 && active >= 0
    ensures InfraCost(tier, effective) >= 0.0 && SupportTotal(tier, active) >= 0.0
  {
    MulNonNegative(effective, InfraRatio(tier) / 100.0);
    MulNonNegative(active as real, SupportCost(tier));
  }

  lemma GeneratedTelemetryOk(t: Snapshot, months: int)
    requires GenerationDefined(t, months)
    ensures TelemetryOk(PolicyTelemetry(months, SyntheticPrelaunch, CostsRows(t)))
  {
    hide CostsFor, Index;
    var rows := CostsRows(t);
    forall k | 0 <= k < |rows|
      ensures CostsRowOk(rows[k])
    {
      var tier := ALPHABETICAL[k];
      assert tier != Blank by { assert k == 0 || k == 1 || k == 2 || k == 3; }
      assert TierRowsPresent(t, tier);
      CostsForOk(tier, Index(t.revenue)[tier].grossMrr, AppliedFactor(t.pricing, tier),
                 Index(t.llm)[tier].totalCost, Index(t.subscriptions)[tier].active);
    }
    forall k | 0 <= k < |TRACKED|
      ensures CostsTier(rows, TRACKED[k])
    {
      assert rows[3 - k].tier == ALPHABETICAL[3 - k];
      assert rows[0].tier == Enterprise && rows[1].tier == Growth && rows[2].tier == Pro && rows[3].tier == Starter;
      assert k == 0 || k == 1 || k == 2 || k == 3;
    }
  }

  lemma GeneratedItemOk(placeholder: Placeholder, x: Texts, i: nat, capturedAt: int)
    requires TextsOk(placeholder, x) && i < 30
    ensures var item := ItemFor(x, CanonicalAt(i), capturedAt - ONE_HOUR);
            ItemOk(placeholder, item, capturedAt) && (item.launchBlocking ==> item.resolution.LockedPrelaunch?)
  {
    hide PkgNumber;
    assert Canonical()[i] == CanonicalAt(i);
    var id := CanonicalAt(i);
    assert TextOk(placeholder, x.summary(id)) && TextOk(placeholder, x.itemRecord(id));
    TargetAfterCapture(capturedAt);
  }

  lemma TargetAfterCapture(capturedAt: int)
    ensures Day(capturedAt - ONE_HOUR + 30 * MICROS_PER_DAY) >= Day(capturedAt)
  {
  }

  lemma GeneratedBacklogOk(placeholder: Placeholder, x: Texts, capturedAt: int)
    requires TextsOk(placeholder, x)
    ensures var b := Backlog(Canonical(), ItemsFor(x, capturedAt - ONE_HOUR));
            BacklogOk(placeholder, b, capturedAt) && BlockersResolved(b.items)
  {
    hide ItemOk, TextsOk, CanonicalAt;
    var items := ItemsFor(x, capturedAt - ONE_HOUR);
    forall i | 0 <= i < 30
      ensures ItemOk(placeholder, items[i], capturedAt)
      ensures items[i].launchBlocking ==> items[i].resolution.LockedPrelaunch?
      ensures ItemIds(items)[i] == Canonical()[i]
    {
      GeneratedItemOk(placeholder, x, i, capturedAt);
    }
    assert ItemIds(items) == Canonical();
    CanonicalDistinct();
  }

  /** Whatever the generator writes is accepted, as long as it is fresh and the snapshot's window is ordered. */
  lemma GeneratedEvidenceAccepted(placeholder: Placeholder, t: Snapshot, months: int, x: Texts, today: string, now: int,
                                  later: int, maxAge: Option<real>)
    requires GenerationDefined(t, months) && TextsOk(placeholder, x)
    ensures PolicyAccepted(placeholder, Generated(t, months, x, today, now), later, maxAge) <==>
            FreshEnough(later, CaptureInstant(now), maxAge) && t.window.start <= t.window.end
  {
    hide CostsRows, TelemetryOk, BacklogOk, BlockersResolved, FreshEnough, CaptureInstant;
    GeneratedTelemetryOk(t, months);
    GeneratedBacklogOk(placeholder, x, CaptureInstant(now));
    assert DecisionsOk(DECISIONS);
  }

  /** A verified snapshot with revenue rows for the tracked tiers always generates. */
  lemma VerifiedSnapshotGenerates(t: Snapshot, months: int)
    requires SubscriptionsAccepted(t.subscriptions) && UsagesAccepted(t.llm) && PricingsAccepted(t.pricing)
    requires months >= 2 && !HasBlank(t.revenue)
    requires forall k :: 0 <= k < |TRACKED| ==> KeyPresent(t.revenue, TRACKED[k])
    requires forall i :: 0 <= i < |t.revenue| ==> t.revenue[i].data.grossMrr >= 0.0
    ensures GenerationDefined(t, months)
  {
    hide Index, SubscriptionAccepted, UsageParses, PricingAccepted, PercentilesOrdered;
    forall i | 0 <= i < |t.subscriptions|
      ensures t.subscriptions[i].tier != Blank && t.subscriptions[i].data.active >= 0
    {
      SubscriptionFacts(t.subscriptions[i]);
    }
    forall i | 0 <= i < |t.llm|
      ensures t.llm[i].tier != Blank && t.llm[i].data.totalCost >= 0.0
    {
      UsageFacts(t.llm[i]);
    }
    forall k | 0 <= k < |ALPHABETICAL|
      ensures TierRowsPresent(t, ALPHABETICAL[k])
    {
      var tier := ALPHABETICAL[k];
      assert ALPHABETICAL[k] == TRACKED[3 - k] || ALPHABETICAL[k] == TRACKED[k] by { assert k == 0 || k == 1 || k == 2 || k == 3; }
      assert COLLECTED[4 - k] == TRACKED[3 - k] && COLLECTED[k + 1] == TRACKED[k] by { assert k == 0 || k == 1 || k == 2 || k == 3; }
      assert KeyPresent(t.revenue, tier) && KeyPresent(t.llm, tier) && KeyPresent(t.subscriptions, tier);
      IndexKeys(t.revenue);
      IndexKeys(t.llm);
      IndexKeys(t.subscriptions);
      IndexedFromRow(t.revenue, tier);
      IndexedFromRow(t.llm, tier);
      IndexedFromRow(t.subscriptions, tier);
      assert tier in t.pricing && PricingAccepted(t.pricing[tier]);
      PricingFacts(t.pricing[tier]);
    }
  }

  lemma SubscriptionFacts(row: Row<Subscription>)
    requires SubscriptionAccepted(row)
    ensures row.tier != Blank && row.data.active >= 0
  {
  }

  lemma UsageFacts(row: Row<LlmUsage>)
    requires UsageParses(row)
    ensures row.tier != Blank && row.data.totalCost >= 0.0
  {
  }

  lemma PricingFacts(p: Pricing)
    requires PricingAccepted(p)
    ensures p.factor >= 0.0
  {
  }
}
