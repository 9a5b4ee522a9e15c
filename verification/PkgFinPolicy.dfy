/** PKG/FIN policy decision evidence: the validator and what its acceptance guarantees. */
module PkgFinPolicy {
  import opened Outcomes
  import opened Rounding
  import opened Tiers
  import opened Telemetry

  const MICROS_PER_DAY: int := 86400000000

  function Day(instant: int): int {
    instant / MICROS_PER_DAY
  }

  // ----- payload -----

  datatype SourceType = SyntheticPrelaunch | ProductionObserved | UnknownSource
  datatype PricingModel = FlatFloor | SpendBased | Hybrid | UnknownModel
  datatype RemediationScope = NonprodOnly | AllEnvironments | UnknownScope
  datatype EnforcementBoundary = RequiredForProd | NotRequired | UnknownBoundary
  datatype Migration = GrandfatherTimeboxed | ContractRenewalCutover | ImmediateCutover | UnknownMigration
  datatype Governance = FounderActingRoles | SegregatedOwners | UnknownGovernance
  datatype OwnerFunction = ProductOwner | FinanceOwner | GoToMarketOwner | LegalOwner | EngineeringOwner | OperationsOwner | UnknownOwner
  datatype Resolution = LockedPrelaunch | ScheduledPostlaunch | UnknownResolution

  /** A decision id after trimming and upper-casing. */
  datatype DecisionId = Pkg(n: nat) | Fin(n: nat) | OtherId(text: string)

  datatype TierCosts = TierCosts(mrr: real, effective: real, llm: real, infra: real, support: real)
  datatype PolicyTelemetry = PolicyTelemetry(monthsObserved: int, source: SourceType, economics: seq<Row<TierCosts>>)
  datatype Decisions = Decisions(
    model: PricingModel, floorUsd: Option<real>, maxDiscount: real, motionAllowed: bool,
    scope: RemediationScope, boundary: EnforcementBoundary, migration: Migration, migrationDays: int)
  /** Owners are lower-cased. */
  datatype Approvals = Approvals(
    finance: string, product: string, goToMarket: string, governance: Governance, record: string, approvedAt: int)
  datatype DecisionItem = DecisionItem(
    id: DecisionId, ownerFunction: OwnerFunction, owner: string, summary: string, resolution: Resolution,
    launchBlocking: bool, record: string, approvedAt: int, targetDay: Option<int>, criteria: string)
  datatype Backlog = Backlog(requiredIds: seq<DecisionId>, items: seq<DecisionItem>)
  datatype PolicyGates = PolicyGates(
    decisionsComplete: bool, windowSufficient: bool, approvalsComplete: bool, motionGuarded: bool,
    coverageComplete: bool, blockersResolved: bool, commitmentsScheduled: bool)
  datatype PolicyEvidence = PolicyEvidence(
    capturedAt: int, window: Window, telemetry: PolicyTelemetry, decisions: Decisions,
    approvals: Approvals, backlog: Backlog, gates: PolicyGates)

  /** 4, 5, 9, then 11 to 13, 16 to 19 and 21 to 32. */
  function PkgNumber(i: nat): nat {
    if i < 2 then 4 + i else if i == 2 then 9 else if i <= 5 then 8 + i else if i <= 9 then 10 + i else 11 + i
  }

  /** The thirty canonical decisions: PKG-004 up to PKG-032, then FIN-001 to FIN-008. */
  function CanonicalAt(i: nat): DecisionId {
    if i < 22 then Pkg(PkgNumber(i)) else Fin(i - 21)
  }

  function Canonical(): (ids: seq<DecisionId>)
    ensures |ids| == 30 && forall i :: 0 <= i < 30 ==> ids[i] == CanonicalAt(i)
  {
    seq(30, i requires 0 <= i < 30 => CanonicalAt(i))
  }

  /** What the validator calls a placeholder token is a parameter: a predicate on texts. */
  type Placeholder = string -> bool

  predicate TextOk(placeholder: Placeholder, text: string) {
    text != "" && !placeholder(text)
  }

  // ----- telemetry -----

  predicate CostsRowOk(row: Row<TierCosts>) {
    var c := row.data;
    row.tier != Blank && c.mrr >= 0.0 && 0.0 <= c.effective <= c.mrr && c.llm >= 0.0 && c.infra >= 0.0 && c.support >= 0.0
  }

  ghost predicate CostsTier(rows: seq<Row<TierCosts>>, tier: TierKey) {
    exists i :: 0 <= i < |rows| && rows[i].tier == tier
  }

  ghost predicate TelemetryOk(t: PolicyTelemetry) {
    && t.monthsObserved >= 1 && !t.source.UnknownSource? && t.economics != []
    && (forall i :: 0 <= i < |t.economics| ==> CostsRowOk(t.economics[i]))
    && forall k :: 0 <= k < |TRACKED| ==> CostsTier(t.economics, TRACKED[k])
  }

  method ValidateTelemetry(t: PolicyTelemetry) returns (v: Verdict)
    ensures v.Accept? <==> TelemetryOk(t)
  {
    if t.monthsObserved < 1 { return Reject("months_observed must be >= 1"); }
    if t.source.UnknownSource? { return Reject("source_type is not allowed"); }
    if t.economics == [] { return Reject("tier_unit_economics must be a non-empty array"); }
    var seen: set<TierKey> := {};
    for i := 0 to |t.economics|
      invariant forall j :: 0 <= j < i ==> CostsRowOk(t.economics[j])
      invariant forall j :: 0 <= j < i ==> t.economics[j].tier in seen
      invariant forall tier :: tier in seen ==> CostsTier(t.economics, tier)
    {
      var c := t.economics[i].data;
      if t.economics[i].tier == Blank { return Reject("tier must be a non-empty string"); }
      if c.mrr < 0.0 || c.effective < 0.0 || c.llm < 0.0 || c.infra < 0.0 || c.support < 0.0 { return Reject("amount must be >= 0"); }
      if c.effective > c.mrr { return Reject("effective_mrr_usd cannot exceed mrr_usd"); }
      assert CostsTier(t.economics, t.economics[i].tier);
      seen := seen + {t.economics[i].tier};
    }
    for k := 0 to |TRACKED|
      invariant forall j :: 0 <= j < k ==> CostsTier(t.economics, TRACKED[j])
    {
      if TRACKED[k] !in seen { return Reject("missing required tiers"); }
    }
    return Accept;
  }

  // ----- decisions and approvals -----

  predicate DecisionsOk(d: Decisions) {
    && !d.model.UnknownModel? && 0.0 <= d.maxDiscount <= 100.0 && !d.scope.UnknownScope? && !d.boundary.UnknownBoundary?
    && !d.migration.UnknownMigration? && d.migrationDays >= 0
    && (d.migration.GrandfatherTimeboxed? ==> d.migrationDays > 0)
    && (if d.model.SpendBased? then d.floorUsd.Some? ==> d.floorUsd.value >= 0.0 else d.floorUsd.Some? && d.floorUsd.value >= 1.0)
  }

  /** Prices move only on observed production telemetry, and stay put only on synthetic telemetry. */
  predicate MotionGuarded(sufficient: bool, source: SourceType, allowed: bool) {
    (sufficient && source == ProductionObserved && allowed) || (!allowed && source == SyntheticPrelaunch)
  }

  predicate ApprovalsOk(placeholder: Placeholder, a: Approvals, capturedAt: int) {
    && TextOk(placeholder, a.finance) && TextOk(placeholder, a.product) && TextOk(placeholder, a.goToMarket)
    && !a.governance.UnknownGovernance?
    && (a.governance.SegregatedOwners? ==> |{a.finance, a.product, a.goToMarket}| == 3)
    && TextOk(placeholder, a.record) && a.approvedAt <= capturedAt
  }

  method ValidateDecisions(d: Decisions) returns (v: Verdict)
    ensures v.Accept? <==> DecisionsOk(d)
  {
    if d.model.UnknownModel? { return Reject("pricing model is not allowed"); }
    if d.model.SpendBased? {
      if d.floorUsd.Some? && d.floorUsd.value < 0.0 { return Reject("floor must be >= 0"); }
    } else {
      if d.floorUsd.None? || d.floorUsd.value < 1.0 { return Reject("floor must be >= 1"); }
    }
    if d.maxDiscount < 0.0 || d.maxDiscount > 100.0 { return Reject("max discount must be in 0..100"); }
    if d.scope.UnknownScope? || d.boundary.UnknownBoundary? { return Reject("policy value is not allowed"); }
    if d.migration.UnknownMigration? || d.migrationDays < 0 { return Reject("migration is not allowed"); }
    if d.migration.GrandfatherTimeboxed? && d.migrationDays == 0 { return Reject("migration window must be > 0"); }
    return Accept;
  }

  method ValidateApprovals(placeholder: Placeholder, a: Approvals, capturedAt: int) returns (v: Verdict)
    ensures v.Accept? <==> ApprovalsOk(placeholder, a, capturedAt)
  {
    if a.finance == "" || placeholder(a.finance) { return Reject("finance owner"); }
    if a.product == "" || placeholder(a.product) { return Reject("product owner"); }
    if a.goToMarket == "" || placeholder(a.goToMarket) { return Reject("go-to-market owner"); }
    if a.governance.UnknownGovernance? { return Reject("governance_mode is not allowed"); }
    if a.governance.SegregatedOwners? {
      var owners := {a.finance, a.product, a.goToMarket};
      if |owners| != 3 { return Reject("owners must be distinct"); }
    }
    if a.record == "" || placeholder(a.record) { return Reject("approval record"); }
    if a.approvedAt > capturedAt { return Reject("approved_at cannot be after captured_at"); }
    return Accept;
  }

  // ----- backlog -----

  ghost function IdSet(ids: seq<DecisionId>): set<DecisionId> {
    set i | 0 <= i < |ids| :: ids[i]
  }

  function ItemIds(items: seq<DecisionItem>): (ids: seq<DecisionId>)
    ensures |ids| == |items| && forall i :: 0 <= i < |items| ==> ids[i] == items[i].id
  {
    seq(|items|, i requires 0 <= i < |items| => items[i].id)
  }

  ghost predicate Distinct(ids: seq<DecisionId>) {
    forall i, j :: 0 <= i < j < |ids| ==> ids[i] != ids[j]
  }

  predicate ItemOk(placeholder: Placeholder, item: DecisionItem, capturedAt: int) {
    && item.id in Canonical() && !item.ownerFunction.UnknownOwner?
    && TextOk(placeholder, item.owner) && TextOk(placeholder, item.summary)
    && !item.resolution.UnknownResolution? && TextOk(placeholder, item.record) && item.approvedAt <= capturedAt
    && (item.resolution.ScheduledPostlaunch? ==>
         item.targetDay.Some? && TextOk(placeholder, item.criteria) && item.targetDay.value >= Day(capturedAt))
  }

  predicate BlockersResolved(items: seq<DecisionItem>) {
    forall i :: 0 <= i < |items| && items[i].launchBlocking ==> items[i].resolution.LockedPrelaunch?
  }

  ghost predicate BacklogOk(placeholder: Placeholder, b: Backlog, capturedAt: int) {
    && b.requiredIds != [] && IdSet(b.requiredIds) == IdSet(Canonical())
    && b.items != []
    && (forall i :: 0 <= i < |b.items| ==> ItemOk(placeholder, b.items[i], capturedAt))
    && Distinct(ItemIds(b.items))
    && IdSet(Canonical()) <= IdSet(ItemIds(b.items))
  }

  method CheckRequiredIds(ids: seq<DecisionId>) returns (ok: bool)
    ensures ok == (IdSet(ids) == IdSet(Canonical()))
  {
    var normalized: set<DecisionId> := {};
    for i := 0 to |ids|
      invariant normalized == IdSet(ids[..i])
    {
      normalized := normalized + {ids[i]};
      IdSetStep(ids, i);
    }
    assert ids[..|ids|] == ids;
    var canonical: set<DecisionId> := {};
    for i := 0 to |Canonical()|
      invariant canonical == IdSet(Canonical()[..i])
    {
      canonical := canonical + {Canonical()[i]};
      IdSetStep(Canonical(), i);
    }
    assert Canonical()[..|Canonical()|] == Canonical();
    ok := normalized == canonical;
  }

  lemma IdSetStep(ids: seq<DecisionId>, i: nat)
    requires i < |ids|
    ensures IdSet(ids[..i + 1]) == IdSet(ids[..i]) + {ids[i]}
  {
    var more, less := ids[..i + 1], ids[..i];
    forall x | x in IdSet(less) + {ids[i]}
      ensures x in IdSet(more)
    {
      if x == ids[i] {
        assert more[i] == x;
      } else {
        var k :| 0 <= k < i && less[k] == x;
        assert more[k] == x;
      }
    }
    forall x | x in IdSet(more)
      ensures x in IdSet(less) + {ids[i]}
    {
      var k :| 0 <= k < i + 1 && more[k] == x;
      assert k < i ==> less[k] == x;
    }
  }

  method CheckItem(placeholder: Placeholder, item: DecisionItem, capturedAt: int) returns (ok: bool)
    ensures ok == ItemOk(placeholder, item, capturedAt)
  {
    if item.id !in Canonical() || item.ownerFunction.UnknownOwner? || item.resolution.UnknownResolution? { return false; }
    if item.owner == "" || placeholder(item.owner) { return false; }
    if item.summary == "" || placeholder(item.summary) { return false; }
    if item.record == "" || placeholder(item.record) { return false; }
    if item.approvedAt > capturedAt { return false; }
    if item.resolution.ScheduledPostlaunch? {
      if item.targetDay.None? || item.criteria == "" || placeholder(item.criteria) { return false; }
      if item.targetDay.value < Day(capturedAt) { return false; }
    }
    return true;
  }

  method CheckItems(placeholder: Placeholder, items: seq<DecisionItem>, capturedAt: int)
    returns (v: Verdict, blockersResolved: bool, seen: set<DecisionId>)
    ensures v.Accept? <==>
            (forall i :: 0 <= i < |items| ==> ItemOk(placeholder, items[i], capturedAt)) && Distinct(ItemIds(items))
    ensures v.Accept? ==> blockersResolved == BlockersResolved(items) && seen == IdSet(ItemIds(items))
  {
    hide ItemOk;
    blockersResolved, seen := true, {};
    ghost var ids := ItemIds(items);
    for i := 0 to |items|
      invariant forall j :: 0 <= j < i ==> ItemOk(placeholder, items[j], capturedAt)
      invariant Distinct(ids[..i])
      invariant seen == IdSet(ids[..i])
      invariant blockersResolved == forall j :: 0 <= j < i && items[j].launchBlocking ==> items[j].resolution.LockedPrelaunch?
    {
      var item := items[i];
      if item.id in seen {
        ghost var j :| 0 <= j < i && ids[..i][j] == item.id;
        assert ids[j] == ids[i];
        return Reject("duplicate decision id"), blockersResolved, seen;
      }
      seen := seen + {item.id};
      IdSetStep(ids, i);
      DistinctStep(ids, i);
      var ok := CheckItem(placeholder, item, capturedAt);
      if !ok { return Reject("decision item out of range"), blockersResolved, seen; }
      if item.launchBlocking && !item.resolution.LockedPrelaunch? { blockersResolved := false; }
    }
    assert ids[..|items|] == ids;
    v := Accept;
  }

  lemma DistinctStep(ids: seq<DecisionId>, i: nat)
    requires i < |ids| && Distinct(ids[..i]) && ids[i] !in IdSet(ids[..i])
    ensures Distinct(ids[..i + 1])
  {
    var less, more := ids[..i], ids[..i + 1];
    forall j, k | 0 <= j < k < |more|
      ensures more[j] != more[k]
    {
      assert less[j] in IdSet(less);
      assert k < i ==> less[k] == more[k];
    }
  }

  method ValidateBacklog(placeholder: Placeholder, b: Backlog, capturedAt: int) returns (v: Verdict, blockersResolved: bool)
    ensures v.Accept? <==> BacklogOk(placeholder, b, capturedAt)
    ensures v.Accept? ==> blockersResolved == BlockersResolved(b.items)
  {
    hide ItemOk, IdSet;
    blockersResolved := false;
    if b.requiredIds == [] { return Reject("required_decision_ids must be a non-empty array"), false; }
    var idsOk := CheckRequiredIds(b.requiredIds);
    if !idsOk { return Reject("required_decision_ids must match the canonical set"), false; }
    if b.items == [] { return Reject("decision_items must be a non-empty array"), false; }
    var seen;
    v, blockersResolved, seen := CheckItems(placeholder, b.items, capturedAt);
    if v.Reject? { return; }
    var covered := CheckCoverage(seen);
    if !covered { return Reject("decision_items missing required decisions"), false; }
  }

  method CheckCoverage(seen: set<DecisionId>) returns (covered: bool)
    ensures covered == (IdSet(Canonical()) <= seen)
  {
    for i := 0 to |Canonical()|
      invariant forall j :: 0 <= j < i ==> Canonical()[j] in seen
    {
      if Canonical()[i] !in seen {
        assert Canonical()[i] in IdSet(Canonical());
        return false;
      }
    }
    return true;
  }

  // ----- verdict -----

  function ComputedGates(p: PolicyEvidence): PolicyGates {
    var sufficient := p.telemetry.monthsObserved >= 2;
    PolicyGates(true, sufficient, true, MotionGuarded(sufficient, p.telemetry.source, p.decisions.motionAllowed),
                true, BlockersResolved(p.backlog.items), true)
  }

  const ALL_PASS: PolicyGates := PolicyGates(true, true, true, true, true, true, true)

  ghost predicate PolicyAccepted(placeholder: Placeholder, p: PolicyEvidence, now: int, maxAge: Option<real>) {
    && FreshEnough(now, p.capturedAt, maxAge)
    && p.window.start <= p.window.end
    && TelemetryOk(p.telemetry)
    && DecisionsOk(p.decisions)
    && ApprovalsOk(placeholder, p.approvals, p.capturedAt)
    && BacklogOk(placeholder, p.backlog, p.capturedAt)
    && p.gates == ComputedGates(p) == ALL_PASS
  }

  method VerifyPolicyEvidence(placeholder: Placeholder, p: PolicyEvidence, now: int, maxAge: Option<real>) returns (v: Verdict)
    ensures v.Accept? <==> PolicyAccepted(placeholder, p, now, maxAge)
  {
    hide TelemetryOk, BacklogOk, ApprovalsOk, DecisionsOk, FreshEnough, BlockersResolved;
    var timely := CheckAge(now, p.capturedAt, maxAge);
    if !timely { return Reject("captured_at is too old"); }
    if p.window.end < p.window.start { return Reject("window.end must be >= window.start"); }
    v := ValidateTelemetry(p.telemetry);
    if v.Reject? { return; }
    v := ValidateDecisions(p.decisions);
    if v.Reject? { return; }
    v := ValidateApprovals(placeholder, p.approvals, p.capturedAt);
    if v.Reject? { return; }
    var blockersResolved;
    v, blockersResolved := ValidateBacklog(placeholder, p.backlog, p.capturedAt);
    if v.Reject? { return; }
    var sufficient := p.telemetry.monthsObserved >= 2;
    var guarded := p.telemetry.source == SyntheticPrelaunch;
    if p.decisions.motionAllowed { guarded := sufficient && p.telemetry.source == ProductionObserved; }
    var computed := PolicyGates(true, sufficient, true, guarded, true, blockersResolved, true);
    if p.gates != computed { return Reject("gate mismatch"); }
    if computed != ALL_PASS { return Reject("gates failed"); }
  }

  // ----- what acceptance guarantees -----

  lemma {:induction false} DistinctCount(ids: seq<DecisionId>)
    requires Distinct(ids)
    ensures |IdSet(ids)| == |ids|
  {
    if ids != [] {
      var n := |ids| - 1;
      DistinctCount(ids[..n]);
      IdSetStep(ids, n);
      assert ids[..n + 1] == ids;
      assert forall k :: 0 <= k < n ==> ids[..n][k] == ids[k] != ids[n];
    }
  }

  /** The canonical decisions by number. */
  predicate IsCanonical(id: DecisionId) {
    match id
    case Pkg(n) => n in {4, 5, 9, 11, 12, 13} || 16 <= n <= 19 || 21 <= n <= 32
    case Fin(n) => 1 <= n <= 8
    case OtherId(_) => false
  }

  lemma CanonicalExact(id: DecisionId)
    ensures id in Canonical() <==> IsCanonical(id)
  {
    var ids := Canonical();
    if IsCanonical(id) {
      var i := if id.Fin? then 21 + id.n else if id.n <= 5 then id.n - 4 else if id.n == 9 then 2
               else if id.n <= 13 then id.n - 8 else if id.n <= 19 then id.n - 10 else id.n - 11;
      assert ids[i] == id;
    }
    if id in ids {
      var i :| 0 <= i < |ids| && ids[i] == id;
      assert id == CanonicalAt(i);
    }
  }

  lemma CanonicalDistinct()
    ensures Distinct(Canonical())
  {
    forall i, j | 0 <= i < j < |Canonical()|
      ensures Canonical()[i] != Canonical()[j]
    {
      assert Canonical()[i] == CanonicalAt(i) && Canonical()[j] == CanonicalAt(j);
    }
  }

  lemma ItemsAreCanonical(placeholder: Placeholder, b: Backlog, capturedAt: int)
    requires BacklogOk(placeholder, b, capturedAt)
    ensures IdSet(ItemIds(b.items)) == IdSet(Canonical()) && |b.items| == |Canonical()|
  {
    var ids := ItemIds(b.items);
    forall x | x in IdSet(ids)
      ensures x in IdSet(Canonical())
    {
      var i :| 0 <= i < |ids| && ids[i] == x;
      assert ItemOk(placeholder, b.items[i], capturedAt);
    }
    CanonicalDistinct();
    DistinctCount(ids);
    DistinctCount(Canonical());
  }

  /**
    Accepted evidence lists every canonical decision exactly once, has each launch blocker
    locked before launch, rests on at least two months, and allows prices to move exactly when
    its telemetry was observed in production.
   */
  lemma PolicyAcceptanceGuarantees(placeholder: Placeholder, p: PolicyEvidence, now: int, maxAge: Option<real>)
    requires PolicyAccepted(placeholder, p, now, maxAge)
    ensures IdSet(ItemIds(p.backlog.items)) == IdSet(Canonical()) && |p.backlog.items| == |Canonical()| == 30
    ensures Distinct(ItemIds(p.backlog.items))
    ensures forall i :: 0 <= i < |p.backlog.items| && p.backlog.items[i].launchBlocking ==>
              p.backlog.items[i].resolution.LockedPrelaunch?
    ensures p.telemetry.monthsObserved >= 2
    ensures p.decisions.motionAllowed <==> p.telemetry.source == ProductionObserved
  {
    hide ItemOk, IdSet, TelemetryOk, DecisionsOk, ApprovalsOk, FreshEnough;
    ItemsAreCanonical(placeholder, p.backlog, p.capturedAt);
  }
}
