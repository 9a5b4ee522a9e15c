/** Operational readiness: the three evidence verifiers composed into one verdict. */
module Readiness {
  import opened Outcomes
  import opened Rounding
  import opened Tiers
  import opened Telemetry
  import opened FinanceEngine
  import opened FinanceGuardrails
  import opened SnapshotVerifier
  import opened SnapshotCollector
  import opened SnapshotAgreement
  import opened PkgFinPolicy
  import opened PkgFinGenerator

  datatype Ages = Ages(policy: Option<real>, finance: Option<real>, telemetry: Option<real>)
  datatype Options = Options(ages: Ages, allowFailedFinGates: bool, requireProduction: bool, requireSegregated: bool)

  datatype Summary = Summary(
    policyPass: bool, financePass: bool, telemetryPass: bool,
    prelaunchReady: bool, postlaunchReady: bool, productionReady: bool, segregatedReady: bool,
    remaining: seq<string>)

  const COLLECT_PRODUCTION := "Collect >=2 months production_observed telemetry and refresh PKG/FIN policy evidence."
  const SEGREGATE_OWNERS := "Move approvals.governance_mode to segregated_owners with distinct finance/product/go-to-market owners."

  predicate PolicyGatesPass(g: PolicyGates) {
    && g.decisionsComplete && g.windowSufficient && g.approvalsComplete && g.motionGuarded
    && g.coverageComplete && g.blockersResolved && g.commitmentsScheduled
  }

  predicate TelemetryGatesPass(g: TelemetryGates) {
    g.tiersPresent && g.windowValid && g.percentilesValid && g.artifactFresh && g.bounded && g.marginGuarded
  }

  function Summarize(p: PolicyEvidence, f: GuardrailEvidence, t: Snapshot): Summary {
    var production := p.telemetry.source == ProductionObserved && p.telemetry.monthsObserved >= 2;
    var segregated := p.approvals.governance == SegregatedOwners;
    var policy, finance, telemetry := PolicyGatesPass(p.gates), f.gates.All(), TelemetryGatesPass(t.gates);
    var prelaunch := policy && finance && telemetry;
    Summary(policy, finance, telemetry, prelaunch, prelaunch && production && segregated, production, segregated,
            (if production then [] else [COLLECT_PRODUCTION]) + (if segregated then [] else [SEGREGATE_OWNERS]))
  }

  ghost predicate ReadinessDefined(placeholder: Placeholder, p: PolicyEvidence, f: GuardrailEvidence, t: Snapshot, now: int, o: Options) {
    && PolicyAccepted(placeholder, p, now, o.ages.policy)
    && EvidenceAccepted(f, now, o.ages.finance, o.allowFailedFinGates)
    && SnapshotAccepted(t, now, o.ages.telemetry)
    && (o.requireProduction ==> Summarize(p, f, t).productionReady)
    && (o.requireSegregated ==> Summarize(p, f, t).segregatedReady)
  }

  method VerifyOperationalReadiness(placeholder: Placeholder, p: PolicyEvidence, f: GuardrailEvidence, t: Snapshot, now: int, o: Options)
    returns (r: Result<Summary>)
    ensures r.Ok? <==> ReadinessDefined(placeholder, p, f, t, now, o)
    ensures r.Ok? ==> r.value == Summarize(p, f, t)
  {
    hide PolicyAccepted, EvidenceAccepted, SnapshotAccepted, PolicyGatesPass, TelemetryGatesPass;
    var policy := VerifyPolicyEvidence(placeholder, p, now, o.ages.policy);
    if policy.Reject? { return Error(policy.reason); }
    var finance := VerifyEvidence(f, now, o.ages.finance, o.allowFailedFinGates);
    if finance.Reject? { return Error(finance.reason); }
    var telemetry := VerifySnapshot(t, now, o.ages.telemetry);
    if telemetry.Reject? { return Error(telemetry.reason); }
    var production := p.telemetry.source == ProductionObserved && p.telemetry.monthsObserved >= 2;
    var segregated := p.approvals.governance == SegregatedOwners;
    var policyPass, financePass, telemetryPass := PolicyGatesPass(p.gates), f.gates.All(), TelemetryGatesPass(t.gates);
    var prelaunch := policyPass && financePass && telemetryPass;
    var postlaunch := prelaunch && production && segregated;
    var remaining: seq<string> := [];
    if !production { remaining := remaining + [COLLECT_PRODUCTION]; }
    if !segregated { remaining := remaining + [SEGREGATE_OWNERS]; }
    if o.requireProduction && !production { return Error("production_observed telemetry requirement failed"); }
    if o.requireSegregated && !segregated { return Error("segregated owner governance requirement failed"); }
    return Ok(Summary(policyPass, financePass, telemetryPass, prelaunch, postlaunch, production, segregated, remaining));
  }

  /**
    A readiness verdict says: production telemetry is ready exactly when prices may move; all
    policy gates pass; finance passes unless failed gates were allowed; the only telemetry
    gates that can fail are the two of the free tier; prices move after launch only under
    three distinct owners; and no work remains exactly when both requirements hold.
   */
  lemma ReadinessMeaning(placeholder: Placeholder, p: PolicyEvidence, f: GuardrailEvidence, t: Snapshot, now: int, o: Options)
    requires ReadinessDefined(placeholder, p, f, t, now, o)
    ensures var s := Summarize(p, f, t);
            && (s.productionReady <==> p.decisions.motionAllowed)
            && s.policyPass
            && (!o.allowFailedFinGates ==> s.financePass)
            && (s.telemetryPass <==> LimitsBounded(t.guardrails.limits) && WatchGuarded(t.watch))
            && (s.prelaunchReady <==> s.financePass && s.telemetryPass)
            && (s.segregatedReady <==> p.approvals.governance == SegregatedOwners)
            && (s.postlaunchReady <==> s.prelaunchReady && p.decisions.motionAllowed && p.approvals.governance == SegregatedOwners)
            && (s.postlaunchReady ==> |{p.approvals.finance, p.approvals.product, p.approvals.goToMarket}| == 3)
            && (s.remaining == [] <==> s.productionReady && s.segregatedReady)
  {
    hide TelemetryOk, BacklogOk, Integrity, PricingsAccepted, SubscriptionsAccepted, UsagesAccepted, FreshEnough, IdSet, BlockersResolved,
         DecisionsOk, RatioAccepted, RecomputedGates;
    PolicyAcceptanceGuarantees(placeholder, p, now, o.ages.policy);
  }

  /** Generated evidence is synthetic, so it never opens the way to moving prices. */
  lemma GeneratedEvidenceIsPrelaunch(placeholder: Placeholder, t: Snapshot, months: int, x: Texts, today: string, captured: int,
                                     f: GuardrailEvidence, now: int, o: Options)
    requires GenerationDefined(t, months)
    ensures var p := Generated(t, months, x, today, captured);
            && !Summarize(p, f, t).postlaunchReady
            && (o.requireProduction ==> !ReadinessDefined(placeholder, p, f, t, now, o))
            && (ReadinessDefined(placeholder, p, f, t, now, o) ==> Summarize(p, f, t).remaining == [COLLECT_PRODUCTION, SEGREGATE_OWNERS])
  {
    hide CostsRows, PolicyAccepted, EvidenceAccepted, SnapshotAccepted, CaptureInstant;
  }

  // ----- from the collector to accepted policy evidence -----

  lemma CollectedRevenue(x: Inputs, now: int, k: int)
    requires SaneInputs(x) && 0 <= k < |COLLECTED|
    ensures var row := Collected(x, now).revenue[k]; row.tier == COLLECTED[k] != Blank && row.data.grossMrr >= 0.0
  {
    hide PricingFor, Subscribers, SanePrices, Round, Usage;
    var tier := COLLECTED[k];
    assert tier != Blank by { assert k == 0 || k == 1 || k == 2 || k == 3 || k == 4; }
    var monthly, active := PricingReference(x.prices)[tier].monthly, Subscribers(x.subscriptionRows, tier).active;
    SanePricingAccepted(Resolve(tier, x.prices[tier]));
    PriceNonNegative(PricingReference(x.prices)[tier]);
    SaneSubscribers(x, tier);
    MulNonNegative(monthly, active as real);
    RoundNonNegative(monthly * active as real, PLACES6);
    RevenueRounded(monthly, active);
  }

  /** Every sane collection generates policy evidence that is accepted while it is fresh. */
  lemma CollectedSnapshotToPolicy(placeholder: Placeholder, x: Inputs, collected: int, months: int, texts: Texts, today: string,
                                  captured: int, later: int, maxAge: Option<real>)
    requires SaneInputs(x) && months >= 2 && TextsOk(placeholder, texts)
    ensures GenerationDefined(Collected(x, collected), months)
    ensures PolicyAccepted(placeholder, Generated(Collected(x, collected), months, texts, today, captured), later, maxAge) <==>
            FreshEnough(later, CaptureInstant(captured), maxAge)
  {
    hide PricingReference, UsageRowsOf, SubscriptionRowsOf, PricingsAccepted, SubscriptionsAccepted, UsagesAccepted, GenerationDefined,
         CaptureInstant, FreshEnough, Generated, PolicyAccepted, SanePrices, Usage, StarterGross, RevenueOf;
    var t := Collected(x, collected);
    PayloadRowsAccepted(x);
    forall k | 0 <= k < |COLLECTED|
      ensures t.revenue[k].tier == COLLECTED[k] != Blank && t.revenue[k].data.grossMrr >= 0.0
    {
      CollectedRevenue(x, collected, k);
    }
    forall k | 0 <= k < |TRACKED|
      ensures KeyPresent(t.revenue, TRACKED[k])
    {
      assert TRACKED[k] == COLLECTED[k + 1] by { assert k == 0 || k == 1 || k == 2 || k == 3; }
      assert t.revenue[k + 1].tier == TRACKED[k];
    }
    VerifiedSnapshotGenerates(t, months);
    GeneratedEvidenceAccepted(placeholder, t, months, texts, today, captured, later, maxAge);
  }
}
