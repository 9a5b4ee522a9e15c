/** Assembly of the committee packet from telemetry and assumptions. */
module FinancePacket {
  import opened Outcomes
  import opened Rounding
  import opened Tiers
  import opened Telemetry
  import opened FinanceEngine
  import opened FinanceScenarios
  import opened FinanceGuardrails

  datatype SelfHosted = SelfHosted(staffing: real, oncall: real, security: real, infraOps: real, tooling: real) {
    function Total(): real { staffing + oncall + security + infraOps + tooling }
    predicate Parses() { staffing >= 0.0 && oncall >= 0.0 && security >= 0.0 && infraOps >= 0.0 && tooling >= 0.0 }
  }

  datatype Assumptions = Assumptions(
    capturedAt: int,
    sourceName: string,
    thresholds: Thresholds,
    costs: CostModel,
    conversion: Conversion,
    stressMultiplier: real,
    closes: seq<Close>,
    scenarios: seq<Scenario>,
    selfHosted: SelfHosted)

  datatype Packet = Packet(
    allGatesPassed: bool,
    totals: Totals,
    hostedArr: real,
    selfHostedTco: real,
    delta: real,
    sensitivityPresent: bool,
    tcoPresent: bool,
    scenarioRows: seq<ScenarioRow>)

  datatype Outputs = Outputs(guardrails: GuardrailEvidence, packet: Packet, units: seq<Row<Unit>>)

  predicate TierCostsParse(c: CostModel, tier: TierKey) {
    && tier in c.annualMix && 0.0 <= c.annualMix[tier] <= 1.0
    && NonNegativeAt(c.infraPct, tier)
    && NonNegativeAt(c.supportPerSub, tier)
  }

  ghost predicate CostsParse(c: CostModel) {
    && (forall i :: 0 <= i < |TRACKED| ==> TierCostsParse(c, TRACKED[i]))
    && c.supportPerDunning >= 0.0
  }

  predicate CloseParses(c: Close) {
    c.month != "" && Percentage(c.margin)
  }

  ghost predicate ClosesParse(closes: seq<Close>) {
    forall i :: 0 <= i < |closes| ==> CloseParses(closes[i])
  }

  ghost predicate AssumptionsParse(a: Assumptions) {
    && CostsParse(a.costs)
    && a.stressMultiplier >= 1.0
    && ThresholdsParse(a.thresholds)
    && ClosesParse(a.closes)
    && ScenariosParse(a.scenarios)
    && a.selfHosted.Parses()
  }

  /** Exactly the inputs on which the packet builder returns. */
  ghost predicate OutputsDefined(t: Snapshot, a: Assumptions) {
    && AssumptionsParse(a)
    && EconomicsParse(t)
    && P95Parses(UnitRows(t, a.costs), Index(t.llm))
    && t.window.name != ""
    && a.thresholds.requiredCloses <= |a.closes| + 1
  }

  function PaidShares(t: Snapshot, c: CostModel): (paid: map<TierKey, real>)
    requires EconomicsParse(t) && CostsParse(c)
    ensures forall i :: 0 <= i < |TRACKED| ==> TRACKED[i] in paid
  {
    map tier | tier in TRACKED :: DiscountFactor(c.annualMix[tier], t.pricing[tier].factor)
  }

  lemma IndexOfUnitRows(t: Snapshot, c: CostModel)
    requires EconomicsParse(t) && CostsCover(c)
    ensures Covers(Index(UnitRows(t, c)))
    ensures forall i :: 0 <= i < |TRACKED| ==> Index(UnitRows(t, c))[TRACKED[i]] == UnitRowFor(t, c, TRACKED[i]).data
  {
    hide Rounded, AmountsOf, Index;
    var rows := UnitRows(t, c);
    IndexKeys(rows);
    forall i | 0 <= i < |TRACKED|
      ensures TRACKED[i] in Index(rows) && Index(rows)[TRACKED[i]] == UnitRowFor(t, c, TRACKED[i]).data
    {
      assert rows[i].tier == TRACKED[i];
      IndexedFromRow(rows, TRACKED[i]);
      assert LastRowFor(rows, TRACKED[i], i);
    }
  }

  function BasisFor(t: Snapshot, c: CostModel): (b: Basis)
    requires EconomicsParse(t) && CostsParse(c)
    ensures BasisCovers(b)
  {
    hide Rounded, AmountsOf, Index, DiscountFactor;
    IndexOfUnitRows(t, c);
    Basis(Index(UnitRows(t, c)), PaidShares(t, c))
  }

  function PacketMetrics(t: Snapshot, a: Assumptions): Metrics
    requires EconomicsParse(t) && CostsParse(a.costs)
  {
    MetricsOf(UnitRows(t, a.costs), Index(t.llm), a.conversion, a.stressMultiplier)
  }

  function GatesFor(m: Metrics, th: Thresholds, closes: seq<Close>): Gates
    requires 1 <= th.requiredCloses <= |closes|
  {
    BuildGateResults(m, th, closes).value
  }

  function GuardrailsOf(t: Snapshot, a: Assumptions, now: int): GuardrailEvidence
    requires OutputsDefined(t, a)
  {
    var m := PacketMetrics(t, a);
    var closes := a.closes + [Close(t.window.name, m.blended)];
    GuardrailEvidence(now, t.window, m, a.thresholds, closes, Evidence(UnitRows(t, a.costs)),
                      a.stressMultiplier, m.stress, GatesFor(m, a.thresholds, closes))
  }

  function PacketFrom(gates: Gates, totals: Totals, selfHostedTotal: real, scenarioRows: seq<ScenarioRow>): Packet {
    var hosted := totals.effective * 12.0;
    Packet(gates.All(), totals, Round(hosted, PLACES2), Round(selfHostedTotal, PLACES2),
           Round(hosted - selfHostedTotal, PLACES2), scenarioRows != [], selfHostedTotal > 0.0, scenarioRows)
  }

  function ScenarioRowsOf(b: Basis, scenarios: seq<Scenario>): seq<ScenarioRow>
    requires BasisCovers(b) && ScenariosParse(scenarios)
  {
    seq(|scenarios|, i requires 0 <= i < |scenarios| => ScenarioReport(b, scenarios[i]))
  }

  function OutputsOf(t: Snapshot, a: Assumptions, now: int): Outputs
    requires OutputsDefined(t, a)
  {
    var g := GuardrailsOf(t, a, now);
    var units := UnitRows(t, a.costs);
    Outputs(g, PacketFrom(g.gates, TotalsOf(units), a.selfHosted.Total(), ScenarioRowsOf(BasisFor(t, a.costs), a.scenarios)), units)
  }

  method ParseCosts(c: CostModel) returns (v: Verdict)
    ensures v.Accept? <==> CostsParse(c)
  {
    for i := 0 to |TRACKED|
      invariant forall k :: 0 <= k < i ==> TierCostsParse(c, TRACKED[k])
    {
      var tier := TRACKED[i];
      if tier !in c.annualMix || tier !in c.infraPct || tier !in c.supportPerSub { return Reject("tier assumption missing"); }
      if c.annualMix[tier] < 0.0 || c.annualMix[tier] > 1.0 { return Reject("annual_mix_by_tier must be in 0..1"); }
      if c.infraPct[tier] < 0.0 || c.supportPerSub[tier] < 0.0 { return Reject("tier assumption must be >= 0"); }
    }
    if c.supportPerDunning < 0.0 { return Reject("support_cogs_per_dunning_event_usd must be >= 0"); }
    return Accept;
  }

  method ParseCloseHistory(closes: seq<Close>) returns (v: Verdict)
    ensures v.Accept? <==> ClosesParse(closes)
  {
    for i := 0 to |closes|
      invariant forall k :: 0 <= k < i ==> CloseParses(closes[k])
    {
      if closes[i].month == "" { return Reject("close_history month must be a non-empty string"); }
      if closes[i].margin < 0.0 || closes[i].margin > 100.0 { return Reject("close_history margin must be in 0..100"); }
    }
    return Accept;
  }

  method BuildPacket(gates: Gates, totals: Totals, h: SelfHosted, rows: seq<ScenarioRow>) returns (packet: Packet)
    ensures packet == PacketFrom(gates, totals, h.Total(), rows)
  {
    hide Round;
    var hosted := totals.effective * 12.0;
    var selfHosted := h.staffing + h.oncall + h.security + h.infraOps + h.tooling;
    var passed := gates.marginFloor && gates.llmContainment && gates.discountImpact && gates.expansion && gates.stress;
    assert selfHosted == h.Total();
    packet := Packet(passed, totals, Round(hosted, PLACES2), Round(selfHosted, PLACES2), Round(hosted - selfHosted, PLACES2),
                     |rows| > 0, selfHosted > 0.0, rows);
  }

  method BuildFinanceOutputs(t: Snapshot, a: Assumptions, now: int) returns (r: Result<Outputs>)
    ensures r.Ok? <==> OutputsDefined(t, a)
    ensures r.Ok? ==> r.value == OutputsOf(t, a, now)
  {
    hide MetricsOf, TotalsOf, PacketFrom, ScenarioReport, UnitRowFor, Index, DiscountFactor, RecentClosesPass;
    var costs := ParseCosts(a.costs);
    if costs.Reject? { return Error(costs.reason); }
    if a.stressMultiplier < 1.0 { return Error("infra_cost_multiplier must be >= 1"); }
    var th := a.thresholds;
    if th.minBlended < 0.0 || th.minBlended > 100.0 || th.minStress < 0.0 || th.minStress > 100.0 { return Error("margin floor out of range"); }
    if th.maxP95Share < 0.0 || th.maxDiscount < 0.0 || th.maxDiscount > 100.0 { return Error("cap out of range"); }
    if th.requiredCloses < 1 { return Error("required_consecutive_margin_closes must be >= 1"); }
    var history := ParseCloseHistory(a.closes);
    if history.Reject? { return Error(history.reason); }
    var units := BuildTierUnitEconomics(t, a.costs);
    if units.Error? { return Error(units.message); }
    var computed := ComputeMetrics(units.value, t.llm, a.conversion, a.stressMultiplier);
    if computed.Error? { return Error(computed.message); }
    var (metrics, totals) := computed.value;
    if t.window.name == "" { return Error("window label must be a non-empty string"); }
    var closes := a.closes + [Close(t.window.name, metrics.blended)];
    var gates := BuildGateResults(metrics, a.thresholds, closes);
    if gates.Error? { return Error(gates.message); }
    var guardrails := GuardrailEvidence(now, t.window, metrics, a.thresholds, closes, Evidence(units.value),
                                        a.stressMultiplier, metrics.stress, gates.value);
    assert guardrails.gates == GatesFor(metrics, a.thresholds, closes);
    var basis := BasisFor(t, a.costs);
    var rows := ComputeScenarioRows(basis, a.scenarios);
    if rows.Error? { return Error(rows.message); }
    assert rows.value == ScenarioRowsOf(basis, a.scenarios);
    var h := a.selfHosted;
    if h.staffing < 0.0 || h.oncall < 0.0 || h.security < 0.0 || h.infraOps < 0.0 || h.tooling < 0.0 {
      return Error("self_hosted_tco_inputs must be >= 0");
    }
    var packet := BuildPacket(gates.value, totals, h, rows.value);
    return Ok(Outputs(guardrails, packet, units.value));
  }
}
