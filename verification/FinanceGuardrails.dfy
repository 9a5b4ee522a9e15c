/** The independent verifier of the finance guardrail evidence. */
module FinanceGuardrails {
  import opened Outcomes
  import opened Rounding
  import opened Tiers
  import opened Telemetry
  import opened FinanceEngine

  datatype GuardrailEvidence = GuardrailEvidence(
    capturedAt: int,
    window: Window,
    metrics: Metrics,
    thresholds: Thresholds,
    closes: seq<Close>,
    rows: seq<Row<Economics>>,
    stressMultiplier: real,
    projectedMargin: real,
    gates: Gates)

  predicate ApproxEqual(a: real, b: real) {
    Round(a, PLACES2) == Round(b, PLACES2)
  }

  /** The verifier's own margin, which raises on revenue that is not positive. */
  function CalcMargin(revenue: real, cogs: real): real
    requires revenue > 0.0
  {
    (revenue - cogs) / revenue * 100.0
  }

  predicate Percentage(x: real) {
    0.0 <= x <= 100.0
  }

  predicate MetricsParse(m: Metrics) {
    Percentage(m.blended) && m.p95Share >= 0.0 && Percentage(m.discount) && Percentage(m.stress)
  }

  predicate RecentClosesParse(closes: seq<Close>, n: int)
    requires 1 <= n <= |closes|
  {
    forall i :: |closes| - n <= i < |closes| ==> Percentage(closes[i].margin)
  }

  function RowCogs(e: Economics): real {
    e.llm + e.infra + e.support
  }

  /** Signs, and effective revenue not above gross revenue. */
  predicate RowShape(e: Economics) {
    e.mrr >= 0.0 && 0.0 <= e.effective <= e.mrr && e.llm >= 0.0 && e.infra >= 0.0 && e.support >= 0.0
  }

  /** The margin recomputed from the rounded row agrees with the margin written in the row. */
  predicate RowMarginRecheck(e: Economics) {
    e.effective > 0.0 && ApproxEqual(CalcMargin(e.effective, RowCogs(e)), e.margin)
  }

  predicate RowAccepted(row: Row<Economics>) {
    row.tier != Blank && RowShape(row.data) && Percentage(row.data.margin) && RowMarginRecheck(row.data)
  }

  ghost predicate HasTier(rows: seq<Row<Economics>>, tier: TierKey) {
    exists i :: 0 <= i < |rows| && rows[i].tier == tier
  }

  ghost predicate TiersPresent(rows: seq<Row<Economics>>) {
    forall k :: 0 <= k < |TRACKED| ==> HasTier(rows, TRACKED[k])
  }

  predicate TotalsMatch(t: Totals, m: Metrics) {
    && t.effective > 0.0
    && ApproxEqual(CalcMargin(t.effective, t.Cogs()), m.blended)
    && t.mrr > 0.0
    && ApproxEqual((t.mrr - t.effective) / t.mrr * 100.0, m.discount)
  }

  function RecomputedGates(p: GuardrailEvidence): Gates
    requires 1 <= p.thresholds.requiredCloses <= |p.closes|
  {
    var m, th := p.metrics, p.thresholds;
    Gates(
      m.blended >= th.minBlended && RecentClosesPass(p.closes, th.requiredCloses, th.minBlended),
      m.p95Share <= th.maxP95Share,
      m.discount <= th.maxDiscount,
      m.growthToPro >= th.minGrowthToPro && m.proToEnterprise >= th.minProToEnterprise,
      m.stress >= th.minStress)
  }

  /** Everything the verifier demands before it looks at the gates. */
  ghost predicate Integrity(p: GuardrailEvidence) {
    && p.window.start <= p.window.end
    && MetricsParse(p.metrics)
    && ThresholdsParse(p.thresholds)
    && p.thresholds.requiredCloses <= |p.closes|
    && RecentClosesParse(p.closes, p.thresholds.requiredCloses)
    && p.rows != []
    && (forall i :: 0 <= i < |p.rows| ==> RowAccepted(p.rows[i]))
    && TiersPresent(p.rows)
    && TotalsMatch(SumRows(p.rows), p.metrics)
    && p.stressMultiplier >= 1.0
    && Percentage(p.projectedMargin)
    && ApproxEqual(p.projectedMargin, p.metrics.stress)
  }

  ghost predicate EvidenceAccepted(p: GuardrailEvidence, now: int, maxAge: Option<real>, allowFailedGates: bool) {
    && FreshEnough(now, p.capturedAt, maxAge)
    && Integrity(p)
    && p.gates == RecomputedGates(p)
    && (p.gates.All() || allowFailedGates)
  }

  method CheckCloses(closes: seq<Close>, n: int, floor: real) returns (v: Verdict, allPass: bool)
    requires 1 <= n <= |closes|
    ensures v.Accept? <==> RecentClosesParse(closes, n)
    ensures v.Accept? ==> allPass == RecentClosesPass(closes, n, floor)
  {
    allPass := true;
    for i := |closes| - n to |closes|
      invariant forall k :: |closes| - n <= k < i ==> Percentage(closes[k].margin)
      invariant allPass == forall k :: |closes| - n <= k < i ==> closes[k].margin >= floor
    {
      if closes[i].margin < 0.0 || closes[i].margin > 100.0 { return Reject("close margin out of range"), false; }
      if closes[i].margin < floor { allPass := false; }
    }
    return Accept, allPass;
  }

  method CheckRow(row: Row<Economics>) returns (v: Verdict)
    ensures v.Accept? <==> RowAccepted(row)
  {
    hide Round, CalcMargin;
    var e := row.data;
    if row.tier == Blank { return Reject("tier must be a non-empty string"); }
    if e.mrr < 0.0 || e.effective < 0.0 { return Reject("mrr must be >= 0"); }
    if e.effective > e.mrr { return Reject("effective_mrr_usd cannot exceed mrr_usd"); }
    if e.llm < 0.0 || e.infra < 0.0 || e.support < 0.0 { return Reject("cogs must be >= 0"); }
    if e.margin < 0.0 || e.margin > 100.0 { return Reject("gross_margin_percent out of range"); }
    var cogs := e.llm + e.infra + e.support;
    if e.effective <= 0.0 { return Reject("effective revenue must be > 0"); }
    if Round(CalcMargin(e.effective, cogs), PLACES2) != Round(e.margin, PLACES2) { return Reject("gross_margin_percent must match"); }
    return Accept;
  }

  method CheckTiers(rows: seq<Row<Economics>>, seen: set<TierKey>) returns (v: Verdict)
    requires forall tier :: tier in seen <==> HasTier(rows, tier)
    ensures v.Accept? <==> TiersPresent(rows)
  {
    for k := 0 to |TRACKED|
      invariant forall j :: 0 <= j < k ==> TRACKED[j] in seen
    {
      if TRACKED[k] !in seen { return Reject("missing required tiers"); }
    }
    return Accept;
  }

  method CheckRows(rows: seq<Row<Economics>>) returns (v: Verdict, gross: real, effective: real, cogs: real)
    ensures v.Accept? <==> (forall i :: 0 <= i < |rows| ==> RowAccepted(rows[i])) && TiersPresent(rows)
    ensures v.Accept? ==> var t := SumRows(rows); gross == t.mrr && effective == t.effective && cogs == t.Cogs()
  {
    hide RowAccepted;
    ghost var total := SumRows(rows[..0]);
    var seen: set<TierKey> := {};
    gross, effective, cogs := 0.0, 0.0, 0.0;
    for i := 0 to |rows|
      invariant forall k :: 0 <= k < i ==> RowAccepted(rows[k])
      invariant forall k :: 0 <= k < i ==> rows[k].tier in seen
      invariant forall tier :: tier in seen ==> HasTier(rows, tier)
      invariant total == SumRows(rows[..i])
      invariant gross == total.mrr && effective == total.effective && cogs == total.Cogs()
    {
      v := CheckRow(rows[i]);
      if v.Reject? { return; }
      var e := rows[i].data;
      assert HasTier(rows, rows[i].tier);
      seen := seen + {rows[i].tier};
      gross, effective, cogs := gross + e.mrr, effective + e.effective, cogs + (e.llm + e.infra + e.support);
      SumRowsStep(rows, i);
      total := AddRow(total, e);
    }
    assert rows[..|rows|] == rows;
    v := CheckTiers(rows, seen);
  }

  method CheckRanges(m: Metrics, th: Thresholds) returns (v: Verdict)
    ensures v.Accept? <==> MetricsParse(m) && ThresholdsParse(th)
  {
    if m.blended < 0.0 || m.blended > 100.0 || m.stress < 0.0 || m.stress > 100.0 { return Reject("margin out of range"); }
    if m.p95Share < 0.0 || m.discount < 0.0 || m.discount > 100.0 { return Reject("metric out of range"); }
    if th.minBlended < 0.0 || th.minBlended > 100.0 || th.minStress < 0.0 || th.minStress > 100.0 { return Reject("margin floor out of range"); }
    if th.maxP95Share < 0.0 || th.maxDiscount < 0.0 || th.maxDiscount > 100.0 { return Reject("cap out of range"); }
    if th.requiredCloses < 1 { return Reject("required_consecutive_margin_closes must be >= 1"); }
    return Accept;
  }

  method VerifyEvidence(p: GuardrailEvidence, now: int, maxAge: Option<real>, allowFailedGates: bool)
    returns (v: Verdict)
    ensures v.Accept? <==> EvidenceAccepted(p, now, maxAge, allowFailedGates)
  {
    hide RowAccepted, ApproxEqual, RecentClosesPass, FreshEnough, TiersPresent, MetricsParse, RowMarginRecheck;
    var timely := CheckAge(now, p.capturedAt, maxAge);
    if !timely { return Reject("captured_at is too old"); }
    if p.window.end < p.window.start { return Reject("window.end must be >= window.start"); }
    v := CheckRanges(p.metrics, p.thresholds);
    if v.Reject? { return; }
    var th := p.thresholds;
    if |p.closes| < th.requiredCloses { return Reject("close_history has too few entries"); }
    var closes, closesAllPass := CheckCloses(p.closes, th.requiredCloses, th.minBlended);
    if closes.Reject? { return closes; }
    if p.rows == [] { return Reject("tier_unit_economics must be a non-empty array"); }
    var rows, gross, effective, cogs := CheckRows(p.rows);
    if rows.Reject? { return rows; }
    if effective <= 0.0 { return Reject("effective revenue must be > 0"); }
    if !ApproxEqual(CalcMargin(effective, cogs), p.metrics.blended) { return Reject("blended margin must match"); }
    if gross <= 0.0 { return Reject("gross revenue must be > 0"); }
    if !ApproxEqual((gross - effective) / gross * 100.0, p.metrics.discount) {
      return Reject("annual discount impact must match");
    }
    if p.stressMultiplier < 1.0 || p.projectedMargin < 0.0 || p.projectedMargin > 100.0 { return Reject("stress scenario out of range"); }
    if !ApproxEqual(p.projectedMargin, p.metrics.stress) { return Reject("stress margin must match"); }
    var computed := Gates(
      p.metrics.blended >= th.minBlended && closesAllPass,
      p.metrics.p95Share <= th.maxP95Share,
      p.metrics.discount <= th.maxDiscount,
      p.metrics.growthToPro >= th.minGrowthToPro && p.metrics.proToEnterprise >= th.minProToEnterprise,
      p.metrics.stress >= th.minStress);
    if p.gates != computed { return Reject("gate mismatch"); }
    if !computed.All() && !allowFailedGates { return Reject("gates failed"); }
    return Accept;
  }
}
