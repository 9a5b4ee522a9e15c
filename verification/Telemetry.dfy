/** The finance telemetry snapshot: written by the collector, checked by its verifier, read by the packet. */
module Telemetry {
  import opened Outcomes
  import opened Tiers

  /** Instants count microseconds. */
  datatype Window = Window(start: int, end: int, name: string)

  datatype Pricing = Pricing(monthly: real, annual: real, factor: real)
  datatype Subscription = Subscription(totalTenants: int, active: int, dunning: int)
  datatype LlmUsage = LlmUsage(totalCost: real, p50: real, p95: real, p99: real)
  datatype Revenue = Revenue(monthlyPrice: real, active: int, grossMrr: real)
  datatype LimitRow = LimitRow(name: string, free: int, starter: int, freeLeStarter: bool)
  datatype Guardrails = Guardrails(tier: TierKey, reference: TierKey, limits: seq<LimitRow>, bounded: bool)
  datatype MarginWatch = MarginWatch(
    freeTenants: int, freeActive: int, freeCost: real, freeP95: real,
    starterGross: real, ratio: Option<real>, maxPct: real)
  datatype TelemetryGates = TelemetryGates(
    tiersPresent: bool, windowValid: bool, percentilesValid: bool,
    artifactFresh: bool, bounded: bool, marginGuarded: bool)

  datatype Snapshot = Snapshot(
    capturedAt: int,
    window: Window,
    pricing: map<TierKey, Pricing>,
    subscriptions: seq<Row<Subscription>>,
    revenue: seq<Row<Revenue>>,
    llm: seq<Row<LlmUsage>>,
    guardrails: Guardrails,
    watch: MarginWatch,
    gates: TelemetryGates)

  const MICROS_PER_HOUR: real := 3600000000.0

  function AgeHours(now: int, capturedAt: int): real {
    (now - capturedAt) as real / MICROS_PER_HOUR
  }

  /** The optional age limit of the three evidence verifiers: at least 0.01 hours, and not exceeded. */
  predicate FreshEnough(now: int, capturedAt: int, maxAge: Option<real>) {
    maxAge.Some? ==> maxAge.value >= 0.01 && AgeHours(now, capturedAt) <= maxAge.value
  }

  method CheckAge(now: int, capturedAt: int, maxAge: Option<real>) returns (ok: bool)
    ensures ok == FreshEnough(now, capturedAt, maxAge)
  {
    if maxAge.None? { return true; }
    if maxAge.value < 0.01 { return false; }
    var hours := (now - capturedAt) as real / 3600000000.0;
    return hours <= maxAge.value;
  }
}
