# Evidence pipelines: a Dafny model

The repository's `scripts/` directory holds pairs of programs. One program computes an
evidence artefact (a finance packet, a telemetry snapshot, a load-test report, a policy
decision file, an environment, a Markdown document), rounding and rendering on the way. A
second program, written apart from the first, recomputes or re-parses the artefact and
accepts or rejects it before a release. This project models both sides of each pair and
proves what the composition does: exactly which artefacts the checker accepts among those
the producer can write, what acceptance guarantees, and how far rounding can separate the
two computations.

How the model is built:

- Payloads are datatypes. A verifier that raises returns `Accept` or `Reject`; a producer
  that raises returns `Ok` or `Error`. The clock, query results, HTTP replies and file
  contents are parameters.
- Numbers are exact reals. Only the explicit `round` calls round: to the nearest grid point,
  a tie to the even one.
- Loops that fill dictionaries, lists, sets or flags are methods with loop invariants, each
  proved against a function or predicate of its input; lists and payloads that the scripts
  change in place are fields of a class. The theorems are lemmas about those functions and
  predicates.

The main results, file by file:

- `FinanceEndToEnd`: on every verified snapshot the derived assumptions always build a
  packet, the packet's metrics are those the derivation saw, and each of the five gates is
  decided by a fixed number; `VerifiedTelemetryToVerdict` carries that through to the
  independent verifier, and `FinanceFromCollection` starts one step earlier, at the collector.
- `FinanceAcceptance`, `FinanceRounding`, `FinanceScenarios`: the verifier's exact verdict on
  whatever the packet builder returns, in terms of the exact amounts, the rounding bound of
  its per-tier margin recheck, the all-ones scenario, and price rises.
- `FinanceDerivation`, `FinanceLaws`, `FinanceBaseline`: every derived assumption, every
  written row, the totals and the gates in terms of the snapshot, without division, and the
  baseline scenario's margin against the packet's.
- `SnapshotAgreement`, `Percentiles`: collector and snapshot verifier agree except on one
  family of inputs, of which an instance is given; percentile order survives rounding.
- `ReleaseGate`, `ReleaseAssembly`: of an arbitrary ambient environment only seven variables influence the
  assembled commands, and the success condition and the commands are given exactly; in an
  environment that was not rewritten, the first failing check and what is kept before it.
- `StressEvidence`, `Preflight`: none of the stress verifier's consistency equations can fail
  on the load test's own payload; what acceptance bounds for every run and every endpoint.
- `PkgFinGenerator`, `PkgFinPolicy`, `Readiness`: generated policy evidence is accepted while
  fresh; what acceptance and readiness say.
- `Migrations`: every revision lies below a head or a cycle, from which follow the exact
  condition for one head to reach everything and the equivalence on graphs without cycles;
  three head computations agree.
- `EnvRoundTrip`, `KeyRotationAcceptance`, `ApiPaths`: rendering against parsing, and path
  matching as overlap of templates.

Where a promise turns out not to hold for every input, the model keeps the code as it is,
gives an input and proves the exact condition:

- The snapshot verifier rejects a correct collection whose free-tier cost ratio lies above
  100 percent but rounds to 100 at six decimals (`SnapshotCanBeRejected`,
  `CollectorVerifierAgreement`).
- The per-tier recheck of the finance verifier can reject the packet builder's own rows. In a
  launch month at list prices with one subscription per paid tier, growth is written with
  88.79 percent and rechecked as 88.78 (`RecheckCanFail`); a tracked tier without
  subscriptions is always rejected (`NoSubscriptionsRejected`). `RowCheckExact` gives the
  condition on the exact amounts, and `GuardrailAcceptance` carries it to the verdict.
- Key-rotation evidence states a next drill 90 days ahead and the verifier refuses a due date
  in the past, so the default 120-day age limit is never reached
  (`DefaultLimitCutShort`, `DrillAcceptance`).
- A migration graph with a cycle can be accepted although part of it is unreachable
  (`CyclicGraphAccepted`). On any accepted graph the head reaches every revision if and only
  if it reaches those on cycles (`AcceptedReachesAll`).

## Model

| member | source | states |
|---|---|---|
| Rounding.RoundMonotone | scripts/finance_committee_packet_engine.py:77-103 | rounding keeps order at every number of places |
| Rounding.RoundWithinHalfUnit | scripts/finance_committee_packet_engine.py:77-103 | a rounded number is at most half a grid step from the exact one |
| Rounding.RoundExactOnGrid | scripts/verify_finance_guardrails_evidence.py:72-74 | rounding changes nothing that is already on the grid |
| Rounding.RoundIdempotent | scripts/verify_finance_guardrails_evidence.py:72-74 | rounding an already rounded number again changes nothing |
| Rounding.RoundIsNearest | scripts/finance_committee_packet_engine.py:77-103 | no grid point is nearer than the chosen one |
| Rounding.RoundAgainstGridPoint | scripts/finance_committee_packet_engine.py:193-235 | a threshold on the grid bounds a number from either side only if it bounds the rounded number too |
| Tiers.IndexByTier | scripts/finance_committee_packet_common.py:71-79 | the dictionary keeps the last row of each tier and raises exactly when some tier is blank |
| Tiers.IndexSkippingBlanks | scripts/finance_committee_packet_assumptions_engine.py:33-44 | the lenient index keeps the last row of each tier and drops blank tiers |
| Tiers.IndexedFromRow | scripts/finance_committee_packet_common.py:71-79 | an indexed value is the data of the last row of that tier |
| FinanceEngine.BuildTierUnitEconomics | scripts/finance_committee_packet_engine.py:22-108 | returns the rounded row of each tracked tier in order, and raises exactly when a tier does not parse |
| FinanceLaws.PacketRowsFollow | scripts/finance_committee_packet_engine.py:44-106 | every written row is within half a cent of list revenue, paid revenue, usage, infrastructure share and support of its tier, with the counts copied |
| FinanceEngine.AccumulateRows | scripts/finance_committee_packet_engine.py:111-158 | the running totals are the sums over all rows and the worst tenant share is the maximum over the tiers |
| FinanceEngine.WorstShareLaw | scripts/finance_committee_packet_engine.py:145-157 | for every row with subscriptions, revenue and usage, p95 times active times 100 is at most the worst share times the effective revenue, with equality at some such row unless the share is zero |
| FinanceEngine.WorstShareAtMost | scripts/finance_committee_packet_engine.py:145-157 | the worst share is at most a percentage if and only if every row's cross-multiplied share is |
| FinanceEngine.ComputeMetrics | scripts/finance_committee_packet_engine.py:111-190 | metrics and rounded totals of the rows, raising exactly when a p95 cost does not parse |
| FinanceLaws.PacketTotalsExact | scripts/finance_committee_packet_engine.py:118-190 | the reported totals are the plain sums of the written rows |
| FinanceLaws.RecentClosesLaw | scripts/finance_committee_packet_engine.py:193-235 | the appended close counts first, then as many earlier ones as are still required |
| FinanceGuardrails.CheckCloses | scripts/verify_finance_guardrails_evidence.py:190-213 | accepts exactly when the most recent required closes all parse; reports whether they all reach the margin floor |
| FinanceGuardrails.CheckRow | scripts/verify_finance_guardrails_evidence.py:219-270 | accepts a row exactly when it is well formed and its margin equals the margin recomputed from its own amounts |
| FinanceGuardrails.CheckRows | scripts/verify_finance_guardrails_evidence.py:215-280 | accepts exactly when every row passes, every required tier is there, and returns the sums over the rows |
| FinanceGuardrails.VerifyEvidence | scripts/verify_finance_guardrails_evidence.py:82-342 | accepts exactly the evidence that is fresh, consistent with its rows, thresholds, closes and five recomputed gates, and passes them unless failed gates are allowed |
| FinanceScenarios.ComputeScenarioRows | scripts/finance_committee_packet_scenarios.py:15-113 | one row per scenario from the sums over the tiers, raising exactly when some scenario does not parse |
| FinanceScenarios.ProjectionLaw | scripts/finance_committee_packet_scenarios.py:71-99 | without dividing: revenue, usage and support follow subscriptions, revenue also price and paid share, and infrastructure follows revenue in the proportion of the row |
| FinanceScenarios.UniformPriceRise | scripts/finance_committee_packet_scenarios.py:71-112 | scaling all price multipliers by the same k of at least 1 lowers neither the reported revenue nor the reported margin, zero revenue and rounding included |
| FinanceAcceptance.PacketPriceRise | scripts/finance_committee_packet_engine.py:238-315 | the price-rise theorem for the rows and paid shares that every packet hands to its scenarios |
| FinancePacket.BuildFinanceOutputs | scripts/finance_committee_packet_engine.py:238-315 | returns exactly on the inputs that parse and hold enough closes, with evidence, totals and scenarios of those inputs |
| FinancePacket.ParseCosts | scripts/finance_committee_packet_common.py:81-99 | accepts exactly the cost assumptions that hold every tracked tier within its range |
| FinancePacket.ParseCloseHistory | scripts/finance_committee_packet_common.py:146-171 | accepts exactly the histories of named months with percentages |
| FinanceAcceptance.MetricBounds | scripts/finance_committee_packet_engine.py:111-190 | stress margin at most blended margin (equal at multiplier 1) at most 100, discount impact a percentage, tenant share not negative |
| FinanceAcceptance.TotalsAlwaysMatch | scripts/verify_finance_guardrails_evidence.py:282-308 | blended margin and discount recomputed from the rounded rows equal the reported metrics |
| FinanceAcceptance.RowCheckExact | scripts/verify_finance_guardrails_evidence.py:219-270 | the row check passes on the builder's row if and only if the exact effective revenue is at least a cent after rounding and the exact amounts and the whole-cent amounts are nearest to the same margin step, not below zero |
| FinanceAcceptance.IntegrityOfPacket | scripts/verify_finance_guardrails_evidence.py:190-336 | on the builder's evidence all integrity checks together hold if and only if the window is ordered, the stress margin is not negative and every tier's exact amounts survive rounding to cents |
| FinanceAcceptance.GuardrailAcceptance | scripts/verify_finance_guardrails_evidence.py:82-342 | the verifier accepts the builder's evidence if and only if it is fresh, its window is ordered, the stress margin is not negative, every tier's exact amounts survive rounding to cents, and the gates pass or may fail |
| FinanceAcceptance.NoSubscriptionsRejected | scripts/verify_finance_guardrails_evidence.py:219-270 | evidence of any packet with a tracked tier without subscriptions is rejected, failed gates allowed or not |
| FinanceRounding.RecomputedMarginBound | scripts/verify_finance_guardrails_evidence.py:262-270 | the margin recomputed from the rounded row is within 2 divided by the rounded effective revenue of the exact margin |
| FinanceRounding.RoundedMarginsWithinOneStep | scripts/verify_finance_guardrails_evidence.py:262-270 | from 400 USD of effective revenue the two rounded margins differ by at most 0.01 |
| FinanceRounding.RecheckPassesAwayFromBoundary | scripts/verify_finance_guardrails_evidence.py:262-270 | a sufficient condition on the exact margin alone: no rounding boundary lies within that bound of it |
| FinanceRounding.RecheckPassesOnWholeCents | scripts/verify_finance_guardrails_evidence.py:262-270 | the recheck passes on amounts that are whole cents |
| FinanceRounding.AllOnesProjection | scripts/finance_committee_packet_scenarios.py:71-105 | with all multipliers one, dividing by max(active, 1) and multiplying back loses no revenue, usage cost or support |
| FinanceRounding.AllOnesReproducesBaseline | scripts/finance_committee_packet_scenarios.py:51-112 | the all-ones scenario reports the baseline effective revenue up to 0.04 USD for any telemetry |
| FinanceBaseline.AllOnesMargin | scripts/finance_committee_packet_scenarios.py:51-112 | the all-ones scenario's margin is the packet's margin without the costs of idle tiers, up to 0.01 plus 8 over the projected revenue; the blended margin if idle tiers cost nothing |
| FinanceBaseline.TierCostsDrift | scripts/finance_committee_packet_scenarios.py:71-102 | one tier's projected costs are its written costs, less usage and support of an idle tier, up to a cent |
| FinanceAssumptions.DeriveAssumptionsInputs | scripts/finance_committee_packet_assumptions_engine.py:47-305 | returns exactly on telemetry that parses, with mixes, ratios, thresholds, history, scenarios and TCO inputs of that telemetry |
| FinanceDerivation.DerivedInfra | scripts/finance_committee_packet_assumptions_engine.py:103-109 | the infrastructure percentage is the base plus 35 times the usage share of gross revenue, to half a cent, held between 4.5 and 15 |
| FinanceDerivation.DerivedMix | scripts/finance_committee_packet_assumptions_engine.py:94-101 | the annual mix from the tier's base, subscriptions up to 100 and discount up to 15 percent |
| FinanceDerivation.DerivedSupport | scripts/finance_committee_packet_assumptions_engine.py:111-122 | support per subscription from price and dunning per subscription times the tier's lift, between 4 and 42 |
| FinanceDerivation.DerivedDunning | scripts/finance_committee_packet_assumptions_engine.py:127-131 | support per dunning event is 1.4 times the mean support, between 12 and 45 |
| FinanceDerivation.DerivedSignals | scripts/finance_committee_packet_assumptions_engine.py:133-148 | the conversion signals from the ratios of neighbouring tiers, between -3 and 3 |
| FinanceDerivation.SignalsReported | scripts/finance_committee_packet_assumptions_engine.py:139-168 | the metrics report the signals unchanged |
| FinanceDerivation.DerivedStress | scripts/finance_committee_packet_assumptions_engine.py:150-154 | the stress multiplier is 1.5 plus twice the usage share of gross revenue, between 1.4 and 2.5 |
| FinanceDerivation.DerivedThresholds | scripts/finance_committee_packet_assumptions_engine.py:170-240 | each threshold's distance from its metric and the margin of the previous close, piece by piece |
| FinanceDerivation.DerivedSelfHosted | scripts/finance_committee_packet_assumptions_engine.py:277-286 | each cost of self-hosting is its share of yearly revenue but not less than its fixed sum |
| FinanceDerivation.DerivedScenarios | scripts/finance_committee_packet_assumptions_engine.py:242-275 | the three scenarios and the percentages by which they move subscriptions and prices |
| FinanceAssumptions.DerivedCostsParse | scripts/finance_committee_packet_assumptions_engine.py:72-131 | the derived cost assumptions always lie in the ranges the packet builder demands |
| FinanceAssumptions.ThresholdRanges | scripts/finance_committee_packet_assumptions_engine.py:170-240 | the derived thresholds and the synthetic previous close always parse |
| FinanceEndToEnd.DerivedPacketGates | scripts/finance_committee_packet_assumptions_engine.py:139-240 | on any verified telemetry the packet is built, its metrics are those of the derivation, gate 4 passes, and gates 1, 2, 3 and 5 pass exactly at 60, 35, 35 and 45 |
| FinanceLaws.DerivedGatesOnRows | scripts/finance_committee_packet_engine.py:193-235 | on verified telemetry each gate is a division-free condition on the written rows: p95, active count and revenue of each tier for containment; sums for margin, discount and stress |
| FinanceEndToEnd.VerifiedTelemetryToVerdict | scripts/finance_committee_packet_engine.py:193-315 | the verdict on evidence derived from verified telemetry, as an if-and-only-if over the derived metrics and each tier's exact amounts |
| FinanceFromCollection.CollectionToVerdict | scripts/collect_finance_telemetry_snapshot.py:175-289 | from a sane collection without hidden overrun to the verdict: the snapshot is accepted, the packet is built, and the same if-and-only-if decides |
| FinanceFromCollection.GrowthAtLaunchRejected | scripts/verify_finance_guardrails_evidence.py:262-270 | every verified snapshot with one growth subscription at list price and no usage cost leads to rejected evidence |
| FinanceFromCollection.RecheckCanFail | scripts/verify_finance_guardrails_evidence.py:262-270 | a sane collection (list prices, one subscription per paid tier, no usage) whose snapshot is accepted and whose derived evidence is rejected even when failed gates are allowed |
| Percentiles.PercentileMonotone | scripts/collect_finance_telemetry_snapshot.py:91-105 | the percentile grows with its argument, across interpolation boundaries and out-of-range arguments |
| Percentiles.PercentileInterpolates | scripts/collect_finance_telemetry_snapshot.py:91-105 | at rank k + w of the sorted values the percentile is (1 - w) times the k-th plus w times the next |
| Percentiles.PercentileBetweenExtremes | scripts/collect_finance_telemetry_snapshot.py:91-105 | every percentile lies between the smallest and the largest value |
| Percentiles.PercentileIgnoresOrder | scripts/collect_finance_telemetry_snapshot.py:91-105 | permuting the list changes no percentile |
| Percentiles.RoundedPercentilesOrdered | scripts/finance_telemetry_snapshot_queries.py:132-141 | p50, p95 and p99 stay ordered after rounding to six decimals |
| SnapshotCollector.BuildPricingReference | scripts/collect_finance_telemetry_snapshot.py:108-146 | every tier's prices after fallbacks, rounded, with the annual factor |
| SnapshotCollector.GroupCosts | scripts/finance_telemetry_snapshot_queries.py:125-130 | each collected tier's list holds exactly the costs of its rows in row order |
| SnapshotCollector.TotalCost | scripts/finance_telemetry_snapshot_queries.py:134-135 | the total is the sum of the tier's costs |
| SnapshotCollector.FetchLlmUsage | scripts/finance_telemetry_snapshot_queries.py:125-142 | each collected tier's rounded total and 50th, 95th and 99th percentile |
| SnapshotCollector.FetchSubscriptions | scripts/finance_telemetry_snapshot_queries.py:12-82 | each collected tier's last row, or zeros |
| SnapshotCollector.BuildFreeTierGuardrails | scripts/collect_finance_telemetry_snapshot.py:149-172 | limit rows with negative limits lifted to zero, bounded exactly when every free limit is at most the starter limit |
| SnapshotCollector.CollectSnapshot | scripts/collect_finance_telemetry_snapshot.py:175-289 | the snapshot payload of one collection |
| SnapshotVerifier.CheckSubscriptions | scripts/verify_finance_telemetry_snapshot.py:160-189 | accepts exactly when every row parses with active at most total and every tier is there |
| SnapshotVerifier.CheckUsages | scripts/verify_finance_telemetry_snapshot.py:191-238 | accepts exactly when every row parses, every tier is there and percentiles are ordered |
| SnapshotVerifier.CheckGuardrails | scripts/verify_finance_telemetry_snapshot.py:240-300 | accepts exactly when every stored flag equals the recomputed comparison of its limits |
| SnapshotVerifier.CheckWatch | scripts/verify_finance_telemetry_snapshot.py:301-374 | accepts exactly the margin watches in range whose ratio is the recomputed one; reports whether the free tier is guarded |
| SnapshotVerifier.VerifySnapshot | scripts/verify_finance_telemetry_snapshot.py:87-398 | accepts exactly the snapshots that are fresh, ordered in time, within range and whose six gates equal the recomputed ones |
| SnapshotAgreement.GuardVerdicts | scripts/verify_finance_telemetry_snapshot.py:300-392 | the collector's exact guard and the verifier's rounded guard agree unless the exact ratio is above 100 and rounds to 100 |
| SnapshotAgreement.MissingPrices | scripts/collect_finance_telemetry_snapshot.py:108-146 | which prices a paid tier without prices takes from the list |
| SnapshotAgreement.CollectorVerifierAgreement | scripts/collect_finance_telemetry_snapshot.py:126-289 | the verifier accepts a sane collection if and only if it is fresh and not in that one family |
| SnapshotAgreement.SnapshotCanBeRejected | scripts/verify_finance_telemetry_snapshot.py:373-392 | a concrete sane collection that is always rejected |
| ReleaseGate.BuildGateEnvironment | scripts/run_enforcement_release_evidence_gate.py:38-193 | succeeds exactly on valid arguments; every variable of the result is set, removed or kept as the arguments say |
| ReleaseGate.SetOptional | scripts/run_enforcement_release_evidence_gate.py:155-192 | evidence not supplied has its three variables removed, supplied evidence has them set, nothing else changes |
| ReleaseGate.CommandList.AppendOptionalEvidenceCommands | scripts/enterprise_tdd_gate_optional_evidence.py:78-373 | appends the commands of the nine steps in order and stops at the first error, keeping what was appended |
| ReleaseAssembly.AssemblyOutcomes | scripts/enterprise_tdd_gate_optional_evidence.py:78-373 | in any environment assembly fails if and only if one of eleven checks fails, with the first that does and the commands of the steps before it; otherwise all nine steps run |
| ReleaseAssembly.DefaultAssembly | scripts/enterprise_tdd_gate_optional_evidence.py:78-176 | without any setting exactly the three unconditional checks run |
| ReleaseAssembly.DefaultRefresh | scripts/enterprise_tdd_gate_optional_evidence.py:103-145 | the refresh check's default paths and limits |
| ReleaseAssembly.StressDefaults | scripts/enterprise_tdd_gate_optional_evidence.py:177-252 | the default limits of stress and failure-injection evidence |
| ReleaseAssembly.FinanceDefaults | scripts/enterprise_tdd_gate_optional_evidence.py:254-373 | the default age limits of the finance evidence |
| ReleaseAssembly.TruthyTexts | scripts/enterprise_tdd_gate_optional_evidence.py:57-59 | four words count as set, in any case |
| ReleaseGate.ReleaseGateNoninterference | scripts/enterprise_tdd_gate_optional_evidence.py:62-373 | two ambient environments that agree on the seven ambient variables give the same commands or the same error |
| ReleaseGate.ReleaseGateSucceeds | scripts/run_enforcement_release_evidence_gate.py:60-193 | assembly succeeds if and only if finance, telemetry and PKG/FIN files are supplied and the two ambient paths are not blank; then the command list is given exactly |
| LoadTests.CollectErrors | scripts/load_test_api_reporting.py:105-124 | the sample holds at most ten distinct errors of the runs, and all of them if fewer than ten |
| LoadTests.AggregateLoadResults | scripts/load_test_api_reporting.py:77-130 | sums, averages and extremes of the runs, rounded to four places; raises exactly on no runs |
| LoadTests.AggregateBounds | scripts/load_test_api_reporting.py:84-97 | the written extremes bound every run up to half a step of the fourth decimal |
| LoadTests.AggregateAverages | scripts/load_test_api_reporting.py:89-103 | the written averages times the number of runs are the sums, up to half a step per run |
| LoadTests.EvaluateRun | app/shared/core/performance_evidence.py:43-70 | a run meets its targets exactly when it has requests and keeps error rate, p95 and throughput |
| LoadTests.EvidenceWriter.AttachThresholdEvaluation | scripts/load_test_api_reporting.py:185-209 | adds thresholds, per-round outcomes and the overall verdict to the payload and changes nothing else |
| LoadTests.AssembleEvidence | scripts/load_test_api.py:371-421 | the payload of a load test, evaluated exactly when thresholds are given |
| StressEvidence.GatherRuns | scripts/verify_enforcement_stress_evidence.py:226-277 | accepts exactly when run indices count up and successes are total minus failures; returns the sums and value lists |
| StressEvidence.EngineOfUrl | scripts/verify_enforcement_stress_evidence.py:58-67 | a database URL stands for its scheme, with the two families joined |
| StressEvidence.VerifyStressEvidence | scripts/verify_enforcement_stress_evidence.py:70-365 | accepts exactly the evidence whose header, results, runs, thresholds and evaluation are consistent and within limits |
| StressEvidence.StressAgreement | scripts/verify_enforcement_stress_evidence.py:226-343 | the load test's own payload is accepted if and only if its header passes and the runs meet the policy; no consistency equation can fail |
| StressEvidence.AcceptedRunsWithinLimits | scripts/verify_enforcement_stress_evidence.py:187-301 | every considered run keeps the p95 and throughput limits up to 0.0001 |
| StressEvidence.PooledRateBetweenExtremes | scripts/verify_enforcement_stress_evidence.py:187-301 | the pooled error rate lies between the smallest and the largest rate of the runs |
| StressEvidence.AcceptedHasRunWithinErrorLimit | scripts/verify_enforcement_stress_evidence.py:187-301 | some considered run of accepted evidence keeps the error-rate limit |
| StressEvidence.AcceptedEndpointsAnswered | scripts/verify_enforcement_stress_evidence.py:173-182 | every endpoint listed in accepted evidence answered below 400 within its attempts |
| Preflight.ProbeEndpoint | scripts/load_test_api.py:229-271 | appends one block: attempts from 1, only the last possibly ok, all attempts when none is ok |
| Preflight.RunPreflightChecks | scripts/load_test_api.py:213-289 | the log is the concatenation of one block per endpoint in order, failures come from the blocks that end not ok, and passed holds exactly when every block ends ok |
| Preflight.LogUnique | scripts/load_test_api.py:213-289 | the replies determine entries, failures and verdict |
| Preflight.PreflightMeaning | scripts/load_test_api.py:272-289 | passed if and only if every endpoint succeeds within its attempts; failures are the other endpoints in order, each with its last error |
| Preflight.UnreachedExact | scripts/load_test_api.py:272-281 | the listed positions are exactly the endpoints no attempt reached, each once and in order |
| PkgFinPolicy.ValidateTelemetry | scripts/pkg_fin_policy_decisions_core.py:32-98 | accepts exactly the telemetry with a known source, at least a month, rows in range and every tracked tier |
| PkgFinPolicy.ValidateDecisions | scripts/pkg_fin_policy_decisions_core.py:101-181 | accepts exactly the decisions with known values, floors and discounts in range and a window for a time-boxed migration |
| PkgFinPolicy.ValidateApprovals | scripts/pkg_fin_policy_decisions_core.py:195-238 | accepts exactly real owners, distinct under segregation, with a record approved before capture |
| PkgFinPolicy.CheckItems | scripts/pkg_fin_policy_decisions_core.py:275-360 | accepts exactly distinct items that are each well formed; reports whether every launch blocker is locked before launch, and the ids seen |
| PkgFinPolicy.ValidateBacklog | scripts/pkg_fin_policy_decisions_core.py:241-376 | accepts exactly the backlogs that require the canonical ids and cover them with distinct well-formed items |
| PkgFinPolicy.CanonicalExact | scripts/pkg_fin_policy_decisions_constants.py:46-77 | the canonical ids by number |
| PkgFinPolicy.VerifyPolicyEvidence | scripts/pkg_fin_policy_decisions_core.py:379-461 | accepts exactly the evidence whose parts are valid and whose seven gates equal the recomputed ones and all pass |
| PkgFinPolicy.PolicyAcceptanceGuarantees | scripts/pkg_fin_policy_decisions_core.py:184-192 | accepted evidence lists each canonical id once, locks every launch blocker, rests on two months and allows price motion exactly on production telemetry |
| PkgFinGenerator.BuildTierUnitEconomics | scripts/generate_pkg_fin_policy_decisions.py:112-185 | one cost row per tracked tier in alphabetical order, raising exactly when a tier's rows are missing or out of range |
| PkgFinGenerator.CostsFollow | scripts/generate_pkg_fin_policy_decisions.py:140-184 | on six-decimal amounts a cost row is revenue, revenue times factor, usage, the tier's percentage of revenue and the tier's support per subscription |
| PkgFinGenerator.BuildDecisionItem | scripts/generate_pkg_fin_policy_decisions.py:188-217 | one decision item, with the eight launch blockers and the three commitments scheduled thirty days after approval |
| PkgFinGenerator.BuildPayload | scripts/generate_pkg_fin_policy_decisions.py:220-291 | the payload, built exactly from at least two months and complete telemetry |
| PkgFinGenerator.GeneratedEvidenceAccepted | scripts/generate_pkg_fin_policy_decisions.py:112-291 | every generated payload is accepted if and only if it is fresh and its window ordered |
| PkgFinGenerator.VerifiedSnapshotGenerates | scripts/generate_pkg_fin_policy_decisions.py:112-185 | a verified snapshot with revenue rows always generates |
| Readiness.VerifyOperationalReadiness | scripts/verify_pkg_fin_operational_readiness.py:52-170 | returns exactly when the three verifiers accept and the demanded conditions hold, with the summary of the three artefacts |
| Readiness.ReadinessMeaning | scripts/verify_pkg_fin_operational_readiness.py:105-121 | production telemetry is ready exactly when price motion is allowed; post-launch readiness as an if-and-only-if; which gates can still fail; when no work remains |
| Readiness.GeneratedEvidenceIsPrelaunch | scripts/verify_pkg_fin_operational_readiness.py:105-140 | generated evidence never counts as ready after launch and always leaves both work items |
| Readiness.CollectedSnapshotToPolicy | scripts/generate_pkg_fin_policy_decisions.py:112-291 | a sane collection always generates policy evidence, accepted exactly while fresh |
| Migrations.ParentsOf | scripts/verify_alembic_head_integrity.py:29-44 | the trimmed non-empty parent names of a revision |
| Migrations.VerifyAlembicHeads | scripts/verify_alembic_head_integrity.py:87-124 | accepts exactly non-empty graphs of named, distinct revisions with known parents and one head, and returns that head |
| Migrations.DiagnoseHeads | scripts/diag_migrations.py:48-56 | removing parents one at a time leaves the revisions that no declaration removes |
| Migrations.FindMinimalHeads | scripts/find_minimal_heads.py:25-43 | the revisions that no declaration collects |
| Migrations.HeadsAgree | scripts/diag_migrations.py:48-56 | on distinct, well-named revisions the three computations give the same heads |
| Migrations.HeadOrCycleAbove | scripts/verify_alembic_head_integrity.py:102-124 | in any graph every revision is reached from a head or from a revision on a cycle |
| Migrations.AcceptedReachesAll | scripts/verify_alembic_head_integrity.py:102-124 | in any accepted graph the returned head reaches every revision if and only if it reaches every revision on a cycle |
| Migrations.SomeHeadExists | scripts/verify_alembic_head_integrity.py:102-124 | a non-empty graph without cycles has a head |
| Migrations.SingleHeadTheorem | scripts/verify_alembic_head_integrity.py:102-124 | without cycles, h is the only head if and only if every revision is reached from h |
| Migrations.AcceptedMeansReachable | scripts/verify_alembic_head_integrity.py:102-124 | without cycles, acceptance is named distinct revisions, known parents and one revision that reaches all |
| Migrations.RankedIsAcyclic | scripts/verify_alembic_head_integrity.py:102-124 | a rank that strictly decreases along down_revision rules out cycles |
| Migrations.CyclicGraphAccepted | scripts/verify_alembic_head_integrity.py:102-124 | an accepted cyclic graph with an unreachable revision |
| EnvFile.ParseEnvFile | scripts/verify_env_hygiene.py:37-48 | the dictionary of the file's lines |
| EnvFile.LastAssignmentWins | scripts/verify_env_hygiene.py:37-48 | a key is present exactly when some line assigns it, with the value of the last such line |
| EnvFile.RenderEnv | scripts/generate_local_dev_env.py:57-83 | header, template with overridden lines replaced, then the unseen overrides in code-point order, each line ended |
| EnvRoundTrip.RenderLineParses | scripts/generate_local_dev_env.py:65-78 | rendering overrides exactly the key the parser reads from the line, although one trims before and the other after splitting |
| EnvRoundTrip.ReadBackUnchanged | scripts/verify_env_hygiene.py:30-34 | the parser returns a value unchanged if and only if it is trimmed and not quote-wrapped |
| EnvRoundTrip.QuotesGo | scripts/verify_env_hygiene.py:30-34 | one pair of equal quotes goes, with the white space outside and inside it |
| EnvRoundTrip.StripNewlinesLaw | scripts/generate_local_dev_env.py:66 | only trailing line feeds of a template line go |
| EnvRoundTrip.EnvRoundTrip | scripts/generate_local_dev_env.py:57-83 | for every template, parsing the rendering gives the parsed template with the overrides over it, unchanged if and only if every value is trimmed and not quote-wrapped |
| EnvRoundTrip.GenerateAndParse | scripts/generate_local_dev_env.py:86-99 | the same for generation followed by parsing |
| DrillDocument.ExtractFields | scripts/verify_key_rotation_drill_evidence.py:70-80 | the fields of the text's lines, or an error when one repeats |
| DrillDocument.NameInjective | scripts/generate_key_rotation_drill_evidence.py:216-241 | different fields have different names, for any number of selectors |
| DrillDocument.FieldsRoundTrip | scripts/verify_key_rotation_drill_evidence.py:70-80 | extraction of any rendered document returns the written fields, and reports a duplicate exactly when a field is written twice |
| KeyRotation.BuildMarkdown | scripts/generate_key_rotation_drill_evidence.py:205-245 | the document of the results and of the selectors in sorted order, numbered from 1 |
| KeyRotation.VerifyDrill | scripts/verify_key_rotation_drill_evidence.py:92-146 | accepts exactly the texts whose fields are complete, distinct, all true and in time |
| KeyRotationAcceptance.DrillRoundTrip | scripts/verify_key_rotation_drill_evidence.py:70-80 | extraction on the generated document returns every written field without duplicate |
| KeyRotationAcceptance.DrillAcceptance | scripts/verify_key_rotation_drill_evidence.py:92-137 | accepted if and only if all seven outcomes are true and the clock is within the age limit, the five-minute skew and the 90-day due date |
| KeyRotationAcceptance.FreshEvidence | scripts/verify_key_rotation_drill_evidence.py:120-137 | inside a positive age limit only the outcomes and the due date decide; up to 90 days only the outcomes |
| KeyRotationAcceptance.DefaultLimitCutShort | scripts/verify_key_rotation_drill_evidence.py:120-137 | a generated document with all seven outcomes true is accepted after 90 days and refused after 91 under the default limit of 120 |
| KeyRotationAcceptance.GenerateDrillEvidence | scripts/generate_key_rotation_drill_evidence.py:248-281 | the generator's run succeeds if and only if all seven outcomes hold, the endpoint guard holds or failures are allowed, and the clock conditions hold |
| ApiPaths.PathMatchesIsOverlap | scripts/check_frontend_api_contracts.py:142-157 | a path matches a route if and only if some concrete sequence of segments is accepted by both |
| ApiPaths.PathMatchesSymmetric | scripts/check_frontend_api_contracts.py:142-157 | matching is symmetric |
| ApiPaths.RepeatedSlashesIgnored | scripts/check_frontend_api_contracts.py:142-157 | a doubled slash anywhere in either path changes nothing |
| ApiPaths.ParameterLaw | scripts/check_frontend_api_contracts.py:149-153 | a parameter is any text inside one pair of braces |
| ApiPaths.PartsOfUrl | scripts/check_frontend_api_contracts.py:145-146 | splitting a concrete path gives its segments back |

## Left out

- IEEE 754 rounding of intermediate results: amounts are exact reals and only the explicit `round` calls round.
- JSON typing, NaN and infinity, argument parsing, file access, printing: payloads arrive typed. Tier, environment-variable, source and decision names arrive trimmed and lower-cased as datatype values.
- SQL, HTTP and subprocess calls: query rows, replies and check outcomes are parameters.
- ISO-8601 formatting and parsing: the snapshot and policy files carry integer instants; in the key-rotation drill the formatter and parser are a parameter assumed to read back what it wrote. The year limits of Python dates are not modelled.
- The regular expression for placeholder tokens in policy evidence, and the fixed wording of generated decisions: parameters.
- Error texts are shortened, and a verdict does not tell in which order independent checks raise.
- Case mapping covers ASCII letters.
- Commands of the release gate are a script and its flags; the fixed `uv run python3` prefix is not spelled out.
- The fallback of the migration check to docstring headers when an assignment is missing or empty, and the regular expressions that find the assignments in the other two scripts: declarations arrive parsed.
- The retry loop and the selector table of the key-rotation generator: check outcomes are parameters.
- Gates beyond the known keys in the readiness gate maps.
- Derivation of the override values from the seed in the local environment generator: any override map is allowed.
- Collection of frontend and backend paths from sources: only path matching is modelled.
- Token, secret, SCIM, SSO, database maintenance and line-budget scripts, and the web application.
