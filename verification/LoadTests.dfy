/** Load-test runs: evaluation, aggregation and the assembled evidence payload. */
module LoadTests {
  import opened Outcomes
  import opened Rounding
  import opened Percentiles

  datatype Run = Run(
    total: int, successful: int, failed: int, throughput: real, avgTime: real, medianTime: real,
    p95: real, p99: real, minTime: real, maxTime: real, errors: seq<string>)

  datatype Limits = Limits(maxP95: real, maxErrorRate: real, minThroughput: Option<real>)

  // ----- one run against the limits -----

  function ErrorRate(r: Run): real {
    if r.total <= 0 then (if r.failed > 0 then 100.0 else 0.0)
    else Round(r.failed as real / r.total as real * 100.0, PLACES4)
  }

  predicate MeetsTargets(r: Run, l: Limits) {
    && r.total > 0
    && r.p95 <= l.maxP95
    && ErrorRate(r) <= l.maxErrorRate
    && (l.minThroughput.Some? ==> r.throughput >= l.minThroughput.value)
  }

  method EvaluateRun(r: Run, l: Limits) returns (ok: bool)
    ensures ok == MeetsTargets(r, l)
  {
    hide Round;
    if r.total <= 0 { return false; }
    var rate := r.failed as real / r.total as real * 100.0;
    if Round(rate, PLACES4) > l.maxErrorRate || r.p95 > l.maxP95 { return false; }
    return l.minThroughput.None? || r.throughput >= l.minThroughput.value;
  }

  // ----- aggregation -----

  function SumInts(values: seq<int>): int {
    if values == [] then 0 else SumInts(values[..|values| - 1]) + values[|values| - 1]
  }

  function Ints(runs: seq<Run>, f: Run -> int): (v: seq<int>)
    ensures |v| == |runs| && forall i :: 0 <= i < |runs| ==> v[i] == f(runs[i])
  {
    seq(|runs|, i requires 0 <= i < |runs| => f(runs[i]))
  }

  function Reals(runs: seq<Run>, f: Run -> real): (v: seq<real>)
    ensures |v| == |runs| && forall i :: 0 <= i < |runs| ==> v[i] == f(runs[i])
  {
    seq(|runs|, i requires 0 <= i < |runs| => f(runs[i]))
  }

  function TotalOf(r: Run): int { r.total }
  function SuccessfulOf(r: Run): int { r.successful }
  function FailedOf(r: Run): int { r.failed }
  function P95Of(r: Run): real { r.p95 }
  function P99Of(r: Run): real { r.p99 }
  function ThroughputOf(r: Run): real { r.throughput }
  function AvgTimeOf(r: Run): real { r.avgTime }
  function MedianTimeOf(r: Run): real { r.medianTime }
  function MinTimeOf(r: Run): real { r.minTime }
  function MaxTimeOf(r: Run): real { r.maxTime }

  function Average(values: seq<real>): real {
    Sum(values) / (if |values| == 0 then 1.0 else |values| as real)
  }

  datatype Aggregate = Aggregate(results: Run, worstP95: real, minThroughput: real)

  function FirstTen<T>(s: seq<T>): seq<T> {
    if |s| <= 10 then s else s[..10]
  }

  ghost predicate ErrorOfRun(runs: seq<Run>, e: string) {
    exists i :: 0 <= i < |runs| && e in FirstTen(runs[i].errors)
  }

  /** Distinct errors of the runs, at most ten, and all there are if fewer than ten. */
  ghost predicate IsErrorSample(runs: seq<Run>, sample: seq<string>) {
    && |sample| <= 10
    && (forall i, j :: 0 <= i < j < |sample| ==> sample[i] != sample[j])
    && (forall i :: 0 <= i < |sample| ==> ErrorOfRun(runs, sample[i]))
    && (|sample| < 10 ==> forall i, e :: 0 <= i < |runs| && e in FirstTen(runs[i].errors) ==> e in sample)
  }

  ghost predicate NoRepeats(s: seq<string>) {
    forall i, j :: 0 <= i < j < |s| ==> s[i] != s[j]
  }

  method AddErrors(runs: seq<Run>, k: nat, sample: seq<string>) returns (more: seq<string>)
    requires k < |runs| && NoRepeats(sample)
    requires forall i :: 0 <= i < |sample| ==> ErrorOfRun(runs, sample[i])
    ensures NoRepeats(more) && sample <= more
    ensures forall i :: 0 <= i < |more| ==> ErrorOfRun(runs, more[i])
    ensures forall e :: e in FirstTen(runs[k].errors) ==> e in more
  {
    more := sample;
    var errors := FirstTen(runs[k].errors);
    for j := 0 to |errors|
      invariant NoRepeats(more) && sample <= more
      invariant forall i :: 0 <= i < |more| ==> ErrorOfRun(runs, more[i])
      invariant forall i :: 0 <= i < j ==> errors[i] in more
    {
      if errors[j] !in more {
        assert ErrorOfRun(runs, errors[j]);
        more := more + [errors[j]];
      }
    }
  }

  method CollectErrors(runs: seq<Run>) returns (sample: seq<string>)
    ensures IsErrorSample(runs, sample)
  {
    sample := [];
    var k := 0;
    while k < |runs| && |sample| < 10
      invariant k <= |runs| && NoRepeats(sample)
      invariant forall i :: 0 <= i < |sample| ==> ErrorOfRun(runs, sample[i])
      invariant forall i, e :: 0 <= i < k && e in FirstTen(runs[i].errors) ==> e in sample
    {
      var more := AddErrors(runs, k, sample);
      assert forall e :: e in sample ==> e in more by {
        assert forall j :: 0 <= j < |sample| ==> more[j] == sample[j];
      }
      sample := more;
      k := k + 1;
    }
    sample := FirstTen(sample);
  }

  function RoundedAggregate(runs: seq<Run>, sample: seq<string>): Aggregate
    requires runs != []
  {
    var worst, slowest := Largest(Reals(runs, P95Of)), Smallest(Reals(runs, ThroughputOf));
    Aggregate(
      Run(SumInts(Ints(runs, TotalOf)), SumInts(Ints(runs, SuccessfulOf)), SumInts(Ints(runs, FailedOf)),
          Round(Average(Reals(runs, ThroughputOf)), PLACES4),
          Round(Average(Reals(runs, AvgTimeOf)), PLACES4),
          Round(Average(Reals(runs, MedianTimeOf)), PLACES4),
          Round(worst, PLACES4),
          Round(Largest(Reals(runs, P99Of)), PLACES4),
          Round(Smallest(Reals(runs, MinTimeOf)), PLACES4),
          Round(Largest(Reals(runs, MaxTimeOf)), PLACES4),
          sample),
      worst, slowest)
  }

  /** The maximum of no values raises. */
  method AggregateLoadResults(runs: seq<Run>) returns (r: Result<Aggregate>)
    ensures r.Ok? <==> runs != []
    ensures r.Ok? ==> IsErrorSample(runs, r.value.results.errors) && r.value == RoundedAggregate(runs, r.value.results.errors)
  {
    hide Round, Largest, Smallest, Average, SumInts;
    if runs == [] { return Error("max() of an empty sequence"); }
    var sample := CollectErrors(runs);
    var total, successful, failed := SumInts(Ints(runs, TotalOf)), SumInts(Ints(runs, SuccessfulOf)), SumInts(Ints(runs, FailedOf));
    var worstP95, worstP99 := Largest(Reals(runs, P95Of)), Largest(Reals(runs, P99Of));
    var slowest, average := Smallest(Reals(runs, ThroughputOf)), Average(Reals(runs, ThroughputOf));
    var least, most := Smallest(Reals(runs, MinTimeOf)), Largest(Reals(runs, MaxTimeOf));
    var avgTime, medianTime := Average(Reals(runs, AvgTimeOf)), Average(Reals(runs, MedianTimeOf));
    var results := Run(
      total, successful, failed, Round(average, PLACES4), Round(avgTime, PLACES4), Round(medianTime, PLACES4), Round(worstP95, PLACES4),
      Round(worstP99, PLACES4), Round(least, PLACES4), Round(most, PLACES4), sample);
    return Ok(Aggregate(results, worstP95, slowest));
  }

  /** What the aggregate says about every run: extremes bound and are attained, up to half a step of the fourth decimal. */
  lemma AggregateBounds(runs: seq<Run>, sample: seq<string>, i: int)
    requires 0 <= i < |runs|
    ensures var r := RoundedAggregate(runs, sample).results;
            && r.minTime - 0.00005 <= runs[i].minTime && runs[i].maxTime <= r.maxTime + 0.00005
            && runs[i].p95 <= r.p95 + 0.00005 && runs[i].p99 <= r.p99 + 0.00005
    ensures RoundedAggregate(runs, sample).minThroughput <= runs[i].throughput && runs[i].p95 <= RoundedAggregate(runs, sample).worstP95
  {
    hide Round, Smallest, Largest, Average, SumInts;
    var mins, maxs, p95s, p99s, rates := Reals(runs, MinTimeOf), Reals(runs, MaxTimeOf), Reals(runs, P95Of), Reals(runs, P99Of), Reals(runs, ThroughputOf);
    SmallestIsLeast(mins);
    LargestIsGreatest(maxs);
    LargestIsGreatest(p95s);
    LargestIsGreatest(p99s);
    SmallestIsLeast(rates);
    assert mins[i] == runs[i].minTime && maxs[i] == runs[i].maxTime && p95s[i] == runs[i].p95 && p99s[i] == runs[i].p99;
    assert rates[i] == runs[i].throughput;
    FourPlaces(Smallest(mins));
    FourPlaces(Largest(maxs));
    FourPlaces(Largest(p95s));
    FourPlaces(Largest(p99s));
  }

  lemma FourPlaces(x: real)
    ensures -0.00005 <= Round(x, PLACES4) - x <= 0.00005
  {
    RoundWithinHalfUnit(x, PLACES4);
    assert 0.5 / PLACES4 == 0.00005;
  }

  /** The averages: the number of runs times the written average is the sum, up to half a step per run. */
  lemma AggregateAverages(runs: seq<Run>, sample: seq<string>)
    requires runs != []
    ensures var r, n := RoundedAggregate(runs, sample).results, |runs| as real;
            && AverageOf(r.throughput, Sum(Reals(runs, ThroughputOf)), n)
            && AverageOf(r.avgTime, Sum(Reals(runs, AvgTimeOf)), n)
            && AverageOf(r.medianTime, Sum(Reals(runs, MedianTimeOf)), n)
  {
    hide Round, Smallest, Largest, Sum, SumInts, AverageOf;
    AverageRounded(Reals(runs, ThroughputOf));
    AverageRounded(Reals(runs, AvgTimeOf));
    AverageRounded(Reals(runs, MedianTimeOf));
  }

  ghost predicate AverageOf(written: real, sum: real, n: real) {
    -0.00005 * n <= written * n - sum <= 0.00005 * n
  }

  lemma AverageRounded(values: seq<real>)
    requires values != []
    ensures AverageOf(Round(Average(values), PLACES4), Sum(values), |values| as real)
  {
    hide Round, Sum;
    var n, avg := |values| as real, Average(values);
    FourPlaces(avg);
    DivMul(Sum(values), n);
    var d := Round(avg, PLACES4) - avg;
    MulMonotone(d, 0.00005, n);
    MulMonotone(-0.00005, d, n);
    assert d * n == Round(avg, PLACES4) * n - avg * n;
  }

  // ----- the evidence payload -----

  datatype RunRow = RunRow(index: int, results: Run)
  datatype PreflightSummary = PreflightSummary(enabled: bool, passed: bool, failures: nat)
  datatype Evaluation = Evaluation(rounds: seq<bool>, overall: Option<bool>, worstP95: real, minThroughput: real)

  datatype Evidence = Evidence(
    profile: string, runner: string, engine: string, capturedAt: int, endpoints: seq<string>,
    rounds: int, durationSeconds: int, concurrentUsers: int,
    runs: seq<RunRow>, preflight: PreflightSummary, results: Run, minThroughput: real,
    limits: Option<Limits>, evaluation: Option<Evaluation>, meetsTargets: Option<Option<bool>>)

  /** What the load test was told and what it saw besides the runs. */
  datatype Session = Session(
    profile: string, engine: string, capturedAt: int, endpoints: seq<string>,
    durationSeconds: int, concurrentUsers: int, preflight: PreflightSummary)

  const RUNNER := "scripts/load_test_api.py"

  function RunRows(runs: seq<Run>): (rows: seq<RunRow>)
    ensures |rows| == |runs| && forall i :: 0 <= i < |runs| ==> rows[i] == RunRow(i + 1, runs[i])
  {
    seq(|runs|, i requires 0 <= i < |runs| => RunRow(i + 1, runs[i]))
  }

  function RoundOutcomes(runs: seq<Run>, l: Limits): (v: seq<bool>)
    ensures |v| == |runs| && forall i :: 0 <= i < |runs| ==> v[i] == MeetsTargets(runs[i], l)
  {
    seq(|runs|, i requires 0 <= i < |runs| => MeetsTargets(runs[i], l))
  }

  predicate AllTrue(v: seq<bool>) {
    forall i :: 0 <= i < |v| ==> v[i]
  }

  function EvaluationOf(runs: seq<Run>, l: Limits, worst: real, slowest: real): Evaluation {
    var rounds := RoundOutcomes(runs, l);
    Evaluation(rounds, if rounds == [] then None else Some(AllTrue(rounds)), worst, slowest)
  }

  /** The payload of a session: without limits no evaluation is attached. */
  function Assembled(s: Session, runs: seq<Run>, sample: seq<string>, limits: Option<Limits>): Evidence
    requires runs != []
  {
    var a := RoundedAggregate(runs, sample);
    var base := Evidence(
      s.profile, RUNNER, s.engine, s.capturedAt, s.endpoints, |runs|, s.durationSeconds, s.concurrentUsers,
      RunRows(runs), s.preflight, a.results, Round(a.minThroughput, PLACES4), None, None, None);
    if limits.None? then base else
    var evaluation := EvaluationOf(runs, limits.value, a.worstP95, a.minThroughput);
    base.(limits := limits, evaluation := Some(evaluation), meetsTargets := Some(evaluation.overall))
  }

  /** The runs are measured one after the other; the payload is then assembled and evaluated in place. */
  class EvidenceWriter {
    var evidence: Evidence

    constructor (base: Evidence)
      ensures evidence == base
    {
      evidence := base;
    }

    method AttachThresholdEvaluation(runs: seq<Run>, l: Limits, worst: real, slowest: real) returns (meets: Option<bool>)
      modifies this
      ensures evidence == old(evidence).(limits := Some(l), evaluation := Some(EvaluationOf(runs, l, worst, slowest)), meetsTargets := Some(meets))
      ensures meets == EvaluationOf(runs, l, worst, slowest).overall
    {
      hide MeetsTargets;
      var perRound: seq<bool> := [];
      var all := true;
      for i := 0 to |runs|
        invariant evidence == old(evidence)
        invariant perRound == RoundOutcomes(runs, l)[..i]
        invariant all == AllTrue(perRound)
      {
        var ok := EvaluateRun(runs[i], l);
        perRound := perRound + [ok];
        all := all && ok;
      }
      assert perRound == RoundOutcomes(runs, l);
      meets := if perRound == [] then None else Some(all);
      evidence := evidence.(limits := Some(l));
      evidence := evidence.(evaluation := Some(Evaluation(perRound, meets, worst, slowest)));
      evidence := evidence.(meetsTargets := Some(meets));
    }
  }

  method IndexRuns(runs: seq<Run>) returns (rows: seq<RunRow>)
    ensures rows == RunRows(runs)
  {
    rows := [];
    for i := 0 to |runs|
      invariant |rows| == i && forall j :: 0 <= j < i ==> rows[j] == RunRow(j + 1, runs[j])
    {
      rows := rows + [RunRow(i + 1, runs[i])];
    }
  }

  method AssembleEvidence(s: Session, runs: seq<Run>, limits: Option<Limits>) returns (r: Result<Evidence>)
    ensures r.Ok? <==> runs != []
    ensures r.Ok? ==> IsErrorSample(runs, r.value.results.errors) && r.value == Assembled(s, runs, r.value.results.errors, limits)
  {
    hide Round, Largest, Smallest, Average, SumInts, MeetsTargets, IsErrorSample;
    var aggregate := AggregateLoadResults(runs);
    if aggregate.Error? { return Error(aggregate.message); }
    var a := aggregate.value;
    var rows := IndexRuns(runs);
    var base := Evidence(
      s.profile, "scripts/load_test_api.py", s.engine, s.capturedAt, s.endpoints, |runs|, s.durationSeconds, s.concurrentUsers,
      rows, s.preflight, a.results, Round(a.minThroughput, PLACES4), None, None, None);
    var writer := new EvidenceWriter(base);
    if limits.Some? {
      var meets := writer.AttachThresholdEvaluation(runs, limits.value, a.worstP95, a.minThroughput);
    }
    return Ok(writer.evidence);
  }
}
