/** The verifier of enforcement stress evidence: agreement with the load test, and what acceptance means. */
module StressEvidence {
  import opened Outcomes
  import opened Text
  import opened Rounding
  import opened Percentiles
  import opened Telemetry
  import opened LoadTests
  import Preflight

  datatype Policy = Policy(
    profile: string, engine: string, minRounds: int, minDuration: int, minUsers: int,
    maxP95: real, maxErrorRate: real, minThroughput: real, maxAge: Option<real>)

  const REQUIRED_ENDPOINTS: seq<string> := [
    "/api/v1/enforcement/policies", "/api/v1/enforcement/ledger?limit=50", "/api/v1/enforcement/exports/parity?limit=50"]

  predicate RoundedEq(a: real, b: real) {
    Round(a, PLACES4) == Round(b, PLACES4)
  }

  // ----- checks that do not concern the runs -----

  predicate YoungEnough(now: int, capturedAt: int, maxAge: Option<real>) {
    maxAge.Some? ==> maxAge.value > 0.0 && AgeHours(now, capturedAt) <= maxAge.value
  }

  /** What stands before the first occurrence of a separator. */
  function Before(s: string, separator: string): string {
    if s == "" || separator <= s then "" else [s[0]] + Before(s[1..], separator)
  }

  /** The engine of a database name or URL, with drivers dropped and aliases joined. */
  function CanonicalEngine(name: string): string {
    var base := Before(Before(Lower(Strip(name)), "://"), "+");
    if "postgres" <= base then "postgresql" else if "sqlite" <= base then "sqlite" else base
  }

  predicate EngineMatches(required: string, actual: string) {
    Strip(actual) != "" && Strip(required) != "" && CanonicalEngine(actual) == CanonicalEngine(required)
  }

  predicate HeaderOk(p: Policy, e: Evidence, now: int) {
    && Lower(Strip(e.profile)) == Lower(p.profile) && Strip(e.runner) == RUNNER
    && EngineMatches(p.engine, e.engine)
    && YoungEnough(now, e.capturedAt, p.maxAge)
    && (forall i :: 0 <= i < |REQUIRED_ENDPOINTS| ==> REQUIRED_ENDPOINTS[i] in e.endpoints)
    && e.rounds >= p.minRounds && e.durationSeconds >= p.minDuration && e.concurrentUsers >= p.minUsers
    && e.preflight.enabled && e.preflight.passed && e.preflight.failures == 0
  }

  predicate ResultsOk(p: Policy, e: Evidence) {
    var r := e.results;
    && r.total > 0 && 0 <= r.failed <= r.total && r.successful == r.total - r.failed
    && r.p95 <= p.maxP95 && r.throughput > 0.0 && e.minThroughput >= p.minThroughput
  }

  predicate PooledRateOk(p: Policy, r: Run)
    requires r.total > 0
  {
    r.failed as real / r.total as real * 100.0 <= p.maxErrorRate
  }

  predicate LimitsMatch(p: Policy, l: Option<Limits>) {
    && l.Some? && l.value.minThroughput.Some?
    && RoundedEq(l.value.maxP95, p.maxP95)
    && RoundedEq(l.value.maxErrorRate, p.maxErrorRate)
    && RoundedEq(l.value.minThroughput.value, p.minThroughput)
  }

  predicate EvaluationOk(e: Evidence) {
    && e.evaluation.Some?
    && RoundedEq(e.evaluation.value.worstP95, e.results.p95)
    && RoundedEq(e.evaluation.value.minThroughput, e.minThroughput)
    && |e.evaluation.value.rounds| == e.rounds
    && AllTrue(e.evaluation.value.rounds)
    && e.evaluation.value.overall == Some(true)
    && (e.meetsTargets.Some? ==> e.meetsTargets.value == Some(true))
  }

  // ----- the runs -----

  predicate RowOk(row: RunRow, i: nat) {
    row.index == i + 1 && row.results.successful == row.results.total - row.results.failed
  }

  /** What the verifier's loop gathers. */
  datatype Gathered = Gathered(total: int, successful: int, failed: int, p95s: seq<real>, p99s: seq<real>, throughputs: seq<real>)

  function RunsOf(rows: seq<RunRow>): (runs: seq<Run>)
    ensures |runs| == |rows| && forall i :: 0 <= i < |rows| ==> runs[i] == rows[i].results
  {
    seq(|rows|, i requires 0 <= i < |rows| => rows[i].results)
  }

  function GatheredFrom(runs: seq<Run>): Gathered {
    Gathered(SumInts(Ints(runs, TotalOf)), SumInts(Ints(runs, SuccessfulOf)), SumInts(Ints(runs, FailedOf)),
             Reals(runs, P95Of), Reals(runs, P99Of), Reals(runs, ThroughputOf))
  }

  predicate Consistent(g: Gathered, e: Evidence) {
    && g.total == e.results.total && g.successful == e.results.successful && g.failed == e.results.failed
    && g.p95s != [] && g.p99s != [] && g.throughputs != []
    && RoundedEq(Largest(g.p95s), e.results.p95)
    && RoundedEq(Largest(g.p99s), e.results.p99)
    && RoundedEq(Smallest(g.throughputs), e.minThroughput)
    && RoundedEq(Average(g.throughputs), e.results.throughput)
  }

  /** A negative number of rounds is rejected for want of that many evaluated rounds. */
  ghost predicate StressAccepted(p: Policy, e: Evidence, now: int) {
    && HeaderOk(p, e, now)
    && 0 <= e.rounds <= |e.runs|
    && ResultsOk(p, e)
    && (forall i :: 0 <= i < e.rounds ==> RowOk(e.runs[i], i))
    && Consistent(GatheredFrom(RunsOf(e.runs[..e.rounds])), e)
    && PooledRateOk(p, e.results)
    && LimitsMatch(p, e.limits)
    && EvaluationOk(e)
  }

  lemma SumIntsStep(values: seq<int>, x: int)
    ensures SumInts(values + [x]) == SumInts(values) + x
  {
    assert (values + [x])[..|values|] == values;
  }

  lemma GatherStep(rows: seq<RunRow>, i: nat)
    requires i < |rows|
    ensures var g, r := GatheredFrom(RunsOf(rows[..i])), rows[i].results;
            GatheredFrom(RunsOf(rows[..i + 1])) ==
            Gathered(g.total + r.total, g.successful + r.successful, g.failed + r.failed,
                     g.p95s + [r.p95], g.p99s + [r.p99], g.throughputs + [r.throughput])
  {
    hide SumInts;
    var before, after, r := RunsOf(rows[..i]), RunsOf(rows[..i + 1]), rows[i].results;
    assert after == before + [r];
    assert Ints(after, TotalOf) == Ints(before, TotalOf) + [r.total];
    assert Ints(after, SuccessfulOf) == Ints(before, SuccessfulOf) + [r.successful];
    assert Ints(after, FailedOf) == Ints(before, FailedOf) + [r.failed];
    assert Reals(after, P95Of) == Reals(before, P95Of) + [r.p95];
    assert Reals(after, P99Of) == Reals(before, P99Of) + [r.p99];
    assert Reals(after, ThroughputOf) == Reals(before, ThroughputOf) + [r.throughput];
    SumIntsStep(Ints(before, TotalOf), r.total);
    SumIntsStep(Ints(before, SuccessfulOf), r.successful);
    SumIntsStep(Ints(before, FailedOf), r.failed);
  }

  lemma GatheredFromNone(rows: seq<RunRow>)
    ensures GatheredFrom(RunsOf(rows[..0])) == Gathered(0, 0, 0, [], [], [])
  {
  }

  method CheckRun(row: RunRow, i: nat) returns (ok: bool)
    ensures ok == RowOk(row, i)
  {
    if row.index != i + 1 { return false; }
    return row.results.successful == row.results.total - row.results.failed;
  }

  method GatherRuns(rows: seq<RunRow>) returns (v: Verdict, g: Gathered)
    ensures v.Accept? <==> forall i :: 0 <= i < |rows| ==> RowOk(rows[i], i)
    ensures v.Accept? ==> g == GatheredFrom(RunsOf(rows))
  {
    g := Gathered(0, 0, 0, [], [], []);
    GatheredFromNone(rows);
    hide GatheredFrom, RunsOf, RowOk;
    for i := 0 to |rows|
      invariant forall j :: 0 <= j < i ==> RowOk(rows[j], j)
      invariant g == GatheredFrom(RunsOf(rows[..i]))
    {
      var r := rows[i].results;
      var ok := CheckRun(rows[i], i);
      if !ok { return Reject("run index or successes do not match"), g; }
      GatherStep(rows, i);
      g := Gathered(g.total + r.total, g.successful + r.successful, g.failed + r.failed,
                    g.p95s + [r.p95], g.p99s + [r.p99], g.throughputs + [r.throughput]);
    }
    assert rows[..|rows|] == rows;
    v := Accept;
  }

  method VerifyStressEvidence(p: Policy, e: Evidence, now: int) returns (v: Verdict)
    ensures v.Accept? <==> StressAccepted(p, e, now)
  {
    hide HeaderOk, GatheredFrom, Consistent, LimitsMatch, EvaluationOk, RowOk;
    v := CheckHeader(p, e, now);
    if v.Reject? { return; }
    if |e.runs| < e.rounds { return Reject("runs must have at least `rounds` entries"); }
    if e.rounds < 0 { return Reject("evaluation.rounds must include exactly `rounds` entries"); }
    var r := e.results;
    if r.total <= 0 || r.failed < 0 || r.failed > r.total { return Reject("results counts out of range"); }
    if r.successful != r.total - r.failed { return Reject("results.successful_requests must equal total - failed"); }
    if r.p95 > p.maxP95 { return Reject("p95_response_time exceeds max"); }
    if r.throughput <= 0.0 || e.minThroughput < p.minThroughput { return Reject("throughput is below required"); }
    var considered := e.runs[..e.rounds];
    var rows, gathered := GatherRuns(considered);
    if rows.Reject? {
      assert exists i :: 0 <= i < e.rounds && !RowOk(e.runs[i], i) by {
        var i :| 0 <= i < |considered| && !RowOk(considered[i], i);
        assert considered[i] == e.runs[i];
      }
      return rows;
    }
    assert forall i :: 0 <= i < e.rounds ==> considered[i] == e.runs[i];
    if !Consistent(gathered, e) { return Reject("results must equal the sums, extremes and averages of the runs"); }
    var errorRate := r.failed as real / r.total as real * 100.0;
    if errorRate > p.maxErrorRate { return Reject("error rate exceeds max"); }
    v := CheckLimits(p, e.limits);
    if v.Reject? { return; }
    v := CheckEvaluation(e);
  }

  method CheckHeader(p: Policy, e: Evidence, now: int) returns (v: Verdict)
    ensures v.Accept? <==> HeaderOk(p, e, now)
  {
    hide Strip, Lower, CanonicalEngine;
    if Lower(Strip(e.profile)) != Lower(p.profile) { return Reject("unexpected profile"); }
    if Strip(e.runner) != RUNNER { return Reject("unexpected runner"); }
    if Strip(e.engine) == "" || Strip(p.engine) == "" { return Reject("database engine must be a non-empty string"); }
    if CanonicalEngine(e.engine) != CanonicalEngine(p.engine) { return Reject("database engine does not match"); }
    if p.maxAge.Some? {
      if p.maxAge.value <= 0.0 { return Reject("max_artifact_age_hours must be > 0"); }
      var hours := (now - e.capturedAt) as real / 3600000000.0;
      if hours > p.maxAge.value { return Reject("captured_at is too old"); }
    }
    for i := 0 to |REQUIRED_ENDPOINTS|
      invariant forall j :: 0 <= j < i ==> REQUIRED_ENDPOINTS[j] in e.endpoints
    {
      if REQUIRED_ENDPOINTS[i] !in e.endpoints { return Reject("missing required endpoint"); }
    }
    if e.rounds < p.minRounds { return Reject("too few rounds"); }
    if e.durationSeconds < p.minDuration { return Reject("duration too short"); }
    if e.concurrentUsers < p.minUsers { return Reject("too few users"); }
    if !e.preflight.enabled { return Reject("preflight must be enabled"); }
    if !e.preflight.passed || e.preflight.failures > 0 { return Reject("preflight must pass"); }
    return Accept;
  }

  method CheckLimits(p: Policy, limits: Option<Limits>) returns (v: Verdict)
    ensures v.Accept? <==> LimitsMatch(p, limits)
  {
    hide Round;
    if limits.None? || limits.value.minThroughput.None? { return Reject("thresholds must be present"); }
    var l := limits.value;
    if Round(l.maxP95, PLACES4) != Round(p.maxP95, PLACES4) { return Reject("max_p95_seconds must match"); }
    if Round(l.maxErrorRate, PLACES4) != Round(p.maxErrorRate, PLACES4) { return Reject("max_error_rate_percent must match"); }
    if Round(l.minThroughput.value, PLACES4) != Round(p.minThroughput, PLACES4) { return Reject("min_throughput_rps must match"); }
    return Accept;
  }

  method CheckEvaluation(e: Evidence) returns (v: Verdict)
    ensures v.Accept? <==> EvaluationOk(e)
  {
    hide Round;
    if e.evaluation.None? { return Reject("evaluation must be present"); }
    var x := e.evaluation.value;
    if Round(x.worstP95, PLACES4) != Round(e.results.p95, PLACES4) { return Reject("worst_p95_seconds must match"); }
    if Round(x.minThroughput, PLACES4) != Round(e.minThroughput, PLACES4) { return Reject("min_throughput_rps must match"); }
    if |x.rounds| != e.rounds { return Reject("evaluation.rounds must include exactly `rounds` entries"); }
    for i := 0 to |x.rounds|
      invariant forall j :: 0 <= j < i ==> x.rounds[j]
    {
      if !x.rounds[i] { return Reject("a round does not meet its targets"); }
    }
    if x.overall != Some(true) { return Reject("overall_meets_targets must be true"); }
    if e.meetsTargets.Some? && e.meetsTargets.value != Some(true) { return Reject("meets_targets must be true"); }
    return Accept;
  }

  // ----- engine names -----

  lemma {:induction false} BeforeSeparator(a: string, separator: string, b: string)
    requires separator != "" && separator[0] !in a
    ensures Before(a + separator + b, separator) == a
  {
    var s := a + separator + b;
    if a == "" {
      assert s == separator + b;
    } else {
      assert s[0] == a[0] && s[1..] == a[1..] + separator + b;
      BeforeSeparator(a[1..], separator, b);
    }
  }

  lemma {:induction false} NoSeparator(a: string, separator: string)
    requires separator != "" && separator[0] !in a
    ensures Before(a, separator) == a
  {
    if a != "" {
      NoSeparator(a[1..], separator);
    }
  }

  /** A database URL stands for its scheme; schemes of one family have one name. */
  lemma EngineOfUrl(scheme: string, driver: string, rest: string)
    requires '+' !in scheme && ':' !in scheme && ':' !in driver
    requires var url := scheme + "+" + driver + "://" + rest; Trimmed(url) && Lower(url) == url
    ensures CanonicalEngine(scheme + "+" + driver + "://" + rest) ==
      if "postgres" <= scheme then "postgresql" else if "sqlite" <= scheme then "sqlite" else scheme
  {
    var head := scheme + "+" + driver;
    var url := head + "://" + rest;
    TrimmedStrip(url);
    hide Strip, Lower;
    BeforeSeparator(head, "://", rest);
    BeforeSeparator(scheme, "+", driver);
  }

  /** A plain engine name stands for itself, up to the two families. */
  lemma EngineOfName(name: string)
    requires '+' !in name && ':' !in name && Trimmed(name) && Lower(name) == name
    ensures CanonicalEngine(name) == if "postgres" <= name then "postgresql" else if "sqlite" <= name then "sqlite" else name
  {
    TrimmedStrip(name);
    hide Strip, Lower;
    NoSeparator(name, "://");
    NoSeparator(name, "+");
  }

  // ----- agreement with the load test -----

  ghost predicate SuccessesMatch(runs: seq<Run>) {
    forall i :: 0 <= i < |runs| ==> runs[i].successful == runs[i].total - runs[i].failed
  }

  lemma RoundedEqOfRounded(x: real)
    ensures RoundedEq(x, Round(x, PLACES4))
  {
    hide Round;
    RoundIdempotent(x, PLACES4);
  }

  /** Every sum, extreme and average of the assembled payload passes the recheck despite four-decimal rounding. */
  lemma AssembledIsConsistent(s: Session, runs: seq<Run>, sample: seq<string>, limits: Option<Limits>)
    requires runs != []
    ensures Consistent(GatheredFrom(runs), Assembled(s, runs, sample, limits))
  {
    hide Round, RoundedEq, Largest, Smallest, Average, SumInts;
    RoundedEqOfRounded(Largest(Reals(runs, P95Of)));
    RoundedEqOfRounded(Largest(Reals(runs, P99Of)));
    RoundedEqOfRounded(Smallest(Reals(runs, ThroughputOf)));
    RoundedEqOfRounded(Average(Reals(runs, ThroughputOf)));
  }

  lemma {:induction false} SumOfDifferences(runs: seq<Run>)
    requires SuccessesMatch(runs)
    ensures SumInts(Ints(runs, SuccessfulOf)) == SumInts(Ints(runs, TotalOf)) - SumInts(Ints(runs, FailedOf))
  {
    if runs != [] {
      var init, r := runs[..|runs| - 1], runs[|runs| - 1];
      SumOfDifferences(init);
      assert Ints(runs, SuccessfulOf)[..|init|] == Ints(init, SuccessfulOf);
      assert Ints(runs, TotalOf)[..|init|] == Ints(init, TotalOf);
      assert Ints(runs, FailedOf)[..|init|] == Ints(init, FailedOf);
    }
  }

  /** What is left to decide about evidence the load test assembled itself. */
  ghost predicate RunsMeetPolicy(p: Policy, runs: seq<Run>, limits: Option<Limits>)
    requires runs != []
  {
    var total, failed := SumInts(Ints(runs, TotalOf)), SumInts(Ints(runs, FailedOf));
    && total > 0 && 0 <= failed <= total
    && failed as real / total as real * 100.0 <= p.maxErrorRate
    && Round(Largest(Reals(runs, P95Of)), PLACES4) <= p.maxP95
    && Round(Average(Reals(runs, ThroughputOf)), PLACES4) > 0.0
    && Round(Smallest(Reals(runs, ThroughputOf)), PLACES4) >= p.minThroughput
    && LimitsMatch(p, limits)
    && forall i :: 0 <= i < |runs| ==> MeetsTargets(runs[i], limits.value)
  }

  lemma AssembledEvaluation(s: Session, runs: seq<Run>, sample: seq<string>, l: Limits)
    requires runs != []
    ensures EvaluationOk(Assembled(s, runs, sample, Some(l))) <==> forall i :: 0 <= i < |runs| ==> MeetsTargets(runs[i], l)
  {
    hide Round, RoundedEq, Largest, Smallest, Average, SumInts, MeetsTargets;
    RoundedEqOfRounded(Largest(Reals(runs, P95Of)));
    RoundedEqOfRounded(Smallest(Reals(runs, ThroughputOf)));
    var rounds := RoundOutcomes(runs, l);
    assert AllTrue(rounds) <==> forall i :: 0 <= i < |runs| ==> MeetsTargets(runs[i], l) by {
      assert forall i :: 0 <= i < |runs| ==> rounds[i] == MeetsTargets(runs[i], l);
    }
  }

  lemma AssembledRows(s: Session, runs: seq<Run>, sample: seq<string>, limits: Option<Limits>)
    requires runs != [] && SuccessesMatch(runs)
    ensures var e := Assembled(s, runs, sample, limits);
            e.rounds == |e.runs| == |runs| && RunsOf(e.runs[..e.rounds]) == runs && forall i :: 0 <= i < e.rounds ==> RowOk(e.runs[i], i)
  {
    hide Round, Largest, Smallest, Average, SumInts, MeetsTargets;
    var e := Assembled(s, runs, sample, limits);
    assert e.runs[..e.rounds] == e.runs;
  }

  /**
    The verifier accepts the load test's own evidence exactly when its header passes and the
    runs meet the policy: none of its consistency equations can fail.
   */
  lemma StressAgreement(p: Policy, s: Session, runs: seq<Run>, sample: seq<string>, limits: Option<Limits>, now: int)
    requires runs != [] && SuccessesMatch(runs)
    ensures var e := Assembled(s, runs, sample, limits);
            StressAccepted(p, e, now) <==> HeaderOk(p, e, now) && RunsMeetPolicy(p, runs, limits)
  {
    hide Round, RoundedEq, Largest, Smallest, Average, SumInts, MeetsTargets, HeaderOk, Consistent, EvaluationOk, RowOk, GatheredFrom;
    AssembledRows(s, runs, sample, limits);
    AssembledIsConsistent(s, runs, sample, limits);
    SumOfDifferences(runs);
    if limits.Some? {
      AssembledEvaluation(s, runs, sample, limits.value);
    }
  }

  // ----- what acceptance means for each run -----

  lemma RoundedEqBound(a: real, b: real)
    requires RoundedEq(a, b)
    ensures b - 0.0001 <= a <= b + 0.0001
  {
    hide Round;
    RoundWithinHalfUnit(a, PLACES4);
    RoundWithinHalfUnit(b, PLACES4);
    assert 0.5 / PLACES4 == 0.00005;
  }

  /** Every considered run keeps the p95 and throughput limits up to one step of the fourth decimal. */
  lemma AcceptedRunsWithinLimits(p: Policy, e: Evidence, now: int, i: int)
    requires StressAccepted(p, e, now) && 0 <= i < e.rounds
    ensures e.runs[i].results.p95 <= p.maxP95 + 0.0001
    ensures e.runs[i].results.throughput >= p.minThroughput - 0.0001
  {
    hide HeaderOk, LimitsMatch, EvaluationOk, PooledRateOk, RoundedEq, Largest, Smallest, Average, SumInts;
    var runs := RunsOf(e.runs[..e.rounds]);
    assert runs[i] == e.runs[i].results;
    var p95s, throughputs := Reals(runs, P95Of), Reals(runs, ThroughputOf);
    LargestIsGreatest(p95s);
    SmallestIsLeast(throughputs);
    assert p95s[i] == runs[i].p95 && throughputs[i] == runs[i].throughput;
    RoundedEqBound(Largest(p95s), e.results.p95);
    RoundedEqBound(Smallest(throughputs), e.minThroughput);
  }

  function Rate(r: Run): real
    requires r.total > 0
  {
    r.failed as real / r.total as real
  }

  ghost predicate WellCounted(runs: seq<Run>) {
    forall i :: 0 <= i < |runs| ==> runs[i].total > 0 && 0 <= runs[i].failed <= runs[i].total
  }

  /** Sums of the totals and of the failures, one run longer. */
  lemma SumsStep(runs: seq<Run>)
    requires runs != []
    ensures var init, r := runs[..|runs| - 1], runs[|runs| - 1];
            && SumInts(Ints(runs, TotalOf)) == SumInts(Ints(init, TotalOf)) + r.total
            && SumInts(Ints(runs, FailedOf)) == SumInts(Ints(init, FailedOf)) + r.failed
  {
    var init := runs[..|runs| - 1];
    assert Ints(runs, TotalOf)[..|init|] == Ints(init, TotalOf);
    assert Ints(runs, FailedOf)[..|init|] == Ints(init, FailedOf);
  }

  /** The rate of `failed` in `total` lies between the bounds. */
  ghost predicate RateBetween(low: real, high: real, total: int, failed: int) {
    low * total as real <= failed as real <= high * total as real
  }

  lemma RateBetweenAdd(low: real, high: real, t: int, f: int, total: int, failed: int)
    requires RateBetween(low, high, t, f) && RateBetween(low, high, total, failed)
    ensures RateBetween(low, high, t + total, f + failed)
  {
    AddScaled(low, t, total);
    AddScaled(high, t, total);
  }

  lemma AddScaled(b: real, t: int, n: int)
    ensures b * (t + n) as real == b * t as real + b * n as real
  {
  }

  lemma RunRateBetween(r: Run, low: real, high: real)
    requires r.total > 0 && low <= Rate(r) <= high
    ensures RateBetween(low, high, r.total, r.failed)
  {
    DivMul(r.failed as real, r.total as real);
    MulMonotone(low, Rate(r), r.total as real);
    MulMonotone(Rate(r), high, r.total as real);
  }

  lemma {:induction false} PooledBetween(runs: seq<Run>, low: real, high: real)
    requires WellCounted(runs)
    requires forall i :: 0 <= i < |runs| ==> low <= Rate(runs[i]) <= high
    ensures SumInts(Ints(runs, TotalOf)) >= |runs|
    ensures RateBetween(low, high, SumInts(Ints(runs, TotalOf)), SumInts(Ints(runs, FailedOf)))
  {
    hide Rate;
    if runs != [] {
      hide SumInts, RateBetween;
      var init, r := runs[..|runs| - 1], runs[|runs| - 1];
      PooledBetween(init, low, high);
      RunRateBetween(r, low, high);
      SumsStep(runs);
      RateBetweenAdd(low, high, SumInts(Ints(init, TotalOf)), SumInts(Ints(init, FailedOf)), r.total, r.failed);
    }
  }

  function Rates(runs: seq<Run>): (v: seq<real>)
    requires WellCounted(runs)
    ensures |v| == |runs| && forall i :: 0 <= i < |runs| ==> v[i] == Rate(runs[i])
  {
    seq(|runs|, i requires 0 <= i < |runs| => Rate(runs[i]))
  }

  /** The pooled error rate lies between the smallest and the largest rate of the runs. */
  lemma PooledRateBetweenExtremes(runs: seq<Run>)
    requires runs != [] && WellCounted(runs)
    ensures var total, failed := SumInts(Ints(runs, TotalOf)), SumInts(Ints(runs, FailedOf));
            total > 0 && Smallest(Rates(runs)) <= failed as real / total as real <= Largest(Rates(runs))
  {
    hide Rate, Smallest, Largest, SumInts;
    var rates := Rates(runs);
    SmallestIsLeast(rates);
    LargestIsGreatest(rates);
    forall i | 0 <= i < |runs|
      ensures Smallest(rates) <= Rate(runs[i]) <= Largest(rates)
    {
      assert rates[i] == Rate(runs[i]);
    }
    PooledBetween(runs, Smallest(rates), Largest(rates));
    var total, failed := SumInts(Ints(runs, TotalOf)) as real, SumInts(Ints(runs, FailedOf)) as real;
    DivMul(failed, total);
    MulCancel(Smallest(rates), failed / total, total);
    MulCancel(failed / total, Largest(rates), total);
  }

  /** Acceptance bounds the best run: some considered run keeps the error-rate limit. */
  lemma AcceptedHasRunWithinErrorLimit(p: Policy, e: Evidence, now: int)
    requires StressAccepted(p, e, now) && WellCounted(RunsOf(e.runs[..e.rounds]))
    ensures exists i :: 0 <= i < e.rounds && e.runs[i].results.total > 0 && Rate(e.runs[i].results) * 100.0 <= p.maxErrorRate
  {
    hide HeaderOk, LimitsMatch, EvaluationOk, RoundedEq, Largest, Smallest, Average, SumInts, Rate;
    var runs := RunsOf(e.runs[..e.rounds]);
    assert runs != [] by { assert Reals(runs, P95Of) != []; }
    PooledRateBetweenExtremes(runs);
    SmallestIsLeast(Rates(runs));
    var i :| 0 <= i < |runs| && Rates(runs)[i] == Smallest(Rates(runs));
    assert runs[i] == e.runs[i].results;
  }

  // ----- what acceptance means for the endpoints -----

  function SummaryOf(r: Preflight.Report): PreflightSummary {
    PreflightSummary(true, r.passed, |r.failures|)
  }

  /** Accepted evidence that carries its preflight report: every listed endpoint answered within its attempts. */
  lemma AcceptedEndpointsAnswered(p: Policy, e: Evidence, now: int, r: Preflight.Report, replies: Preflight.Replies)
    requires StressAccepted(p, e, now) && e.preflight == SummaryOf(r) && r.attempts >= 1
    requires exists blocks :: Preflight.IsLog(r, blocks, e.endpoints, replies, r.attempts)
    ensures forall i :: 0 <= i < |e.endpoints| ==> Preflight.SomeAttemptSucceeds(i, replies, r.attempts)
  {
    hide Consistent, LimitsMatch, EvaluationOk, PooledRateOk, ResultsOk, RowOk, Preflight.IsLog, Preflight.SomeAttemptSucceeds;
    Preflight.PreflightMeaning(r, e.endpoints, replies);
  }
}
