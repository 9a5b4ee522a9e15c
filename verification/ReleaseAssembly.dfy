/** Assembly of the evidence commands in an arbitrary environment: what fails, in which order, and what is kept. */
module ReleaseAssembly {
  import opened Outcomes
  import opened Text
  import opened ReleaseGate

  /** Everything that can stop the assembly, in the order in which it is found. */
  const CHECKS: seq<GateError> := [
    PathMissing(KeyRotationPath),
    PathMissing(FinancePath), PathMissing(TelemetryPath), PathMissing(PkgFinPath),
    PathMissing(DispositionPath),
    RequiredButUnset(StressPath), RequiredButUnset(FailurePath), RequiredButUnset(FinancePath),
    RequiredButUnset(TelemetryPath), RequiredButUnset(PricingPath), RequiredButUnset(PkgFinPath)]

  /** The flag that demands the evidence at a path. */
  function FlagOf(path: Variable): Variable {
    match path
    case StressPath => StressRequired
    case FailurePath => FailureRequired
    case FinancePath => FinanceRequired
    case TelemetryPath => TelemetryRequired
    case PricingPath => PricingRequired
    case _ => PkgFinRequired
  }

  /** A missing path fails under runtime evidence only; demanded evidence fails without a path. */
  predicate Fails(env: Env, e: GateError) {
    Value(env, e.v) == "" && Truthy(Value(env, if e.PathMissing? then RuntimeOnly else FlagOf(e.v)))
  }

  /** The nine steps: three that always run a command, six that run one for a path that is set. */
  function PathOf(k: nat): Variable {
    if k == 3 then StressPath else if k == 4 then FailurePath else if k == 5 then FinancePath
    else if k == 6 then TelemetryPath else if k == 7 then PricingPath else PkgFinPath
  }

  function CommandOf(env: Env, k: nat): Command {
    if k == 0 then
      Command(VerifyKeyRotation, [(DrillPath, Resolved(env, KeyRotationPath)), (MaxDrillAgeDays, Resolved(env, KeyRotationMaxAge))])
    else if k == 1 then
      Command(VerifyMonthlyRefresh, [
        (FinanceGuardrailsPath, Resolved(env, FinancePath)), (TelemetrySnapshotPath, Resolved(env, TelemetryPath)),
        (PolicyDecisionsPath, Resolved(env, PkgFinPath)), (MaxAgeDays, Resolved(env, RefreshMaxAge)),
        (MaxCaptureSpreadDays, Resolved(env, RefreshMaxSpread))])
    else if k == 2 then
      Command(VerifyDisposition, [
        (RegisterPath, Resolved(env, DispositionPath)), (MaxArtifactAgeDays, Resolved(env, DispositionMaxAge)),
        (MaxReviewWindowDays, Resolved(env, DispositionMaxReview))])
    else if k == 3 then
      Command(VerifyStress, [
        (EvidencePath, Value(env, StressPath)), (MinDurationSeconds, Resolved(env, StressMinDuration)),
        (MinConcurrentUsers, Resolved(env, StressMinUsers)), (RequiredDatabaseEngine, Resolved(env, StressEngine))]
        + AgeFlag(Value(env, StressMaxAge)))
    else if k == 4 then
      Command(VerifyFailureInjection, [(EvidencePath, Value(env, FailurePath))] + AgeFlag(Value(env, FailureMaxAge)))
    else if k == 5 then
      Command(VerifyFinanceGuardrails, [(EvidencePath, Value(env, FinancePath)), (MaxArtifactAgeHours, Resolved(env, FinanceMaxAge))])
    else if k == 6 then
      Command(VerifyTelemetrySnapshot, [(SnapshotPath, Value(env, TelemetryPath)), (MaxArtifactAgeHours, Resolved(env, TelemetryMaxAge))])
    else if k == 7 then
      Command(VerifyPricingRegister, [(RegisterPath, Value(env, PricingPath)), (MaxSourceAgeDays, Resolved(env, PricingMaxAge))])
    else
      Command(VerifyPolicyDecisions, [(EvidencePath, Value(env, PkgFinPath)), (MaxArtifactAgeHours, Resolved(env, PkgFinMaxAge))])
  }

  function AgeFlag(hours: string): seq<(Flag, string)> {
    if hours == "" then [] else [(MaxArtifactAgeHours, hours)]
  }

  /** The commands of the first n steps. */
  function Kept(env: Env, n: nat): seq<Command> {
    if n == 0 then [] else
    Kept(env, n - 1) + if n <= 3 || Value(env, PathOf(n - 1)) != "" then [CommandOf(env, n - 1)] else []
  }

  /** The step at which a check is made. */
  function StepOf(i: nat): nat {
    if i == 0 then 0 else if i <= 3 then 1 else if i == 4 then 2 else i - 2
  }

  // ----- the steps -----

  function StepAt(env: Env, k: nat): Step {
    if k == 0 then KeyRotationStep(env) else if k == 1 then RefreshStep(env) else if k == 2 then DispositionStep(env)
    else if k == 3 then StressStep(env) else if k == 4 then FailureStep(env) else if k == 5 then FinanceStep(env)
    else if k == 6 then TelemetryStep(env) else if k == 7 then PricingStep(env) else PkgFinStep(env)
  }

  function Steps(env: Env): (s: seq<Step>)
    ensures |s| == 9 && forall k :: 0 <= k < 9 ==> s[k] == StepAt(env, k)
  {
    seq(9, k requires 0 <= k < 9 => StepAt(env, k))
  }

  function Run(env: Env, k: nat): Step {
    Emit(if k < 3 || Value(env, PathOf(k)) != "" then [CommandOf(env, k)] else [])
  }

  /** A step runs its command unless one of its checks fails; then it raises the first that does. */
  lemma FirstSteps(env: Env)
    ensures StepAt(env, 0) == if Fails(env, CHECKS[0]) then Raise(CHECKS[0]) else Run(env, 0)
    ensures StepAt(env, 1) == if Fails(env, CHECKS[1]) then Raise(CHECKS[1]) else if Fails(env, CHECKS[2]) then Raise(CHECKS[2])
                              else if Fails(env, CHECKS[3]) then Raise(CHECKS[3]) else Run(env, 1)
    ensures StepAt(env, 2) == if Fails(env, CHECKS[4]) then Raise(CHECKS[4]) else Run(env, 2)
  {
    hide Value, Resolved, Truthy;
  }

  lemma OptionalSteps(env: Env, k: nat)
    requires 3 <= k < 9
    ensures StepAt(env, k) == if Fails(env, CHECKS[k + 2]) then Raise(CHECKS[k + 2]) else Run(env, k)
  {
    hide Value, Resolved, Truthy;
    assert k == 3 || k == 4 || k == 5 || k == 6 || k == 7 || k == 8;
  }

  // ----- the assembly -----

  ghost predicate NoFailureBefore(env: Env, i: nat)
    requires i <= |CHECKS|
  {
    forall j :: 0 <= j < i ==> !Fails(env, CHECKS[j])
  }

  lemma StepRuns(env: Env, k: nat, i: nat)
    requires i <= |CHECKS| && NoFailureBefore(env, i) && k < 9 && (i < |CHECKS| ==> k < StepOf(i))
    ensures StepAt(env, k) == Run(env, k)
  {
    hide StepAt, Run, Fails;
    assert |CHECKS| == 11;
    FirstSteps(env);
    if k >= 3 {
      OptionalSteps(env, k);
    }
  }

  lemma {:induction false} PrefixRuns(env: Env, n: nat, i: nat)
    requires i <= |CHECKS| && NoFailureBefore(env, i) && n <= 9 && (i < |CHECKS| ==> n <= StepOf(i))
    ensures Prefix(Steps(env), n) == Assembly(Kept(env, n), None)
  {
    hide StepAt, CommandOf, Fails, Value;
    if n > 0 {
      PrefixRuns(env, n - 1, i);
      StepRuns(env, n - 1, i);
    }
  }

  lemma StepStops(env: Env, i: nat)
    requires i < |CHECKS| && Fails(env, CHECKS[i]) && NoFailureBefore(env, i)
    ensures StepOf(i) < 9 && StepAt(env, StepOf(i)) == Raise(CHECKS[i])
  {
    hide StepAt, Run, Fails;
    assert |CHECKS| == 11;
    FirstSteps(env);
    if i >= 5 {
      OptionalSteps(env, i - 2);
    }
  }

  lemma AssembleIsPrefix(env: Env)
    ensures Assemble(env) == Prefix(Steps(env), 9)
  {
    hide KeyRotationStep, RefreshStep, DispositionStep, StressStep, FailureStep, FinanceStep, TelemetryStep, PricingStep, PkgFinStep;
    var s := Steps(env);
    assert s == [s[0], s[1], s[2], s[3], s[4], s[5], s[6], s[7], s[8]];
    FullPrefix(env, s);
  }

  lemma AssemblyStops(env: Env, i: nat)
    requires i < |CHECKS| && Fails(env, CHECKS[i]) && NoFailureBefore(env, i)
    ensures Assemble(env) == Assembly(Kept(env, StepOf(i)), Some(CHECKS[i]))
  {
    hide StepAt, Fails, Kept, Assemble;
    StepStops(env, i);
    PrefixRuns(env, StepOf(i), i);
    StoppedPrefix(Steps(env), StepOf(i) + 1);
    AssembleIsPrefix(env);
  }

  lemma AssemblyRuns(env: Env)
    requires NoFailureBefore(env, |CHECKS|)
    ensures Assemble(env) == Assembly(Kept(env, 9), None)
  {
    hide Kept, Assemble, Fails;
    PrefixRuns(env, 9, |CHECKS|);
    AssembleIsPrefix(env);
  }

  lemma {:induction false} FirstFailure(env: Env, n: nat) returns (i: nat)
    requires n <= |CHECKS| && !NoFailureBefore(env, n)
    ensures i < n && Fails(env, CHECKS[i]) && NoFailureBefore(env, i)
  {
    hide Fails;
    if NoFailureBefore(env, n - 1) {
      i := n - 1;
    } else {
      i := FirstFailure(env, n - 1);
    }
  }

  /**
    In any environment: the assembly fails exactly when some check fails, with the first that
    does, and keeps the commands of the steps before it; otherwise all nine steps run.
   */
  lemma AssemblyOutcomes(env: Env)
    ensures Assemble(env).error.None? <==> forall i :: 0 <= i < |CHECKS| ==> !Fails(env, CHECKS[i])
    ensures Assemble(env).error.None? ==> Assemble(env).commands == Kept(env, 9)
    ensures forall i :: 0 <= i < |CHECKS| && Fails(env, CHECKS[i]) && NoFailureBefore(env, i) ==>
      Assemble(env) == Assembly(Kept(env, StepOf(i)), Some(CHECKS[i]))
  {
    hide Fails, Kept, Assemble;
    if NoFailureBefore(env, |CHECKS|) {
      AssemblyRuns(env);
    } else {
      var i := FirstFailure(env, |CHECKS|);
      AssemblyStops(env, i);
    }
    forall i | 0 <= i < |CHECKS| && Fails(env, CHECKS[i]) && NoFailureBefore(env, i)
      ensures Assemble(env) == Assembly(Kept(env, StepOf(i)), Some(CHECKS[i]))
    {
      AssemblyStops(env, i);
    }
  }

  // ----- defaults and flags -----

  ghost predicate AllBlank(env: Env) {
    forall v :: Value(env, v) == ""
  }

  lemma BlankIsFalse()
    ensures !Truthy("")
  {
    EmptyIsNotTruthy();
  }

  lemma DefaultDrill(env: Env)
    requires AllBlank(env)
    ensures CommandOf(env, 0) == Command(VerifyKeyRotation, [
      (DrillPath, "docs/ops/key-rotation-drill-2026-02-27.md"), (MaxDrillAgeDays, "120")])
  {
    hide Value;
    assert Value(env, KeyRotationPath) == "" && Value(env, KeyRotationMaxAge) == "";
  }

  lemma DefaultRefresh(env: Env)
    requires AllBlank(env)
    ensures CommandOf(env, 1) == Command(VerifyMonthlyRefresh, [
      (FinanceGuardrailsPath, "docs/ops/evidence/finance_guardrails_2026-02-27.json"),
      (TelemetrySnapshotPath, "docs/ops/evidence/finance_telemetry_snapshot_2026-02-28.json"),
      (PolicyDecisionsPath, "docs/ops/evidence/pkg_fin_policy_decisions_2026-02-28.json"),
      (MaxAgeDays, "35"), (MaxCaptureSpreadDays, "14")])
  {
    hide Resolved, AllBlank;
    FinancePathDefault(env);
    TelemetryPathDefault(env);
    PolicyPathDefault(env);
    RefreshLimitDefaults(env);
  }

  lemma FinancePathDefault(env: Env)
    requires AllBlank(env)
    ensures Resolved(env, FinancePath) == "docs/ops/evidence/finance_guardrails_2026-02-27.json"
  {
    assert Value(env, FinancePath) == "";
  }

  lemma TelemetryPathDefault(env: Env)
    requires AllBlank(env)
    ensures Resolved(env, TelemetryPath) == "docs/ops/evidence/finance_telemetry_snapshot_2026-02-28.json"
  {
    assert Value(env, TelemetryPath) == "";
  }

  lemma PolicyPathDefault(env: Env)
    requires AllBlank(env)
    ensures Resolved(env, PkgFinPath) == "docs/ops/evidence/pkg_fin_policy_decisions_2026-02-28.json"
  {
    assert Value(env, PkgFinPath) == "";
  }

  lemma RefreshLimitDefaults(env: Env)
    requires AllBlank(env)
    ensures Resolved(env, RefreshMaxAge) == "35" && Resolved(env, RefreshMaxSpread) == "14"
  {
    assert Value(env, RefreshMaxAge) == "" && Value(env, RefreshMaxSpread) == "";
  }

  lemma DefaultDisposition(env: Env)
    requires AllBlank(env)
    ensures CommandOf(env, 2) == Command(VerifyDisposition, [
      (RegisterPath, "docs/ops/evidence/valdrics_disposition_register_2026-02-28.json"),
      (MaxArtifactAgeDays, "45"), (MaxReviewWindowDays, "120")])
  {
    hide Value;
    assert Value(env, DispositionPath) == "" && Value(env, DispositionMaxAge) == "" && Value(env, DispositionMaxReview) == "";
  }

  /** Without any setting only the three unconditional checks run. */
  lemma DefaultAssembly(env: Env)
    requires AllBlank(env)
    ensures Assemble(env) == Assembly([CommandOf(env, 0), CommandOf(env, 1), CommandOf(env, 2)], None)
  {
    hide Assemble, Truthy, Value, CommandOf;
    BlankIsFalse();
    assert NoFailureBefore(env, |CHECKS|);
    AssemblyRuns(env);
    KeptWithoutPaths(env);
  }

  lemma KeptWithoutPaths(env: Env)
    requires AllBlank(env)
    ensures Kept(env, 9) == [CommandOf(env, 0), CommandOf(env, 1), CommandOf(env, 2)]
  {
    hide CommandOf, Value;
    assert Kept(env, 3) == [CommandOf(env, 0), CommandOf(env, 1), CommandOf(env, 2)] by {
      assert Kept(env, 1) == [CommandOf(env, 0)];
      assert Kept(env, 2) == [CommandOf(env, 0), CommandOf(env, 1)];
    }
    assert Kept(env, 4) == Kept(env, 3);
    assert Kept(env, 5) == Kept(env, 4);
    assert Kept(env, 6) == Kept(env, 5);
    assert Kept(env, 7) == Kept(env, 6);
    assert Kept(env, 8) == Kept(env, 7);
    assert Kept(env, 9) == Kept(env, 8);
  }

  /** The default limits of the evidence that is verified when its path is set. */
  lemma StressDefaults(env: Env)
    requires Value(env, StressMinDuration) == "" && Value(env, StressMinUsers) == "" && Value(env, StressEngine) == ""
    requires Value(env, StressMaxAge) == "" && Value(env, FailureMaxAge) == ""
    ensures CommandOf(env, 3) == Command(VerifyStress, [
      (EvidencePath, Value(env, StressPath)), (MinDurationSeconds, "30"), (MinConcurrentUsers, "10"), (RequiredDatabaseEngine, "postgresql")])
    ensures CommandOf(env, 4) == Command(VerifyFailureInjection, [(EvidencePath, Value(env, FailurePath))])
  {
    hide Value;
  }

  lemma FinanceDefaults(env: Env)
    requires Value(env, FinanceMaxAge) == "" && Value(env, TelemetryMaxAge) == ""
    requires Value(env, PricingMaxAge) == "" && Value(env, PkgFinMaxAge) == ""
    ensures CommandOf(env, 5) == Command(VerifyFinanceGuardrails, [(EvidencePath, Value(env, FinancePath)), (MaxArtifactAgeHours, "744")])
    ensures CommandOf(env, 6) == Command(VerifyTelemetrySnapshot, [(SnapshotPath, Value(env, TelemetryPath)), (MaxArtifactAgeHours, "744")])
    ensures CommandOf(env, 7) == Command(VerifyPricingRegister, [(RegisterPath, Value(env, PricingPath)), (MaxSourceAgeDays, "120")])
    ensures CommandOf(env, 8) == Command(VerifyPolicyDecisions, [(EvidencePath, Value(env, PkgFinPath)), (MaxArtifactAgeHours, "744")])
  {
    hide Value;
  }

  /** What counts as set: four words, in any case. */
  lemma TruthyTexts(s: string, t: string)
    requires Lower(s) == Lower(t)
    ensures Truthy(s) == Truthy(t)
    ensures Truthy("1") && Truthy("true") && Truthy("yes") && Truthy("on")
    ensures !Truthy("0") && !Truthy("false") && !Truthy("no") && !Truthy("off") && !Truthy("")
  {
    assert Lower("1") == "1" && Lower("true") == "true" && Lower("yes") == "yes" && Lower("on") == "on";
    assert Lower("0")[0] == '0' && Lower("false")[0] == 'f' && Lower("no")[0] == 'n' && Lower("off")[1] == 'f';
    EmptyIsNotTruthy();
  }
}
