/** The release gate: an environment rewritten from arguments, and the evidence commands read back from it. */
module ReleaseGate {
  import opened Outcomes
  import opened Text

  /** The environment variables by role; any other variable by name. */
  datatype Variable =
    | RuntimeOnly
    | StressPath | StressRequired | StressMaxAge | StressMinDuration | StressMinUsers | StressEngine
    | FailurePath | FailureRequired | FailureMaxAge
    | FinancePath | FinanceRequired | FinanceMaxAge
    | TelemetryPath | TelemetryRequired | TelemetryMaxAge
    | PricingPath | PricingRequired | PricingMaxAge
    | PkgFinPath | PkgFinRequired | PkgFinMaxAge
    | KeyRotationPath | KeyRotationMaxAge
    | RefreshMaxAge | RefreshMaxSpread
    | DispositionPath | DispositionMaxAge | DispositionMaxReview
    | OtherVariable(name: string)

  type Env = map<Variable, string>

  /** A command runs one script, under `uv run python3`, with flags and their values in order. */
  datatype Script =
    | VerifyKeyRotation | VerifyMonthlyRefresh | VerifyDisposition | VerifyStress | VerifyFailureInjection
    | VerifyFinanceGuardrails | VerifyTelemetrySnapshot | VerifyPricingRegister | VerifyPolicyDecisions
  datatype Flag =
    | DrillPath | MaxDrillAgeDays | FinanceGuardrailsPath | TelemetrySnapshotPath | PolicyDecisionsPath | MaxAgeDays
    | MaxCaptureSpreadDays | RegisterPath | MaxArtifactAgeDays | MaxReviewWindowDays | EvidencePath | MinDurationSeconds
    | MinConcurrentUsers | RequiredDatabaseEngine | MaxArtifactAgeHours | SnapshotPath | MaxSourceAgeDays
  datatype Command = Command(script: Script, flags: seq<(Flag, string)>)

  /** A path argument: a file that exists, by its resolved absolute path, or nothing there. */
  type AbsolutePath = s: string | s != "" && s[0] == '/' witness "/"
  datatype FileArg = NoFile | File(path: AbsolutePath)

  /** A number and the text it prints as. */
  datatype Number = Number(value: real, text: string)

  datatype Args = Args(
    stress: FileArg, failure: FileArg,
    finance: Option<FileArg>, financeRequired: bool,
    telemetry: Option<FileArg>, telemetryRequired: bool,
    pricing: Option<FileArg>, pricingRequired: bool,
    pkgFin: Option<FileArg>, pkgFinRequired: bool,
    stressAge: Number, failureAge: Number, financeAge: Number, telemetryAge: Number, pricingAge: Number, pkgFinAge: Number,
    minDuration: Number, minUsers: Number, engine: string)

  // ----- building the environment -----

  predicate OptionalFileOk(file: Option<FileArg>, required: bool) {
    (file.Some? ==> file.value.File?) && (required ==> file.Some?)
  }

  predicate ArgsOk(a: Args) {
    && a.stress.File? && a.failure.File?
    && OptionalFileOk(a.finance, a.financeRequired) && OptionalFileOk(a.telemetry, a.telemetryRequired)
    && OptionalFileOk(a.pricing, a.pricingRequired) && OptionalFileOk(a.pkgFin, a.pkgFinRequired)
    && a.stressAge.value > 0.0 && a.failureAge.value > 0.0 && a.financeAge.value > 0.0 && a.telemetryAge.value > 0.0
    && a.pricingAge.value > 0.0 && a.pkgFinAge.value > 0.0 && a.minDuration.value > 0.0 && a.minUsers.value > 0.0
    && Strip(a.engine) != ""
  }

  /** What the builder does to one variable. */
  datatype Setting = Keep | Unset | Set(text: string)

  function OptionalSetting(file: Option<FileArg>, text: string): Setting {
    if file.Some? then Set(text) else Unset
  }

  function OptionalPath(file: Option<FileArg>): Setting
    requires file.Some? ==> file.value.File?
  {
    if file.Some? then Set(file.value.path) else Unset
  }

  function SettingOf(a: Args, v: Variable): Setting
    requires ArgsOk(a)
  {
    match v
    case RuntimeOnly => Set("true")
    case StressPath => Set(a.stress.path)
    case StressRequired => Set("true")
    case StressMaxAge => Set(a.stressAge.text)
    case StressMinDuration => Set(a.minDuration.text)
    case StressMinUsers => Set(a.minUsers.text)
    case StressEngine => Set(Strip(a.engine))
    case FailurePath => Set(a.failure.path)
    case FailureRequired => Set("true")
    case FailureMaxAge => Set(a.failureAge.text)
    case FinancePath => OptionalPath(a.finance)
    case FinanceRequired => OptionalSetting(a.finance, "true")
    case FinanceMaxAge => OptionalSetting(a.finance, a.financeAge.text)
    case TelemetryPath => OptionalPath(a.telemetry)
    case TelemetryRequired => OptionalSetting(a.telemetry, "true")
    case TelemetryMaxAge => OptionalSetting(a.telemetry, a.telemetryAge.text)
    case PricingPath => OptionalPath(a.pricing)
    case PricingRequired => OptionalSetting(a.pricing, "true")
    case PricingMaxAge => OptionalSetting(a.pricing, a.pricingAge.text)
    case PkgFinPath => OptionalPath(a.pkgFin)
    case PkgFinRequired => OptionalSetting(a.pkgFin, "true")
    case PkgFinMaxAge => OptionalSetting(a.pkgFin, a.pkgFinAge.text)
    case _ => Keep
  }

  predicate Obeys(ambient: Env, env: Env, v: Variable, s: Setting) {
    match s
    case Keep => (v in env <==> v in ambient) && (v in env ==> env[v] == ambient[v])
    case Unset => v !in env
    case Set(text) => v in env && env[v] == text
  }

  /** Every variable of the built environment is as its setting says. */
  ghost predicate Built(ambient: Env, a: Args, env: Env)
    requires ArgsOk(a)
  {
    forall v :: Obeys(ambient, env, v, SettingOf(a, v))
  }

  /** 0 for the variables that do not belong to optional evidence, else which evidence they belong to. */
  function Group(v: Variable): nat {
    match v
    case FinancePath | FinanceRequired | FinanceMaxAge => 1
    case TelemetryPath | TelemetryRequired | TelemetryMaxAge => 2
    case PricingPath | PricingRequired | PricingMaxAge => 3
    case PkgFinPath | PkgFinRequired | PkgFinMaxAge => 4
    case _ => 0
  }

  method SetMandatory(ambient: Env, a: Args) returns (env: Env)
    requires ArgsOk(a)
    ensures SetUpTo(ambient, a, env, 0)
  {
    hide Strip;
    env := ambient;
    env := env[RuntimeOnly := "true"];
    env := env[StressPath := a.stress.path];
    env := env[StressRequired := "true"];
    env := env[StressMaxAge := a.stressAge.text];
    env := env[StressMinDuration := a.minDuration.text];
    env := env[StressMinUsers := a.minUsers.text];
    env := env[StressEngine := Strip(a.engine)];
    env := env[FailurePath := a.failure.path];
    env := env[FailureRequired := "true"];
    env := env[FailureMaxAge := a.failureAge.text];
  }

  /** Evidence that was not supplied has its three variables removed. */
  method SetOptional(env: Env, file: Option<FileArg>, path: Variable, required: Variable, age: Variable, ageText: string)
    returns (env': Env)
    requires file.Some? ==> file.value.File?
    requires path != required && path != age && required != age
    ensures forall v :: v != path && v != required && v != age ==> Obeys(env, env', v, Keep)
    ensures Obeys(env, env', path, OptionalPath(file))
    ensures Obeys(env, env', required, OptionalSetting(file, "true"))
    ensures Obeys(env, env', age, OptionalSetting(file, ageText))
  {
    env' := env - {path, required, age};
    if file.Some? {
      env' := env'[path := file.value.path];
      env' := env'[required := "true"];
      env' := env'[age := ageText];
    }
  }

  /** The groups up to k are as their settings say. */
  ghost predicate SetUpTo(ambient: Env, a: Args, env: Env, k: nat)
    requires ArgsOk(a)
  {
    forall v :: Group(v) <= k ==> Obeys(ambient, env, v, SettingOf(a, v))
  }

  /** The three variables of one group of optional evidence. */
  datatype Trio = Trio(path: Variable, required: Variable, age: Variable)

  function TrioOf(k: nat): Trio {
    if k == 1 then Trio(FinancePath, FinanceRequired, FinanceMaxAge)
    else if k == 2 then Trio(TelemetryPath, TelemetryRequired, TelemetryMaxAge)
    else if k == 3 then Trio(PricingPath, PricingRequired, PricingMaxAge)
    else Trio(PkgFinPath, PkgFinRequired, PkgFinMaxAge)
  }

  function FileOf(a: Args, k: nat): Option<FileArg> {
    if k == 1 then a.finance else if k == 2 then a.telemetry else if k == 3 then a.pricing else a.pkgFin
  }

  function AgeOf(a: Args, k: nat): string {
    if k == 1 then a.financeAge.text else if k == 2 then a.telemetryAge.text else if k == 3 then a.pricingAge.text else a.pkgFinAge.text
  }

  lemma GroupStep(ambient: Env, a: Args, env: Env, env': Env, k: nat)
    requires ArgsOk(a) && 1 <= k <= 4 && SetUpTo(ambient, a, env, k - 1)
    requires var t := TrioOf(k); forall v :: v != t.path && v != t.required && v != t.age ==> Obeys(env, env', v, Keep)
    requires Obeys(env, env', TrioOf(k).path, OptionalPath(FileOf(a, k)))
    requires Obeys(env, env', TrioOf(k).required, OptionalSetting(FileOf(a, k), "true"))
    requires Obeys(env, env', TrioOf(k).age, OptionalSetting(FileOf(a, k), AgeOf(a, k)))
    ensures SetUpTo(ambient, a, env', k)
  {
    hide Strip;
    var t := TrioOf(k);
    forall v | Group(v) <= k
      ensures Obeys(ambient, env', v, SettingOf(a, v))
    {
      if Group(v) < k {
        assert Obeys(ambient, env, v, SettingOf(a, v)) && Obeys(env, env', v, Keep);
      } else {
        assert v == t.path || v == t.required || v == t.age;
        assert Obeys(env, env', v, SettingOf(a, v)) && !SettingOf(a, v).Keep?;
      }
    }
  }

  method RewriteEnvironment(ambient: Env, a: Args) returns (env: Env)
    requires ArgsOk(a)
    ensures Built(ambient, a, env)
  {
    hide Strip, Obeys, SetUpTo, SettingOf, Built;
    env := SetMandatory(ambient, a);
    for k := 1 to 5
      invariant SetUpTo(ambient, a, env, k - 1)
    {
      var t := TrioOf(k);
      ghost var before := env;
      env := SetOptional(env, FileOf(a, k), t.path, t.required, t.age, AgeOf(a, k));
      GroupStep(ambient, a, before, env, k);
    }
    AllGroupsSet(ambient, a, env);
  }

  lemma AllGroupsSet(ambient: Env, a: Args, env: Env)
    requires ArgsOk(a) && SetUpTo(ambient, a, env, 4)
    ensures Built(ambient, a, env)
  {
    hide Obeys, SettingOf;
    assert forall v :: Group(v) <= 4;
  }

  method BuildGateEnvironment(ambient: Env, a: Args) returns (r: Result<Env>)
    ensures r.Ok? <==> ArgsOk(a)
    ensures r.Ok? ==> Built(ambient, a, r.value)
  {
    hide Strip, Built;
    if !a.stress.File? || !a.failure.File? { return Error("evidence file does not exist"); }
    if !OptionalFileOk(a.finance, a.financeRequired) || !OptionalFileOk(a.telemetry, a.telemetryRequired) {
      return Error("finance evidence file is not provided or does not exist");
    }
    if !OptionalFileOk(a.pricing, a.pricingRequired) || !OptionalFileOk(a.pkgFin, a.pkgFinRequired) {
      return Error("policy evidence file is not provided or does not exist");
    }
    if a.stressAge.value <= 0.0 || a.failureAge.value <= 0.0 || a.financeAge.value <= 0.0 || a.telemetryAge.value <= 0.0 {
      return Error("max age must be > 0");
    }
    if a.pricingAge.value <= 0.0 || a.pkgFinAge.value <= 0.0 || a.minDuration.value <= 0.0 || a.minUsers.value <= 0.0 {
      return Error("number must be > 0");
    }
    if Strip(a.engine) == "" { return Error("stress_required_database_engine must be a non-empty string"); }

    var env := RewriteEnvironment(ambient, a);
    return Ok(env);
  }

  // ----- assembling the commands -----

  function Value(env: Env, v: Variable): string {
    Strip(if v in env then env[v] else "")
  }

  function DefaultFor(v: Variable): string {
    match v
    case KeyRotationPath => "docs/ops/key-rotation-drill-2026-02-27.md"
    case KeyRotationMaxAge => "120"
    case FinancePath => "docs/ops/evidence/finance_guardrails_2026-02-27.json"
    case TelemetryPath => "docs/ops/evidence/finance_telemetry_snapshot_2026-02-28.json"
    case PkgFinPath => "docs/ops/evidence/pkg_fin_policy_decisions_2026-02-28.json"
    case DispositionPath => "docs/ops/evidence/valdrics_disposition_register_2026-02-28.json"
    case RefreshMaxAge => "35"
    case RefreshMaxSpread => "14"
    case DispositionMaxAge => "45"
    case DispositionMaxReview => "120"
    case StressMinDuration => "30"
    case StressMinUsers => "10"
    case StressEngine => "postgresql"
    case FinanceMaxAge => "744"
    case TelemetryMaxAge => "744"
    case PricingMaxAge => "120"
    case PkgFinMaxAge => "744"
    case _ => ""
  }

  function OrDefault(text: string, v: Variable): string {
    if text != "" then text else DefaultFor(v)
  }

  /** The value of the variable, or its default where it is blank. */
  function Resolved(env: Env, v: Variable): string {
    OrDefault(Value(env, v), v)
  }

  predicate Truthy(text: string) {
    Lower(text) in ["1", "true", "yes", "on"]
  }

  datatype GateError = PathMissing(v: Variable) | RequiredButUnset(v: Variable)
  datatype Step = Emit(commands: seq<Command>) | Raise(error: GateError)

  /** The commands appended so far, and the error that stopped the assembly, if any. */
  datatype Assembly = Assembly(commands: seq<Command>, error: Option<GateError>) {
    function Then(s: Step): Assembly {
      if error.Some? then this
      else if s.Emit? then Assembly(commands + s.commands, None)
      else Assembly(commands, Some(s.error))
    }
  }

  /** The path in the variable, else the default unless only runtime evidence counts. */
  predicate PathResolves(env: Env, v: Variable) {
    Value(env, v) != "" || !Truthy(Value(env, RuntimeOnly))
  }

  function KeyRotationStep(env: Env): Step {
    if !PathResolves(env, KeyRotationPath) then Raise(PathMissing(KeyRotationPath)) else
    Emit([Command(VerifyKeyRotation, [
      (DrillPath, Resolved(env, KeyRotationPath)),
      (MaxDrillAgeDays, Resolved(env, KeyRotationMaxAge))])])
  }

  function RefreshStep(env: Env): Step {
    if !PathResolves(env, FinancePath) then Raise(PathMissing(FinancePath))
    else if !PathResolves(env, TelemetryPath) then Raise(PathMissing(TelemetryPath))
    else if !PathResolves(env, PkgFinPath) then Raise(PathMissing(PkgFinPath))
    else
      Emit([Command(VerifyMonthlyRefresh, [
        (FinanceGuardrailsPath, Resolved(env, FinancePath)),
        (TelemetrySnapshotPath, Resolved(env, TelemetryPath)),
        (PolicyDecisionsPath, Resolved(env, PkgFinPath)),
        (MaxAgeDays, Resolved(env, RefreshMaxAge)),
        (MaxCaptureSpreadDays, Resolved(env, RefreshMaxSpread))])])
  }

  function DispositionStep(env: Env): Step {
    if !PathResolves(env, DispositionPath) then Raise(PathMissing(DispositionPath)) else
    Emit([Command(VerifyDisposition, [
      (RegisterPath, Resolved(env, DispositionPath)),
      (MaxArtifactAgeDays, Resolved(env, DispositionMaxAge)),
      (MaxReviewWindowDays, Resolved(env, DispositionMaxReview))])])
  }

  /** Evidence that is verified when its path is set, and demanded when its flag is set. */
  function OptionalStep(path: string, required: string, pathVariable: Variable, command: Command): Step {
    if path != "" then Emit([command])
    else if Truthy(required) then Raise(RequiredButUnset(pathVariable))
    else Emit([])
  }

  function OptionalAge(age: string): seq<(Flag, string)> {
    if age != "" then [(MaxArtifactAgeHours, age)] else []
  }

  function StressCommand(env: Env): Command {
    Command(VerifyStress, [
      (EvidencePath, Value(env, StressPath)),
      (MinDurationSeconds, Resolved(env, StressMinDuration)),
      (MinConcurrentUsers, Resolved(env, StressMinUsers)),
      (RequiredDatabaseEngine, Resolved(env, StressEngine))] + OptionalAge(Value(env, StressMaxAge)))
  }

  function FailureCommand(env: Env): Command {
    Command(VerifyFailureInjection, [(EvidencePath, Value(env, FailurePath))] + OptionalAge(Value(env, FailureMaxAge)))
  }

  function FinanceCommand(env: Env): Command {
    Command(VerifyFinanceGuardrails, [(EvidencePath, Value(env, FinancePath)), (MaxArtifactAgeHours, Resolved(env, FinanceMaxAge))])
  }

  function TelemetryCommand(env: Env): Command {
    Command(VerifyTelemetrySnapshot, [(SnapshotPath, Value(env, TelemetryPath)), (MaxArtifactAgeHours, Resolved(env, TelemetryMaxAge))])
  }

  function PricingCommand(env: Env): Command {
    Command(VerifyPricingRegister, [(RegisterPath, Value(env, PricingPath)), (MaxSourceAgeDays, Resolved(env, PricingMaxAge))])
  }

  function PkgFinCommand(env: Env): Command {
    Command(VerifyPolicyDecisions, [(EvidencePath, Value(env, PkgFinPath)), (MaxArtifactAgeHours, Resolved(env, PkgFinMaxAge))])
  }

  function StressStep(env: Env): Step {
    OptionalStep(Value(env, StressPath), Value(env, StressRequired), StressPath, StressCommand(env))
  }

  function FailureStep(env: Env): Step {
    OptionalStep(Value(env, FailurePath), Value(env, FailureRequired), FailurePath, FailureCommand(env))
  }

  function FinanceStep(env: Env): Step {
    OptionalStep(Value(env, FinancePath), Value(env, FinanceRequired), FinancePath, FinanceCommand(env))
  }

  function TelemetryStep(env: Env): Step {
    OptionalStep(Value(env, TelemetryPath), Value(env, TelemetryRequired), TelemetryPath, TelemetryCommand(env))
  }

  function PricingStep(env: Env): Step {
    OptionalStep(Value(env, PricingPath), Value(env, PricingRequired), PricingPath, PricingCommand(env))
  }

  function PkgFinStep(env: Env): Step {
    OptionalStep(Value(env, PkgFinPath), Value(env, PkgFinRequired), PkgFinPath, PkgFinCommand(env))
  }

  function Assemble(env: Env): Assembly {
    Assembly([], None)
      .Then(KeyRotationStep(env)).Then(RefreshStep(env)).Then(DispositionStep(env))
      .Then(StressStep(env)).Then(FailureStep(env)).Then(FinanceStep(env))
      .Then(TelemetryStep(env)).Then(PricingStep(env)).Then(PkgFinStep(env))
  }

  /** The command list the gate runner passes along and has extended in place. */
  class CommandList {
    var commands: seq<Command>

    constructor (initial: seq<Command>)
      ensures commands == initial
    {
      commands := initial;
    }

    method Apply(s: Step) returns (error: Option<GateError>)
      modifies this
      ensures s.Emit? ==> commands == old(commands) + s.commands && error == None
      ensures s.Raise? ==> commands == old(commands) && error == Some(s.error)
    {
      if s.Raise? { return Some(s.error); }
      commands := commands + s.commands;
      return None;
    }

    /** What was appended before an error stays in the list. */
    method AppendOptionalEvidenceCommands(env: Env) returns (error: Option<GateError>)
      modifies this
      ensures commands == old(commands) + Assemble(env).commands
      ensures error == Assemble(env).error
    {
      hide KeyRotationStep, RefreshStep, DispositionStep, StressStep, FailureStep, FinanceStep, TelemetryStep, PricingStep, PkgFinStep;
      var steps := [KeyRotationStep(env), RefreshStep(env), DispositionStep(env), StressStep(env), FailureStep(env),
                    FinanceStep(env), TelemetryStep(env), PricingStep(env), PkgFinStep(env)];
      ghost var done := Assembly([], None);
      error := None;
      for i := 0 to |steps|
        invariant error == None && done == Prefix(steps, i) && done.error == None
        invariant commands == old(commands) + done.commands
      {
        error := Apply(steps[i]);
        done := done.Then(steps[i]);
        if error.Some? {
          StoppedPrefix(steps, i + 1);
          FullPrefix(env, steps);
          return;
        }
      }
      FullPrefix(env, steps);
    }
  }

  ghost function Prefix(steps: seq<Step>, n: nat): Assembly
    requires n <= |steps|
  {
    if n == 0 then Assembly([], None) else Prefix(steps, n - 1).Then(steps[n - 1])
  }

  lemma {:induction false} StoppedPrefix(steps: seq<Step>, n: nat)
    requires n <= |steps| && Prefix(steps, n).error.Some?
    ensures Prefix(steps, |steps|) == Prefix(steps, n)
    decreases |steps| - n
  {
    if n < |steps| {
      assert Prefix(steps, n + 1) == Prefix(steps, n);
      StoppedPrefix(steps, n + 1);
    }
  }

  lemma FullPrefix(env: Env, steps: seq<Step>)
    requires steps == [KeyRotationStep(env), RefreshStep(env), DispositionStep(env), StressStep(env), FailureStep(env),
                       FinanceStep(env), TelemetryStep(env), PricingStep(env), PkgFinStep(env)]
    ensures Prefix(steps, |steps|) == Assemble(env)
  {
    hide KeyRotationStep, RefreshStep, DispositionStep, StressStep, FailureStep, FinanceStep, TelemetryStep, PricingStep, PkgFinStep;
    assert Prefix(steps, 1) == Assembly([], None).Then(KeyRotationStep(env));
    assert Prefix(steps, 2) == Prefix(steps, 1).Then(RefreshStep(env));
    assert Prefix(steps, 3) == Prefix(steps, 2).Then(DispositionStep(env));
    assert Prefix(steps, 4) == Prefix(steps, 3).Then(StressStep(env));
    assert Prefix(steps, 5) == Prefix(steps, 4).Then(FailureStep(env));
    assert Prefix(steps, 6) == Prefix(steps, 5).Then(FinanceStep(env));
    assert Prefix(steps, 7) == Prefix(steps, 6).Then(TelemetryStep(env));
    assert Prefix(steps, 8) == Prefix(steps, 7).Then(PricingStep(env));
    assert Prefix(steps, 9) == Prefix(steps, 8).Then(PkgFinStep(env));
  }

  // ----- noninterference -----

  predicate Ambient(v: Variable) {
    match v
    case KeyRotationPath | KeyRotationMaxAge | RefreshMaxAge | RefreshMaxSpread
       | DispositionPath | DispositionMaxAge | DispositionMaxReview => true
    case _ => false
  }

  /** The environments show the same seven variables, up to surrounding white space. */
  ghost predicate SameAmbient(left: Env, right: Env) {
    forall v :: Ambient(v) ==> Value(left, v) == Value(right, v)
  }

  ghost predicate SameReads(left: Env, right: Env) {
    forall v: Variable :: !v.OtherVariable? ==> Value(left, v) == Value(right, v)
  }

  lemma BuiltReads(ambient: Env, ambient': Env, a: Args, env: Env, env': Env)
    requires ArgsOk(a) && Built(ambient, a, env) && Built(ambient', a, env') && SameAmbient(ambient, ambient')
    ensures SameReads(env, env')
  {
    hide Strip;
    forall v: Variable | !v.OtherVariable?
      ensures Value(env, v) == Value(env', v)
    {
      var s := SettingOf(a, v);
      assert Obeys(ambient, env, v, s) && Obeys(ambient', env', v, s);
      if s.Keep? {
        assert Ambient(v);
        assert Value(env, v) == Value(ambient, v) && Value(env', v) == Value(ambient', v);
      }
    }
  }

  lemma AssembleReads(left: Env, right: Env)
    requires SameReads(left, right)
    ensures Assemble(left) == Assemble(right)
  {
    hide Value, OptionalStep, OrDefault, Truthy, OptionalAge;
    assert KeyRotationStep(left) == KeyRotationStep(right);
    assert RefreshStep(left) == RefreshStep(right);
    assert DispositionStep(left) == DispositionStep(right);
    assert StressStep(left) == StressStep(right);
    assert FailureStep(left) == FailureStep(right);
    assert FinanceStep(left) == FinanceStep(right);
    assert TelemetryStep(left) == TelemetryStep(right);
    assert PricingStep(left) == PricingStep(right);
    assert PkgFinStep(left) == PkgFinStep(right);
  }

  /** Ambient environments that agree on the seven variables give the same commands or the same failure. */
  lemma ReleaseGateNoninterference(ambient: Env, ambient': Env, a: Args, env: Env, env': Env)
    requires ArgsOk(a) && Built(ambient, a, env) && Built(ambient', a, env') && SameAmbient(ambient, ambient')
    ensures Assemble(env) == Assemble(env')
  {
    hide Assemble, Built, SameAmbient;
    BuiltReads(ambient, ambient', a, env, env');
    AssembleReads(env, env');
  }

  // ----- when assembly succeeds, and what it then runs -----

  lemma AbsolutePathNotBlank(path: AbsolutePath)
    ensures Strip(path) != ""
  {
    hide StripRight;
    assert StripLeft(path) == path;
    StripRightSplits(path);
  }

  lemma TrueIsTruthy()
    ensures Strip("true") == "true" && Truthy("true")
  {
    assert Trimmed("true");
    TrimmedStrip("true");
    assert Lower("true") == "true";
  }

  lemma EmptyIsNotSet(env: Env, v: Variable)
    requires v !in env
    ensures Value(env, v) == ""
  {
  }

  /** What the assembler reads back: the supplied value, nothing, or the ambient value. */
  function ReadBack(a: Args, ambient: Env, v: Variable): string
    requires ArgsOk(a)
  {
    match SettingOf(a, v)
    case Keep => Value(ambient, v)
    case Unset => ""
    case Set(text) => Strip(text)
  }

  lemma BuiltValue(ambient: Env, a: Args, env: Env, v: Variable)
    requires ArgsOk(a) && Built(ambient, a, env)
    ensures Value(env, v) == ReadBack(a, ambient, v)
  {
    hide SettingOf;
    assert Obeys(ambient, env, v, SettingOf(a, v));
    if v !in env {
      EmptyIsNotSet(env, v);
    }
  }

  lemma BuiltPaths(ambient: Env, a: Args, env: Env)
    requires ArgsOk(a) && Built(ambient, a, env)
    ensures Truthy(Value(env, RuntimeOnly))
    ensures Value(env, StressPath) == Strip(a.stress.path) != "" && Value(env, FailurePath) == Strip(a.failure.path) != ""
    ensures if a.finance.Some? then Value(env, FinancePath) == Strip(a.finance.value.path) != "" else Value(env, FinancePath) == ""
    ensures if a.telemetry.Some? then Value(env, TelemetryPath) == Strip(a.telemetry.value.path) != "" else Value(env, TelemetryPath) == ""
    ensures if a.pkgFin.Some? then Value(env, PkgFinPath) == Strip(a.pkgFin.value.path) != "" else Value(env, PkgFinPath) == ""
    ensures if a.pricing.Some? then Value(env, PricingPath) == Strip(a.pricing.value.path) != ""
            else Value(env, PricingPath) == "" && Value(env, PricingRequired) == ""
  {
    hide Strip, Truthy, Value, Built;
    TrueIsTruthy();
    BuiltValue(ambient, a, env, RuntimeOnly);
    BuiltValue(ambient, a, env, StressPath);
    BuiltValue(ambient, a, env, FailurePath);
    BuiltValue(ambient, a, env, FinancePath);
    BuiltValue(ambient, a, env, TelemetryPath);
    BuiltValue(ambient, a, env, PkgFinPath);
    BuiltValue(ambient, a, env, PricingPath);
    BuiltValue(ambient, a, env, PricingRequired);
    AbsolutePathNotBlank(a.stress.path);
    AbsolutePathNotBlank(a.failure.path);
    if a.finance.Some? { AbsolutePathNotBlank(a.finance.value.path); }
    if a.telemetry.Some? { AbsolutePathNotBlank(a.telemetry.value.path); }
    if a.pkgFin.Some? { AbsolutePathNotBlank(a.pkgFin.value.path); }
    if a.pricing.Some? { AbsolutePathNotBlank(a.pricing.value.path); }
  }

  /** The files and ambient paths without which no release gate runs. */
  predicate EvidenceSupplied(a: Args, ambient: Env) {
    && a.finance.Some? && a.telemetry.Some? && a.pkgFin.Some?
    && Value(ambient, KeyRotationPath) != "" && Value(ambient, DispositionPath) != ""
  }

  // The commands of a successful release gate, from the arguments and the seven ambient variables alone.

  function DrillCommand(ambient: Env): Command {
    Command(VerifyKeyRotation, [
      (DrillPath, Value(ambient, KeyRotationPath)),
      (MaxDrillAgeDays, Resolved(ambient, KeyRotationMaxAge))])
  }

  function RefreshCommand(a: Args, ambient: Env): Command
    requires ArgsOk(a) && EvidenceSupplied(a, ambient)
  {
    Command(VerifyMonthlyRefresh, [
      (FinanceGuardrailsPath, Strip(a.finance.value.path)),
      (TelemetrySnapshotPath, Strip(a.telemetry.value.path)),
      (PolicyDecisionsPath, Strip(a.pkgFin.value.path)),
      (MaxAgeDays, Resolved(ambient, RefreshMaxAge)),
      (MaxCaptureSpreadDays, Resolved(ambient, RefreshMaxSpread))])
  }

  function DispositionCommand(ambient: Env): Command {
    Command(VerifyDisposition, [
      (RegisterPath, Value(ambient, DispositionPath)),
      (MaxArtifactAgeDays, Resolved(ambient, DispositionMaxAge)),
      (MaxReviewWindowDays, Resolved(ambient, DispositionMaxReview))])
  }

  function AmbientCommands(a: Args, ambient: Env): seq<Command>
    requires ArgsOk(a) && EvidenceSupplied(a, ambient)
  {
    [DrillCommand(ambient), RefreshCommand(a, ambient), DispositionCommand(ambient)]
  }

  function AgeText(n: Number, v: Variable): string {
    OrDefault(Strip(n.text), v)
  }

  function SuppliedCommands(a: Args): seq<Command>
    requires ArgsOk(a) && a.finance.Some? && a.telemetry.Some? && a.pkgFin.Some?
  {
    [Command(VerifyStress, [
       (EvidencePath, Strip(a.stress.path)),
       (MinDurationSeconds, AgeText(a.minDuration, StressMinDuration)),
       (MinConcurrentUsers, AgeText(a.minUsers, StressMinUsers)),
       (RequiredDatabaseEngine, Strip(a.engine))] + OptionalAge(Strip(a.stressAge.text))),
     Command(VerifyFailureInjection, [(EvidencePath, Strip(a.failure.path))] + OptionalAge(Strip(a.failureAge.text))),
     Command(VerifyFinanceGuardrails, [
       (EvidencePath, Strip(a.finance.value.path)), (MaxArtifactAgeHours, AgeText(a.financeAge, FinanceMaxAge))]),
     Command(VerifyTelemetrySnapshot, [
       (SnapshotPath, Strip(a.telemetry.value.path)), (MaxArtifactAgeHours, AgeText(a.telemetryAge, TelemetryMaxAge))])]
    + (if a.pricing.Some? then
         [Command(VerifyPricingRegister, [
            (RegisterPath, Strip(a.pricing.value.path)), (MaxSourceAgeDays, AgeText(a.pricingAge, PricingMaxAge))])]
       else [])
    + [Command(VerifyPolicyDecisions, [
         (EvidencePath, Strip(a.pkgFin.value.path)), (MaxArtifactAgeHours, AgeText(a.pkgFinAge, PkgFinMaxAge))])]
  }

  lemma ResolvedNonBlank(env: Env, v: Variable)
    requires Value(env, v) != ""
    ensures PathResolves(env, v) && Resolved(env, v) == Value(env, v)
  {
  }

  lemma KeptResolved(ambient: Env, a: Args, env: Env, v: Variable)
    requires ArgsOk(a) && Built(ambient, a, env) && Ambient(v)
    ensures Value(env, v) == Value(ambient, v) && Resolved(env, v) == Resolved(ambient, v)
  {
    hide Strip, Value, DefaultFor, Built;
    BuiltValue(ambient, a, env, v);
  }

  lemma DrillStepMatches(ambient: Env, a: Args, env: Env)
    requires ArgsOk(a) && Built(ambient, a, env) && EvidenceSupplied(a, ambient)
    ensures KeyRotationStep(env) == Emit([DrillCommand(ambient)])
  {
    hide Value, Resolved, PathResolves, Built;
    KeptResolved(ambient, a, env, KeyRotationPath);
    KeptResolved(ambient, a, env, KeyRotationMaxAge);
    ResolvedNonBlank(env, KeyRotationPath);
  }

  lemma RefreshStepMatches(ambient: Env, a: Args, env: Env)
    requires ArgsOk(a) && Built(ambient, a, env) && EvidenceSupplied(a, ambient)
    ensures RefreshStep(env) == Emit([RefreshCommand(a, ambient)])
  {
    hide Value, Resolved, PathResolves, Built, Strip, Truthy;
    BuiltPaths(ambient, a, env);
    KeptResolved(ambient, a, env, RefreshMaxAge);
    KeptResolved(ambient, a, env, RefreshMaxSpread);
    ResolvedNonBlank(env, FinancePath);
    ResolvedNonBlank(env, TelemetryPath);
    ResolvedNonBlank(env, PkgFinPath);
  }

  lemma DispositionStepMatches(ambient: Env, a: Args, env: Env)
    requires ArgsOk(a) && Built(ambient, a, env) && EvidenceSupplied(a, ambient)
    ensures DispositionStep(env) == Emit([DispositionCommand(ambient)])
  {
    hide Value, Resolved, PathResolves, Built;
    KeptResolved(ambient, a, env, DispositionPath);
    KeptResolved(ambient, a, env, DispositionMaxAge);
    KeptResolved(ambient, a, env, DispositionMaxReview);
    ResolvedNonBlank(env, DispositionPath);
  }

  lemma SuppliedStressCommands(ambient: Env, a: Args, env: Env)
    requires ArgsOk(a) && Built(ambient, a, env) && EvidenceSupplied(a, ambient)
    ensures [StressCommand(env), FailureCommand(env)] == SuppliedCommands(a)[..2]
  {
    hide Strip, Value, DefaultFor, Built, OptionalAge;
    BuiltPaths(ambient, a, env);
    BuiltValue(ambient, a, env, StressMinDuration);
    BuiltValue(ambient, a, env, StressMinUsers);
    BuiltValue(ambient, a, env, StressMaxAge);
    BuiltValue(ambient, a, env, FailureMaxAge);
    BuiltValue(ambient, a, env, StressEngine);
    StripTrimmed(a.engine);
    TrimmedStrip(Strip(a.engine));
  }

  lemma SuppliedFinanceCommands(ambient: Env, a: Args, env: Env)
    requires ArgsOk(a) && Built(ambient, a, env) && EvidenceSupplied(a, ambient)
    ensures [FinanceCommand(env), TelemetryCommand(env)]
            + (if a.pricing.Some? then [PricingCommand(env)] else []) + [PkgFinCommand(env)] == SuppliedCommands(a)[2..]
  {
    hide Strip, Value, DefaultFor, Built, OptionalAge;
    BuiltPaths(ambient, a, env);
    BuiltValue(ambient, a, env, FinanceMaxAge);
    BuiltValue(ambient, a, env, TelemetryMaxAge);
    BuiltValue(ambient, a, env, PricingMaxAge);
    BuiltValue(ambient, a, env, PkgFinMaxAge);
  }

  lemma AssemblyOutcome(ambient: Env, a: Args, env: Env)
    requires ArgsOk(a) && Built(ambient, a, env)
    ensures Assemble(env).error.None? <==> EvidenceSupplied(a, ambient)
    ensures EvidenceSupplied(a, ambient) ==>
            Assemble(env).commands ==
            Assembly([], None).Then(KeyRotationStep(env)).Then(RefreshStep(env)).Then(DispositionStep(env)).commands
            + [StressCommand(env), FailureCommand(env)]
            + ([FinanceCommand(env), TelemetryCommand(env)]
               + (if a.pricing.Some? then [PricingCommand(env)] else []) + [PkgFinCommand(env)])
  {
    hide Strip, Value, Resolved, Truthy, Built, StressCommand, FailureCommand, FinanceCommand, TelemetryCommand, PricingCommand, PkgFinCommand;
    BuiltPaths(ambient, a, env);
    BuiltValue(ambient, a, env, KeyRotationPath);
    BuiltValue(ambient, a, env, DispositionPath);
    EmptyIsNotTruthy();
  }

  /**
    Assembly of a built environment succeeds exactly when the finance, telemetry and PKG/FIN
    files are supplied and the ambient key-rotation and disposition paths are not blank; it
    then runs exactly the commands that the arguments and the seven ambient variables name.
   */
  lemma ReleaseGateSucceeds(ambient: Env, a: Args, env: Env)
    requires ArgsOk(a) && Built(ambient, a, env)
    ensures Assemble(env).error.None? <==> EvidenceSupplied(a, ambient)
    ensures EvidenceSupplied(a, ambient) ==> Assemble(env).commands == AmbientCommands(a, ambient) + SuppliedCommands(a)
  {
    hide Assemble, KeyRotationStep, RefreshStep, DispositionStep, StressCommand, FailureCommand, FinanceCommand, TelemetryCommand,
         PricingCommand, PkgFinCommand, DrillCommand, RefreshCommand, DispositionCommand, Built, ArgsOk, Strip, OrDefault, OptionalAge;
    AssemblyOutcome(ambient, a, env);
    if EvidenceSupplied(a, ambient) {
      DrillStepMatches(ambient, a, env);
      RefreshStepMatches(ambient, a, env);
      DispositionStepMatches(ambient, a, env);
      SuppliedStressCommands(ambient, a, env);
      SuppliedFinanceCommands(ambient, a, env);
      var supplied := SuppliedCommands(a);
      assert supplied == supplied[..2] + supplied[2..];
    }
  }

  lemma EmptyIsNotTruthy()
    ensures !Truthy("")
  {
    assert |Lower("")| == 0;
  }
}
