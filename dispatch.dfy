/**
 * What one run of the pipeline driver `go` (main.py) does, as values: the
 * configuration it reads, the stage-runner calls it builds, the fixed if-chain
 * that turns the active step list into a plan of actions, and the strictly
 * sequential execution of that plan, which ends at the first failing call.
 */
module Dispatch {
  import opened Wrappers
  import opened StepSelection
  import opened ArtifactRefs

  /** A configuration value, passed through to a stage without interpretation. */
  datatype Value = Str(s: string) | Int(i: int) | Real(r: real) | Bool(b: bool) | Null

  /** `config.main`. */
  datatype MainConfig = MainConfig(
    projectName: string,
    experimentName: string,
    steps: string,
    componentsRepository: string)

  /** `config.etl`. */
  datatype EtlConfig = EtlConfig(sample: Value, minPrice: Value, maxPrice: Value)

  /** `config.data_check`. */
  datatype DataCheckConfig = DataCheckConfig(klThreshold: Value)

  /** `config.modeling`. */
  datatype ModelingConfig = ModelingConfig(
    testSize: Value,
    randomSeed: Value,
    stratifyBy: Value,
    randomForest: map<string, Value>)

  /** The configuration tree, fixed for one run. */
  datatype Config = Config(
    main: MainConfig,
    etl: EtlConfig,
    dataCheck: DataCheckConfig,
    modeling: ModelingConfig)

  /** Where the driver lives (ROOT_DIR) and the working directory `rf_config.json` lands in. */
  datatype Host = Host(rootDir: string, workDir: string)

  /**
   * One `mlflow.run` call: project location, entry point, optional version,
   * environment manager, parameters, and the process environment the stage
   * inherits.
   */
  datatype Invocation = Invocation(
    uri: string,
    entryPoint: string,
    version: Option<string>,
    envManager: string,
    parameters: map<string, Value>,
    env: map<string, string>)

  /** What the stage runner reports: an opaque run id, or a failed run. */
  datatype RunResult = Finished(runId: string) | ExecutionError(exitCode: int)

  /** One effect of the driver: a runner call or the JSON hand-off file. */
  datatype Action = Launch(call: Invocation) | WriteJson(path: string, contents: map<string, Value>)

  /** How a run of `go` ends: normally, or by the exception of a failed stage. */
  datatype Outcome = Completed | Failed(stage: Invocation, exitCode: int)

  /** The calls made, the files afterwards and the outcome of executing a plan. */
  datatype Trace = Trace(launched: seq<Invocation>, files: map<string, map<string, Value>>, outcome: Outcome)

  const ProjectVar: string := "WANDB_PROJECT"
  const GroupVar: string := "WANDB_RUN_GROUP"

  /** The environment after `go` sets the project and the run group. */
  function SessionEnv(env: map<string, string>, main: MainConfig): map<string, string>
  {
    env[ProjectVar := main.projectName][GroupVar := main.experimentName]
  }

  /** `os.path.join(dir, part)` for a relative `part`. */
  function PathJoin(dir: string, part: string): string
  {
    if dir == [] || dir[|dir| - 1] == '/' then dir + part else dir + "/" + part
  }

  /** The download call (main.py, branch "download"). */
  function DownloadCall(cfg: Config, env: map<string, string>): Invocation
  {
    Invocation(
      cfg.main.componentsRepository + "/get_data", "main", Some("main"), "conda",
      map[
        "sample" := cfg.etl.sample,
        "artifact_name" := Str("sample.csv"),
        "artifact_type" := Str("raw_data"),
        "artifact_description" := Str("Raw file as downloaded")],
      env)
  }

  /** The call `_run_basic_cleaning` makes. */
  function BasicCleaningCall(
    inputArtifact: string, outputArtifact: string, outputType: string, outputDescription: string,
    minPrice: Value, maxPrice: Value, rootDir: string, env: map<string, string>): Invocation
  {
    Invocation(
      PathJoin(PathJoin(rootDir, "src"), "basic_cleaning"), "main", None, "conda",
      map[
        "input_artifact" := Str(inputArtifact),
        "output_artifact" := Str(outputArtifact),
        "output_type" := Str(outputType),
        "output_description" := Str(outputDescription),
        "min_price" := minPrice,
        "max_price" := maxPrice],
      env)
  }

  /** The call `_run_data_check` makes. */
  function DataCheckCall(
    csv: string, ref: string, klThreshold: Value, minPrice: Value, maxPrice: Value,
    rootDir: string, env: map<string, string>): Invocation
  {
    Invocation(
      PathJoin(PathJoin(rootDir, "src"), "data_check"), "main", None, "conda",
      map[
        "csv" := Str(csv),
        "ref" := Str(ref),
        "kl_threshold" := klThreshold,
        "min_price" := minPrice,
        "max_price" := maxPrice],
      env)
  }

  /** The basic_cleaning branch's call, with the arguments `go` passes. */
  function CleaningStageCall(cfg: Config, host: Host, env: map<string, string>): Invocation
  {
    BasicCleaningCall(
      SampleLatest, "clean_sample.csv", "clean_data", "Cleaned NYC Airbnb data",
      cfg.etl.minPrice, cfg.etl.maxPrice, host.rootDir, env)
  }

  /** The data_check branch's call, with the arguments `go` passes. */
  function CheckStageCall(cfg: Config, host: Host, env: map<string, string>): Invocation
  {
    DataCheckCall(
      CleanSampleLatest, CleanSampleReference, cfg.dataCheck.klThreshold,
      cfg.etl.minPrice, cfg.etl.maxPrice, host.rootDir, env)
  }

  /** The data_split call (main.py, branch "data_split"). */
  function DataSplitCall(cfg: Config, env: map<string, string>): Invocation
  {
    Invocation(
      cfg.main.componentsRepository + "/train_val_test_split", "main", None, "conda",
      map[
        "input" := Str(CleanSampleLatest),
        "test_size" := cfg.modeling.testSize,
        "random_seed" := cfg.modeling.randomSeed,
        "stratify_by" := cfg.modeling.stratifyBy],
      env)
  }

  /** `os.path.abspath("rf_config.json")`, the hand-off file of train_random_forest. */
  function RfConfigPath(host: Host): string
  {
    PathJoin(host.workDir, "rf_config.json")
  }

  /** The hand-off file write of the train_random_forest branch. */
  function RfConfigWrite(cfg: Config, host: Host): Action
  {
    WriteJson(RfConfigPath(host), cfg.modeling.randomForest)
  }

  /**
   * The if-chain of `go`: one guarded branch per known step name, in the
   * fixed order of the source; each adds at most one action. The last branch
   * ("test_regression_model") does nothing.
   */
  function Plan(cfg: Config, host: Host, env: map<string, string>, active: seq<string>): seq<Action>
  {
    (if "download" in active then [Launch(DownloadCall(cfg, env))] else [])
    + (if "basic_cleaning" in active then [Launch(CleaningStageCall(cfg, host, env))] else [])
    + (if "data_check" in active then [Launch(CheckStageCall(cfg, host, env))] else [])
    + (if "data_split" in active then [Launch(DataSplitCall(cfg, env))] else [])
    + (if "train_random_forest" in active then [RfConfigWrite(cfg, host)] else [])
    + (if "test_regression_model" in active then [] else [])
  }

  /** The branches of `go`'s if-chain, each named by the step it tests for. */
  datatype Stage = Download | BasicCleaning | DataCheck | DataSplit | TrainRandomForest | TestRegressionModel

  /** The step name a branch tests for. */
  function StageName(st: Stage): string
  {
    match st
    case Download => "download"
    case BasicCleaning => "basic_cleaning"
    case DataCheck => "data_check"
    case DataSplit => "data_split"
    case TrainRandomForest => "train_random_forest"
    case TestRegressionModel => "test_regression_model"
  }

  /** The branches in the order the if-chain tests them. */
  const BranchOrder: seq<Stage> :=
    [Download, BasicCleaning, DataCheck, DataSplit, TrainRandomForest, TestRegressionModel]

  /** What a branch does when its step is active. */
  function Effect(st: Stage, cfg: Config, host: Host, env: map<string, string>): seq<Action>
  {
    match st
    case Download => [Launch(DownloadCall(cfg, env))]
    case BasicCleaning => [Launch(CleaningStageCall(cfg, host, env))]
    case DataCheck => [Launch(CheckStageCall(cfg, host, env))]
    case DataSplit => [Launch(DataSplitCall(cfg, env))]
    case TrainRandomForest => [RfConfigWrite(cfg, host)]
    case TestRegressionModel => []
  }

  /** What a branch contributes for a given active list: its effect if its step is active, else nothing. */
  function Gated(st: Stage, cfg: Config, host: Host, env: map<string, string>, active: seq<string>): seq<Action>
  {
    if StageName(st) in active then Effect(st, cfg, host, env) else []
  }

  /**
   * Reference reading of dispatch: walk the branches in `order` and keep the
   * effect of each one whose step name is active. Activation filters; it
   * never reorders.
   */
  function Dispatched(order: seq<Stage>, cfg: Config, host: Host, env: map<string, string>, active: seq<string>): seq<Action>
  {
    if order == [] then []
    else Gated(order[0], cfg, host, env, active) + Dispatched(order[1..], cfg, host, env, active)
  }

  /** The runner calls of a plan, in order. */
  function Launches(plan: seq<Action>): (calls: seq<Invocation>)
    ensures |calls| <= |plan|
  {
    if plan == [] then []
    else (if plan[0].Launch? then [plan[0].call] else []) + Launches(plan[1..])
  }

  /** The files after every write of a plan, later writes replacing earlier ones. */
  function ApplyWrites(files: map<string, map<string, Value>>, plan: seq<Action>): map<string, map<string, Value>>
    decreases |plan|
  {
    if plan == [] then files
    else ApplyWrites(if plan[0].WriteJson? then files[plan[0].path := plan[0].contents] else files, plan[1..])
  }

  /**
   * Runs a plan one action at a time. A runner call that fails raises, so
   * nothing after it happens: the calls made are a prefix of the plan's
   * calls, a failed run ends with the call that failed, and a completed run
   * made every call of the plan and applied every write.
   */
  function Execute(plan: seq<Action>, runner: Invocation -> RunResult, files: map<string, map<string, Value>>): (t: Trace)
    ensures t.launched <= Launches(plan)
    ensures t.outcome.Completed? ==> t.launched == Launches(plan) && t.files == ApplyWrites(files, plan)
    ensures t.outcome.Failed? ==>
              && |t.launched| > 0
              && t.outcome.stage == t.launched[|t.launched| - 1]
              && runner(t.outcome.stage) == ExecutionError(t.outcome.exitCode)
    decreases |plan|
  {
    if plan == [] then Trace([], files, Completed)
    else
      match plan[0]
      case WriteJson(path, contents) =>
        Execute(plan[1..], runner, files[path := contents])
      case Launch(call) =>
        assert Launches(plan) == [call] + Launches(plan[1..]);
        match runner(call)
        case ExecutionError(code) => Trace([call], files, Failed(call, code))
        case Finished(_) =>
          var rest := Execute(plan[1..], runner, files);
          Trace([call] + rest.launched, rest.files, rest.outcome)
  }

  /** The trace of running `rest` after a run that ended with trace `t`. */
  function Continue(t: Trace, rest: seq<Action>, runner: Invocation -> RunResult): Trace
  {
    if t.outcome.Failed? then t
    else
      var u := Execute(rest, runner, t.files);
      Trace(t.launched + u.launched, u.files, u.outcome)
  }

  /** The process exit status: 0 when `go` returns, non-zero when an exception escapes it. */
  function ExitStatus(outcome: Outcome): (code: int)
    ensures code == 0 <==> outcome.Completed?
  {
    if outcome.Completed? then 0 else 1
  }
}
