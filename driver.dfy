/**
 * The pipeline driver `go` of main.py as the step-by-step program it is: it
 * sets two process environment variables, picks the active steps, then walks
 * its if-chain, launching stages through the stage runner and writing the
 * hand-off file, and stops at the first stage that fails.
 *
 * The process state it touches is an `Orchestrator`: the environment, the
 * runner calls made so far and the files on disk. `Go` is proved against the
 * value-level reading `Execute(Plan(...))` of module Dispatch, so every
 * property proved there holds of this program.
 */
module Driver {
  import opened Wrappers
  import opened StepSelection
  import opened ArtifactRefs
  import opened Dispatch
  import opened DispatchProperties

  class Orchestrator {
    /** The process environment (`os.environ`). */
    var env: map<string, string>
    /** Every `mlflow.run` call made, in order, with the environment it inherited. */
    var log: seq<Invocation>
    /** The files on disk the driver writes, by path. */
    var files: map<string, map<string, Value>>

    /** A process with the given environment and files, before any call. */
    constructor (env0: map<string, string>, files0: map<string, map<string, Value>>)
      ensures env == env0 && log == [] && files == files0
    {
      env := env0;
      log := [];
      files := files0;
    }

    /** `mlflow.run`: the call is made, and the runner's verdict is returned. */
    method Run(call: Invocation, runner: Invocation -> RunResult) returns (result: RunResult)
      modifies this`log
      ensures log == old(log) + [call]
      ensures result == runner(call)
    {
      log := log + [call];
      result := runner(call);
    }

    /**
     * `_run_basic_cleaning`: one run of the basic_cleaning component under
     * ROOT_DIR/src, with the six given parameters and the current environment.
     */
    method RunBasicCleaning(
      inputArtifact: string, outputArtifact: string, outputType: string, outputDescription: string,
      minPrice: Value, maxPrice: Value, rootDir: string, runner: Invocation -> RunResult)
      returns (result: RunResult)
      modifies this`log
      ensures var call := BasicCleaningCall(inputArtifact, outputArtifact, outputType, outputDescription,
                                            minPrice, maxPrice, rootDir, old(env));
              log == old(log) + [call] && result == runner(call)
    {
      var call := BasicCleaningCall(inputArtifact, outputArtifact, outputType, outputDescription,
                                    minPrice, maxPrice, rootDir, env);
      result := Run(call, runner);
    }

    /**
     * `_run_data_check`: one run of the data_check component under
     * ROOT_DIR/src, with the five given parameters and the current environment.
     */
    method RunDataCheck(
      csv: string, ref: string, klThreshold: Value, minPrice: Value, maxPrice: Value,
      rootDir: string, runner: Invocation -> RunResult)
      returns (result: RunResult)
      modifies this`log
      ensures var call := DataCheckCall(csv, ref, klThreshold, minPrice, maxPrice, rootDir, old(env));
              log == old(log) + [call] && result == runner(call)
    {
      var call := DataCheckCall(csv, ref, klThreshold, minPrice, maxPrice, rootDir, env);
      result := Run(call, runner);
    }

    /** `json.dump` into a file opened with "w+": the file holds exactly `contents` afterwards. */
    method WriteJson(path: string, contents: map<string, Value>)
      modifies this`files
      ensures files == old(files)[path := contents]
    {
      files := files[path := contents];
    }

    /** Lines 21-22 of `go`: the project and the run group go into the process environment. */
    method StartSession(main: MainConfig)
      modifies this`env
      ensures env == SessionEnv(old(env), main)
    {
      env := env[ProjectVar := main.projectName];
      env := env[GroupVar := main.experimentName];
    }

    /**
     * `go`: the environment gains the project and the run group, and then the
     * calls made, the files and the outcome are exactly those of executing the
     * plan of the active steps; calls made before are kept.
     */
    method Go(cfg: Config, host: Host, runner: Invocation -> RunResult) returns (outcome: Outcome)
      modifies this
      ensures env == SessionEnv(old(env), cfg.main)
      ensures var t := Execute(Plan(cfg, host, env, ActiveSteps(cfg.main.steps)), runner, old(files));
              log == old(log) + t.launched && files == t.files && outcome == t.outcome
    {
      StartSession(cfg.main);
      var active := ActiveSteps(cfg.main.steps);
      PlanBranchByBranch(cfg, host, env, active);
      outcome := RunActiveSteps(cfg, host, active, runner, Plan(cfg, host, env, active));
    }

    /**
     * Proof state between two branches of the if-chain: the run `goal` the
     * plan describes is what remains of it, `rest`, continued from the calls
     * made so far (`launched`, appended to the log after `log0`) and the
     * current files.
     */
    ghost predicate OnTrack(log0: seq<Invocation>, goal: Trace, launched: seq<Invocation>,
                            rest: seq<Action>, runner: Invocation -> RunResult)
      reads this
    {
      goal == Continue(Trace(launched, files, Completed), rest, runner) && log == log0 + launched
    }

    /** Proof state after a stage failed: the run is over and `goal` is exactly what happened. */
    ghost predicate Stopped(log0: seq<Invocation>, goal: Trace, launched: seq<Invocation>, outcome: Outcome)
      reads this
    {
      goal == Trace(launched, files, outcome) && log == log0 + launched
    }

    /** A runner call that the plan makes next: it is logged, and its verdict decides how the run goes on. */
    method LaunchNext(call: Invocation, runner: Invocation -> RunResult,
                      ghost log0: seq<Invocation>, ghost goal: Trace, ghost launched: seq<Invocation>, ghost rest: seq<Action>)
      returns (outcome: Outcome)
      modifies this`log
      requires OnTrack(log0, goal, launched, [Launch(call)] + rest, runner)
      ensures outcome.Completed? ==> OnTrack(log0, goal, launched + [call], rest, runner)
      ensures outcome.Failed? ==> Stopped(log0, goal, launched + [call], outcome)
    {
      var r := Run(call, runner);
      ContinueCall(launched, files, call, rest, runner);
      AppendOne(log0, launched, call);
      outcome := if r.Finished? then Completed else Failed(call, r.exitCode);
    }

    /** Lines 28-40: when download is active, get_data runs. */
    method DownloadBranch(cfg: Config, active: seq<string>, runner: Invocation -> RunResult,
                          ghost log0: seq<Invocation>, ghost goal: Trace, ghost launched: seq<Invocation>, ghost rest: seq<Action>)
      returns (outcome: Outcome, ghost after: seq<Invocation>)
      modifies this`log
      requires OnTrack(log0, goal, launched,
                       (if "download" in active then [Launch(DownloadCall(cfg, env))] else []) + rest, runner)
      ensures outcome.Completed? ==> OnTrack(log0, goal, after, rest, runner)
      ensures outcome.Failed? ==> Stopped(log0, goal, after, outcome)
    {
      outcome, after := Completed, launched;
      if "download" in active {
        var call := DownloadCall(cfg, env);
        outcome := LaunchNext(call, runner, log0, goal, launched, rest);
        after := launched + [call];
      } else {
        assert [] + rest == rest;
      }
    }

    /** Lines 42-50: when basic_cleaning is active, `_run_basic_cleaning` runs with the raw sample. */
    method CleaningBranch(cfg: Config, host: Host, active: seq<string>, runner: Invocation -> RunResult,
                          ghost log0: seq<Invocation>, ghost goal: Trace, ghost launched: seq<Invocation>, ghost rest: seq<Action>)
      returns (outcome: Outcome, ghost after: seq<Invocation>)
      modifies this`log
      requires OnTrack(log0, goal, launched,
                       (if "basic_cleaning" in active then [Launch(CleaningStageCall(cfg, host, env))] else []) + rest, runner)
      ensures outcome.Completed? ==> OnTrack(log0, goal, after, rest, runner)
      ensures outcome.Failed? ==> Stopped(log0, goal, after, outcome)
    {
      outcome, after := Completed, launched;
      if "basic_cleaning" in active {
        var call := CleaningStageCall(cfg, host, env);
        var r := RunBasicCleaning(
          SampleLatest, "clean_sample.csv", "clean_data", "Cleaned NYC Airbnb data",
          cfg.etl.minPrice, cfg.etl.maxPrice, host.rootDir, runner);
        ContinueCall(launched, files, call, rest, runner);
        AppendOne(log0, launched, call);
        outcome := if r.Finished? then Completed else Failed(call, r.exitCode);
        after := launched + [call];
      } else {
        assert [] + rest == rest;
      }
    }

    /** Lines 52-59: when data_check is active, `_run_data_check` compares the latest cleaned sample with the reference. */
    method CheckBranch(cfg: Config, host: Host, active: seq<string>, runner: Invocation -> RunResult,
                       ghost log0: seq<Invocation>, ghost goal: Trace, ghost launched: seq<Invocation>, ghost rest: seq<Action>)
      returns (outcome: Outcome, ghost after: seq<Invocation>)
      modifies this`log
      requires OnTrack(log0, goal, launched,
                       (if "data_check" in active then [Launch(CheckStageCall(cfg, host, env))] else []) + rest, runner)
      ensures outcome.Completed? ==> OnTrack(log0, goal, after, rest, runner)
      ensures outcome.Failed? ==> Stopped(log0, goal, after, outcome)
    {
      outcome, after := Completed, launched;
      if "data_check" in active {
        var call := CheckStageCall(cfg, host, env);
        var r := RunDataCheck(
          CleanSampleLatest, CleanSampleReference, cfg.dataCheck.klThreshold,
          cfg.etl.minPrice, cfg.etl.maxPrice, host.rootDir, runner);
        ContinueCall(launched, files, call, rest, runner);
        AppendOne(log0, launched, call);
        outcome := if r.Finished? then Completed else Failed(call, r.exitCode);
        after := launched + [call];
      } else {
        assert [] + rest == rest;
      }
    }

    /** Lines 61-72: when data_split is active, train_val_test_split runs on the latest cleaned sample. */
    method SplitBranch(cfg: Config, active: seq<string>, runner: Invocation -> RunResult,
                       ghost log0: seq<Invocation>, ghost goal: Trace, ghost launched: seq<Invocation>, ghost rest: seq<Action>)
      returns (outcome: Outcome, ghost after: seq<Invocation>)
      modifies this`log
      requires OnTrack(log0, goal, launched,
                       (if "data_split" in active then [Launch(DataSplitCall(cfg, env))] else []) + rest, runner)
      ensures outcome.Completed? ==> OnTrack(log0, goal, after, rest, runner)
      ensures outcome.Failed? ==> Stopped(log0, goal, after, outcome)
    {
      outcome, after := Completed, launched;
      if "data_split" in active {
        var call := DataSplitCall(cfg, env);
        outcome := LaunchNext(call, runner, log0, goal, launched, rest);
        after := launched + [call];
      } else {
        assert [] + rest == rest;
      }
    }

    /**
     * Lines 74-81: when train_random_forest is active, `modeling.random_forest`
     * is written to rf_config.json in the working directory (no stage runs);
     * test_regression_model does nothing.
     */
    method HandOffBranch(cfg: Config, host: Host, active: seq<string>, runner: Invocation -> RunResult,
                         ghost log0: seq<Invocation>, ghost goal: Trace, ghost launched: seq<Invocation>)
      modifies this`files
      requires OnTrack(log0, goal, launched,
                       (if "train_random_forest" in active then [RfConfigWrite(cfg, host)] else []) + [], runner)
      ensures Stopped(log0, goal, launched, Completed)
    {
      if "train_random_forest" in active {
        var path := RfConfigPath(host);
        ContinueWrite(launched, files, path, cfg.modeling.randomForest, [], runner);
        WriteJson(path, cfg.modeling.randomForest);
      } else {
        var none: seq<Action> := [];
        assert none + none == none;
      }
      FinishRun(launched, files, runner);
    }

    /**
     * The if-chain of `go` (inside the temporary directory): each branch whose
     * step is active runs, in the fixed order of the source, and the first
     * failing stage ends the run. The calls made, the files and the outcome
     * are exactly those of executing `plan`, the if-chain's plan read branch
     * by branch.
     */
    method RunActiveSteps(cfg: Config, host: Host, active: seq<string>, runner: Invocation -> RunResult,
                          ghost plan: seq<Action>)
      returns (outcome: Outcome)
      modifies this`log, this`files
      requires plan ==
               (if "download" in active then [Launch(DownloadCall(cfg, env))] else [])
               + ((if "basic_cleaning" in active then [Launch(CleaningStageCall(cfg, host, env))] else [])
               + ((if "data_check" in active then [Launch(CheckStageCall(cfg, host, env))] else [])
               + ((if "data_split" in active then [Launch(DataSplitCall(cfg, env))] else [])
               + ((if "train_random_forest" in active then [RfConfigWrite(cfg, host)] else []) + []))))
      ensures var t := Execute(plan, runner, old(files));
              log == old(log) + t.launched && files == t.files && outcome == t.outcome
    {
      ghost var log0 := log;
      ghost var goal := Execute(plan, runner, files);
      StartRun(plan, runner, files);
      assert log == log0 + [];
      ghost var launched;
      outcome, launched := RunEarlierSteps(cfg, host, active, runner, log0, goal, []);
    }

    /**
     * The branches up to basic_cleaning (lines 28-50) and then the later
     * ones; the run ends after them all or at the first stage that fails.
     */
    method RunEarlierSteps(cfg: Config, host: Host, active: seq<string>, runner: Invocation -> RunResult,
                           ghost log0: seq<Invocation>, ghost goal: Trace, ghost launched: seq<Invocation>)
      returns (outcome: Outcome, ghost after: seq<Invocation>)
      modifies this`log, this`files
      requires OnTrack(log0, goal, launched,
                       (if "download" in active then [Launch(DownloadCall(cfg, env))] else [])
                       + ((if "basic_cleaning" in active then [Launch(CleaningStageCall(cfg, host, env))] else [])
                       + ((if "data_check" in active then [Launch(CheckStageCall(cfg, host, env))] else [])
                       + ((if "data_split" in active then [Launch(DataSplitCall(cfg, env))] else [])
                       + ((if "train_random_forest" in active then [RfConfigWrite(cfg, host)] else []) + [])))), runner)
      ensures Stopped(log0, goal, after, outcome)
    {
      ghost var piece1 := if "basic_cleaning" in active then [Launch(CleaningStageCall(cfg, host, env))] else [];
      ghost var piece2 := if "data_check" in active then [Launch(CheckStageCall(cfg, host, env))] else [];
      ghost var piece3 := if "data_split" in active then [Launch(DataSplitCall(cfg, env))] else [];
      ghost var write := if "train_random_forest" in active then [RfConfigWrite(cfg, host)] else [];
      outcome, after := DownloadBranch(cfg, active, runner, log0, goal, launched, piece1 + (piece2 + (piece3 + (write + []))));
      if outcome.Failed? {
        return;
      }
      outcome, after := CleaningBranch(cfg, host, active, runner, log0, goal, after, piece2 + (piece3 + (write + [])));
      if outcome.Failed? {
        return;
      }
      outcome, after := RunLaterSteps(cfg, host, active, runner, log0, goal, after);
    }

    /**
     * The branches after basic_cleaning (lines 52-81): data_check, data_split
     * and the hand-off; the run ends after them or at the first of their
     * stages that fails.
     */
    method RunLaterSteps(cfg: Config, host: Host, active: seq<string>, runner: Invocation -> RunResult,
                         ghost log0: seq<Invocation>, ghost goal: Trace, ghost launched: seq<Invocation>)
      returns (outcome: Outcome, ghost after: seq<Invocation>)
      modifies this`log, this`files
      requires OnTrack(log0, goal, launched,
                       (if "data_check" in active then [Launch(CheckStageCall(cfg, host, env))] else [])
                       + ((if "data_split" in active then [Launch(DataSplitCall(cfg, env))] else [])
                       + ((if "train_random_forest" in active then [RfConfigWrite(cfg, host)] else []) + [])), runner)
      ensures Stopped(log0, goal, after, outcome)
    {
      ghost var piece3 := if "data_split" in active then [Launch(DataSplitCall(cfg, env))] else [];
      ghost var write := if "train_random_forest" in active then [RfConfigWrite(cfg, host)] else [];
      outcome, after := CheckBranch(cfg, host, active, runner, log0, goal, launched, piece3 + (write + []));
      if outcome.Failed? {
        return;
      }
      outcome, after := SplitBranch(cfg, active, runner, log0, goal, after, write + []);
      if outcome.Failed? {
        return;
      }
      HandOffBranch(cfg, host, active, runner, log0, goal, after);
    }
  }
}
