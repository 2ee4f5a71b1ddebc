# Pipeline driver of the NYC Airbnb ML pipeline, in Dafny

This project models `go`, the driver of an MLflow/W&B pipeline (main.py), and proves properties of it. `go` does four things:

- It puts the W&B project name and run group into the process environment.
- It turns the `main.steps` directive into a list of active step names. The value `"all"` selects the canonical list `_steps`. Any other value is split at every comma.
- It walks a fixed if-chain in branch order. Each active branch launches one stage through `mlflow.run`, with a parameter map built from the configuration and from fixed `entity/project/artifact:qualifier` references.
- The train_random_forest branch launches nothing. It writes `modeling.random_forest` to `rf_config.json` in the working directory.

There is no exception handling, so the first stage that fails ends the run.

Layout:

- `steps.dfy` (module `StepSelection`): `_steps`, Python's `str.split(",")` and the active step list. Split is proved to be the inverse of join, and tokens are proved to be kept verbatim.
- `artifacts.dfy` (modules `Wrappers`, `ArtifactRefs`): the `path:qualifier` artifact references the driver hands to stages, and how such a reference reads back into its path and version.
- `dispatch.dfy` (module `Dispatch`): the configuration, the stage calls, the if-chain as a plan of actions (`Plan`), and the sequential execution of a plan against a stage runner (`Execute`).
- `dispatch_properties.dfy` (module `DispatchProperties`): what that plan and its execution guarantee. This includes the exact location and parameters of each stage call. It also proves that each reference a stage reads parses back into a version of an artifact whose name is the one the earlier stage's call gives its output.
- `driver.dfy` (module `Driver`): `go` as the step-by-step program it is. It is a class `Orchestrator` holding the environment, the log of runner calls and the files on disk. Its methods are proved to do exactly what `Execute(Plan(...))` describes.

The stage runner `mlflow.run` is a parameter `runner: Invocation -> RunResult`. A call either finishes with an opaque run id or fails with an exit code. Each `Invocation` records the environment the stage process inherits, so the environment a stage sees is part of what is proved.

The model follows main.py as written:

- An unknown step token is ignored. No configuration error exists.
- Tokens are not trimmed, so `" data_check"` selects nothing.
- `rf_config.json` is written to the working directory, not to the temporary directory. Nothing ever removes it.

## Model

| member | source | states |
|---|---|---|
| StepSelection.Split | main.py:25 | `str.split` on one character: there is one more piece than there are separators, and no piece holds the separator |
| StepSelection.JoinSplit | main.py:25 | joining the pieces of a split with the separator gives back the directive: splitting loses and invents nothing |
| StepSelection.SplitJoin | main.py:25 | splitting a join of separator-free pieces gives back the pieces, so Split is the inverse of Join |
| StepSelection.ActiveSteps | main.py:24-25 | `"all"` selects exactly the five names of `_steps` (lines 9-15) in order; any other directive gives a non-empty list of comma-free tokens whose comma join is the directive |
| StepSelection.ActiveStepsOfTokens | main.py:25 | for an explicit directive, the active list is the one token list that joins back to it |
| StepSelection.DirectiveOrderKept | main.py:25 | `"data_check,download"` keeps its own token order in the active list |
| StepSelection.SingleTokenKept | main.py:25 | `"download"` selects exactly `["download"]` |
| StepSelection.RepeatedTokenKept | main.py:25 | repeated and misspelt tokens stay in the list: nothing is deduplicated or rejected |
| StepSelection.LeadingSpaceKept | main.py:25 | `" data_check"` is a token of its own and is not the step name `data_check` |
| StepSelection.SpaceAfterCommaKept | main.py:25 | in `"download, data_check"` the space stays in the second token, so data_check is not selected |
| ArtifactRefs.ParseRender | main.py:54-55 | rendering a reference and parsing it back gives the reference |
| ArtifactRefs.BaseNameOf | main.py:54-55 | the name of `dir/name` is `name` |
| Dispatch.Execute | main.py:27-81 | the calls made are a prefix of the plan's calls; a completed run made all of them and applied every write; a failed run ends with the call that failed, which the runner reported as failed |
| Dispatch.ExitStatus | main.py:114-115 | the process exits with status 0 exactly when `go` returns normally |
| DispatchProperties.ExecuteAppend | main.py:27-81 | running `a + b` is running `a` and then, unless `a` failed, running `b` |
| DispatchProperties.CallsBeforeLastSucceeded | main.py:27-81 | every call before the last call made succeeded |
| DispatchProperties.CompletedIffAllCallsSucceed | main.py:27-81 | a run completes if and only if every runner call of its plan succeeds |
| DispatchProperties.NoCallAfterFailure | main.py:27-81 | once the k-th call fails the run fails, and at most k + 1 calls are made |
| DispatchProperties.FailureEndsRun | main.py:27-81 | nothing planned after a failed part of the run is executed |
| DispatchProperties.FilesNeverRemoved | main.py:74-78 | no run deletes a file that existed before it |
| DispatchProperties.RunIdsIgnored | main.py:29-72 | two runners that agree on which calls fail, and with which exit code, give the same run: run ids are never used |
| DispatchProperties.RunWithoutWritesKeepsFiles | main.py:28-72 | a plan made only of runner calls leaves the files unchanged however it ends |
| DispatchProperties.PlanIsBranchOrderFilter | main.py:28-81 | the plan is the fixed branch order, filtered by the active list: activation never reorders, and each branch contributes at most once |
| DispatchProperties.CanonicalFollowsBranchOrder | main.py:9-15 | the canonical list names the first five branches in branch order; test_regression_model is not in it and has no effect |
| DispatchProperties.PlanOnlySeesStageNames | main.py:28-81 | two active lists that select the same branch names give the same plan: token order, repetition and unknown tokens do not matter |
| DispatchProperties.PlanShape | main.py:28-81 | the plan is the selected runner calls in branch order, followed by the hand-off write when train_random_forest is active |
| DispatchProperties.PlanForAll | main.py:9-15 | with `"all"` the plan is download, basic_cleaning, data_check and data_split, then the rf_config.json write |
| DispatchProperties.RunnerCallsForAll | main.py:74-81 | with `"all"` there are exactly four runner calls, in canonical order: train_random_forest makes none |
| DispatchProperties.PlanForDownload | main.py:28-40 | with `steps = "download"` the plan is one call: get_data under the components repository, entry point `main`, version `main`, conda, and exactly the four parameters sample, artifact_name, artifact_type and artifact_description |
| DispatchProperties.PlanForReversedDirective | main.py:28-59 | `"data_check,download"` calls download first, then data_check: branch order, not token order |
| DispatchProperties.PlanForRepeatedAndUnknownTokens | main.py:28-81 | `"download,downlaod,download"` gives exactly one download call, and the misspelt token causes no call and no error |
| DispatchProperties.PlanForUntrimmedToken | main.py:25 | `" data_check"` selects no branch, so the plan is empty |
| DispatchProperties.HandOffFile | main.py:74-78 | a completed run with train_random_forest active leaves `modeling.random_forest` at the rf_config.json path; otherwise no file changes |
| DispatchProperties.CompletedRun | main.py:27-81 | a run whose every call succeeds makes every call of its plan and applies every write |
| DispatchProperties.AllStagesRunWhenEachSucceeds | main.py:27-81 | with `"all"` and four successful calls, the run completes after those four calls in canonical order and writes the hand-off file |
| DispatchProperties.FailedCleaningStopsPipeline | main.py:42-72 | a failing basic_cleaning call ends the run there: data_check and data_split are not called and no hand-off file is written |
| DispatchProperties.SelectedCallsCarryEnv | main.py:28-72 | every runner call of the plan carries the environment the plan was built with |
| DispatchProperties.ComponentUnderSrc | main.py:85 | joining ROOT_DIR, "src" and a component is joining ROOT_DIR and "src/component"; the location starts with ROOT_DIR |
| DispatchProperties.BasicCleaningCallShape | main.py:83-97 | the call runs ROOT_DIR/src/basic_cleaning, entry point main, no version, conda, the current environment, with exactly the six parameters, each the argument of the same name |
| DispatchProperties.DataCheckCallShape | main.py:99-112 | the call runs ROOT_DIR/src/data_check, entry point main, no version, conda, the current environment, with exactly the five parameters, each the argument of the same name |
| DispatchProperties.DataSplitCallShape | main.py:61-72 | the call runs train_val_test_split under the components repository, entry point main, no version (unlike download), conda, with exactly four parameters: `input` is the latest cleaned sample, and test_size, random_seed and stratify_by from `modeling` |
| DispatchProperties.RawSampleNamed | main.py:29-40 | every version of the raw sample is the path RawProject/⟨download's artifact_name⟩, whose base name is that artifact_name |
| DispatchProperties.CleaningReadsRawSample | main.py:42-50 | basic_cleaning's input_artifact parses as the "latest" version of the raw sample |
| DispatchProperties.CleanSampleNamed | main.py:42-50 | every version of the cleaned sample is the path CleanProject/⟨basic_cleaning's output_artifact⟩, whose base name is that output_artifact |
| DispatchProperties.CheckReadsCleanSample | main.py:52-59 | data_check's `csv` parses as the "latest" and its `ref` as the "reference" version of the cleaned sample |
| DispatchProperties.SplitReadsCleanSample | main.py:61-72 | data_split's `input` parses as the "latest" version of the cleaned sample |
| DispatchProperties.SampleProjectsDiffer | main.py:44-67 | the cleaned sample is read from another entity/project than the raw sample |
| DispatchProperties.HandOffPathInWorkDir | main.py:75 | the hand-off path starts with the working directory and its base name is rf_config.json |
| DispatchProperties.PathJoinShape | main.py:85 | `os.path.join` gives `dir + part` when the directory is empty or ends in `/`, and `dir + "/" + part` otherwise; the directory is a prefix and the part a suffix |
| DispatchProperties.SessionEnvSetsBoth | main.py:21-22 | WANDB_PROJECT holds the project name and WANDB_RUN_GROUP holds the experiment name; every other entry is kept |
| DispatchProperties.EveryStageSeesSessionEnv | main.py:21-72 | every stage `go` launches inherits both W&B entries, however the run ends |
| Driver.Orchestrator.Run | main.py:29-40 | one `mlflow.run` call is appended to the log, and the runner's verdict is returned |
| Driver.Orchestrator.RunBasicCleaning | main.py:83-97 | logs exactly one basic_cleaning call under ROOT_DIR/src, with the six given parameters and the current environment, and returns the runner's verdict |
| Driver.Orchestrator.RunDataCheck | main.py:99-112 | logs exactly one data_check call under ROOT_DIR/src, with the five given parameters and the current environment, and returns the runner's verdict |
| Driver.Orchestrator.WriteJson | main.py:76-77 | afterwards the file holds exactly the written mapping; no other file changes |
| Driver.Orchestrator.StartSession | main.py:21-22 | the environment becomes the session environment |
| Driver.Orchestrator.Go | main.py:20-81 | the environment gains both W&B entries before any stage runs; then the calls logged, the files and the outcome are exactly those of executing the plan of the active steps |
| Driver.Orchestrator.LaunchNext | main.py:29-40 | a planned runner call is logged; on success the run goes on with the rest of the plan, and on failure it ends there |
| Driver.Orchestrator.DownloadBranch | main.py:28-40 | the download branch makes its call only when download is active, and keeps the run on track with the plan |
| Driver.Orchestrator.CleaningBranch | main.py:42-50 | the basic_cleaning branch runs `_run_basic_cleaning` with the raw sample only when basic_cleaning is active, and keeps the run on track |
| Driver.Orchestrator.CheckBranch | main.py:52-59 | the data_check branch runs `_run_data_check` with the latest and the reference cleaned sample only when data_check is active, and keeps the run on track |
| Driver.Orchestrator.SplitBranch | main.py:61-72 | the data_split branch makes its call only when data_split is active, and keeps the run on track |
| Driver.Orchestrator.HandOffBranch | main.py:74-81 | the hand-off write happens only when train_random_forest is active; test_regression_model does nothing, and the run completes as planned |
| Driver.Orchestrator.RunActiveSteps | main.py:27-81 | the if-chain's calls, files and outcome are exactly those of executing the plan, read branch by branch |
| Driver.Orchestrator.RunEarlierSteps | main.py:28-50 | the download and basic_cleaning branches, then the later ones, end exactly where the plan's run ends |
| Driver.Orchestrator.RunLaterSteps | main.py:52-81 | the data_check, data_split and hand-off branches end exactly where the plan's run ends |


The functions and the constant that build the plan carry no contract of their own; the lemmas above state what each one is:

- `Dispatch.Plan`: `PlanIsBranchOrderFilter`, `PlanShape` and `PlanOnlySeesStageNames`.
- `Dispatch.DownloadCall`: `PlanForDownload` and `RawSampleNamed`.
- `Dispatch.CleaningStageCall`: `BasicCleaningCallShape`, `CleaningReadsRawSample` and `CleanSampleNamed`.
- `Dispatch.CheckStageCall`: `DataCheckCallShape` and `CheckReadsCleanSample`.
- `Dispatch.DataSplitCall`: `DataSplitCallShape` and `SplitReadsCleanSample`.
- `Dispatch.RfConfigPath`: `HandOffPathInWorkDir`.
- `Dispatch.RfConfigWrite`: `HandOffFile`.
- `Dispatch.SessionEnv`: `SessionEnvSetsBoth` and `EveryStageSeesSessionEnv`.
- `Dispatch.PathJoin`: `PathJoinShape` and `ComponentUnderSrc`.
- `StepSelection.Canonical`: `ActiveSteps`, `CanonicalFollowsBranchOrder` and `PlanForAll`.
- `ArtifactRefs.Render`, `RawSample` and `CleanSample`: `ParseRender`, the two `...Named` lemmas and the three `...Reads...` lemmas.

## Left out

- test_run.py is not part of this model. It does W&B and MLflow I/O, pandas and sklearn metrics, and argument parsing.
- What `mlflow.run` does: conda environments, fetching remote repositories and launching processes. A call is an oracle that is fixed for one run and says whether the call finished or failed. Run ids are opaque, and none is ever used.
- Hydra configuration loading is left out. The configuration is a total, immutable record, so missing keys and values of the wrong type are not modelled. Configuration values are passed through without interpretation, and floats are `real`.
- `tempfile.TemporaryDirectory` is left out. Its directory is never used by `go`.
- `os.path.abspath` and `ROOT_DIR` resolution are left out. The working directory and ROOT_DIR are given strings, and `os.path.join` is modelled only for relative parts.
- JSON serialisation is left out: writing `rf_config.json` stores the mapping itself.
- The `__main__` guard and Hydra's decorator are left out. The process exit status is modelled only as `ExitStatus` of the outcome.
- Concurrency is left out: `go` is single-threaded.
- RawSampleNamed: the entity/project prefixes are fixed strings in main.py and are not tied to the configuration. basic_cleaning reads the raw sample from the nyc_airbnb project, and data_check and data_split read the cleaned sample from another project. Neither prefix is `main.project_name`, the WANDB_PROJECT the stages run under. Whether a stage's output really lands at the path the next stage reads depends on W&B and is not modelled.
- CleanSampleNamed: the same namespace gap holds for the cleaned sample. Its project is fixed in main.py, and SampleProjectsDiffer proves it differs from the raw sample's project.
- Driver.Orchestrator.WriteJson: the hand-off write is assumed to succeed. `open(..., "w+")` and `json.dump` can raise in main.py:76-77, for example in a directory that cannot be written or for a value JSON cannot serialise. Such a failure would end `go` with an exception after every stage call succeeded. `Outcome` has no case for it.
- Dispatch.RfConfigWrite: the same assumption applies; the write never fails.
- DispatchProperties.HandOffFile: it holds only because the write never fails.
- Dispatch.ExitStatus: status 0 on every completed run relies on the hand-off write never failing.
