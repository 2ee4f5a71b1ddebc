/**
 * What the dispatch of `go` guarantees: which stages run, in which order,
 * with which parameters, what the hand-off file holds, what every stage sees
 * of the environment, and what happens after a stage fails.
 */
module DispatchProperties {
  import opened Wrappers
  import opened StepSelection
  import opened ArtifactRefs
  import opened Dispatch

  // ---------------------------------------------------------------------------
  // Sequential execution
  // ---------------------------------------------------------------------------

  /** Running `a + b` is running `a` and then, unless `a` failed, running `b`. */
  lemma {:induction false} ExecuteAppend(a: seq<Action>, b: seq<Action>, runner: Invocation -> RunResult, files: map<string, map<string, Value>>)
    ensures Execute(a + b, runner, files) == Continue(Execute(a, runner, files), b, runner)
    decreases |a|
  {
    if a == [] {
      assert a + b == b;
    } else {
      assert (a + b)[0] == a[0] && (a + b)[1..] == a[1..] + b;
      match a[0]
      case WriteJson(path, contents) =>
        ExecuteAppend(a[1..], b, runner, files[path := contents]);
      case Launch(call) =>
        if runner(call).Finished? {
          ExecuteAppend(a[1..], b, runner, files);
          LaunchThenContinue(call, Execute(a[1..], runner, files), b, runner);
        }
    }
  }

  /** Prepending a successful call to a trace commutes with continuing it. */
  lemma LaunchThenContinue(call: Invocation, e: Trace, b: seq<Action>, runner: Invocation -> RunResult)
    ensures var c := Continue(e, b, runner);
            Continue(Trace([call] + e.launched, e.files, e.outcome), b, runner) == Trace([call] + c.launched, c.files, c.outcome)
  {
    if !e.outcome.Failed? {
      var u := Execute(b, runner, e.files);
      assert [call] + (e.launched + u.launched) == ([call] + e.launched) + u.launched;
    }
  }

  /** Every call before the last one made succeeded: a failure stops the run on the spot. */
  lemma {:induction false} CallsBeforeLastSucceeded(plan: seq<Action>, runner: Invocation -> RunResult, files: map<string, map<string, Value>>)
    ensures forall i :: 0 <= i < |Execute(plan, runner, files).launched| - 1 ==>
              runner(Execute(plan, runner, files).launched[i]).Finished?
    decreases |plan|
  {
    if plan != [] {
      var t := Execute(plan, runner, files);
      match plan[0]
      case WriteJson(path, contents) =>
        assert t == Execute(plan[1..], runner, files[path := contents]);
        CallsBeforeLastSucceeded(plan[1..], runner, files[path := contents]);
      case Launch(call) =>
        if runner(call).Finished? {
          var r := Execute(plan[1..], runner, files);
          CallsBeforeLastSucceeded(plan[1..], runner, files);
          assert t.launched == [call] + r.launched;
          forall i | 0 <= i < |t.launched| - 1
            ensures runner(t.launched[i]).Finished?
          {
            if i > 0 {
              assert t.launched[i] == r.launched[i - 1];
            }
          }
        } else {
          assert |t.launched| == 1;
        }
    }
  }

  /** A run completes exactly when every runner call of its plan succeeds. */
  lemma {:induction false} CompletedIffAllCallsSucceed(plan: seq<Action>, runner: Invocation -> RunResult, files: map<string, map<string, Value>>)
    ensures Execute(plan, runner, files).outcome.Completed? <==>
              forall c :: c in Launches(plan) ==> runner(c).Finished?
    decreases |plan|
  {
    if plan != [] {
      match plan[0]
      case WriteJson(path, contents) =>
        assert Launches(plan) == Launches(plan[1..]);
        CompletedIffAllCallsSucceed(plan[1..], runner, files[path := contents]);
      case Launch(call) =>
        assert Launches(plan) == [call] + Launches(plan[1..]);
        CompletedIffAllCallsSucceed(plan[1..], runner, files);
    }
  }

  /**
   * Once the k-th call of a plan fails, the run fails and no later call is
   * made: at most the first k + 1 calls happen.
   */
  lemma NoCallAfterFailure(plan: seq<Action>, runner: Invocation -> RunResult, files: map<string, map<string, Value>>, k: nat)
    requires k < |Launches(plan)| && runner(Launches(plan)[k]).ExecutionError?
    ensures Execute(plan, runner, files).outcome.Failed?
    ensures |Execute(plan, runner, files).launched| <= k + 1
  {
    var t := Execute(plan, runner, files);
    CompletedIffAllCallsSucceed(plan, runner, files);
    assert Launches(plan)[k] in Launches(plan);
    CallsBeforeLastSucceeded(plan, runner, files);
  }

  /** The driver never deletes a file: whatever existed before the run still exists after it. */
  lemma {:induction false} FilesNeverRemoved(plan: seq<Action>, runner: Invocation -> RunResult, files: map<string, map<string, Value>>)
    ensures files.Keys <= Execute(plan, runner, files).files.Keys
    decreases |plan|
  {
    if plan != [] {
      match plan[0]
      case WriteJson(path, contents) =>
        FilesNeverRemoved(plan[1..], runner, files[path := contents]);
      case Launch(call) =>
        FilesNeverRemoved(plan[1..], runner, files);
    }
  }

  /** Two runners that agree on which calls fail, and how, differ only in run ids. */
  ghost predicate SameVerdicts(r1: Invocation -> RunResult, r2: Invocation -> RunResult)
  {
    forall c :: r1(c).Finished? == r2(c).Finished? && (r1(c).ExecutionError? ==> r1(c) == r2(c))
  }

  /** Run ids are never looked at: the run depends only on which calls succeed. */
  lemma {:induction false} RunIdsIgnored(plan: seq<Action>, r1: Invocation -> RunResult, r2: Invocation -> RunResult, files: map<string, map<string, Value>>)
    requires SameVerdicts(r1, r2)
    ensures Execute(plan, r1, files) == Execute(plan, r2, files)
    decreases |plan|
  {
    if plan != [] {
      match plan[0]
      case WriteJson(path, contents) =>
        RunIdsIgnored(plan[1..], r1, r2, files[path := contents]);
      case Launch(call) =>
        RunIdsIgnored(plan[1..], r1, r2, files);
    }
  }

  /** The calls of `a + b` are those of `a`, then those of `b`. */
  lemma {:induction false} LaunchesAppend(a: seq<Action>, b: seq<Action>)
    ensures Launches(a + b) == Launches(a) + Launches(b)
    decreases |a|
  {
    if a == [] {
      assert a + b == b;
    } else {
      assert (a + b)[0] == a[0] && (a + b)[1..] == a[1..] + b;
      LaunchesAppend(a[1..], b);
    }
  }

  /** A run of a plan without writes, however it ends, leaves the files as they were. */
  lemma {:induction false} RunWithoutWritesKeepsFiles(plan: seq<Action>, runner: Invocation -> RunResult, files: map<string, map<string, Value>>)
    requires forall i :: 0 <= i < |plan| ==> plan[i].Launch?
    ensures Execute(plan, runner, files).files == files
    decreases |plan|
  {
    if plan != [] {
      RunWithoutWritesKeepsFiles(plan[1..], runner, files);
    }
  }

  /** A run that has failed stays failed: nothing appended to its plan runs. */
  lemma FailureEndsRun(done: seq<Action>, rest: seq<Action>, runner: Invocation -> RunResult, files: map<string, map<string, Value>>)
    requires Execute(done, runner, files).outcome.Failed?
    ensures Execute(done + rest, runner, files) == Execute(done, runner, files)
  {
    ExecuteAppend(done, rest, runner, files);
  }

  /** A run from the start is a continuation of the empty run. */
  lemma StartRun(plan: seq<Action>, runner: Invocation -> RunResult, files: map<string, map<string, Value>>)
    ensures Execute(plan, runner, files) == Continue(Trace([], files, Completed), plan, runner)
  {
    assert [] + Execute(plan, runner, files).launched == Execute(plan, runner, files).launched;
  }

  /**
   * Continuing a completed run with a runner call: the call is made; if it
   * succeeds the run goes on, and if it fails the run ends there with the
   * failure.
   */
  lemma ContinueCall(launched: seq<Invocation>, now: map<string, map<string, Value>>, c: Invocation,
                     rest: seq<Action>, runner: Invocation -> RunResult)
    ensures Continue(Trace(launched, now, Completed), [Launch(c)] + rest, runner) ==
              if runner(c).Finished? then Continue(Trace(launched + [c], now, Completed), rest, runner)
              else Trace(launched + [c], now, Failed(c, runner(c).exitCode))
  {
    var plan := [Launch(c)] + rest;
    assert plan[0] == Launch(c) && plan[1..] == rest;
    if runner(c).Finished? {
      var u := Execute(rest, runner, now);
      assert launched + ([c] + u.launched) == (launched + [c]) + u.launched;
    }
  }

  /** Continuing a completed run with a write: the file is written and the run goes on. */
  lemma ContinueWrite(launched: seq<Invocation>, now: map<string, map<string, Value>>, path: string,
                      contents: map<string, Value>, rest: seq<Action>, runner: Invocation -> RunResult)
    ensures Continue(Trace(launched, now, Completed), [WriteJson(path, contents)] + rest, runner) ==
              Continue(Trace(launched, now[path := contents], Completed), rest, runner)
  {
    var plan := [WriteJson(path, contents)] + rest;
    assert plan[0] == WriteJson(path, contents) && plan[1..] == rest;
  }

  /** A completed run with nothing left to do is over. */
  lemma FinishRun(launched: seq<Invocation>, now: map<string, map<string, Value>>, runner: Invocation -> RunResult)
    ensures Continue(Trace(launched, now, Completed), [], runner) == Trace(launched, now, Completed)
  {
    assert launched + [] == launched;
  }

  /** Appending to a log one element at a time. */
  lemma AppendOne<T>(log: seq<T>, more: seq<T>, x: T)
    ensures (log + more) + [x] == log + (more + [x])
  {
  }

  /** The if-chain's six pieces, regrouped to the right. */
  lemma RegroupSix<T>(b0: seq<T>, b1: seq<T>, b2: seq<T>, b3: seq<T>, w: seq<T>, z: seq<T>)
    ensures b0 + b1 + b2 + b3 + w + z == b0 + (b1 + (b2 + (b3 + (w + z))))
  {
  }

  // ---------------------------------------------------------------------------
  // The plan of `go`
  // ---------------------------------------------------------------------------

  /**
   * The if-chain is the branch order filtered by the active list: activation
   * selects branches and never reorders them, and each branch, hence each
   * stage, contributes at most once.
   */
  lemma PlanIsBranchOrderFilter(cfg: Config, host: Host, env: map<string, string>, active: seq<string>)
    ensures Plan(cfg, host, env, active) == Dispatched(BranchOrder, cfg, host, env, active)
  {
    DispatchedBranchOrder(cfg, host, env, active);
    assert Plan(cfg, host, env, active) ==
      Gated(Download, cfg, host, env, active) + Gated(BasicCleaning, cfg, host, env, active)
      + Gated(DataCheck, cfg, host, env, active) + Gated(DataSplit, cfg, host, env, active)
      + Gated(TrainRandomForest, cfg, host, env, active) + [];
    Regroup(Gated(Download, cfg, host, env, active), Gated(BasicCleaning, cfg, host, env, active),
      Gated(DataCheck, cfg, host, env, active), Gated(DataSplit, cfg, host, env, active),
      Gated(TrainRandomForest, cfg, host, env, active));
  }

  /**
   * The if-chain read branch by branch: each branch's contribution comes
   * before everything the later branches contribute.
   */
  lemma PlanBranchByBranch(cfg: Config, host: Host, env: map<string, string>, active: seq<string>)
    ensures Plan(cfg, host, env, active) ==
            (if "download" in active then [Launch(DownloadCall(cfg, env))] else [])
            + ((if "basic_cleaning" in active then [Launch(CleaningStageCall(cfg, host, env))] else [])
            + ((if "data_check" in active then [Launch(CheckStageCall(cfg, host, env))] else [])
            + ((if "data_split" in active then [Launch(DataSplitCall(cfg, env))] else [])
            + ((if "train_random_forest" in active then [RfConfigWrite(cfg, host)] else []) + []))))
  {
    RegroupSix(if "download" in active then [Launch(DownloadCall(cfg, env))] else [],
      if "basic_cleaning" in active then [Launch(CleaningStageCall(cfg, host, env))] else [],
      if "data_check" in active then [Launch(CheckStageCall(cfg, host, env))] else [],
      if "data_split" in active then [Launch(DataSplitCall(cfg, env))] else [],
      if "train_random_forest" in active then [RfConfigWrite(cfg, host)] else [], []);
  }

  /** The reference dispatch over the branch order, one branch at a time. */
  lemma DispatchedBranchOrder(cfg: Config, host: Host, env: map<string, string>, active: seq<string>)
    ensures Dispatched(BranchOrder, cfg, host, env, active) ==
      Gated(Download, cfg, host, env, active) + (Gated(BasicCleaning, cfg, host, env, active)
      + (Gated(DataCheck, cfg, host, env, active) + (Gated(DataSplit, cfg, host, env, active)
      + Gated(TrainRandomForest, cfg, host, env, active))))
  {
    var s5 := [TestRegressionModel];
    var s4 := [TrainRandomForest] + s5;
    var s3 := [DataSplit] + s4;
    var s2 := [DataCheck] + s3;
    var s1 := [BasicCleaning] + s2;
    assert [Download] + s1 == BranchOrder;
    DispatchedCons(TestRegressionModel, [], cfg, host, env, active);
    DispatchedCons(TrainRandomForest, s5, cfg, host, env, active);
    DispatchedCons(DataSplit, s4, cfg, host, env, active);
    DispatchedCons(DataCheck, s3, cfg, host, env, active);
    DispatchedCons(BasicCleaning, s2, cfg, host, env, active);
    DispatchedCons(Download, s1, cfg, host, env, active);
  }

  /** One step of the reference dispatch. */
  lemma DispatchedCons(st: Stage, rest: seq<Stage>, cfg: Config, host: Host, env: map<string, string>, active: seq<string>)
    ensures Dispatched([st] + rest, cfg, host, env, active)
         == Gated(st, cfg, host, env, active) + Dispatched(rest, cfg, host, env, active)
  {
    assert ([st] + rest)[0] == st && ([st] + rest)[1..] == rest;
  }

  /** Concatenation of five pieces, regrouped to the right. */
  lemma Regroup<T>(a: seq<T>, b: seq<T>, c: seq<T>, d: seq<T>, e: seq<T>)
    ensures a + b + c + d + e + [] == a + (b + (c + (d + e)))
  {
    assert a + b + c + d + e + [] == a + b + c + d + e;
  }

  /** The canonical list names the first five branches, in branch order; the sixth is not in it. */
  lemma CanonicalFollowsBranchOrder(cfg: Config, host: Host, env: map<string, string>)
    ensures |Canonical| == 5 && |BranchOrder| == 6
    ensures forall i :: 0 <= i < 5 ==> Canonical[i] == StageName(BranchOrder[i])
    ensures BranchOrder[5] == TestRegressionModel && StageName(TestRegressionModel) !in Canonical
    ensures Effect(TestRegressionModel, cfg, host, env) == []
  {
  }

  /**
   * Only which stage names are active matters: token order, repeated tokens
   * and tokens naming no branch change nothing.
   */
  lemma PlanOnlySeesStageNames(cfg: Config, host: Host, env: map<string, string>, a1: seq<string>, a2: seq<string>)
    requires forall st :: StageName(st) in a1 <==> StageName(st) in a2
    ensures Plan(cfg, host, env, a1) == Plan(cfg, host, env, a2)
  {
    PlanIsBranchOrderFilter(cfg, host, env, a1);
    PlanIsBranchOrderFilter(cfg, host, env, a2);
    DispatchedBranchOrder(cfg, host, env, a1);
    DispatchedBranchOrder(cfg, host, env, a2);
    assert forall st :: Gated(st, cfg, host, env, a1) == Gated(st, cfg, host, env, a2);
  }

  /** The plan holds only runner calls. */
  ghost predicate CallsOnly(plan: seq<Action>)
  {
    forall i :: 0 <= i < |plan| ==> plan[i].Launch?
  }

  lemma CallsOnlyAppend(a: seq<Action>, b: seq<Action>)
    requires CallsOnly(a) && CallsOnly(b)
    ensures CallsOnly(a + b)
  {
    assert forall i :: |a| <= i < |a + b| ==> (a + b)[i] == b[i - |a|];
  }

  /** The first four branches of the if-chain: the ones that call the runner. */
  ghost function CallBranches(cfg: Config, host: Host, env: map<string, string>, active: seq<string>): seq<Action>
  {
    (if "download" in active then [Launch(DownloadCall(cfg, env))] else [])
    + (if "basic_cleaning" in active then [Launch(CleaningStageCall(cfg, host, env))] else [])
    + (if "data_check" in active then [Launch(CheckStageCall(cfg, host, env))] else [])
    + (if "data_split" in active then [Launch(DataSplitCall(cfg, env))] else [])
  }

  /** The train_random_forest branch: the hand-off write, or nothing. */
  ghost function HandOffWrite(cfg: Config, host: Host, active: seq<string>): seq<Action>
  {
    if "train_random_forest" in active then [RfConfigWrite(cfg, host)] else []
  }

  /** The runner calls the active list selects, in branch order. */
  ghost function SelectedCalls(cfg: Config, host: Host, env: map<string, string>, active: seq<string>): seq<Invocation>
  {
    (if "download" in active then [DownloadCall(cfg, env)] else [])
    + (if "basic_cleaning" in active then [CleaningStageCall(cfg, host, env)] else [])
    + (if "data_check" in active then [CheckStageCall(cfg, host, env)] else [])
    + (if "data_split" in active then [DataSplitCall(cfg, env)] else [])
  }

  /** One optional runner call: the shape of each of the first four branches. */
  lemma OptionalCall(g: bool, c: Invocation)
    ensures CallsOnly(if g then [Launch(c)] else [])
    ensures Launches(if g then [Launch(c)] else []) == (if g then [c] else [])
  {
    if g {
      assert Launches([Launch(c)]) == [c] + Launches([]);
    }
  }

  /** Four optional runner calls in a row, then an optional write. */
  lemma OptionalCallsThenWrite(g0: bool, c0: Invocation, g1: bool, c1: Invocation,
                               g2: bool, c2: Invocation, g3: bool, c3: Invocation, g4: bool, w: Action)
    requires w.WriteJson?
    ensures var calls := (if g0 then [Launch(c0)] else []) + (if g1 then [Launch(c1)] else [])
                         + (if g2 then [Launch(c2)] else []) + (if g3 then [Launch(c3)] else []);
            && CallsOnly(calls)
            && Launches(calls) == (if g0 then [c0] else []) + (if g1 then [c1] else [])
                                  + (if g2 then [c2] else []) + (if g3 then [c3] else [])
            && Launches(calls + (if g4 then [w] else [])) == Launches(calls)
  {
    var b0, b1, b2, b3 := (if g0 then [Launch(c0)] else []), (if g1 then [Launch(c1)] else []),
                          (if g2 then [Launch(c2)] else []), (if g3 then [Launch(c3)] else []);
    OptionalCall(g0, c0);
    OptionalCall(g1, c1);
    OptionalCall(g2, c2);
    OptionalCall(g3, c3);
    CallsOnlyAppend(b0, b1);
    CallsOnlyAppend(b0 + b1, b2);
    CallsOnlyAppend(b0 + b1 + b2, b3);
    LaunchesAppend(b0, b1);
    LaunchesAppend(b0 + b1, b2);
    LaunchesAppend(b0 + b1 + b2, b3);
    var wr := if g4 then [w] else [];
    LaunchesAppend(b0 + b1 + b2 + b3, wr);
    if g4 {
      assert Launches(wr) == [] + Launches([]);
    }
  }

  /**
   * The plan is the selected runner calls, in branch order, followed by the
   * hand-off write when train_random_forest is active: train_random_forest
   * makes no runner call and test_regression_model does nothing.
   */
  lemma PlanShape(cfg: Config, host: Host, env: map<string, string>, active: seq<string>)
    ensures Plan(cfg, host, env, active) == CallBranches(cfg, host, env, active) + HandOffWrite(cfg, host, active)
    ensures CallsOnly(CallBranches(cfg, host, env, active))
    ensures Launches(CallBranches(cfg, host, env, active)) == SelectedCalls(cfg, host, env, active)
    ensures Launches(Plan(cfg, host, env, active)) == SelectedCalls(cfg, host, env, active)
  {
    assert Plan(cfg, host, env, active) == CallBranches(cfg, host, env, active) + HandOffWrite(cfg, host, active) + [];
    OptionalCallsThenWrite(
      "download" in active, DownloadCall(cfg, env),
      "basic_cleaning" in active, CleaningStageCall(cfg, host, env),
      "data_check" in active, CheckStageCall(cfg, host, env),
      "data_split" in active, DataSplitCall(cfg, env),
      "train_random_forest" in active, RfConfigWrite(cfg, host));
  }

  /** Every canonical name is a step name the if-chain tests for. */
  lemma CanonicalGates()
    ensures && "download" in Canonical && "basic_cleaning" in Canonical && "data_check" in Canonical
            && "data_split" in Canonical && "train_random_forest" in Canonical
  {
  }

  /** Five actions in a row. */
  lemma FiveInARow<T>(a: T, b: T, c: T, d: T, e: T)
    ensures [a] + [b] + [c] + [d] + [e] + [] == [a, b, c, d, e]
  {
  }

  /**
   * With "all", the plan is the four runner calls in canonical order, then
   * the hand-off write: train_random_forest only writes its configuration.
   */
  lemma PlanForAll(cfg: Config, host: Host, env: map<string, string>)
    ensures Plan(cfg, host, env, ActiveSteps(AllDirective)) ==
              [Launch(DownloadCall(cfg, env)), Launch(CleaningStageCall(cfg, host, env)),
               Launch(CheckStageCall(cfg, host, env)), Launch(DataSplitCall(cfg, env)),
               RfConfigWrite(cfg, host)]
  {
    CanonicalGates();
    FiveInARow(Launch(DownloadCall(cfg, env)), Launch(CleaningStageCall(cfg, host, env)),
      Launch(CheckStageCall(cfg, host, env)), Launch(DataSplitCall(cfg, env)),
      RfConfigWrite(cfg, host));
  }

  /** With "all" there are exactly four runner calls, in canonical order. */
  lemma RunnerCallsForAll(cfg: Config, host: Host, env: map<string, string>)
    ensures Launches(Plan(cfg, host, env, ActiveSteps(AllDirective))) ==
              [DownloadCall(cfg, env), CleaningStageCall(cfg, host, env),
               CheckStageCall(cfg, host, env), DataSplitCall(cfg, env)]
  {
    CanonicalGates();
    PlanShape(cfg, host, env, Canonical);
    FourInARow(DownloadCall(cfg, env), CleaningStageCall(cfg, host, env),
      CheckStageCall(cfg, host, env), DataSplitCall(cfg, env));
  }

  /** Four calls in a row. */
  lemma FourInARow<T>(a: T, b: T, c: T, d: T)
    ensures [a] + [b] + [c] + [d] == [a, b, c, d]
  {
  }

  /** When download is the only branch whose step is active, the plan is the download call alone. */
  lemma PlanOfDownloadOnly(cfg: Config, host: Host, env: map<string, string>, active: seq<string>)
    requires "download" in active
    requires && "basic_cleaning" !in active && "data_check" !in active
             && "data_split" !in active && "train_random_forest" !in active
    ensures Plan(cfg, host, env, active) == [Launch(DownloadCall(cfg, env))]
  {
  }

  /** The step names the two download-only directives activate. */
  lemma DownloadOnlyGates(active: seq<string>)
    requires active == ["download"] || active == ["download", "downlaod", "download"]
    ensures "download" in active
    ensures && "basic_cleaning" !in active && "data_check" !in active
            && "data_split" !in active && "train_random_forest" !in active
  {
  }

  /**
   * With steps = "download" there is exactly one runner call: get_data under
   * the components repository, at version "main", with the sample from the
   * configuration and the fixed artifact name, type and description.
   */
  lemma PlanForDownload(cfg: Config, host: Host, env: map<string, string>, active: seq<string>)
    requires cfg.main.steps == "download" && active == ActiveSteps(cfg.main.steps)
    ensures Plan(cfg, host, env, active) == [Launch(Invocation(
              cfg.main.componentsRepository + "/get_data", "main", Some("main"), "conda",
              map[
                "sample" := cfg.etl.sample,
                "artifact_name" := Str("sample.csv"),
                "artifact_type" := Str("raw_data"),
                "artifact_description" := Str("Raw file as downloaded")],
              env))]
  {
    SingleTokenKept(cfg.main.steps);
    DownloadOnlyGates(active);
    PlanOfDownloadOnly(cfg, host, env, active);
  }

  /**
   * When download and data_check are the only branches whose steps are
   * active, the plan is the download call, then the data_check call.
   */
  lemma PlanOfDownloadAndCheck(cfg: Config, host: Host, env: map<string, string>, active: seq<string>)
    requires "download" in active && "data_check" in active
    requires "basic_cleaning" !in active && "data_split" !in active && "train_random_forest" !in active
    ensures Plan(cfg, host, env, active) == [Launch(DownloadCall(cfg, env)), Launch(CheckStageCall(cfg, host, env))]
  {
  }

  /** The step names "data_check,download" activates. */
  lemma ReversedGates(active: seq<string>)
    requires active == ["data_check", "download"]
    ensures "download" in active && "data_check" in active
    ensures "basic_cleaning" !in active && "data_split" !in active && "train_random_forest" !in active
  {
  }

  /** "data_check,download" runs download first, then data_check: branch order, not token order. */
  lemma PlanForReversedDirective(cfg: Config, host: Host, env: map<string, string>, active: seq<string>)
    requires cfg.main.steps == "data_check,download" && active == ActiveSteps(cfg.main.steps)
    ensures Plan(cfg, host, env, active) ==
              [Launch(DownloadCall(cfg, env)), Launch(CheckStageCall(cfg, host, env))]
  {
    DirectiveOrderKept(cfg.main.steps);
    ReversedGates(active);
    PlanOfDownloadAndCheck(cfg, host, env, active);
  }

  /** A repeated token dispatches its stage once, and a misspelt token dispatches nothing and raises nothing. */
  lemma PlanForRepeatedAndUnknownTokens(cfg: Config, host: Host, env: map<string, string>, active: seq<string>)
    requires cfg.main.steps == "download,downlaod,download" && active == ActiveSteps(cfg.main.steps)
    ensures Plan(cfg, host, env, active) == [Launch(DownloadCall(cfg, env))]
  {
    RepeatedTokenKept(cfg.main.steps);
    DownloadOnlyGates(active);
    PlanOfDownloadOnly(cfg, host, env, active);
  }

  /** When no branch's step is active, the plan is empty. */
  lemma PlanOfNoStage(cfg: Config, host: Host, env: map<string, string>, active: seq<string>)
    requires && "download" !in active && "basic_cleaning" !in active && "data_check" !in active
             && "data_split" !in active && "train_random_forest" !in active
    ensures Plan(cfg, host, env, active) == []
  {
  }

  /** The step names " data_check" activates: none. */
  lemma UntrimmedGates(active: seq<string>)
    requires active == [" data_check"]
    ensures && "download" !in active && "basic_cleaning" !in active && "data_check" !in active
            && "data_split" !in active && "train_random_forest" !in active
  {
  }

  /** " data_check" (with the space) selects no stage at all: the run does nothing and raises nothing. */
  lemma PlanForUntrimmedToken(cfg: Config, host: Host, env: map<string, string>, active: seq<string>)
    requires cfg.main.steps == " data_check" && active == ActiveSteps(cfg.main.steps)
    ensures Plan(cfg, host, env, active) == []
  {
    LeadingSpaceKept(cfg.main.steps);
    UntrimmedGates(active);
    PlanOfNoStage(cfg, host, env, active);
  }

  // ---------------------------------------------------------------------------
  // Running the plan of `go`
  // ---------------------------------------------------------------------------

  /** A run of a plan that is runner calls followed by at most one write. */
  lemma CallsThenWrite(calls: seq<Action>, w: seq<Action>, runner: Invocation -> RunResult, files: map<string, map<string, Value>>)
    requires CallsOnly(calls)
    requires |w| <= 1 && forall i :: 0 <= i < |w| ==> w[i].WriteJson?
    ensures var t := Execute(calls + w, runner, files);
            t.files == if t.outcome.Completed? && |w| == 1 then files[w[0].path := w[0].contents] else files
  {
    ExecuteAppend(calls, w, runner, files);
    RunWithoutWritesKeepsFiles(calls, runner, files);
    var t0 := Execute(calls, runner, files);
    if t0.outcome.Completed? && |w| == 1 {
      assert Execute(w, runner, files) == Execute(w[1..], runner, files[w[0].path := w[0].contents]);
    }
  }

  /**
   * The hand-off file: a run that completes with train_random_forest active
   * leaves `modeling.random_forest` at the rf_config.json path of the working
   * directory; a run that fails, or has train_random_forest inactive, writes
   * nothing.
   */
  lemma HandOffFile(cfg: Config, host: Host, env: map<string, string>, active: seq<string>,
                    runner: Invocation -> RunResult, files: map<string, map<string, Value>>)
    ensures var t := Execute(Plan(cfg, host, env, active), runner, files);
            t.files == if t.outcome.Completed? && "train_random_forest" in active
                       then files[RfConfigPath(host) := cfg.modeling.randomForest]
                       else files
  {
    PlanShape(cfg, host, env, active);
    CallsThenWrite(CallBranches(cfg, host, env, active), HandOffWrite(cfg, host, active), runner, files);
  }

  /** A run whose every call succeeds makes every call of its plan and applies every write. */
  lemma CompletedRun(plan: seq<Action>, runner: Invocation -> RunResult, files: map<string, map<string, Value>>)
    requires forall c :: c in Launches(plan) ==> runner(c).Finished?
    ensures Execute(plan, runner, files) == Trace(Launches(plan), ApplyWrites(files, plan), Completed)
  {
    CompletedIffAllCallsSucceed(plan, runner, files);
  }

  /**
   * When each of the four runner calls of "all" succeeds, the run completes
   * having made those four calls in canonical order and written the
   * hand-off file.
   */
  lemma AllStagesRunWhenEachSucceeds(cfg: Config, host: Host, env: map<string, string>,
                                     runner: Invocation -> RunResult, files: map<string, map<string, Value>>)
    requires && runner(DownloadCall(cfg, env)).Finished? && runner(CleaningStageCall(cfg, host, env)).Finished?
             && runner(CheckStageCall(cfg, host, env)).Finished? && runner(DataSplitCall(cfg, env)).Finished?
    ensures Execute(Plan(cfg, host, env, ActiveSteps(AllDirective)), runner, files) ==
              Trace([DownloadCall(cfg, env), CleaningStageCall(cfg, host, env),
                     CheckStageCall(cfg, host, env), DataSplitCall(cfg, env)],
                    files[RfConfigPath(host) := cfg.modeling.randomForest], Completed)
  {
    var active := ActiveSteps(AllDirective);
    var plan := Plan(cfg, host, env, active);
    var calls := [DownloadCall(cfg, env), CleaningStageCall(cfg, host, env),
                  CheckStageCall(cfg, host, env), DataSplitCall(cfg, env)];
    assert Launches(plan) == calls by {
      RunnerCallsForAll(cfg, host, env);
    }
    CompletedRun(plan, runner, files);
    assert "train_random_forest" in active by {
      CanonicalGates();
    }
    HandOffFile(cfg, host, env, active, runner, files);
  }

  /** A call that fails after an optional successful call ends the run there, whatever follows. */
  lemma FailureAfterOptionalCall(g: bool, c0: Invocation, c1: Invocation, b2: seq<Action>, b3: seq<Action>,
                                 w: seq<Action>, z: seq<Action>, runner: Invocation -> RunResult,
                                 files: map<string, map<string, Value>>, code: int)
    requires g ==> runner(c0).Finished?
    requires runner(c1) == ExecutionError(code)
    ensures Execute((if g then [Launch(c0)] else []) + [Launch(c1)] + b2 + b3 + w + z, runner, files) ==
              Trace((if g then [c0] else []) + [c1], files, Failed(c1, code))
  {
    var b0 := if g then [Launch(c0)] else [];
    var b1 := [Launch(c1)];
    var rest := b2 + b3 + w + z;
    assert b0 + b1 + b2 + b3 + w + z == (b0 + b1) + rest;
    ExecuteAppend(b0 + b1, rest, runner, files);
    ExecuteAppend(b0, b1, runner, files);
    assert Execute(b1, runner, files) == Trace([c1], files, Failed(c1, code));
  }

  /**
   * A failed basic_cleaning run stops the pipeline: when basic_cleaning is
   * active and its call fails (after a successful download, if download is
   * active), the run fails at that call, neither data_check nor data_split
   * is called, and no hand-off file is written.
   */
  lemma FailedCleaningStopsPipeline(cfg: Config, host: Host, env: map<string, string>, active: seq<string>,
                                    runner: Invocation -> RunResult, files: map<string, map<string, Value>>, code: int)
    requires "basic_cleaning" in active
    requires "download" in active ==> runner(DownloadCall(cfg, env)).Finished?
    requires runner(CleaningStageCall(cfg, host, env)) == ExecutionError(code)
    ensures Execute(Plan(cfg, host, env, active), runner, files) ==
              Trace((if "download" in active then [DownloadCall(cfg, env)] else []) + [CleaningStageCall(cfg, host, env)],
                    files, Failed(CleaningStageCall(cfg, host, env), code))
  {
    FailureAfterOptionalCall("download" in active, DownloadCall(cfg, env), CleaningStageCall(cfg, host, env),
      if "data_check" in active then [Launch(CheckStageCall(cfg, host, env))] else [],
      if "data_split" in active then [Launch(DataSplitCall(cfg, env))] else [],
      HandOffWrite(cfg, host, active), [], runner, files, code);
  }

  /** Every stage call is built with the environment it is given. */
  lemma StageCallsCarryEnv(cfg: Config, host: Host, env: map<string, string>)
    ensures && DownloadCall(cfg, env).env == env && CleaningStageCall(cfg, host, env).env == env
            && CheckStageCall(cfg, host, env).env == env && DataSplitCall(cfg, env).env == env
  {
  }

  /** Optional calls that all carry one environment. */
  lemma OptionalCallsShareEnv(g0: bool, c0: Invocation, g1: bool, c1: Invocation,
                              g2: bool, c2: Invocation, g3: bool, c3: Invocation, env: map<string, string>)
    requires c0.env == env && c1.env == env && c2.env == env && c3.env == env
    ensures var calls := (if g0 then [c0] else []) + (if g1 then [c1] else [])
                         + (if g2 then [c2] else []) + (if g3 then [c3] else []);
            forall c :: c in calls ==> c.env == env
  {
  }

  /** Each runner call of the plan carries the environment the plan was built with. */
  lemma SelectedCallsCarryEnv(cfg: Config, host: Host, env: map<string, string>, active: seq<string>)
    ensures forall c :: c in Launches(Plan(cfg, host, env, active)) ==> c.env == env
  {
    PlanShape(cfg, host, env, active);
    StageCallsCarryEnv(cfg, host, env);
    OptionalCallsShareEnv(
      "download" in active, DownloadCall(cfg, env),
      "basic_cleaning" in active, CleaningStageCall(cfg, host, env),
      "data_check" in active, CheckStageCall(cfg, host, env),
      "data_split" in active, DataSplitCall(cfg, env), env);
  }
  // ---------------------------------------------------------------------------
  // Stage calls and the artifacts they hand on
  // ---------------------------------------------------------------------------

  /**
   * A component under ROOT_DIR/src: joining "src" and then the component is
   * joining "src/" followed by the component, so the location starts with
   * ROOT_DIR and ends with the component's name.
   */
  lemma ComponentUnderSrc(rootDir: string, component: string)
    ensures PathJoin(PathJoin(rootDir, "src"), component) == PathJoin(rootDir, "src/" + component)
    ensures rootDir <= PathJoin(rootDir, "src/" + component)
  {
    var d := PathJoin(rootDir, "src");
    assert d[|d| - 1] == 'c';
    if rootDir == [] || rootDir[|rootDir| - 1] == '/' {
      assert d + "/" + component == rootDir + ("src/" + component);
    } else {
      assert d + "/" + component == rootDir + "/" + ("src/" + component);
    }
  }

  /**
   * `_run_basic_cleaning` runs the basic_cleaning component at
   * ROOT_DIR/src/basic_cleaning, entry point main, no version, under conda,
   * with exactly its six parameters, each the argument of the same name.
   */
  lemma BasicCleaningCallShape(
    inputArtifact: string, outputArtifact: string, outputType: string, outputDescription: string,
    minPrice: Value, maxPrice: Value, rootDir: string, env: map<string, string>)
    ensures var c := BasicCleaningCall(inputArtifact, outputArtifact, outputType, outputDescription,
                                       minPrice, maxPrice, rootDir, env);
            && c.uri == PathJoin(rootDir, "src/" + "basic_cleaning") && rootDir <= c.uri
            && c.entryPoint == "main" && c.version.None? && c.envManager == "conda" && c.env == env
            && c.parameters.Keys == {"input_artifact", "output_artifact", "output_type",
                                     "output_description", "min_price", "max_price"}
            && c.parameters["input_artifact"] == Str(inputArtifact)
            && c.parameters["output_artifact"] == Str(outputArtifact)
            && c.parameters["output_type"] == Str(outputType)
            && c.parameters["output_description"] == Str(outputDescription)
            && c.parameters["min_price"] == minPrice && c.parameters["max_price"] == maxPrice
  {
    ComponentUnderSrc(rootDir, "basic_cleaning");
  }

  /**
   * `_run_data_check` runs the data_check component at
   * ROOT_DIR/src/data_check, entry point main, no version, under conda, with
   * exactly its five parameters, each the argument of the same name.
   */
  lemma DataCheckCallShape(
    csv: string, ref: string, klThreshold: Value, minPrice: Value, maxPrice: Value,
    rootDir: string, env: map<string, string>)
    ensures var c := DataCheckCall(csv, ref, klThreshold, minPrice, maxPrice, rootDir, env);
            && c.uri == PathJoin(rootDir, "src/" + "data_check") && rootDir <= c.uri
            && c.entryPoint == "main" && c.version.None? && c.envManager == "conda" && c.env == env
            && c.parameters.Keys == {"csv", "ref", "kl_threshold", "min_price", "max_price"}
            && c.parameters["csv"] == Str(csv) && c.parameters["ref"] == Str(ref)
            && c.parameters["kl_threshold"] == klThreshold
            && c.parameters["min_price"] == minPrice && c.parameters["max_price"] == maxPrice
  {
    ComponentUnderSrc(rootDir, "data_check");
  }

  /**
   * The data_split call: train_val_test_split under the components
   * repository, entry point main, no version (unlike download), under conda,
   * with exactly four parameters taken from `modeling` and the cleaned sample.
   */
  lemma DataSplitCallShape(cfg: Config, env: map<string, string>)
    ensures var c := DataSplitCall(cfg, env);
            && c.uri == cfg.main.componentsRepository + "/train_val_test_split"
            && c.entryPoint == "main" && c.version.None? && c.envManager == "conda" && c.env == env
            && c.parameters.Keys == {"input", "test_size", "random_seed", "stratify_by"}
            && c.parameters["input"] == Str(CleanSampleLatest)
            && c.parameters["test_size"] == cfg.modeling.testSize
            && c.parameters["random_seed"] == cfg.modeling.randomSeed
            && c.parameters["stratify_by"] == cfg.modeling.stratifyBy
    ensures DataSplitCall(cfg, env).version != DownloadCall(cfg, env).version
  {
  }

  /** A path made of a project and a parameter's value names that value. */
  lemma PathNames(project: string, name: Value, path: string)
    requires name.Str? && PathMark !in name.s && path == project + [PathMark] + name.s
    ensures BaseName(path) == name.s
  {
    BaseNameOf(project, name.s);
  }

  /**
   * Every version of the raw sample lies in the raw sample's project under
   * the artifact name download gives its output.
   */
  lemma RawSampleNamed(cfg: Config, env: map<string, string>, qualifier: string)
    ensures var produced := DownloadCall(cfg, env).parameters;
            && "artifact_name" in produced && produced["artifact_name"].Str?
            && RawSample(qualifier).path == RawProject + [PathMark] + produced["artifact_name"].s
            && BaseName(RawSample(qualifier).path) == produced["artifact_name"].s
  {
    PathNames(RawProject, DownloadCall(cfg, env).parameters["artifact_name"], RawSample(qualifier).path);
  }

  /**
   * basic_cleaning reads what download produces: its input_artifact parses
   * as the "latest" version of the raw sample, whose name RawSampleNamed
   * ties to download's artifact_name.
   */
  lemma CleaningReadsRawSample(cfg: Config, host: Host, env: map<string, string>)
    ensures var consumed := CleaningStageCall(cfg, host, env).parameters;
            && "input_artifact" in consumed && consumed["input_artifact"].Str?
            && Parse(consumed["input_artifact"].s) == Some(RawSample("latest"))
  {
    BasicCleaningReads(SampleLatest, "clean_sample.csv", "clean_data", "Cleaned NYC Airbnb data",
      cfg.etl.minPrice, cfg.etl.maxPrice, host.rootDir, env, RawSample("latest"));
  }

  /** A basic_cleaning call whose input_artifact is a rendered reference reads it back. */
  lemma BasicCleaningReads(
    inputArtifact: string, outputArtifact: string, outputType: string, outputDescription: string,
    minPrice: Value, maxPrice: Value, rootDir: string, env: map<string, string>, input: ArtifactRef)
    requires inputArtifact == Render(input) && QualifierMark !in input.qualifier
    ensures var consumed := BasicCleaningCall(inputArtifact, outputArtifact, outputType, outputDescription,
                                              minPrice, maxPrice, rootDir, env).parameters;
            && "input_artifact" in consumed && consumed["input_artifact"].Str?
            && Parse(consumed["input_artifact"].s) == Some(input)
  {
    ParseRender(input);
  }

  /**
   * Every version of the cleaned sample lies in the cleaned sample's project
   * under the artifact name basic_cleaning gives its output.
   */
  lemma CleanSampleNamed(cfg: Config, host: Host, env: map<string, string>, qualifier: string)
    ensures var produced := CleaningStageCall(cfg, host, env).parameters;
            && "output_artifact" in produced && produced["output_artifact"].Str?
            && CleanSample(qualifier).path == CleanProject + [PathMark] + produced["output_artifact"].s
            && BaseName(CleanSample(qualifier).path) == produced["output_artifact"].s
  {
    var produced := CleaningStageCall(cfg, host, env).parameters;
    PathNames(CleanProject, produced["output_artifact"], CleanSample(qualifier).path);
  }

  /**
   * data_check compares what basic_cleaning produces: its `csv` parses as
   * the "latest" version and its `ref` as the "reference" version of the
   * cleaned sample, whose name CleanSampleNamed ties to basic_cleaning's
   * output_artifact.
   */
  lemma CheckReadsCleanSample(cfg: Config, host: Host, env: map<string, string>)
    ensures var check := CheckStageCall(cfg, host, env).parameters;
            && "csv" in check && check["csv"].Str? && "ref" in check && check["ref"].Str?
            && Parse(check["csv"].s) == Some(CleanSample("latest"))
            && Parse(check["ref"].s) == Some(CleanSample("reference"))
  {
    DataCheckReads(CleanSampleLatest, CleanSampleReference, cfg.dataCheck.klThreshold,
      cfg.etl.minPrice, cfg.etl.maxPrice, host.rootDir, env, CleanSample("latest"), CleanSample("reference"));
  }

  /** A data_check call whose `csv` and `ref` are rendered references reads them back. */
  lemma DataCheckReads(csv: string, ref: string, klThreshold: Value, minPrice: Value, maxPrice: Value,
                       rootDir: string, env: map<string, string>, latest: ArtifactRef, reference: ArtifactRef)
    requires csv == Render(latest) && QualifierMark !in latest.qualifier
    requires ref == Render(reference) && QualifierMark !in reference.qualifier
    ensures var check := DataCheckCall(csv, ref, klThreshold, minPrice, maxPrice, rootDir, env).parameters;
            && "csv" in check && check["csv"].Str? && "ref" in check && check["ref"].Str?
            && Parse(check["csv"].s) == Some(latest)
            && Parse(check["ref"].s) == Some(reference)
  {
    ParseRender(latest);
    ParseRender(reference);
  }

  /** data_split splits what basic_cleaning produces: its `input` parses as the "latest" cleaned sample. */
  lemma SplitReadsCleanSample(cfg: Config, env: map<string, string>)
    ensures var split := DataSplitCall(cfg, env).parameters;
            && "input" in split && split["input"].Str?
            && Parse(split["input"].s) == Some(CleanSample("latest"))
  {
    var split := DataSplitCall(cfg, env).parameters;
    assert split["input"] == Str(Render(CleanSample("latest")));
    ParseRender(CleanSample("latest"));
  }

  /**
   * The cleaned sample is read from another entity/project than the raw
   * sample.
   */
  lemma SampleProjectsDiffer()
    ensures RawProject != CleanProject
  {
    assert |RawProject| < |CleanProject|;
  }

  /**
   * The hand-off file is `rf_config.json` in the working directory: the
   * path starts with the directory and ends with the file name.
   */
  lemma HandOffPathInWorkDir(host: Host)
    ensures host.workDir <= RfConfigPath(host)
    ensures var p := RfConfigPath(host);
            |p| >= |"rf_config.json"| && p[|p| - |"rf_config.json"|..] == "rf_config.json"
    ensures BaseName(RfConfigPath(host)) == "rf_config.json"
  {
    PathJoinShape(host.workDir, "rf_config.json");
    var p := RfConfigPath(host);
    if host.workDir == [] || host.workDir[|host.workDir| - 1] == '/' {
      if host.workDir == [] {
        assert p == "rf_config.json";
        assert PathMark !in p;
      } else {
        var dir := host.workDir[..|host.workDir| - 1];
        assert host.workDir == dir + [PathMark];
        assert p == dir + [PathMark] + "rf_config.json";
        BaseNameOf(dir, "rf_config.json");
      }
    } else {
      BaseNameOf(host.workDir, "rf_config.json");
    }
  }

  /**
   * Joining adds one separator exactly when the directory is non-empty and
   * does not already end in one; the directory stays a prefix and the part
   * a suffix.
   */
  lemma PathJoinShape(dir: string, part: string)
    ensures dir <= PathJoin(dir, part)
    ensures |part| <= |PathJoin(dir, part)| && PathJoin(dir, part)[|PathJoin(dir, part)| - |part|..] == part
    ensures |PathJoin(dir, part)| <= |dir| + 1 + |part|
    ensures PathJoin(dir, part) == dir + part || PathJoin(dir, part) == dir + "/" + part
    ensures dir != [] && dir[|dir| - 1] != '/' ==> PathJoin(dir, part) == dir + "/" + part
    ensures dir == [] || dir[|dir| - 1] == '/' ==> PathJoin(dir, part) == dir + part
  {
  }

  /**
   * The session environment: WANDB_PROJECT holds the project name,
   * WANDB_RUN_GROUP the experiment name, and every other entry is kept.
   */
  lemma SessionEnvSetsBoth(env: map<string, string>, main: MainConfig)
    ensures SessionEnv(env, main).Keys == env.Keys + {ProjectVar, GroupVar}
    ensures SessionEnv(env, main)[ProjectVar] == main.projectName
    ensures SessionEnv(env, main)[GroupVar] == main.experimentName
    ensures forall k :: k in env && k != ProjectVar && k != GroupVar ==> SessionEnv(env, main)[k] == env[k]
  {
  }

  /**
   * Every stage `go` launches inherits the session environment: WANDB_PROJECT
   * holds the project name and WANDB_RUN_GROUP the experiment name, whatever
   * stage it is and however the run ends.
   */
  lemma EveryStageSeesSessionEnv(cfg: Config, host: Host, env: map<string, string>,
                                 runner: Invocation -> RunResult, files: map<string, map<string, Value>>)
    ensures var t := Execute(Plan(cfg, host, SessionEnv(env, cfg.main), ActiveSteps(cfg.main.steps)), runner, files);
            forall i :: 0 <= i < |t.launched| ==>
              && t.launched[i].env == SessionEnv(env, cfg.main)
              && t.launched[i].env[ProjectVar] == cfg.main.projectName
              && t.launched[i].env[GroupVar] == cfg.main.experimentName
  {
    var session := SessionEnv(env, cfg.main);
    var plan := Plan(cfg, host, session, ActiveSteps(cfg.main.steps));
    var t := Execute(plan, runner, files);
    SessionEnvSetsBoth(env, cfg.main);
    SelectedCallsCarryEnv(cfg, host, session, ActiveSteps(cfg.main.steps));
    forall i | 0 <= i < |t.launched|
      ensures t.launched[i].env == session
    {
      assert t.launched[i] == Launches(plan)[i];
      assert Launches(plan)[i] in Launches(plan);
    }
  }
}
