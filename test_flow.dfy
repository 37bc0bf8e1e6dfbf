/** The DR end-to-end test: the setup that TestDR does before any scenario,
    and the fail-fast flow that runTestFlow runs for one scenario.

    The bodies of the lifecycle steps, the validation check, the channel
    set-up and the workload and deployer factories are collaborators; the
    model takes their results as inputs. The Go test runner's subtests become
    a report: a skipped scenario, or the list of subtests that ran, in order,
    each with whether it passed. */
module DRTest {
  import opened Optional

  // ---------------------------------------------------------------------
  // One scenario

  datatype StepName = Deploy | Enable | Failover | Relocate | Disable | Undeploy

  /** The fixed order of the six lifecycle steps. */
  const Order: seq<StepName> := [Deploy, Enable, Failover, Relocate, Disable, Undeploy]

  /** A subtest that ran, and whether it passed. */
  datatype StepResult = StepResult(step: StepName, passed: bool)

  /** Skipped with the validation error, or the subtests that ran. */
  datatype FlowReport = Skipped(reason: string) | Executed(steps: seq<StepResult>)

  /** The scenario's overall result. */
  datatype Verdict = WasSkipped | Passed | FailedAt(step: StepName)

  /** The reference fail-fast sequencer: run the steps of `order` from index
      i on, one by one, and stop after the first that fails. */
  function FailFast(order: seq<StepName>, passes: StepName -> bool, i: nat): seq<StepResult>
    requires i <= |order|
    decreases |order| - i
  {
    if i == |order| then []
    else if passes(order[i]) then [StepResult(order[i], true)] + FailFast(order, passes, i + 1)
    else [StepResult(order[i], false)]
  }

  /** The reference flow: the validation gate, then the six steps. */
  function Flow(validation: Option<string>, passes: StepName -> bool): FlowReport
  {
    match validation
    case Some(err) => Skipped(err)
    case None => Executed(FailFast(Order, passes, 0))
  }

  /** A flow that ran fails at its last subtest when that one failed (the
      flow called FailNow there) and passes otherwise. */
  function VerdictOf(report: FlowReport): Verdict
  {
    match report
    case Skipped(_) => WasSkipped
    case Executed(steps) =>
      if |steps| > 0 && !steps[|steps| - 1].passed then FailedAt(steps[|steps| - 1].step) else Passed
  }

  /** The subtests in `ran` are steps 0..k-1 of the order, all passed. */
  ghost predicate AllPassed(ran: seq<StepResult>, passes: StepName -> bool, k: nat)
  {
    && |ran| == k <= |Order|
    && forall j :: 0 <= j < k ==> passes(Order[j]) && ran[j] == StepResult(Order[j], true)
  }

  /** The flow that ran recorded exactly the subtests in `ran`. */
  ghost predicate Recorded(ran: seq<StepResult>, passes: StepName -> bool)
  {
    Flow(None, passes) == Executed(ran)
  }

  /** A step that passes extends the passed prefix. */
  lemma AllPassedStep(ran: seq<StepResult>, passes: StepName -> bool, k: nat)
    requires k < |Order| && AllPassed(ran, passes, k) && passes(Order[k])
    ensures AllPassed(ran + [StepResult(Order[k], true)], passes, k + 1)
  {
  }

  /** The reference flow records the passed prefix, and then the first
      failing step or nothing when there is none. */
  lemma AllPassedRecorded(ran: seq<StepResult>, passes: StepName -> bool, k: nat)
    requires AllPassed(ran, passes, k)
    requires k < |Order| ==> !passes(Order[k])
    ensures k < |Order| ==> Recorded(ran + [StepResult(Order[k], false)], passes)
    ensures k == |Order| ==> Recorded(ran, passes)
  {
    FailFastShape(Order, passes, 0);
    var r := FailFast(Order, passes, 0);
    if k < |Order| {
      FailFastStopsAt(Order, passes, 0, k);
      assert r == ran + [StepResult(Order[k], false)];
    } else {
      assert r == ran;
    }
  }

  /** One `t.Run(name, step)` at place k of the order, after steps 0..k-1
      passed: it passes exactly when the step does; a pass extends the passed
      prefix, and a failure (followed by FailNow) leaves exactly what the
      reference flow records. */
  method RunStep(ran: seq<StepResult>, name: StepName, passes: StepName -> bool, ghost k: nat)
    returns (ran': seq<StepResult>, ok: bool)
    requires k < |Order| && Order[k] == name
    requires AllPassed(ran, passes, k)
    ensures ok ==> passes(name) && AllPassed(ran', passes, k + 1)
    ensures !ok ==> !passes(name) && Recorded(ran', passes)
  {
    ok := passes(name);
    ran' := ran + [StepResult(name, ok)];
    if ok {
      AllPassedStep(ran, passes, k);
    } else {
      AllPassedRecorded(ran, passes, k);
    }
  }

  /** runTestFlow as written: skip when validation fails, then six subtests,
      each followed by FailNow when it failed. */
  method RunTestFlow(validation: Option<string>, passes: StepName -> bool) returns (report: FlowReport)
    ensures report == Flow(validation, passes)
  {
    if validation.Some? {
      report := Skipped(validation.value);
      return;
    }
    var ran: seq<StepResult> := [];
    var ok: bool;
    ran, ok := RunStep(ran, Deploy, passes, 0);
    if !ok { report := Executed(ran); return; }
    ran, ok := RunStep(ran, Enable, passes, 1);
    if !ok { report := Executed(ran); return; }
    ran, ok := RunStep(ran, Failover, passes, 2);
    if !ok { report := Executed(ran); return; }
    ran, ok := RunStep(ran, Relocate, passes, 3);
    if !ok { report := Executed(ran); return; }
    ran, ok := RunStep(ran, Disable, passes, 4);
    if !ok { report := Executed(ran); return; }
    ran, ok := RunStep(ran, Undeploy, passes, 5);
    if !ok { report := Executed(ran); return; }
    AllPassedRecorded(ran, passes, 6);
    report := Executed(ran);
  }

  /** The shape of every fail-fast run from index i: the subtests that ran
      are the next steps of `order`, in order, with their own results; all
      but the last passed; and the run stops short of the end only right
      after a failure. */
  lemma {:induction false} FailFastShape(order: seq<StepName>, passes: StepName -> bool, i: nat)
    requires i <= |order|
    ensures var r := FailFast(order, passes, i);
            && |r| <= |order| - i
            && (i < |order| ==> |r| > 0)
            && (forall j :: 0 <= j < |r| ==> r[j] == StepResult(order[i + j], passes(order[i + j])))
            && (forall j :: 0 <= j < |r| - 1 ==> r[j].passed)
            && (|r| < |order| - i ==> !r[|r| - 1].passed)
    decreases |order| - i
  {
    if i < |order| && passes(order[i]) {
      FailFastShape(order, passes, i + 1);
    }
  }

  /** When step k is the first to fail from index i on, exactly steps i..k
      ran, and step k is the only failure. */
  lemma {:induction false} FailFastStopsAt(order: seq<StepName>, passes: StepName -> bool, i: nat, k: nat)
    requires i <= k < |order| && !passes(order[k])
    requires forall j :: i <= j < k ==> passes(order[j])
    ensures var r := FailFast(order, passes, i);
            && |r| == k - i + 1
            && forall j :: 0 <= j <= k - i ==> r[j].step == order[i + j] && (r[j].passed <==> j < k - i)
    decreases k - i
  {
    if i < k {
      FailFastStopsAt(order, passes, i + 1, k);
    }
  }

  /** The place of a step in the fixed order. */
  function Position(s: StepName): (j: nat)
    ensures j < |Order| && Order[j] == s
  {
    match s
    case Deploy => 0
    case Enable => 1
    case Failover => 2
    case Relocate => 3
    case Disable => 4
    case Undeploy => 5
  }

  /** No step appears twice in the fixed order. */
  lemma OrderDistinct(a: nat, b: nat)
    requires a < b < |Order|
    ensures Order[a] != Order[b]
  {
    assert Position(Order[a]) == a by { OrderPosition(a); }
    assert Position(Order[b]) == b by { OrderPosition(b); }
  }

  lemma OrderPosition(j: nat)
    requires j < |Order|
    ensures Position(Order[j]) == j
  {
  }

  /** The steps that ran are a prefix of the fixed order, and at most the
      six ran. */
  lemma StepsRunInOrder(validation: Option<string>, passes: StepName -> bool)
    ensures Flow(validation, passes).Executed? ==>
              var steps := Flow(validation, passes).steps;
              && 0 < |steps| <= |Order|
              && forall j :: 0 <= j < |steps| ==> steps[j].step == Order[j]
  {
    if validation.None? {
      FailFastShape(Order, passes, 0);
    }
  }

  /** No step runs twice. */
  lemma StepsRunOnce(validation: Option<string>, passes: StepName -> bool)
    ensures Flow(validation, passes).Executed? ==>
              var steps := Flow(validation, passes).steps;
              forall a, b :: 0 <= a < b < |steps| ==> steps[a].step != steps[b].step
  {
    if validation.None? {
      StepsRunInOrder(validation, passes);
      var steps := FailFast(Order, passes, 0);
      forall a, b | 0 <= a < b < |steps|
        ensures steps[a].step != steps[b].step
      {
        OrderDistinct(a, b);
      }
    }
  }

  /** A failure at step i ends the scenario there: steps 0..i ran, step i
      failed and no later step has a result. */
  lemma FailureStopsFlow(passes: StepName -> bool, i: nat)
    requires i < |Order| && !passes(Order[i])
    requires forall j :: 0 <= j < i ==> passes(Order[j])
    ensures var report := Flow(None, passes);
            && report.Executed?
            && |report.steps| == i + 1
            && VerdictOf(report) == FailedAt(Order[i])
            && (forall j :: 0 <= j < |report.steps| ==> (!report.steps[j].passed <==> j == i))
            && (forall m, j :: i < m < |Order| && 0 <= j < |report.steps| ==> report.steps[j].step != Order[m])
  {
    FailFastStopsAt(Order, passes, 0, i);
  }

  /** The scenario passes, without FailNow, exactly when all six steps pass;
      then all six ran, in order. */
  lemma PassesIffAllStepsPass(passes: StepName -> bool)
    ensures VerdictOf(Flow(None, passes)) == Passed <==> forall j :: 0 <= j < |Order| ==> passes(Order[j])
    ensures (forall j :: 0 <= j < |Order| ==> passes(Order[j])) ==>
              Flow(None, passes) == Executed(seq(|Order|, j requires 0 <= j < |Order| => StepResult(Order[j], true)))
  {
    FailFastShape(Order, passes, 0);
    var r := FailFast(Order, passes, 0);
    if forall j :: 0 <= j < |Order| ==> passes(Order[j]) {
      assert |r| == |Order|;
      assert r == seq(|Order|, j requires 0 <= j < |Order| => StepResult(Order[j], true));
    } else {
      var i :| 0 <= i < |Order| && !passes(Order[i]);
      if |r| == |Order| {
        assert r[i] == StepResult(Order[i], false);
        assert !r[|r| - 1].passed;
      }
    }
  }

  /** A failed validation skips the scenario and runs no step; a scenario is
      reported as skipped only then. */
  lemma SkippedIffValidationFails(validation: Option<string>, passes: StepName -> bool)
    ensures VerdictOf(Flow(validation, passes)) == WasSkipped <==> validation.Some?
    ensures validation.Some? ==> Flow(validation, passes) == Skipped(validation.value)
  {
  }

  /** A failing Enable: Deploy and Enable ran, Enable is the one failure, and
      Failover, Relocate, Disable and Undeploy have no result. */
  lemma EnableFailureStopsFlow(passes: StepName -> bool)
    requires passes(Deploy) && !passes(Enable)
    ensures Flow(None, passes) == Executed([StepResult(Deploy, true), StepResult(Enable, false)])
    ensures VerdictOf(Flow(None, passes)) == FailedAt(Enable)
  {
    FailFastStopsAt(Order, passes, 0, 1);
  }

  // ---------------------------------------------------------------------
  // Setup of the whole run

  /** One configured test: a workload kind, a deployer kind and the name of a
      PVC spec. */
  datatype TestCase = TestCase(workload: string, deployer: string, pvcSpec: string)

  /** What setup can resolve: the PVC spec names in the configuration and the
      kinds the workload and deployer factories accept. */
  datatype Registry = Registry(pvcSpecs: set<string>, workloads: set<string>, deployers: set<string>)

  /** Why setup panics. An unknown PVC spec panics with a fixed text that
      names nothing; the factories' errors stand for the kind they refused. */
  datatype SetupPanic = UnknownPVCSpec | UnknownWorkload(kind: string) | UnknownDeployer(kind: string)

  /** How setup ends: fatal for no tests or a failed channel, a panic at the
      first test that cannot be resolved, or one scenario started per test. */
  datatype Setup =
    | NoTests
    | ChannelFailed(err: string)
    | Panicked(at: nat, reason: SetupPanic)
    | Started(scenarios: seq<TestCase>)

  /** Whether EnsureChannel was called, how many cleanups were registered, and
      how setup ended. */
  datatype DRRun = DRRun(channelEnsured: bool, cleanups: nat, setup: Setup)

  /** Resolves one test the way the loop does: PVC spec first, then the
      workload, then the deployer. */
  function CheckTest(registry: Registry, tc: TestCase): (r: Option<SetupPanic>)
    ensures r == None <==>
              tc.pvcSpec in registry.pvcSpecs && tc.workload in registry.workloads && tc.deployer in registry.deployers
    ensures tc.pvcSpec !in registry.pvcSpecs ==> r == Some(UnknownPVCSpec)
    ensures tc.pvcSpec in registry.pvcSpecs && tc.workload !in registry.workloads ==>
              r == Some(UnknownWorkload(tc.workload))
    ensures tc.pvcSpec in registry.pvcSpecs && tc.workload in registry.workloads &&
            tc.deployer !in registry.deployers ==>
              r == Some(UnknownDeployer(tc.deployer))
    ensures r.Some? && r.value.UnknownWorkload? ==> tc.pvcSpec in registry.pvcSpecs
    ensures r.Some? && r.value.UnknownDeployer? ==>
              tc.pvcSpec in registry.pvcSpecs && tc.workload in registry.workloads
  {
    if tc.pvcSpec !in registry.pvcSpecs then Some(UnknownPVCSpec)
    else if tc.workload !in registry.workloads then Some(UnknownWorkload(tc.workload))
    else if tc.deployer !in registry.deployers then Some(UnknownDeployer(tc.deployer))
    else None
  }

  /** The reference scenario loop from test i on. */
  function ResolveFrom(registry: Registry, tests: seq<TestCase>, i: nat): (s: Setup)
    requires i <= |tests|
    ensures s.Panicked? || s == Started(tests)
    ensures s.Panicked? ==> i <= s.at < |tests|
    decreases |tests| - i
  {
    if i == |tests| then Started(tests)
    else
      match CheckTest(registry, tests[i])
      case Some(p) => Panicked(i, p)
      case None => ResolveFrom(registry, tests, i + 1)
  }

  /** The reference setup: the two fatal checks, then the scenario loop. */
  function SetupRun(tests: seq<TestCase>, channelErr: Option<string>, registry: Registry): DRRun
  {
    if |tests| == 0 then DRRun(false, 0, NoTests)
    else if channelErr.Some? then DRRun(true, 0, ChannelFailed(channelErr.value))
    else DRRun(true, 1, ResolveFrom(registry, tests, 0))
  }

  /** TestDR as written: fatal on an empty test list, fatal when the channel
      cannot be ensured, one cleanup registered, then a loop that panics on
      the first test it cannot resolve and otherwise starts its scenario. */
  method TestDR(tests: seq<TestCase>, channelErr: Option<string>, registry: Registry) returns (run: DRRun)
    ensures run == SetupRun(tests, channelErr, registry)
  {
    if |tests| == 0 {
      run := DRRun(false, 0, NoTests);
      return;
    }
    if channelErr.Some? {
      run := DRRun(true, 0, ChannelFailed(channelErr.value));
      return;
    }
    var cleanups := 1;
    var scenarios: seq<TestCase> := [];
    for i := 0 to |tests|
      invariant scenarios == tests[..i]
      invariant ResolveFrom(registry, tests, i) == ResolveFrom(registry, tests, 0)
    {
      var tc := tests[i];
      if tc.pvcSpec !in registry.pvcSpecs {
        run := DRRun(true, cleanups, Panicked(i, UnknownPVCSpec));
        return;
      }
      if tc.workload !in registry.workloads {
        run := DRRun(true, cleanups, Panicked(i, UnknownWorkload(tc.workload)));
        return;
      }
      if tc.deployer !in registry.deployers {
        run := DRRun(true, cleanups, Panicked(i, UnknownDeployer(tc.deployer)));
        return;
      }
      scenarios := scenarios + [tc];
    }
    assert scenarios == tests;
    run := DRRun(true, cleanups, Started(scenarios));
  }

  /** The order of the fatal checks: an empty test list ends the run before
      the channel is touched; a channel failure ends it before any cleanup is
      registered or any scenario is created; otherwise exactly one cleanup is
      registered. */
  lemma SetupFatalChecks(tests: seq<TestCase>, channelErr: Option<string>, registry: Registry)
    ensures var run := SetupRun(tests, channelErr, registry);
            && (run.setup == NoTests <==> |tests| == 0)
            && (run.channelEnsured <==> |tests| > 0)
            && (run.setup.ChannelFailed? <==> |tests| > 0 && channelErr.Some?)
            && (run.cleanups == 1 <==> run.setup.Panicked? || run.setup.Started?)
            && (run.cleanups == 0 <==> run.setup.NoTests? || run.setup.ChannelFailed?)
  {
    if |tests| > 0 && channelErr.None? {
      var s := ResolveFrom(registry, tests, 0);
      assert s.Panicked? || s.Started?;
    }
  }

  lemma {:induction false} ResolveFromPanics(registry: Registry, tests: seq<TestCase>, i: nat, k: nat, p: SetupPanic)
    requires i <= |tests|
    ensures ResolveFrom(registry, tests, i) == Panicked(k, p) <==>
              && i <= k < |tests|
              && CheckTest(registry, tests[k]) == Some(p)
              && forall j :: i <= j < k ==> CheckTest(registry, tests[j]) == None
    decreases |tests| - i
  {
    if i < |tests| && CheckTest(registry, tests[i]) == None {
      ResolveFromPanics(registry, tests, i + 1, k, p);
    }
  }

  /** An unknown PVC spec, workload or deployer aborts the whole setup at the
      first test that has one, instead of failing that scenario alone. */
  lemma PanicAtFirstUnresolved(tests: seq<TestCase>, registry: Registry, k: nat, p: SetupPanic)
    requires |tests| > 0
    ensures SetupRun(tests, None, registry).setup == Panicked(k, p) <==>
              && k < |tests|
              && CheckTest(registry, tests[k]) == Some(p)
              && forall j :: 0 <= j < k ==> CheckTest(registry, tests[j]) == None
  {
    ResolveFromPanics(registry, tests, 0, k, p);
  }

  lemma {:induction false} ResolveFromStarts(registry: Registry, tests: seq<TestCase>, i: nat)
    requires i <= |tests|
    ensures ResolveFrom(registry, tests, i).Started? <==>
              forall j :: i <= j < |tests| ==> CheckTest(registry, tests[j]) == None
    decreases |tests| - i
  {
    if i < |tests| && CheckTest(registry, tests[i]) == None {
      ResolveFromStarts(registry, tests, i + 1);
    }
  }

  /** Scenarios start exactly when every test resolves; then there is one
      scenario per configured test, in the configured order. */
  lemma StartedIffAllResolve(tests: seq<TestCase>, registry: Registry)
    requires |tests| > 0
    ensures SetupRun(tests, None, registry).setup.Started? <==>
              forall j :: 0 <= j < |tests| ==> CheckTest(registry, tests[j]) == None
    ensures SetupRun(tests, None, registry).setup.Started? ==> SetupRun(tests, None, registry).setup.scenarios == tests
  {
    ResolveFromStarts(registry, tests, 0);
  }
}
