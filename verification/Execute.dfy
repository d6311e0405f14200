/**
 * The execute handler: it plans, shows the steps, lets the runner plan again
 * and run, and folds the runner's log into the steps
 * (internal/ui/execute.go:198-276, 403-484, 559-656).
 */
module Execute {
  import opened Common
  import opened Topology
  import opened Lifecycle
  import opened ExecSteps
  import opened KubeCluster
  import opened Environment
  import AbortGate
  import BatchPlan
  import Runner

  /** Maps a whole log, entry by entry. */
  method Follow(exec: ExecRun, log: seq<PhaseEvent>)
    requires exec.Valid()
    modifies exec
    ensures exec.Valid() && exec.steps == Folded(old(exec.steps), log)
  {
    ghost var start := exec.steps;
    for i := 0 to |log|
      invariant exec.Valid() && exec.steps == Folded(start, log[..i])
    {
      exec.MapPhase(log[i]);
      assert log[..i + 1][..i] == log[..i];
    }
    assert log[..|log|] == log;
  }

  /** Every step is over, and every wave and every step after the waves has passed. */
  ghost predicate AllClosed(steps: seq<RunStep>) {
    forall i :: 0 <= i < |steps| ==>
      if steps[i].id == BaselineStep then steps[i].status == Passed || steps[i].status == Skipped
      else steps[i].status == Passed
  }

  /** Nothing runs any more, waves up to `last` have failed, everything later was never started. */
  ghost predicate ClosedAfter(steps: seq<RunStep>, last: nat) {
    forall i :: 0 <= i < |steps| ==>
      && steps[i].status != Running
      && (steps[i].id.BatchStep? ==> steps[i].status == if steps[i].id.batch <= last then Status.Failed else Pending)
      && (steps[i].id in {SettleStep, MeasureStep, ReportStep, DoneStep} ==> steps[i].status == Pending)
  }

  /** The runner plans again from the configuration the handler wrote, and gets the handler's waves. */
  lemma RunnerFollowsHandler(c: BatchPlan.Settings, namespaces: seq<Namespace>)
    ensures var ui := BatchPlan.AppliedSettings(c, BatchPlan.PlanBatches(c, |namespaces|));
            && BatchPlan.SplitByPlanSpec(BatchPlan.AppliedSettings(ui, BatchPlan.PlanBatches(ui, |namespaces|)), namespaces)
               == BatchPlan.SplitByPlanSpec(ui, namespaces)
            && (namespaces != [] ==> BatchPlan.SplitByPlanSpec(ui, namespaces) != [])
  {
    BatchPlan.UiAndRunnerAgree(c, namespaces);
    if namespaces != [] {
      BatchPlan.PlanGuarantees(c, |namespaces|);
    }
  }

  /** Runs and folds; on success the last step is closed once more, on failure what still runs has failed. */
  method RunAndShow(exec: ExecRun, run: Runner.ApplyRun) returns (ok: bool, reached: nat)
    requires exec.Valid() && exec.status == InProgress
    requires Opened(exec.steps, |run.PlannedFrom(run.cfg.settings)|) && run.PlannedFrom(run.cfg.settings) != []
    requires run.phases == [] && run.reports == [] && run.trace == []
    requires run.gate.probes == [] && run.gate.Ready(run.opts.safety)
    modifies exec, run, run.cluster, run.env, run.gate, run.cfg
    ensures IsPipeline(exec.steps, |old(run.PlannedFrom(run.cfg.settings))|)
    ensures ok ==> AllClosed(exec.steps)
    ensures !ok ==> ClosedAfter(exec.steps, reached) && exec.status == RunFailed
  {
    ghost var n, before := |run.PlannedFrom(run.cfg.settings)|, exec.steps;
    ok, reached := run.Run();
    var log := run.phases;
    ghost var p := run.progress;
    assert Read(log, n) == Some(p);
    Follow(exec, log);
    FoldShowsProgress(before, log, n);
    if ok {
      exec.SetStep(DoneStep, Passed);
      ClosedOnSuccess(before, log, n);
    } else {
      exec.FailRunning();
      ClosedOnFailure(before, log, n, reached);
    }
  }

  lemma ClosedOnSuccess(before: seq<RunStep>, log: seq<PhaseEvent>, n: nat)
    requires Opened(before, n) && n > 0 && Read(log, n).Some? && Read(log, n).value.stage == Finished
    ensures AllClosed(WithStatus(Folded(before, log), DoneStep, Passed))
  {
    SuccessfulRunClosesEveryStep(before, log, n);
  }

  lemma ClosedOnFailure(before: seq<RunStep>, log: seq<PhaseEvent>, n: nat, reached: nat)
    requires Opened(before, n) && Read(log, n).Some?
    requires var stage := Read(log, n).value.stage;
             if reached == 0 then stage in {Stopped(0), BaselineOpen, Planned(2)}
             else stage == Stopped(reached) || (stage.Wave? && stage.batch == reached)
    ensures ClosedAfter(FailedWhereRunning(Folded(before, log)), reached)
  {
    FailedRunLeavesNothingRunning(before, log, n);
  }

  /**
   * From the request to the last step: when the apply succeeds, the page shows
   * every step closed; when it fails in wave `reached`, nothing is left
   * running and later waves and phases are still pending.
   */
  method HandleExecute(opts: Runner.Options, graph: Graph, cluster: Cluster, env: Env, cfg: BatchPlan.Config,
                       steadyHealth: AbortGate.Health)
    returns (ok: bool, reached: nat, exec: ExecRun)
    requires graph.namespaces != []
    modifies cluster, env, cfg
    ensures ok ==> AllClosed(exec.steps)
    ensures !ok ==> ClosedAfter(exec.steps, reached) && exec.status == RunFailed
    ensures IsPipeline(exec.steps, BatchPlan.PlanBatches(old(cfg.settings), |graph.namespaces|).count)
  {
    RunnerFollowsHandler(cfg.settings, graph.namespaces);
    BatchPlan.UiAndRunnerAgree(cfg.settings, graph.namespaces);
    var plan := BatchPlan.PlanBatches(cfg.settings, |graph.namespaces|);
    cfg.ApplyBatchPlan(plan);
    exec := new ExecRun(cfg, graph.namespaces);
    exec.SetStep(PrecheckStep, Running);
    exec.SetStep(PrecheckStep, Passed);
    var gate := new AbortGate.Gate();
    var run := new Runner.ApplyRun(opts, graph, cluster, env, gate, cfg, steadyHealth);
    ok, reached := RunAndShow(exec, run);
  }
}
