/**
 * The step pipeline of the execute page: it lists the planned waves and folds
 * the runner's phase log into step statuses
 * (internal/ui/execute.go:350-392, 840-862, 889-994).
 */
module ExecSteps {
  import opened Common
  import opened Topology
  import opened Lifecycle
  import BatchPlan

  datatype StepId =
    | PrecheckStep | BaselineStep | BatchStep(batch: nat) | SettleStep | MeasureStep | ReportStep | DoneStep

  datatype Status = Pending | Running | Passed | Failed | Skipped

  datatype RunStep = RunStep(id: StepId, seqFrom: nat, seqTo: nat, status: Status)

  datatype RunStatus = InProgress | RunFailed

  // ---------------------------------------------------------------------
  // Planning the steps
  // ---------------------------------------------------------------------

  function PhaseStep(id: StepId): RunStep { RunStep(id, 0, 0, Pending) }

  function BatchSteps(batches: seq<seq<Namespace>>): (r: seq<RunStep>)
    requires forall k :: 0 <= k < |batches| ==> batches[k] != []
  {
    seq(|batches|, k requires 0 <= k < |batches| =>
      RunStep(BatchStep(k + 1), batches[k][0].index, batches[k][|batches[k]| - 1].index, Pending))
  }

  const TAIL := [PhaseStep(SettleStep), PhaseStep(MeasureStep), PhaseStep(ReportStep), PhaseStep(DoneStep)]

  /** The id at a position of a pipeline with n waves. */
  function IdAt(i: nat, n: nat): StepId
    requires i < n + 6
  {
    if i == 0 then PrecheckStep
    else if i == 1 then BaselineStep
    else if i < n + 2 then BatchStep(i - 1)
    else if i == n + 2 then SettleStep
    else if i == n + 3 then MeasureStep
    else if i == n + 4 then ReportStep
    else DoneStep
  }

  /** A pipeline for n waves: fixed steps around one step per wave, in order. */
  ghost predicate IsPipeline(steps: seq<RunStep>, n: nat) {
    |steps| == n + 6 && forall i :: 0 <= i < n + 6 ==> steps[i].id == IdAt(i, n)
  }

  method PlanSteps(cfg: BatchPlan.Config, namespaces: seq<Namespace>) returns (steps: seq<RunStep>)
    ensures var batches := BatchPlan.SplitByPlanSpec(cfg.settings, namespaces);
            && (forall k :: 0 <= k < |batches| ==> batches[k] != [])
            && steps == [PhaseStep(PrecheckStep), PhaseStep(BaselineStep)] + BatchSteps(batches) + TAIL
            && IsPipeline(steps, |batches|)
  {
    BatchPlan.SplitMatchesPlan(cfg.settings, namespaces);
    var batches, _ := BatchPlan.SplitByPlan(cfg, namespaces);
    steps := [PhaseStep(PrecheckStep), PhaseStep(BaselineStep)];
    steps := AddBatchSteps(steps, batches);
    steps := steps + TAIL;
    PlannedIsPipeline(batches);
  }

  /** One step for every wave, with the range of namespaces it covers. */
  method AddBatchSteps(start: seq<RunStep>, batches: seq<seq<Namespace>>) returns (steps: seq<RunStep>)
    requires forall k :: 0 <= k < |batches| ==> batches[k] != []
    ensures steps == start + BatchSteps(batches)
  {
    steps := start;
    for i := 0 to |batches|
      invariant steps == start + BatchSteps(batches)[..i]
    {
      var batch := batches[i];
      steps := steps + [RunStep(BatchStep(i + 1), batch[0].index, batch[|batch| - 1].index, Pending)];
    }
  }

  lemma PlannedIsPipeline(batches: seq<seq<Namespace>>)
    requires forall k :: 0 <= k < |batches| ==> batches[k] != []
    ensures IsPipeline([PhaseStep(PrecheckStep), PhaseStep(BaselineStep)] + BatchSteps(batches) + TAIL, |batches|)
  {
  }

  // ---------------------------------------------------------------------
  // Tiling
  // ---------------------------------------------------------------------

  ghost predicate Numbered(s: seq<Namespace>, from: nat) {
    forall i :: 0 <= i < |s| ==> s[i].index == from + i
  }

  /** Consecutive ranges that start at `from` and end right before `to`, without gap or overlap. */
  ghost predicate Tiles(steps: seq<RunStep>, from: nat, to: nat) {
    if steps == [] then from == to
    else steps[0].seqFrom == from && steps[0].seqTo >= from && Tiles(steps[1..], steps[0].seqTo + 1, to)
  }

  lemma {:induction false} SlicesTile(batches: seq<seq<Namespace>>, s: seq<Namespace>, from: nat)
    requires forall k :: 0 <= k < |batches| ==> batches[k] != []
    requires Flatten(batches) == s && Numbered(s, from)
    ensures Tiles(BatchSteps(batches), from, from + |s|)
  {
    if batches != [] {
      var b, rest := batches[0], Flatten(batches[1..]);
      assert s == b + rest;
      assert forall i :: 0 <= i < |rest| ==> rest[i] == s[|b| + i];
      assert b[0] == s[0] && b[|b| - 1] == s[|b| - 1];
      SlicesTile(batches[1..], rest, from + |b|);
      assert BatchSteps(batches)[1..] == ShiftIds(BatchSteps(batches[1..]));
      TilesIgnoresIds(BatchSteps(batches[1..]), from + |b|, from + |s|);
    }
  }

  function ShiftIds(steps: seq<RunStep>): seq<RunStep>
    requires forall i :: 0 <= i < |steps| ==> steps[i].id.BatchStep?
  {
    seq(|steps|, i requires 0 <= i < |steps| => steps[i].(id := BatchStep(steps[i].id.batch + 1)))
  }

  lemma {:induction false} TilesIgnoresIds(steps: seq<RunStep>, from: nat, to: nat)
    requires forall i :: 0 <= i < |steps| ==> steps[i].id.BatchStep?
    requires Tiles(steps, from, to)
    ensures Tiles(ShiftIds(steps), from, to)
  {
    if steps != [] {
      TilesIgnoresIds(steps[1..], steps[0].seqTo + 1, to);
      assert ShiftIds(steps)[1..] == ShiftIds(steps[1..]);
    }
  }

  /**
   * There is exactly one step for every wave the runner will emit, and the
   * ranges of these steps tile the namespaces 1..n.
   */
  lemma StepsTileTheGraph(c: BatchPlan.Settings, namespaces: seq<Namespace>)
    requires Numbered(namespaces, 1)
    ensures var p := BatchPlan.PlanBatches(c, |namespaces|);
            var ui := BatchPlan.AppliedSettings(c, p);
            var run := BatchPlan.AppliedSettings(ui, BatchPlan.PlanBatches(ui, |namespaces|));
            var batches := BatchPlan.SplitByPlanSpec(ui, namespaces);
            && (forall k :: 0 <= k < |batches| ==> batches[k] != [])
            && BatchPlan.SplitByPlanSpec(run, namespaces) == batches
            && |BatchSteps(batches)| == p.count
            && Tiles(BatchSteps(batches), 1, |namespaces| + 1)
  {
    var p := BatchPlan.PlanBatches(c, |namespaces|);
    var ui := BatchPlan.AppliedSettings(c, p);
    BatchPlan.UiAndRunnerAgree(c, namespaces);
    BatchPlan.SplitMatchesPlan(ui, namespaces);
    SlicesTile(BatchPlan.SplitByPlanSpec(ui, namespaces), namespaces, 1);
  }

  // ---------------------------------------------------------------------
  // Updating the steps
  // ---------------------------------------------------------------------

  function MapStatus(steps: seq<RunStep>, f: RunStep -> Status): (r: seq<RunStep>)
    ensures |r| == |steps|
    ensures forall i :: 0 <= i < |steps| ==> r[i] == steps[i].(status := f(steps[i]))
  {
    seq(|steps|, i requires 0 <= i < |steps| => steps[i].(status := f(steps[i])))
  }

  function WithStatus(steps: seq<RunStep>, id: StepId, st: Status): seq<RunStep> {
    MapStatus(steps, (s: RunStep) => if s.id == id then st else s.status)
  }

  function PassedIfRunning(steps: seq<RunStep>, id: StepId): seq<RunStep> {
    MapStatus(steps, (s: RunStep) =>
      if s.id == id && s.status == Running then Passed
      else if s.id == id && s.status == Pending && id == BaselineStep then Skipped
      else s.status)
  }

  function FailedWhereRunning(steps: seq<RunStep>): seq<RunStep> {
    MapStatus(steps, (s: RunStep) => if s.status == Running then Failed else s.status)
  }

  function ClosedForSettle(steps: seq<RunStep>): seq<RunStep> {
    MapStatus(steps, (s: RunStep) =>
      if s.id.BatchStep? && s.status == Pending then Skipped
      else if s.id.BatchStep? && s.status == Running then Passed
      else if s.id == BaselineStep && s.status == Running then Passed
      else s.status)
  }

  function Mapped(steps: seq<RunStep>, ev: PhaseEvent): (r: seq<RunStep>)
    ensures |r| == |steps|
  {
    match ev.phase
    case Precheck => WithStatus(steps, PrecheckStep, Running)
    case Baseline =>
      WithStatus(WithStatus(steps, PrecheckStep, Passed), BaselineStep, if ev.skipped then Skipped else Running)
    case BatchStart =>
      WithStatus(PassedIfRunning(PassedIfRunning(steps, BaselineStep), PrecheckStep), BatchStep(ev.batch), Running)
    case ObjectCreation => WithStatus(steps, BatchStep(ev.batch), Running)
    case WaitForReady => WithStatus(steps, BatchStep(ev.batch), Running)
    case BatchMeasurement => WithStatus(steps, BatchStep(ev.batch), Running)
    case HealthCheck => WithStatus(steps, BatchStep(ev.batch), Running)
    case FinalSettle => WithStatus(ClosedForSettle(steps), SettleStep, Running)
    case FinalMeasurement => WithStatus(WithStatus(steps, SettleStep, Passed), MeasureStep, Running)
    case Report => WithStatus(WithStatus(steps, MeasureStep, Passed), ReportStep, Running)
    case Done => WithStatus(WithStatus(steps, ReportStep, Passed), DoneStep, Passed)
    case Aborted => FailedWhereRunning(steps)
  }

  function Folded(steps: seq<RunStep>, log: seq<PhaseEvent>): (r: seq<RunStep>)
    ensures |r| == |steps|
  {
    if log == [] then steps else Mapped(Folded(steps, log[..|log| - 1]), log[|log| - 1])
  }

  class ExecRun {
    var steps: seq<RunStep>
    var status: RunStatus

    ghost predicate Valid()
      reads this
    {
      forall i, j :: 0 <= i < j < |steps| ==> steps[i].id != steps[j].id
    }

    constructor (cfg: BatchPlan.Config, namespaces: seq<Namespace>)
      ensures Valid() && status == InProgress
      ensures var batches := BatchPlan.SplitByPlanSpec(cfg.settings, namespaces);
              && IsPipeline(steps, |batches|)
              && forall i :: 0 <= i < |steps| ==> steps[i].status == Pending
    {
      var planned := PlanSteps(cfg, namespaces);
      steps, status := planned, InProgress;
    }

    method SetStep(id: StepId, st: Status)
      requires Valid()
      modifies `steps
      ensures Valid() && steps == WithStatus(old(steps), id, st)
    {
      ghost var was := steps;
      for i := 0 to |steps|
        invariant steps == was
        invariant forall k :: 0 <= k < i ==> was[k].id != id
      {
        if steps[i].id == id {
          steps := steps[i := steps[i].(status := st)];
          assert steps == WithStatus(was, id, st);
          return;
        }
      }
      assert steps == WithStatus(was, id, st);
    }

    method PassIfRunning(id: StepId)
      requires Valid()
      modifies `steps
      ensures Valid() && steps == PassedIfRunning(old(steps), id)
    {
      ghost var was := steps;
      for i := 0 to |steps|
        invariant |steps| == |was|
        invariant steps[..i] == PassedIfRunning(was, id)[..i] && steps[i..] == was[i..]
      {
        assert steps[i] == steps[i..][0] == was[i];
        if steps[i].id == id && (steps[i].status == Running || steps[i].status == Pending) {
          if steps[i].status == Pending && id != BaselineStep {
          } else if steps[i].status == Pending {
            steps := steps[i := steps[i].(status := Skipped)];
          } else {
            steps := steps[i := steps[i].(status := Passed)];
          }
        }
        assert steps[i] == PassedIfRunning(was, id)[i];
        assert steps[i + 1..] == was[i..][1..];
      }
    }

    /** fail with an empty step id: every running step failed. */
    method FailRunning()
      requires Valid()
      modifies this
      ensures Valid() && status == RunFailed && steps == FailedWhereRunning(old(steps))
    {
      status := RunFailed;
      ghost var was := steps;
      for i := 0 to |steps|
        invariant |steps| == |was| && status == RunFailed
        invariant steps[..i] == FailedWhereRunning(was)[..i] && steps[i..] == was[i..]
      {
        assert steps[i] == steps[i..][0] == was[i];
        if steps[i].status == Running {
          steps := steps[i := steps[i].(status := Failed)];
        }
        assert steps[i] == FailedWhereRunning(was)[i];
        assert steps[i + 1..] == was[i..][1..];
      }
    }

    method CloseForSettle()
      requires Valid()
      modifies `steps
      ensures Valid() && steps == ClosedForSettle(old(steps))
    {
      ghost var was := steps;
      for i := 0 to |steps|
        invariant |steps| == |was|
        invariant steps[..i] == ClosedForSettle(was)[..i] && steps[i..] == was[i..]
      {
        assert steps[i] == steps[i..][0] == was[i];
        if steps[i].id.BatchStep? && (steps[i].status == Running || steps[i].status == Pending) {
          if steps[i].status == Pending {
            steps := steps[i := steps[i].(status := Skipped)];
          } else {
            steps := steps[i := steps[i].(status := Passed)];
          }
        }
        if steps[i].id == BaselineStep && steps[i].status == Running {
          steps := steps[i := steps[i].(status := Passed)];
        }
        assert steps[i] == ClosedForSettle(was)[i];
        assert steps[i + 1..] == was[i..][1..];
      }
    }

    method MapPhase(ev: PhaseEvent)
      requires Valid()
      modifies this
      ensures Valid() && steps == Mapped(old(steps), ev)
      ensures status == if ev.phase == Aborted then RunFailed else old(status)
    {
      match ev.phase {
        case Precheck =>
          SetStep(PrecheckStep, Running);
        case Baseline =>
          SetStep(PrecheckStep, Passed);
          SetStep(BaselineStep, Running);
          if ev.skipped {
            SetStep(BaselineStep, Skipped);
          }
          assert steps == Mapped(old(steps), ev);
        case BatchStart =>
          PassIfRunning(BaselineStep);
          PassIfRunning(PrecheckStep);
          SetStep(BatchStep(ev.batch), Running);
        case ObjectCreation =>
          SetStep(BatchStep(ev.batch), Running);
        case WaitForReady =>
          SetStep(BatchStep(ev.batch), Running);
        case BatchMeasurement =>
          SetStep(BatchStep(ev.batch), Running);
        case HealthCheck =>
          SetStep(BatchStep(ev.batch), Running);
        case FinalSettle =>
          CloseForSettle();
          SetStep(SettleStep, Running);
        case FinalMeasurement =>
          SetStep(SettleStep, Passed);
          SetStep(MeasureStep, Running);
        case Report =>
          SetStep(MeasureStep, Passed);
          SetStep(ReportStep, Running);
        case Done =>
          SetStep(ReportStep, Passed);
          SetStep(DoneStep, Passed);
        case Aborted =>
          FailRunning();
      }
    }
  }

  // ---------------------------------------------------------------------
  // What the fold makes of every log a run can write
  // ---------------------------------------------------------------------

  function BatchStatus(stage: Stage, batch: nat): Status {
    match stage
    case Wave(b, _) => if batch <= b then Running else Pending
    case Stopped(b) => if batch <= b then Failed else Pending
    case FinalSettling => Passed
    case Converging => Passed
    case Reporting => Passed
    case Finished => Passed
    case _ => Pending
  }

  /** The status of every step, from nothing but how far the run has got. */
  function Expected(p: Progress, n: nat, id: StepId): Status {
    match id
    case PrecheckStep =>
      (match p.stage
       case Checking => Running
       case Planned(_) => Running
       case Stopped(b) => if b == 0 then Failed else Passed
       case FinalSettling => if n == 0 then Running else Passed
       case Converging => if n == 0 then Running else Passed
       case Reporting => if n == 0 then Running else Passed
       case Finished => if n == 0 then Running else Passed
       case _ => Passed)
    case BaselineStep =>
      if p.stage == Fresh || p.stage == Checking || p.stage == Stopped(0) then Pending
      else if p.baselineSkipped then Skipped
      else if p.stage == BaselineOpen || p.stage.Planned? then Running
      else Passed
    case BatchStep(b) => BatchStatus(p.stage, b)
    case SettleStep =>
      if p.stage == FinalSettling then Running
      else if p.stage == Converging || p.stage == Reporting || p.stage == Finished then Passed else Pending
    case MeasureStep =>
      if p.stage == Converging then Running
      else if p.stage == Reporting || p.stage == Finished then Passed else Pending
    case ReportStep =>
      if p.stage == Reporting then Running else if p.stage == Finished then Passed else Pending
    case DoneStep => if p.stage == Finished then Passed else Pending
  }

  ghost predicate Shows(steps: seq<RunStep>, p: Progress, n: nat) {
    IsPipeline(steps, n) && forall i :: 0 <= i < n + 6 ==> steps[i].status == Expected(p, n, steps[i].id)
  }

  /** Facts about the progress of a log that the fold relies on. */
  predicate Sound(p: Progress, n: nat) {
    match p.stage
    case Wave(b, _) => 1 <= b <= n
    case Stopped(b) => b <= n
    case _ => true
  }

  /** What one log entry does to one step. */
  function StatusAfter(id: StepId, st: Status, ev: PhaseEvent): Status {
    match ev.phase
    case Precheck => if id == PrecheckStep then Running else st
    case Baseline =>
      if id == PrecheckStep then Passed
      else if id == BaselineStep then (if ev.skipped then Skipped else Running)
      else st
    case BatchStart =>
      if id == BatchStep(ev.batch) then Running
      else if (id == PrecheckStep || id == BaselineStep) && st == Running then Passed
      else if id == BaselineStep && st == Pending then Skipped
      else st
    case FinalSettle =>
      if id == SettleStep then Running
      else if id.BatchStep? && st == Pending then Skipped
      else if (id.BatchStep? || id == BaselineStep) && st == Running then Passed
      else st
    case FinalMeasurement => if id == SettleStep then Passed else if id == MeasureStep then Running else st
    case Report => if id == MeasureStep then Passed else if id == ReportStep then Running else st
    case Done => if id == ReportStep || id == DoneStep then Passed else st
    case Aborted => if st == Running then Failed else st
    case _ => if id == BatchStep(ev.batch) then Running else st
  }

  lemma MappedPointwise(steps: seq<RunStep>, ev: PhaseEvent, i: nat)
    requires i < |steps|
    ensures Mapped(steps, ev)[i] == steps[i].(status := StatusAfter(steps[i].id, steps[i].status, ev))
  {
  }

  lemma NextIsSound(p: Progress, ev: PhaseEvent, n: nat)
    requires Sound(p, n) && Next(p, ev, n).Some?
    ensures Sound(Next(p, ev, n).value, n)
  {
  }

  lemma StatusFollowsWave(id: StepId, p: Progress, ev: PhaseEvent, n: nat)
    requires p.stage.Wave? && Sound(p, n) && Next(p, ev, n).Some?
    requires id.BatchStep? ==> 1 <= id.batch <= n
    ensures StatusAfter(id, Expected(p, n, id), ev) == Expected(Next(p, ev, n).value, n, id)
  {
    var stage := NextInWave(p.stage.batch, p.stage.part, ev, n).value;
    match id
    case BatchStep(b) =>
      assert Expected(p, n, id) == if b <= p.stage.batch then Running else Pending;
    case _ =>
  }

  lemma StatusFollowsPhase(id: StepId, p: Progress, ev: PhaseEvent, n: nat)
    requires !p.stage.Wave? && Sound(p, n) && Next(p, ev, n).Some?
    requires id.BatchStep? ==> 1 <= id.batch <= n
    ensures StatusAfter(id, Expected(p, n, id), ev) == Expected(Next(p, ev, n).value, n, id)
  {
    match p.stage
    case Fresh =>
    case Checking =>
    case BaselineOpen =>
    case Planned(_) =>
    case FinalSettling =>
    case Converging =>
    case Reporting =>
  }

  /** One log entry moves one step exactly as it moves the progress. */
  lemma StatusFollowsProgress(id: StepId, p: Progress, ev: PhaseEvent, n: nat)
    requires Sound(p, n) && Next(p, ev, n).Some?
    requires id.BatchStep? ==> 1 <= id.batch <= n
    ensures StatusAfter(id, Expected(p, n, id), ev) == Expected(Next(p, ev, n).value, n, id)
  {
    if p.stage.Wave? {
      StatusFollowsWave(id, p, ev, n);
    } else {
      StatusFollowsPhase(id, p, ev, n);
    }
  }

  lemma MappedShows(steps: seq<RunStep>, p: Progress, ev: PhaseEvent, n: nat)
    requires Shows(steps, p, n) && Sound(p, n) && Next(p, ev, n).Some?
    ensures Shows(Mapped(steps, ev), Next(p, ev, n).value, n) && Sound(Next(p, ev, n).value, n)
  {
    var q := Next(p, ev, n).value;
    NextIsSound(p, ev, n);
    forall i | 0 <= i < n + 6
      ensures Mapped(steps, ev)[i].id == IdAt(i, n)
      ensures Mapped(steps, ev)[i].status == Expected(q, n, IdAt(i, n))
    {
      MappedPointwise(steps, ev, i);
      StatusFollowsProgress(steps[i].id, p, ev, n);
    }
  }

  /** The pipeline before the first log entry: the handler has closed its own precheck. */
  ghost predicate Opened(steps: seq<RunStep>, n: nat) {
    && IsPipeline(steps, n)
    && forall i :: 0 <= i < n + 6 ==> steps[i].status == if steps[i].id == PrecheckStep then Passed else Pending
  }

  /** Folding any log a run can write leaves every step exactly as the progress says. */
  lemma {:induction false} FoldShowsProgress(steps: seq<RunStep>, log: seq<PhaseEvent>, n: nat)
    requires Opened(steps, n) && Read(log, n).Some?
    ensures Shows(Folded(steps, log), Read(log, n).value, n) && Sound(Read(log, n).value, n)
  {
    if log != [] {
      var before := log[..|log| - 1];
      FoldShowsProgress(steps, before, n);
      MappedShows(Folded(steps, before), Read(before, n).value, log[|log| - 1], n);
    }
  }

  /**
   * A finished run with at least one wave leaves every step passed or skipped,
   * every wave passed and the steps after the waves passed, even though the
   * second precheck entries reopen a closed step.
   */
  lemma SuccessfulRunClosesEveryStep(steps: seq<RunStep>, log: seq<PhaseEvent>, n: nat)
    requires Opened(steps, n) && n > 0
    requires Read(log, n).Some? && Read(log, n).value.stage == Finished
    ensures forall i :: 0 <= i < n + 6 ==>
              var s := Folded(steps, log)[i];
              if s.id == BaselineStep then s.status == Passed || s.status == Skipped else s.status == Passed
  {
    FoldShowsProgress(steps, log, n);
  }

  /** With no wave at all nothing closes the reopened precheck: it is the only step left running. */
  lemma PrecheckStaysOpenWithoutWaves(steps: seq<RunStep>, log: seq<PhaseEvent>, n: nat)
    requires Opened(steps, n) && Read(log, n).Some? && Read(log, n).value.stage == Finished
    ensures (forall i :: 0 <= i < n + 6 ==> Folded(steps, log)[i].status in {Passed, Skipped}) <==> n > 0
    ensures n == 0 ==> Folded(steps, log)[0].status == Running
  {
    if n > 0 {
      SuccessfulRunClosesEveryStep(steps, log, n);
    } else {
      FoldShowsProgress(steps, log, n);
      assert Folded(steps, log)[0].id == PrecheckStep;
      assert Folded(steps, log)[0].status == Running;
    }
  }

  /** The wave a stopped run was in; 0 before the first and n once the last wave is over. */
  function LastWave(stage: Stage, n: nat): nat {
    match stage
    case Wave(b, _) => b
    case Stopped(b) => b
    case FinalSettling => n
    case Converging => n
    case Reporting => n
    case Finished => n
    case _ => 0
  }

  /**
   * Wherever a run stops before it is done, failing the run leaves no step
   * running, and everything past the wave it stopped in is still pending. A
   * wave that had already finished is reported as failed, too: waves stay
   * running until the final settle.
   */
  lemma FailedRunLeavesNothingRunning(steps: seq<RunStep>, log: seq<PhaseEvent>, n: nat)
    requires Opened(steps, n) && Read(log, n).Some?
    requires Read(log, n).value.stage in {Fresh, Checking, BaselineOpen, Planned(1), Planned(2)}
             || Read(log, n).value.stage.Wave? || Read(log, n).value.stage.Stopped?
    ensures var after := FailedWhereRunning(Folded(steps, log));
            var last := LastWave(Read(log, n).value.stage, n);
            forall i :: 0 <= i < n + 6 ==>
              && after[i].status != Running
              && (after[i].id.BatchStep? ==> after[i].status == if after[i].id.batch <= last then Failed else Pending)
              && (after[i].id in {SettleStep, MeasureStep, ReportStep, DoneStep} ==> after[i].status == Pending)
  {
    FoldShowsProgress(steps, log, n);
  }
}
