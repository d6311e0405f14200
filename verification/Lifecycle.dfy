/**
 * The phases of an apply run (internal/runner/lifecycle.go) and the language of
 * phase logs a run may write. The log is read by the step pipeline of the UI.
 */
module Lifecycle {
  import opened Common

  datatype Phase =
    | Precheck | Baseline | BatchStart | ObjectCreation | WaitForReady | BatchMeasurement
    | HealthCheck | FinalSettle | FinalMeasurement | Report | Done | Aborted

  /** One log entry; of the message only whether it is the word "skipped" matters. */
  datatype PhaseEvent = PhaseEvent(phase: Phase, batch: nat, skipped: bool)

  /** How far within a wave the log has got. */
  datatype WavePart = Started | Creating | Waiting | WaitFailed | Measured | Checked | Settling

  /** How far a run has got, as told by its phase log alone. */
  datatype Stage =
    | Fresh
    | Checking
    | BaselineOpen
    | Planned(lines: nat)
    | Wave(batch: nat, part: WavePart)
    | FinalSettling
    | Converging
    | Reporting
    | Finished
    | Stopped(batch: nat)

  datatype Progress = Progress(stage: Stage, baselineSkipped: bool)

  const START := Progress(Fresh, false)

  function NextInWave(batch: nat, part: WavePart, ev: PhaseEvent, n: nat): Option<Stage> {
    if part == Started && ev.phase == ObjectCreation && ev.batch == batch then Some(Wave(batch, Creating))
    else if part == Creating && ev.phase == WaitForReady && ev.batch == batch then Some(Wave(batch, Waiting))
    else if part == Waiting && ev.phase == WaitForReady && ev.batch == batch then Some(Wave(batch, WaitFailed))
    else if part == Waiting && ev.phase == BatchMeasurement && ev.batch == batch then Some(Wave(batch, Measured))
    else if part == Measured && ev.phase == HealthCheck && ev.batch == batch then Some(Wave(batch, Checked))
    else if part == Checked && ev.phase == HealthCheck && ev.batch == batch then Some(Wave(batch, Settling))
    else if (part == Measured || part == Checked) && ev.phase == Aborted && ev.batch == batch then Some(Stopped(batch))
    else if (part == Checked || part == Settling) && ev.phase == BatchStart && ev.batch == batch + 1 && batch < n
    then Some(Wave(batch + 1, Started))
    else if part == Checked && ev.phase == FinalSettle && batch == n then Some(FinalSettling)
    else None
  }

  /** Reads one log entry of a run with n waves; None when no run writes that entry there. */
  function Next(p: Progress, ev: PhaseEvent, n: nat): Option<Progress> {
    match p.stage
    case Fresh => if ev.phase == Precheck then Some(p.(stage := Checking)) else None
    case Checking =>
      if ev.phase == Baseline then Some(Progress(BaselineOpen, ev.skipped))
      else if ev.phase == Aborted && ev.batch == 0 then Some(p.(stage := Stopped(0)))
      else None
    case BaselineOpen => if ev.phase == Precheck then Some(p.(stage := Planned(1))) else None
    case Planned(l) =>
      if l == 1 && ev.phase == Precheck then Some(p.(stage := Planned(2)))
      else if l == 2 && ev.phase == BatchStart && ev.batch == 1 && n > 0 then Some(p.(stage := Wave(1, Started)))
      else if l == 2 && ev.phase == FinalSettle && n == 0 then Some(p.(stage := FinalSettling))
      else None
    case Wave(b, part) =>
      (match NextInWave(b, part, ev, n)
       case None => None
       case Some(stage) => Some(p.(stage := stage)))
    case FinalSettling => if ev.phase == FinalMeasurement then Some(p.(stage := Converging)) else None
    case Converging => if ev.phase == Report then Some(p.(stage := Reporting)) else None
    case Reporting => if ev.phase == Done then Some(p.(stage := Finished)) else None
    case Finished => None
    case Stopped(_) => None
  }

  /** Reads a whole log from the start. */
  function Read(log: seq<PhaseEvent>, n: nat): Option<Progress> {
    if log == [] then Some(START)
    else
      match Read(log[..|log| - 1], n)
      case None => None
      case Some(p) => Next(p, log[|log| - 1], n)
  }

  lemma ReadAppend(log: seq<PhaseEvent>, ev: PhaseEvent, n: nat)
    ensures Read(log + [ev], n) ==
            (match Read(log, n) case None => None case Some(p) => Next(p, ev, n))
  {
    assert (log + [ev])[..|log|] == log;
  }
}
