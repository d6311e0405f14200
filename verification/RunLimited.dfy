/**
 * Bounded-concurrency execution of n calls, as a step system over the
 * goroutines of runLimited (internal/runner/runner.go:319-351): the spawning
 * loop, and one worker per call that runs the call, records the first error,
 * gives its token back and leaves the wait group, in that order.
 */
module RunLimited {
  import opened Common

  /** What runLimited returns: nil, the context's error, or the first recorded call error. */
  datatype Result = Nil | ContextError | CallError(call: nat)

  /** Where the spawning goroutine stands. */
  datatype Control =
    | Check                     // about to look at the context, or to leave the loop
    | Acquire                   // wg.Add(1) done, blocked on the semaphore
    | Drain(cancelled: bool)    // in wg.Wait
    | Returned(result: Result)

  /**
   * Calls below `next` have been spawned. The sets only ever grow: each says
   * which workers have got past one point of the worker body.
   */
  datatype State = State(control: Control, next: nat, begun: set<nat>, ended: map<nat, bool>,
                         recorded: set<nat>, released: set<nat>, gone: set<nat>,
                         first: Option<nat>, cancelled: bool)

  datatype Step =
    | Cancel                    // the environment cancels the context
    | CheckContext
    | LeaveLoop
    | Spawn
    | Begin(call: nat)
    | End(call: nat, ok: bool)
    | Record(call: nat)
    | Release(call: nat)
    | WgDone(call: nat)
    | Return

  /** The indices 0..k-1. */
  function Below(k: nat): (r: set<nat>)
    ensures forall i: nat :: i in r <==> i < k
    ensures |r| == k
  {
    if k == 0 then {} else Below(k - 1) + {k - 1}
  }

  function Init(n: nat, cancelled: bool): State {
    State(if n == 0 then Returned(Nil) else Check, 0, {}, map[], {}, {}, {}, None, cancelled)
  }

  /** Workers between acquiring and giving back a token. */
  function Holders(s: State): set<nat> { Below(s.next) - s.released }

  /** Calls being executed right now. */
  function InFlight(s: State): set<nat> { s.begun - s.ended.Keys }

  predicate Enabled(s: State, conc: nat, n: nat, step: Step) {
    match step
    case Cancel => !s.cancelled
    case CheckContext => s.control == Check && s.next < n
    case LeaveLoop => s.control == Check && s.next >= n
    case Spawn => s.control == Acquire && |Holders(s)| < conc
    case Begin(i) => i < s.next && i !in s.begun
    case End(i, _) => i in s.begun && i !in s.ended
    case Record(i) => i in s.ended && i !in s.recorded
    case Release(i) => i in s.recorded && i !in s.released
    case WgDone(i) => i in s.released && i !in s.gone
    case Return => s.control.Drain? && s.gone == Below(s.next)
  }

  function Apply(s: State, conc: nat, n: nat, step: Step): State
    requires Enabled(s, conc, n, step)
  {
    match step
    case Cancel => s.(cancelled := true)
    case CheckContext => s.(control := if s.cancelled then Drain(true) else Acquire)
    case LeaveLoop => s.(control := Drain(false))
    case Spawn => s.(control := Check, next := s.next + 1)
    case Begin(i) => s.(begun := s.begun + {i})
    case End(i, ok) => s.(ended := s.ended[i := ok])
    case Record(i) =>
      s.(recorded := s.recorded + {i},
         first := if !s.ended[i] && s.first == None then Some(i) else s.first)
    case Release(i) => s.(released := s.released + {i})
    case WgDone(i) => s.(gone := s.gone + {i})
    case Return =>
      s.(control := Returned(if s.control.cancelled then ContextError
                             else if s.first == None then Nil else CallError(s.first.value)))
  }

  /** Each point of the worker body is passed only after the one before it. */
  ghost predicate Nested(s: State, n: nat) {
    s.gone <= s.released <= s.recorded <= s.ended.Keys <= s.begun <= Below(s.next) && s.next <= n
  }

  /** The recorded error is the error of a recorded call, and there is one if any recorded call failed. */
  ghost predicate FirstIsRecorded(s: State)
    requires s.recorded <= s.ended.Keys
  {
    match s.first
    case None => forall i :: i in s.recorded ==> s.ended[i]
    case Some(i) => i in s.recorded && !s.ended[i]
  }

  ghost predicate ControlFits(s: State, n: nat) {
    match s.control
    case Check => true
    case Acquire => s.next < n
    case Drain(c) => if c then s.next < n && s.cancelled else s.next == n
    case Returned(r) =>
      && s.gone == Below(s.next)
      && match r
         case Nil => s.next == n && s.first == None
         case ContextError => s.next < n && s.cancelled
         case CallError(i) => s.next == n && s.first == Some(i)
  }

  ghost predicate Inv(s: State, conc: nat, n: nat) {
    Nested(s, n) && FirstIsRecorded(s) && ControlFits(s, n) && |Holders(s)| <= conc
  }

  /** The k-th step leads from state k to state k + 1. */
  ghost predicate IsStep(states: seq<State>, steps: seq<Step>, conc: nat, n: nat, k: int)
    requires |states| == |steps| + 1 && 0 <= k < |steps|
  {
    Enabled(states[k], conc, n, steps[k]) && states[k + 1] == Apply(states[k], conc, n, steps[k])
  }

  /** A run: any interleaving of enabled steps from the initial state. */
  ghost predicate IsRun(states: seq<State>, steps: seq<Step>, conc: nat, n: nat) {
    && |states| == |steps| + 1
    && (states[0] == Init(n, false) || states[0] == Init(n, true))
    && forall k :: 0 <= k < |steps| ==> IsStep(states, steps, conc, n, k)
  }

  lemma InitInv(conc: nat, n: nat, cancelled: bool)
    ensures Inv(Init(n, cancelled), conc, n)
  {
    assert Holders(Init(n, cancelled)) == {};
  }

  lemma OneMore<T>(a: set<T>, x: T, b: set<T>)
    requires x !in a && b == a + {x}
    ensures |b| == |a| + 1
  {
  }

  lemma TokenTaken(next: nat, released: set<nat>)
    requires released <= Below(next)
    ensures |Below(next + 1) - released| == |Below(next) - released| + 1
  {
    OneMore(Below(next) - released, next, Below(next + 1) - released);
  }

  lemma TokenGivenBack(next: nat, released: set<nat>, i: nat)
    ensures |Below(next) - (released + {i})| <= |Below(next) - released|
  {
    SubsetSize(Below(next) - (released + {i}), Below(next) - released);
  }

  lemma StepKeepsTokens(s: State, conc: nat, n: nat, step: Step)
    requires s.released <= Below(s.next) && |Holders(s)| <= conc && Enabled(s, conc, n, step)
    ensures |Holders(Apply(s, conc, n, step))| <= conc
  {
    match step
    case Spawn => TokenTaken(s.next, s.released);
    case Release(i) => TokenGivenBack(s.next, s.released, i);
    case _ =>
  }

  lemma StepKeepsNesting(s: State, conc: nat, n: nat, step: Step)
    requires Inv(s, conc, n) && Enabled(s, conc, n, step)
    ensures Nested(Apply(s, conc, n, step), n)
  {
  }

  lemma StepKeepsFirst(s: State, conc: nat, n: nat, step: Step)
    requires Inv(s, conc, n) && Enabled(s, conc, n, step)
    requires Nested(Apply(s, conc, n, step), n)
    ensures FirstIsRecorded(Apply(s, conc, n, step))
  {
    if step.End? {
      assert step.call !in s.recorded;
    }
  }

  lemma StepKeepsInv(s: State, conc: nat, n: nat, step: Step)
    requires Inv(s, conc, n) && Enabled(s, conc, n, step)
    ensures Inv(Apply(s, conc, n, step), conc, n)
  {
    StepKeepsTokens(s, conc, n, step);
    StepKeepsNesting(s, conc, n, step);
    StepKeepsFirst(s, conc, n, step);
    assert ControlFits(Apply(s, conc, n, step), n);
  }

  lemma {:induction false} RunKeepsInv(states: seq<State>, steps: seq<Step>, conc: nat, n: nat, k: nat)
    requires IsRun(states, steps, conc, n) && k < |states|
    ensures Inv(states[k], conc, n)
  {
    if k == 0 {
      InitInv(conc, n, false);
      InitInv(conc, n, true);
    } else {
      RunKeepsInv(states, steps, conc, n, k - 1);
      assert IsStep(states, steps, conc, n, k - 1);
      StepKeepsInv(states[k - 1], conc, n, steps[k - 1]);
    }
  }

  // ---------------------------------------------------------------------
  // Safety of every reachable state
  // ---------------------------------------------------------------------

  /**
   * In every state of every run at most conc calls are in flight, the spawned
   * calls are a prefix of 0..n-1, and once the function has returned no call
   * is in flight.
   */
  lemma AtMostConcInFlight(states: seq<State>, steps: seq<Step>, conc: nat, n: nat, k: nat)
    requires IsRun(states, steps, conc, n) && k < |states|
    ensures |InFlight(states[k])| <= conc
    ensures states[k].begun <= Below(states[k].next) <= Below(n)
    ensures states[k].control.Returned? ==> InFlight(states[k]) == {}
  {
    RunKeepsInv(states, steps, conc, n, k);
    FewInFlight(states[k], conc, n);
  }

  lemma FewInFlight(s: State, conc: nat, n: nat)
    requires Inv(s, conc, n)
    ensures |InFlight(s)| <= conc
    ensures s.begun <= Below(s.next) <= Below(n)
    ensures s.control.Returned? ==> InFlight(s) == {}
  {
    SubsetSize(InFlight(s), Holders(s));
  }

  /** The calls in flight are those that have begun and not ended. */
  lemma InFlightSize(s: State, n: nat)
    requires Nested(s, n)
    ensures |InFlight(s)| == |s.begun| - |s.ended|
  {
    assert |s.ended| == |s.ended.Keys|;
    assert s.begun == InFlight(s) + s.ended.Keys;
  }

  /** A call that is about to begin finds room. */
  lemma RoomToBegin(s: State, conc: nat, n: nat, i: nat)
    requires Inv(s, conc, n) && Enabled(s, conc, n, Begin(i))
    ensures i !in s.begun && |s.begun| - |s.ended| < conc
  {
    var t := Apply(s, conc, n, Begin(i));
    StepKeepsInv(s, conc, n, Begin(i));
    FewInFlight(t, conc, n);
    InFlightSize(t, n);
    StepEffects(s, conc, n, Begin(i));
    OneMore(s.begun, i, t.begun);
  }

  lemma {:induction false} SubsetSize<T>(a: set<T>, b: set<T>)
    requires a <= b
    ensures |a| <= |b|
  {
    assert b == a + (b - a);
  }

  /** No call is started, ended or recorded twice in a run. */
  lemma EachCallOnce(states: seq<State>, steps: seq<Step>, conc: nat, n: nat, j: nat, k: nat)
    requires IsRun(states, steps, conc, n) && j < k < |steps|
    ensures steps[j].Begin? && steps[k].Begin? ==> steps[j].call != steps[k].call
    ensures steps[j].End? && steps[k].End? ==> steps[j].call != steps[k].call
  {
    SetsGrow(states, steps, conc, n, j + 1, k);
    assert IsStep(states, steps, conc, n, j) && IsStep(states, steps, conc, n, k);
  }

  lemma StepGrows(s: State, conc: nat, n: nat, step: Step)
    requires Enabled(s, conc, n, step)
    ensures s.begun <= Apply(s, conc, n, step).begun && s.ended.Keys <= Apply(s, conc, n, step).ended.Keys
  {
  }

  lemma {:induction false} SetsGrow(states: seq<State>, steps: seq<Step>, conc: nat, n: nat, j: nat, k: nat)
    requires IsRun(states, steps, conc, n) && j <= k < |states|
    ensures states[j].begun <= states[k].begun && states[j].ended.Keys <= states[k].ended.Keys
    decreases k
  {
    if j < k {
      SetsGrow(states, steps, conc, n, j, k - 1);
      assert IsStep(states, steps, conc, n, k - 1);
      StepGrows(states[k - 1], conc, n, steps[k - 1]);
    }
  }

  /**
   * A nil result means exactly that all n calls ran and none failed; otherwise
   * either the context was cancelled before the last call was spawned, or all
   * calls ran and the reported one did fail.
   */
  lemma ResultMeaning(s: State, conc: nat, n: nat)
    requires Inv(s, conc, n) && s.control.Returned?
    ensures s.ended.Keys == s.begun == Below(s.next)
    ensures s.control.result == Nil <==> s.ended.Keys == Below(n) && forall i :: i in s.ended ==> s.ended[i]
    ensures s.control.result == ContextError ==> s.cancelled && s.next < n
    ensures s.control.result.CallError? ==>
              s.ended.Keys == Below(n) && s.control.result.call in s.ended && !s.ended[s.control.result.call]
  {
    assert s.recorded == s.ended.Keys;
    if s.next < n {
      assert s.next in Below(n) && s.next !in Below(s.next);
    }
  }

  // ---------------------------------------------------------------------
  // Progress
  // ---------------------------------------------------------------------

  /** The lowest spawned worker that has not left yet, below k. */
  function Lagging(s: State, k: nat): (r: Option<nat>)
    ensures r.Some? ==> r.value < k && r.value !in s.gone
    ensures r.None? ==> forall i: nat :: i < k ==> i in s.gone
  {
    if k == 0 then None
    else match Lagging(s, k - 1)
         case Some(i) => Some(i)
         case None => if k - 1 in s.gone then None else Some(k - 1)
  }

  /** A step that is always open: move the lowest worker, or else the spawning loop. */
  function OpenStep(s: State, n: nat): Step {
    match Lagging(s, s.next)
    case Some(i) =>
      if i !in s.begun then Begin(i)
      else if i !in s.ended then End(i, true)
      else if i !in s.recorded then Record(i)
      else if i !in s.released then Release(i)
      else WgDone(i)
    case None =>
      match s.control
      case Check => if s.next < n then CheckContext else LeaveLoop
      case Acquire => Spawn
      case _ => Return
  }

  lemma LaggingMoves(s: State, conc: nat, n: nat, i: nat)
    requires Nested(s, n) && Lagging(s, s.next) == Some(i)
    ensures Enabled(s, conc, n, OpenStep(s, n)) && !OpenStep(s, n).Cancel?
  {
  }

  lemma LoopMoves(s: State, conc: nat, n: nat)
    requires Inv(s, conc, n) && conc >= 1 && !s.control.Returned? && Lagging(s, s.next) == None
    ensures Enabled(s, conc, n, OpenStep(s, n)) && !OpenStep(s, n).Cancel?
  {
    assert s.gone == Below(s.next);
    assert Holders(s) == {};
  }

  /** The step just described is open as long as the function has not returned. */
  lemma OpenStepIsEnabled(s: State, conc: nat, n: nat)
    requires Inv(s, conc, n) && conc >= 1 && !s.control.Returned?
    ensures Enabled(s, conc, n, OpenStep(s, n)) && !OpenStep(s, n).Cancel?
  {
    match Lagging(s, s.next)
    case Some(i) => LaggingMoves(s, conc, n, i);
    case None => LoopMoves(s, conc, n);
  }

  /**
   * With at least one token the system cannot deadlock: until it has returned,
   * some step other than a cancellation is enabled.
   */
  lemma NoDeadlock(s: State, conc: nat, n: nat)
    requires Inv(s, conc, n) && conc >= 1 && !s.control.Returned?
    ensures exists step: Step :: !step.Cancel? && Enabled(s, conc, n, step)
  {
    OpenStepIsEnabled(s, conc, n);
    var step := OpenStep(s, n);
    assert Enabled(s, conc, n, step);
  }

  /** With no token at all the system does block, for any n, right after its first check. */
  lemma ZeroTokensBlock(n: nat)
    requires n > 0
    ensures var s := Apply(Init(n, false), 0, n, CheckContext);
            !s.control.Returned? && forall step :: Enabled(s, 0, n, step) ==> step == Cancel
  {
  }

  function ControlRank(c: Control): nat {
    match c
    case Check => 2
    case Acquire => 1
    case Drain(_) => 1
    case Returned(_) => 0
  }

  /** How many points of worker bodies have been passed, over all workers. */
  ghost function Passed(s: State): int {
    |s.begun| + |s.ended.Keys| + |s.recorded| + |s.released| + |s.gone|
  }

  ghost function Measure(s: State, n: nat): int {
    3 * (n - s.next) + ControlRank(s.control) + (if s.cancelled then 0 else 1) + 5 * n - Passed(s)
  }

  predicate IsWorkerStep(step: Step) {
    step.Begin? || step.End? || step.Record? || step.Release? || step.WgDone?
  }

  lemma PassedGrows(s: State, conc: nat, n: nat, step: Step)
    requires Enabled(s, conc, n, step)
    ensures Passed(Apply(s, conc, n, step)) == Passed(s) + if IsWorkerStep(step) then 1 else 0
  {
    var t := Apply(s, conc, n, step);
    match step
    case Begin(i) => OneMore(s.begun, i, t.begun);
    case End(i, ok) => OneMore(s.ended.Keys, i, t.ended.Keys);
    case Record(i) => OneMore(s.recorded, i, t.recorded);
    case Release(i) => OneMore(s.released, i, t.released);
    case WgDone(i) => OneMore(s.gone, i, t.gone);
    case _ =>
  }

  lemma MeasureDecreases(s: State, conc: nat, n: nat, step: Step)
    requires Enabled(s, conc, n, step)
    ensures Measure(Apply(s, conc, n, step), n) < Measure(s, n)
  {
    PassedGrows(s, conc, n, step);
  }

  /** What a step does to the calls and to the context. */
  lemma StepEffects(s: State, conc: nat, n: nat, step: Step)
    requires Enabled(s, conc, n, step)
    ensures var t := Apply(s, conc, n, step);
            && t.ended == (if step.End? then s.ended[step.call := step.ok] else s.ended)
            && t.begun == (if step.Begin? then s.begun + {step.call} else s.begun)
            && t.cancelled == (s.cancelled || step.Cancel?)
  {
    match step
    case _ =>
  }

  /** All a scheduler needs to know about a step it takes. */
  lemma StepFacts(s: State, conc: nat, n: nat, step: Step)
    requires Inv(s, conc, n) && Enabled(s, conc, n, step)
    ensures Inv(Apply(s, conc, n, step), conc, n)
    ensures Measure(Apply(s, conc, n, step), n) < Measure(s, n)
  {
    StepKeepsInv(s, conc, n, step);
    MeasureDecreases(s, conc, n, step);
  }

  lemma MeasureBounds(s: State, conc: nat, n: nat)
    requires Inv(s, conc, n)
    ensures 0 <= Measure(s, n) <= 8 * n + 3
  {
    assert Below(s.next) <= Below(n);
    SubsetSize(s.begun, Below(n));
    SubsetSize(s.ended.Keys, Below(n));
    SubsetSize(s.recorded, Below(n));
    SubsetSize(s.released, Below(n));
    SubsetSize(s.gone, Below(n));
  }

  /** Every run is finite: no schedule takes more than 8n + 3 steps. */
  lemma RunsAreBounded(states: seq<State>, steps: seq<Step>, conc: nat, n: nat)
    requires IsRun(states, steps, conc, n)
    ensures |steps| <= 8 * n + 3
  {
    var ms := seq(|states|, i requires 0 <= i < |states| => Measure(states[i], n));
    forall k | 0 < k < |ms| ensures DropsAt(ms, k) {
      MeasureDrops(states, steps, conc, n, k - 1);
    }
    DropsAlong(ms, |steps|);
    RunKeepsInv(states, steps, conc, n, |steps|);
    RunKeepsInv(states, steps, conc, n, 0);
    MeasureBounds(states[0], conc, n);
    MeasureBounds(states[|steps|], conc, n);
  }

  lemma MeasureDrops(states: seq<State>, steps: seq<Step>, conc: nat, n: nat, k: nat)
    requires IsRun(states, steps, conc, n) && k < |steps|
    ensures Measure(states[k + 1], n) < Measure(states[k], n)
  {
    assert IsStep(states, steps, conc, n, k);
    MeasureDecreases(states[k], conc, n, steps[k]);
  }

  /** A sequence that drops by at least one at every position. */
  ghost predicate Drops(ms: seq<int>) {
    forall k :: 0 < k < |ms| ==> DropsAt(ms, k)
  }

  ghost predicate DropsAt(ms: seq<int>, k: int)
    requires 0 < k < |ms|
  {
    ms[k] < ms[k - 1]
  }

  lemma {:induction false} DropsAlong(ms: seq<int>, k: nat)
    requires Drops(ms) && k < |ms|
    ensures ms[k] <= ms[0] - k
  {
    if k > 0 {
      DropsAlong(ms, k - 1);
      assert DropsAt(ms, k);
    }
  }
}
