/**
 * The apply engine: batches in order, phases in order inside a batch, creates
 * under bounded concurrency, and a health gate between batches
 * (internal/runner/runner.go). Every method is proved against the trace
 * specification in Waves and the log language in Lifecycle.
 */
module Runner {
  import opened Common
  import opened Topology
  import opened KubeCluster
  import opened Environment
  import opened Waves
  import opened Lifecycle
  import AbortGate
  import BatchPlan
  import Readiness
  import RL = RunLimited

  datatype Options = Options(dryRun: bool, hasCluster: bool, skipBaseline: bool, baselineDuration: int,
                             batchDelay: int, concurrency: int, waitForReady: bool, readinessTimeout: int,
                             pollInterval: int, rateInterval: int, pullSecret: bool, pullSecretFrom: bool,
                             safety: AbortGate.Safety)

  datatype BatchReport = BatchReport(id: nat, ns: CreateCounts, svc: CreateCounts, dep: CreateCounts, rt: CreateCounts)

  function CountsFor(r: BatchReport, kind: Kind): CreateCounts {
    match kind
    case KNamespace => r.ns
    case KService => r.svc
    case KDeployment => r.dep
    case KRoute => r.rt
  }

  function WithCounts(r: BatchReport, kind: Kind, c: CreateCounts): BatchReport {
    match kind
    case KNamespace => r.(ns := c)
    case KService => r.(svc := c)
    case KDeployment => r.(dep := c)
    case KRoute => r.(rt := c)
  }

  lemma SettleDelayIsLong(delay: int, settles: bool)
    ensures settles ==> SettleDelay(delay, settles) >= SETTLE_EXTRA && SettleDelay(delay, settles) >= delay
  {
  }

  /** All creates of one kind that a sequence of reports counts as made. */
  function CreatedBy(reports: seq<BatchReport>, kind: Kind): nat {
    if reports == [] then 0
    else CreatedBy(reports[..|reports| - 1], kind) + CountsFor(reports[|reports| - 1], kind).created
  }

  /** The least time that k pauses of this length take. */
  function Pauses(k: int, length: int): int {
    if k <= 0 then 0 else Pauses(k - 1, length) + Max(length, 0)
  }

  const SETTLE_EXTRA := 45 * AbortGate.SECOND

  /** The pause before the next wave: longer when the last one ended under warning. */
  function SettleDelay(delay: int, settles: bool): int {
    if !settles then delay else if delay < SETTLE_EXTRA then SETTLE_EXTRA else delay * 2
  }

  class ApplyRun {
    const opts: Options
    const graph: Graph
    const cluster: Cluster
    const env: Env
    const gate: AbortGate.Gate
    const cfg: BatchPlan.Config
    const steadyHealth: AbortGate.Health  // what a faultless cluster always reports

    var phases: seq<PhaseEvent>
    var reports: seq<BatchReport>
    var settles: bool  // the last batch ended under warning or with masters under pressure
    var convergence: Option<Convergence>
    ghost var trace: Trace
    ghost var batches: seq<seq<Namespace>>
    ghost var progress: Progress

    constructor (opts: Options, graph: Graph, cluster: Cluster, env: Env, gate: AbortGate.Gate, cfg: BatchPlan.Config,
                 steadyHealth: AbortGate.Health)
      ensures this.opts == opts && this.graph == graph && this.cluster == cluster && this.env == env
      ensures this.gate == gate && this.cfg == cfg && this.steadyHealth == steadyHealth
      ensures phases == [] && reports == [] && trace == []
    {
      this.opts, this.graph, this.cluster, this.env, this.gate, this.cfg := opts, graph, cluster, env, gate, cfg;
      this.steadyHealth := steadyHealth;
      phases, reports, settles, convergence := [], [], false, None;
      trace, batches, progress := [], [], START;
    }

    /** How many creates may be in flight at a time: as configured, and at least one. */
    function Concurrency(): nat { if opts.concurrency < 1 then 1 else opts.concurrency }

    /** What this run checks, given that a real apply has a cluster. */
    ghost function Required(): Checks {
      Checks(!opts.dryRun, !opts.dryRun && opts.waitForReady, !opts.dryRun && opts.safety.enabled,
             !opts.dryRun && opts.pullSecret, Concurrency())
    }

    // -------------------------------------------------------------------
    // Creating one kind under bounded concurrency
    // -------------------------------------------------------------------

    /** One create call ends, and the trace says how. A failing call may or may not have reached the cluster. */
    method CallCreate(id: nat, kind: Kind, i: nat, o: Object) returns (out: Outcome)
      requires FitsKind(kind, o)
      modifies `trace, cluster
      ensures trace == old(trace) + [End(id, kind, i, out)]
      ensures var m, m2 := old(cluster.Contents()).Of(kind), cluster.Contents().Of(kind);
              && CreateEffect(out, o, m, m2, cluster.neverReady, env.faulty)
              && cluster.Contents() == old(cluster.Contents()).With(kind, m2)
    {
      var fault := env.Fault();
      if fault {
        var reached: bool := *;
        if reached {
          var _ := cluster.Create(kind, o);
        }
        out := Failed;
      } else {
        out := cluster.Create(kind, o);
      }
      trace := trace + [End(id, kind, i, out)];
    }

    /** The loop invariant of one limited run. */
    ghost predicate Linked(begun: set<nat>, ended: map<nat, bool>, cancelled: bool, counts: CreateCounts, id: nat, kind: Kind,
                           objs: seq<Object>, before: Trace, all0: Stores)
      reads this, cluster, env
    {
      && cancelled == env.cancelled
      && Books(Required(), batches, begun, ended, counts, id, kind, objs, before, trace, all0, cluster.Contents(),
               cluster.neverReady, env.faulty)
    }

    /** Any enabled step, as the Go scheduler and the environment please. */
    method AnyStep(s: RL.State, conc: nat, n: nat) returns (step: RL.Step)
      requires RL.Inv(s, conc, n) && conc > 0 && !s.control.Returned?
      ensures RL.Enabled(s, conc, n, step) && (step.Cancel? ==> env.faulty)
      ensures step.End? ==> RL.Enabled(s, conc, n, RL.End(step.call, true))
    {
      RL.OpenStepIsEnabled(s, conc, n);
      step := *;
      if !RL.Enabled(s, conc, n, step) || (step.Cancel? && !env.faulty) {
        step := RL.OpenStep(s, n);
      }
    }

    /** One step of some goroutine. */
    method Advance(s: RL.State, counts: CreateCounts, conc: nat, id: nat, kind: Kind, objs: seq<Object>,
                   ghost before: Trace, ghost all0: Stores)
      returns (t: RL.State, counted: CreateCounts)
      requires Linked(s.begun, s.ended, s.cancelled, counts, id, kind, objs, before, all0)
      requires RL.Inv(s, conc, |objs|) && conc == Required().conc && !s.control.Returned?
      requires forall o :: o in objs ==> FitsKind(kind, o)
      modifies `trace, cluster, env`cancelled
      ensures Linked(t.begun, t.ended, t.cancelled, counted, id, kind, objs, before, all0)
      ensures RL.Inv(t, conc, |objs|) && RL.Measure(t, |objs|) < RL.Measure(s, |objs|)
      ensures !env.faulty ==> env.cancelled == old(env.cancelled)
      ensures old(env.cancelled) ==> env.cancelled
    {
      var step := AnyStep(s, conc, |objs|);
      if step.End? {
        t, counted := EndStep(s, counts, conc, step.call, id, kind, objs, before, all0);
      } else {
        t := OtherStep(s, step, counts, conc, id, kind, objs, before, all0);
        counted := counts;
      }
    }

    method EndStep(s: RL.State, counts: CreateCounts, conc: nat, i: nat, id: nat, kind: Kind, objs: seq<Object>,
                   ghost before: Trace, ghost all0: Stores)
      returns (t: RL.State, counted: CreateCounts)
      requires Linked(s.begun, s.ended, s.cancelled, counts, id, kind, objs, before, all0)
      requires RL.Inv(s, conc, |objs|) && RL.Enabled(s, conc, |objs|, RL.End(i, true))
      requires forall o :: o in objs ==> FitsKind(kind, o)
      modifies `trace, cluster
      ensures Linked(t.begun, t.ended, t.cancelled, counted, id, kind, objs, before, all0)
      ensures RL.Inv(t, conc, |objs|) && RL.Measure(t, |objs|) < RL.Measure(s, |objs|)
    {
      assert i < |objs| && objs[i] in objs;
      var ok;
      ok, counted := EndCall(s.begun, s.ended, counts, i, id, kind, objs, before, all0);
      t := RL.Apply(s, conc, |objs|, RL.End(i, ok));
      RL.StepFacts(s, conc, |objs|, RL.End(i, ok));
      RL.StepEffects(s, conc, |objs|, RL.End(i, ok));
    }

    /** The call of one worker ends: its effect, its trace entry and its count. */
    method EndCall(begun: set<nat>, ended: map<nat, bool>, counts: CreateCounts, i: nat, id: nat, kind: Kind,
                   objs: seq<Object>, ghost before: Trace, ghost all0: Stores)
      returns (ok: bool, counted: CreateCounts)
      requires Linked(begun, ended, env.cancelled, counts, id, kind, objs, before, all0)
      requires i < |objs| && i in begun && i !in ended && FitsKind(kind, objs[i])
      modifies `trace, cluster
      ensures Linked(begun, ended[i := ok], env.cancelled, counted, id, kind, objs, before, all0)
    {
      ghost var now, s := trace, cluster.Contents();
      var out := CallCreate(id, kind, i, objs[i]);
      ok, counted := out != Failed, Classified(counts, out);
      BooksAfterEnd(Required(), batches, begun, ended, counts, i, out, id, kind, objs, before, now, all0, s,
                    cluster.Contents(), cluster.neverReady, env.faulty);
      assert trace == now + [End(id, kind, i, out)];
    }

    method OtherStep(s: RL.State, step: RL.Step, counts: CreateCounts, conc: nat, id: nat, kind: Kind, objs: seq<Object>,
                     ghost before: Trace, ghost all0: Stores)
      returns (t: RL.State)
      requires Linked(s.begun, s.ended, s.cancelled, counts, id, kind, objs, before, all0)
      requires RL.Inv(s, conc, |objs|) && conc == Required().conc && RL.Enabled(s, conc, |objs|, step) && !step.End?
      requires step.Cancel? ==> env.faulty
      modifies `trace, env`cancelled
      ensures Linked(t.begun, t.ended, t.cancelled, counts, id, kind, objs, before, all0)
      ensures RL.Inv(t, conc, |objs|) && RL.Measure(t, |objs|) < RL.Measure(s, |objs|)
      ensures !env.faulty ==> env.cancelled == old(env.cancelled)
      ensures old(env.cancelled) ==> env.cancelled
    {
      RL.StepFacts(s, conc, |objs|, step);
      RL.StepEffects(s, conc, |objs|, step);
      if step.Begin? {
        RL.RoomToBegin(s, conc, |objs|, step.call);
      }
      t := RL.Apply(s, conc, |objs|, step);
      Observe(s, t, step, counts, id, kind, objs, before, all0);
    }

    /** What a step other than the end of a call does outside the workers. */
    method Observe(s: RL.State, t: RL.State, step: RL.Step, counts: CreateCounts, id: nat, kind: Kind, objs: seq<Object>,
                   ghost before: Trace, ghost all0: Stores)
      requires Linked(s.begun, s.ended, s.cancelled, counts, id, kind, objs, before, all0)
      requires t.ended == s.ended && t.cancelled == (s.cancelled || step.Cancel?)
      requires t.begun == if step.Begin? then s.begun + {step.call} else s.begun
      requires step.Begin? ==> step.call !in s.begun && |s.begun| - |s.ended| < Required().conc
      requires step.Cancel? ==> env.faulty
      modifies `trace, env`cancelled
      ensures Linked(t.begun, t.ended, t.cancelled, counts, id, kind, objs, before, all0)
      ensures !env.faulty ==> env.cancelled == old(env.cancelled)
      ensures old(env.cancelled) ==> env.cancelled
    {
      if step.Begin? {
        LinkedAfterBegin(Required(), batches, s.begun, t.ended, counts, step.call, id, kind, objs, before, trace, all0.Of(kind),
                         cluster.Contents().Of(kind), cluster.neverReady, env.faulty);
        trace := trace + [Begin(id, kind, step.call)];
      } else if step.Cancel? {
        env.cancelled := true;
      }
    }

    /** runLimited over the creates of one kind, with the counters that track keeps. */
    method RunLimited(id: nat, kind: Kind, objs: seq<Object>) returns (res: RL.Result, counts: CreateCounts)
      requires OpenFor(Required(), trace, batches, id, kind)
      requires |objs| == Total(kind, BatchAt(batches, id)) && forall o :: o in objs ==> FitsKind(kind, o)
      modifies `trace, cluster, env`cancelled
      ensures OpenFor(Required(), trace, batches, id, kind) && Continues(old(trace), trace, id)
      ensures CallsOf(counts) == Ends(trace) - Ends(old(trace)) <= |objs|
      ensures res == RL.Nil <==> CallsOf(counts) == |objs| && counts.failed == 0
      ensures res == RL.Nil ==> KindDone(trace, id, kind, BatchAt(batches, id)) && AllIn(objs, cluster.Contents().Of(kind))
      ensures Grows(old(cluster.Contents()).Of(kind), cluster.Contents().Of(kind), objs, cluster.neverReady)
      ensures AllIn(objs, old(cluster.Contents()).Of(kind)) ==>
                cluster.Contents().Of(kind) == old(cluster.Contents()).Of(kind) && counts.created == 0
      ensures !env.faulty ==>
                && counts.failed == 0
                && |cluster.Contents().Of(kind)| == |old(cluster.Contents()).Of(kind)| + counts.created
      ensures !env.faulty ==> env.cancelled == old(env.cancelled)
      ensures !env.faulty && !old(env.cancelled) ==> res == RL.Nil
      ensures old(env.cancelled) ==> env.cancelled
      ensures cluster.Contents() == old(cluster.Contents()).With(kind, cluster.Contents().Of(kind))
    {
      var conc := if opts.concurrency < 1 then 1 else opts.concurrency;
      assert conc == Required().conc;
      ghost var all0 := cluster.Contents();
      var s;
      s, counts := Drive(conc, id, kind, objs, all0);
      res := s.control.result;
      FinishedFacts(Required(), batches, s, counts, conc, id, kind, BatchAt(batches, id), objs, old(trace), trace,
                    all0.Of(kind), cluster.Contents().Of(kind), cluster.neverReady, env.faulty);
    }

    /** Steps until the system has returned. */
    method Drive(conc: nat, id: nat, kind: Kind, objs: seq<Object>, ghost all0: Stores)
      returns (s: RL.State, counts: CreateCounts)
      requires OpenFor(Required(), trace, batches, id, kind) && conc == Required().conc && all0 == cluster.Contents()
      requires forall o :: o in objs ==> FitsKind(kind, o)
      modifies `trace, cluster, env`cancelled
      ensures s.control.Returned? && RL.Inv(s, conc, |objs|)
      ensures Linked(s.begun, s.ended, s.cancelled, counts, id, kind, objs, old(trace), all0)
      ensures !env.faulty ==> env.cancelled == old(env.cancelled)
      ensures old(env.cancelled) ==> env.cancelled
    {
      var n := |objs|;
      s, counts := Start(n, id, kind, objs, all0);
      RL.InitInv(conc, n, env.cancelled);
      while !s.control.Returned?
        invariant RL.Inv(s, conc, n)
        invariant Linked(s.begun, s.ended, s.cancelled, counts, id, kind, objs, old(trace), all0)
        invariant !env.faulty ==> env.cancelled == old(env.cancelled)
        invariant old(env.cancelled) ==> env.cancelled
        decreases RL.Measure(s, n)
      {
        RL.MeasureBounds(s, conc, n);
        s, counts := Advance(s, counts, conc, id, kind, objs, old(trace), all0);
      }
    }

    /** Nothing spawned and nothing counted yet. */
    method Start(n: nat, id: nat, kind: Kind, objs: seq<Object>, ghost all0: Stores)
      returns (s: RL.State, counts: CreateCounts)
      requires OpenFor(Required(), trace, batches, id, kind) && all0 == cluster.Contents()
      ensures s == RL.Init(n, env.cancelled)
      ensures Linked(s.begun, s.ended, s.cancelled, counts, id, kind, objs, trace, all0)
    {
      s := RL.Init(n, env.cancelled);
      counts := CreateCounts(0, 0, 0);
      AuditStart(Required(), batches, counts, id, kind, objs, trace, all0.Of(kind), cluster.neverReady, env.faulty);
    }

    // -------------------------------------------------------------------
    // One batch
    // -------------------------------------------------------------------

    /** All creates of one kind, and what that leaves behind. */
    method CreateKind(id: nat, kind: Kind, batch: seq<Namespace>) returns (ok: bool, counts: CreateCounts)
      requires OpenFor(Required(), trace, batches, id, kind) && batch == BatchAt(batches, id)
      modifies `trace, cluster, env`cancelled
      ensures OpenFor(Required(), trace, batches, id, kind)
      ensures ok ==> KindDone(trace, id, kind, batch)
      ensures Continues(old(trace), trace, id)
      ensures ok <==> CallsOf(counts) == Total(kind, batch) && counts.failed == 0
      ensures CallsOf(counts) <= Total(kind, batch)
      ensures KindEffect(old(cluster.Contents()).Of(kind), cluster.Contents().Of(kind), kind, batch, counts)
      ensures ok ==> AllIn(Objects(graph, kind, batch), cluster.Contents().Of(kind))
      ensures cluster.Contents() == old(cluster.Contents()).With(kind, cluster.Contents().Of(kind))
      ensures Calm(old(env.cancelled), old(env.now)) && (!env.faulty && !old(env.cancelled) ==> ok)
    {
      var objs := Objects(graph, kind, batch);
      var res;
      res, counts := RunLimited(id, kind, objs);
      ok := res == RL.Nil;
    }

    /**
     * What creating does to one store: it keeps what it had and gains only what
     * was asked for; nothing if all was there; without faults, one object for
     * every create that is counted as made.
     */
    ghost predicate KindEffect(m0: Store, m: Store, kind: Kind, batch: seq<Namespace>, counts: CreateCounts) {
      var objs := Objects(graph, kind, batch);
      && Grows(m0, m, objs, cluster.neverReady)
      && (AllIn(objs, m0) ==> m == m0 && counts.created == 0)
      && (!env.faulty ==> |m| == |m0| + counts.created)
    }

    /** Time does not go back; cancellation is never taken back and only happens in a faulty environment. */
    ghost predicate Calm(before: bool, at: int)
      reads env
    {
      env.now >= at && (before ==> env.cancelled) && (!env.faulty ==> env.cancelled == before)
    }

    /** The kinds of rank below k are complete, the others untouched. */
    ghost predicate Through(s0: Stores, s: Stores, batch: seq<Namespace>, r: BatchReport, k: nat) {
      forall kind: Kind ::
        if Rank(kind) < k then
          && KindEffect(s0.Of(kind), s.Of(kind), kind, batch, CountsFor(r, kind))
          && CountsFor(r, kind).failed == 0 && CallsOf(CountsFor(r, kind)) == Total(kind, batch)
          && AllIn(Objects(graph, kind, batch), s.Of(kind))
        else s.Of(kind) == s0.Of(kind) && CountsFor(r, kind).created == 0
    }

    lemma NoEffect(m: Store, kind: Kind, batch: seq<Namespace>, counts: CreateCounts)
      requires counts.created == 0
      ensures KindEffect(m, m, kind, batch, counts)
    {
    }

    lemma ThroughStep(s0: Stores, s: Stores, m: Store, batch: seq<Namespace>, r: BatchReport, kind: Kind,
                      counts: CreateCounts)
      requires Through(s0, s, batch, r, Rank(kind))
      requires KindEffect(s.Of(kind), m, kind, batch, counts)
      ensures Effects(s0, s.With(kind, m), batch, WithCounts(r, kind, counts))
    {
      var s1, r1 := s.With(kind, m), WithCounts(r, kind, counts);
      forall k: Kind ensures KindEffect(s0.Of(k), s1.Of(k), k, batch, CountsFor(r1, k)) {
        OthersKept(s, m, r, kind, counts, k);
        if Rank(k) > Rank(kind) {
          NoEffect(s0.Of(k), k, batch, CountsFor(r, k));
        }
      }
      ThroughHoused(s0, s, m, batch, r, kind, counts);
    }

    /** Workloads come after the namespaces of their batch. */
    lemma ThroughHoused(s0: Stores, s: Stores, m: Store, batch: seq<Namespace>, r: BatchReport, kind: Kind,
                        counts: CreateCounts)
      requires Through(s0, s, batch, r, Rank(kind))
      requires KindEffect(s.Of(kind), m, kind, batch, counts)
      ensures Housed(s0, s.With(kind, m))
    {
      var s1 := s.With(kind, m);
      forall k: Kind | k != KNamespace ensures HousedIn(s0.Of(k), s1.Of(k), s1.ns) {
        OthersKept(s, m, r, kind, counts, k);
        if Rank(k) <= Rank(kind) {
          NamespacesThere(s0, s, m, batch, r, kind, counts);
          GrowsHoused(s0.Of(k), s1.Of(k), graph, k, batch, cluster.neverReady, s1.ns);
        }
      }
    }

    lemma NamespacesThere(s0: Stores, s: Stores, m: Store, batch: seq<Namespace>, r: BatchReport, kind: Kind,
                          counts: CreateCounts)
      requires Through(s0, s, batch, r, Rank(kind)) && kind != KNamespace
      ensures AllIn(Objects(graph, KNamespace, batch), s.With(kind, m).ns)
    {
      OthersKept(s, m, r, kind, counts, KNamespace);
      assert Rank(KNamespace) < Rank(kind);
      assert AllIn(Objects(graph, KNamespace, batch), s.Of(KNamespace));
    }

    lemma ThroughMore(s0: Stores, s: Stores, m: Store, batch: seq<Namespace>, r: BatchReport, kind: Kind,
                      counts: CreateCounts)
      requires Through(s0, s, batch, r, Rank(kind))
      requires Effects(s0, s.With(kind, m), batch, WithCounts(r, kind, counts))
      requires counts.failed == 0 && CallsOf(counts) == Total(kind, batch) && AllIn(Objects(graph, kind, batch), m)
      ensures Through(s0, s.With(kind, m), batch, WithCounts(r, kind, counts), Rank(kind) + 1)
    {
      forall k: Kind
        ensures k != kind ==> s.With(kind, m).Of(k) == s.Of(k) && CountsFor(WithCounts(r, kind, counts), k) == CountsFor(r, k)
        ensures s.With(kind, m).Of(kind) == m && CountsFor(WithCounts(r, kind, counts), kind) == counts
        ensures Rank(k) == Rank(kind) ==> k == kind
      {
        OthersKept(s, m, r, kind, counts, k);
      }
    }

    lemma ThroughAll(s0: Stores, s: Stores, batch: seq<Namespace>, r: BatchReport)
      requires Through(s0, s, batch, r, 4)
      ensures ReportIsFull(r, batch) && StoresHold(s, graph, batch)
    {
      forall kind: Kind
        ensures CountsFor(r, kind).failed == 0 && CallsOf(CountsFor(r, kind)) == Total(kind, batch)
        ensures AllIn(Objects(graph, kind, batch), s.Of(kind))
      {
        assert Rank(kind) < 4;
      }
    }

    lemma NoFailures(r: BatchReport, batch: seq<Namespace>)
      requires ReportIsFull(r, batch)
      ensures r.ns.failed + r.svc.failed + r.rt.failed + r.dep.failed == 0
    {
      assert CountsFor(r, KNamespace).failed == 0 && CountsFor(r, KService).failed == 0;
      assert CountsFor(r, KDeployment).failed == 0 && CountsFor(r, KRoute).failed == 0;
    }

    lemma OthersKept(s: Stores, m: Store, r: BatchReport, kind: Kind, counts: CreateCounts, k: Kind)
      ensures s.With(kind, m).Of(k) == if k == kind then m else s.Of(k)
      ensures CountsFor(WithCounts(r, kind, counts), k) == if k == kind then counts else CountsFor(r, k)
      ensures Rank(k) == Rank(kind) ==> k == kind
    {
    }

    /** The next kind of a batch, with its counters entered in the report. */
    method CreateNext(id: nat, kind: Kind, batch: seq<Namespace>, r: BatchReport, ghost s0: Stores)
      returns (ok: bool, r1: BatchReport)
      requires OpenFor(Required(), trace, batches, id, kind) && batch == BatchAt(batches, id)
      requires Through(s0, cluster.Contents(), batch, r, Rank(kind))
      modifies `trace, cluster, env`cancelled
      ensures OpenFor(Required(), trace, batches, id, if ok && kind != KNamespace then NextKind(kind) else kind)
      ensures ok ==> KindDone(trace, id, kind, batch)
      ensures Continues(old(trace), trace, id)
      ensures Effects(s0, cluster.Contents(), batch, r1)
      ensures ok ==> Through(s0, cluster.Contents(), batch, r1, Rank(kind) + 1)
      ensures Calm(old(env.cancelled), old(env.now)) && (!env.faulty && !old(env.cancelled) ==> ok)
    {
      ghost var s := cluster.Contents();
      var counts;
      ok, counts := CreateKind(id, kind, batch);
      r1 := WithCounts(r, kind, counts);
      ThroughStep(s0, s, cluster.Contents().Of(kind), batch, r, kind, counts);
      if ok {
        ThroughMore(s0, s, cluster.Contents().Of(kind), batch, r, kind, counts);
        if kind != KNamespace {
          NextKindOpens(Required(), trace, batches, id, kind);
        }
      }
    }

    /** Copies the pull secret into every namespace of the batch; stops at the first failure. */
    method CopySecrets(id: nat, batch: seq<Namespace>) returns (ok: bool)
      requires OpenFor(Required(), trace, batches, id, KNamespace) && batch == BatchAt(batches, id)
      requires KindDone(trace, id, KNamespace, batch)
      modifies `trace
      ensures OpenFor(Required(), trace, batches, id, KNamespace) && KindDone(trace, id, KNamespace, batch)
      ensures Continues(old(trace), trace, id)
      ensures ok ==> SecretsCopied(trace, id, batch)
      ensures !env.faulty ==> ok
    {
      for i := 0 to |batch|
        invariant OpenFor(Required(), trace, batches, id, KNamespace) && KindDone(trace, id, KNamespace, batch)
        invariant Continues(old(trace), trace, id)
        invariant forall j :: 0 <= j < i ==> Secret(id, j) in trace
      {
        var fault := env.Fault();
        if fault {
          return false;
        }
        StillOpen(Required(), batches, trace, Secret(id, i), id);
        KindDoneGrows(trace, trace + [Secret(id, i)], id, KNamespace, batch);
        trace := trace + [Secret(id, i)];
      }
      ok := true;
    }

    /** A secret is asked for, but not where to copy it from: creating stops after the namespaces. */
    predicate SecretMisconfigured() { opts.pullSecret && !opts.pullSecretFrom }

    method CreateBatch(id: nat, batch: seq<Namespace>) returns (ok: bool, r: BatchReport)
      requires OpenFor(Required(), trace, batches, id, KNamespace) && batch == BatchAt(batches, id)
      requires opts.hasCluster || opts.dryRun
      modifies `trace, cluster, env`cancelled
      ensures OpenFor(Required(), trace, batches, id, KNamespace)
      ensures Continues(old(trace), trace, id)
      ensures ok && !opts.dryRun ==> forall kind: Kind :: KindDone(trace, id, kind, batch)
      ensures ok ==> ReportIsFull(r, batch)
      ensures opts.dryRun ==> ok && trace == old(trace) && cluster.Contents() == old(cluster.Contents())
      ensures !opts.dryRun ==> Effects(old(cluster.Contents()), cluster.Contents(), batch, r)
      ensures !opts.dryRun && ok ==> StoresHold(cluster.Contents(), graph, batch)
      ensures Calm(old(env.cancelled), old(env.now))
      ensures !env.faulty && !old(env.cancelled) ==> ok || SecretMisconfigured()
    {
      if opts.dryRun || !opts.hasCluster {
        r := DryReport(id, batch);
        return true, r;
      }
      ok, r := CreateObjects(id, batch);
      if ok {
        ThroughAll(old(cluster.Contents()), cluster.Contents(), batch, r);
        NoFailures(r, batch);
        ok := r.ns.failed + r.svc.failed + r.rt.failed + r.dep.failed == 0;
      }
    }

    method DryReport(id: nat, batch: seq<Namespace>) returns (r: BatchReport)
      ensures ReportIsFull(r, batch)
    {
      var n := |Items(batch)|;
      r := BatchReport(id, CreateCounts(|batch|, 0, 0), CreateCounts(n, 0, 0), CreateCounts(n, 0, 0), CreateCounts(n, 0, 0));
    }

    method EmptyReport(id: nat) returns (r: BatchReport)
      ensures r.id == id && forall kind: Kind :: CountsFor(r, kind).created == 0
    {
      r := BatchReport(id, CreateCounts(0, 0, 0), CreateCounts(0, 0, 0), CreateCounts(0, 0, 0), CreateCounts(0, 0, 0));
    }

    /** Namespaces first, then the pull secret, then the workload; stops at the first failure. */
    method CreateObjects(id: nat, batch: seq<Namespace>) returns (ok: bool, r: BatchReport)
      requires OpenFor(Required(), trace, batches, id, KNamespace) && batch == BatchAt(batches, id) && !opts.dryRun
      modifies `trace, cluster, env`cancelled
      ensures OpenFor(Required(), trace, batches, id, KNamespace)
      ensures Continues(old(trace), trace, id)
      ensures ok ==> forall kind: Kind :: KindDone(trace, id, kind, batch)
      ensures ok ==> Through(old(cluster.Contents()), cluster.Contents(), batch, r, 4)
      ensures Effects(old(cluster.Contents()), cluster.Contents(), batch, r)
      ensures Calm(old(env.cancelled), old(env.now))
      ensures !env.faulty && !old(env.cancelled) ==> ok || SecretMisconfigured()
    {
      ghost var s0 := cluster.Contents();
      r := EmptyReport(id);
      ok, r := CreateNext(id, KNamespace, batch, r, s0);
      if !ok {
        return;
      }
      ok := ProvideSecrets(id, batch);
      if ok {
        ok, r := CreateWorkloads(id, batch, r, s0);
      }
    }

    /** Between the namespaces and the workload of a batch: the pull secret, if there is one. */
    method ProvideSecrets(id: nat, batch: seq<Namespace>) returns (ok: bool)
      requires OpenFor(Required(), trace, batches, id, KNamespace) && batch == BatchAt(batches, id)
      requires KindDone(trace, id, KNamespace, batch) && !opts.dryRun
      modifies `trace
      ensures OpenFor(Required(), trace, batches, id, if ok then KService else KNamespace)
      ensures Continues(old(trace), trace, id)
      ensures !env.faulty ==> ok || SecretMisconfigured()
    {
      ok := true;
      if opts.pullSecret {
        if !opts.pullSecretFrom {
          return false;
        }
        ok := CopySecrets(id, batch);
      }
      if ok {
        NextKindOpens(Required(), trace, batches, id, KNamespace);
      }
    }

    /** Services, deployments, routes. */
    method CreateWorkloads(id: nat, batch: seq<Namespace>, r0: BatchReport, ghost s0: Stores)
      returns (ok: bool, r: BatchReport)
      requires OpenFor(Required(), trace, batches, id, KService) && batch == BatchAt(batches, id)
      requires Through(s0, cluster.Contents(), batch, r0, 1)
      modifies `trace, cluster, env`cancelled
      ensures OpenFor(Required(), trace, batches, id, KService)
      ensures Continues(old(trace), trace, id)
      ensures ok ==> forall kind: Kind :: KindDone(trace, id, kind, batch)
      ensures ok ==> Through(s0, cluster.Contents(), batch, r, 4)
      ensures Effects(s0, cluster.Contents(), batch, r)
      ensures Calm(old(env.cancelled), old(env.now)) && (!env.faulty && !old(env.cancelled) ==> ok)
    {
      ok, r := CreateNext(id, KService, batch, r0, s0);
      if ok {
        ok, r := CreateFromDeployments(id, batch, r, s0);
      }
    }

    /** Deployments, routes. */
    method CreateFromDeployments(id: nat, batch: seq<Namespace>, r0: BatchReport, ghost s0: Stores)
      returns (ok: bool, r: BatchReport)
      requires OpenFor(Required(), trace, batches, id, KDeployment) && batch == BatchAt(batches, id)
      requires Through(s0, cluster.Contents(), batch, r0, 2)
      modifies `trace, cluster, env`cancelled
      ensures OpenFor(Required(), trace, batches, id, KDeployment)
      ensures Continues(old(trace), trace, id)
      ensures ok ==> forall kind: Kind :: KindDone(trace, id, kind, batch)
      ensures ok ==> Through(s0, cluster.Contents(), batch, r, 4)
      ensures Effects(s0, cluster.Contents(), batch, r)
      ensures Calm(old(env.cancelled), old(env.now)) && (!env.faulty && !old(env.cancelled) ==> ok)
    {
      ok, r := CreateNext(id, KDeployment, batch, r0, s0);
      if ok {
        ok, r := CreateRoutes(id, batch, r, s0);
      }
    }

    /** Routes close the batch. */
    method CreateRoutes(id: nat, batch: seq<Namespace>, r0: BatchReport, ghost s0: Stores)
      returns (ok: bool, r: BatchReport)
      requires OpenFor(Required(), trace, batches, id, KRoute) && batch == BatchAt(batches, id)
      requires Through(s0, cluster.Contents(), batch, r0, 3)
      modifies `trace, cluster, env`cancelled
      ensures OpenFor(Required(), trace, batches, id, KRoute)
      ensures Continues(old(trace), trace, id)
      ensures ok ==> forall kind: Kind :: KindDone(trace, id, kind, batch)
      ensures ok ==> Through(s0, cluster.Contents(), batch, r, 4)
      ensures Effects(s0, cluster.Contents(), batch, r)
      ensures Calm(old(env.cancelled), old(env.now)) && (!env.faulty && !old(env.cancelled) ==> ok)
    {
      ok, r := CreateNext(id, KRoute, batch, r0, s0);
      if ok {
        AllKindsDone(Required(), trace, batches, id);
      }
    }

    /** Every object of the batch was created or found, each exactly once, and none failed. */
    ghost predicate ReportIsFull(r: BatchReport, batch: seq<Namespace>) {
      forall kind: Kind :: CountsFor(r, kind).failed == 0 && CallsOf(CountsFor(r, kind)) == Total(kind, batch)
    }

    /** What a batch does to each store is what its report says, and no workload is left outside a namespace. */
    ghost predicate Effects(s0: Stores, s: Stores, batch: seq<Namespace>, r: BatchReport) {
      && (forall kind: Kind :: KindEffect(s0.Of(kind), s.Of(kind), kind, batch, CountsFor(r, kind)))
      && Housed(s0, s)
    }

    // -------------------------------------------------------------------
    // The phase log
    // -------------------------------------------------------------------

    ghost predicate Logged()
      reads `phases, `progress, `batches
    {
      Read(phases, |batches|) == Some(progress)
    }

    method Log(phase: Phase, batch: nat, skipped: bool)
      requires Logged() && Next(progress, PhaseEvent(phase, batch, skipped), |batches|).Some?
      modifies `phases, `progress
      ensures Logged() && progress == Next(old(progress), PhaseEvent(phase, batch, skipped), |batches|).value
    {
      var ev := PhaseEvent(phase, batch, skipped);
      ReadAppend(phases, ev, |batches|);
      phases := phases + [ev];
      progress := Next(progress, ev, |batches|).value;
    }

    // -------------------------------------------------------------------
    // Waiting and judging
    // -------------------------------------------------------------------

    /** One health probe, on the reference cluster always the same snapshot. */
    method Probe() returns (p: AbortGate.Probe)
      ensures !env.faulty ==> p.health == Some(steadyHealth)
    {
      if env.faulty {
        var h: AbortGate.Health := *;
        var failed: bool := *;
        return AbortGate.Probe(env.now, if failed then None else Some(h));
      }
      return AbortGate.Probe(env.now, Some(steadyHealth));
    }

    /** checkHealth: the gate decides; the log and the trace say what it decided. */
    method CheckHealth(id: nat) returns (ok: bool)
      requires Logged() && progress.stage == Wave(id, Measured) && gate.Ready(opts.safety)
      requires opts.hasCluster || opts.dryRun
      modifies `phases, `progress, `trace, `settles, gate
      ensures Logged()
      ensures trace == old(trace) + if Required().judges then [Judged(id, ok)] else []
      ensures ok ==> progress.stage == Wave(id, Checked) && gate.Ready(opts.safety)
      ensures !ok ==> progress.stage == Stopped(id) && gate.Tripped(opts.safety) && Required().judges
      ensures if Required().judges then Asked(old(gate.probes), ok) else gate.probes == old(gate.probes)
      ensures settles <==> ok && Required().judges && Uneasy()
      ensures !env.faulty && (Required().judges ==> !AbortGate.IsBad(opts.safety, steadyHealth)) ==> ok
    {
      settles := false;
      if opts.dryRun || !opts.hasCluster || !opts.safety.enabled {
        Log(HealthCheck, id, true);
        return true;
      }
      var probeFailed;
      ok, probeFailed := Judge(id);
      LogVerdict(id, ok, probeFailed);
    }

    /** One probe, and what the gate makes of it. */
    method Judge(id: nat) returns (ok: bool, probeFailed: bool)
      requires gate.Ready(opts.safety) && opts.safety.enabled
      modifies `trace, `settles, gate
      ensures trace == old(trace) + [Judged(id, ok)] && Asked(old(gate.probes), ok)
      ensures if ok then gate.Ready(opts.safety) else gate.Tripped(opts.safety)
      ensures settles <==> ok && Uneasy()
      ensures !env.faulty && !AbortGate.IsBad(opts.safety, steadyHealth) ==> ok
    {
      var probe := Probe();
      var outcome := gate.CheckHealth(opts.safety, probe);
      ok, probeFailed := outcome.Passed?, outcome == AbortGate.ProbeFailed;
      trace := trace + [Judged(id, ok)];
      settles := ok && SettlesAfter(outcome.level, probe.health.value);
      ProbeVerdict(opts.safety, gate.probes, probe);
    }

    /** One more probe was taken, and its verdict is what the history calls for. */
    ghost predicate Asked(before: seq<AbortGate.Probe>, ok: bool)
      reads gate
    {
      && |gate.probes| == |before| + 1 && gate.probes[..|before|] == before
      && (ok <==> !AbortGate.AbortsAt(opts.safety, gate.probes, |before|))
    }

    /** The last probe called for an abort that the grace held back, or found masters in trouble. */
    ghost predicate Uneasy()
      reads gate
    {
      gate.probes != [] &&
      var last := gate.probes[|gate.probes| - 1];
      last.health.Some? &&
      SettlesAfter(if AbortGate.BadProbe(opts.safety, last) then AbortGate.Warning else AbortGate.Normal, last.health.value)
    }

    /** The batch ended under warning, or with masters in trouble. */
    predicate SettlesAfter(level: AbortGate.Level, h: AbortGate.Health) {
      level == AbortGate.Warning || h.mastersMemoryPressure > 0 || h.mastersNotReady > 0
    }

    lemma ProbeVerdict(safety: AbortGate.Safety, probes: seq<AbortGate.Probe>, probe: AbortGate.Probe)
      requires probes != [] && probes[|probes| - 1] == probe
      ensures probe.health.Some? && !AbortGate.IsBad(safety, probe.health.value) ==>
                !AbortGate.AbortsAt(safety, probes, |probes| - 1)
    {
    }

    /** What the log says of a verdict: a failed probe is announced before the abort. */
    method LogVerdict(id: nat, ok: bool, probeFailed: bool)
      requires Logged() && progress.stage == Wave(id, Measured)
      modifies `phases, `progress
      ensures Logged() && progress.stage == if ok then Wave(id, Checked) else Stopped(id)
    {
      if ok || probeFailed {
        Log(HealthCheck, id, false);
      }
      if !ok {
        Log(Aborted, id, false);
      }
    }

    method WaitForBatch(id: nat, batch: seq<Namespace>) returns (ok: bool)
      requires Logged() && progress.stage == Wave(id, Creating)
      requires opts.hasCluster || opts.dryRun
      modifies `phases, `progress, `trace, env
      ensures Logged()
      ensures trace == old(trace) + if Required().waits then [Waited(id, ok)] else []
      ensures progress.stage == Wave(id, if ok then Waiting else WaitFailed)
      ensures ok && Required().waits ==> Readiness.BatchReady(cluster, batch)
      ensures !Required().waits ==> ok
      ensures Calm(old(env.cancelled), old(env.now))
      ensures !env.faulty && !old(env.cancelled) && (Required().waits ==> Readiness.BatchReady(cluster, batch)) ==> ok
    {
      Log(WaitForReady, id, false);
      if opts.waitForReady && !opts.dryRun {
        ok := Readiness.WaitReady(cluster, env, batch, opts.readinessTimeout, opts.pollInterval);
        trace := trace + [Waited(id, ok)];
        if !ok {
          Log(WaitForReady, id, false);
        }
      } else {
        ok := true;
      }
    }

    // -------------------------------------------------------------------
    // One batch, start to end
    // -------------------------------------------------------------------

    /** Where the log must stand for batch `id` to start. */
    ghost predicate MayStart(id: nat)
      reads `progress
    {
      id >= 1 &&
      if id == 1 then progress.stage == Planned(2)
      else progress.stage == Wave(id - 1, Checked) || progress.stage == Wave(id - 1, Settling)
    }

    /** Where the log may stand when the run stops in batch `id`. */
    ghost predicate StoppedIn(id: nat)
      reads `progress
    {
      progress.stage == Stopped(id) || Within(id)
    }

    ghost predicate Within(id: nat)
      reads `progress
    {
      progress.stage.Wave? && progress.stage.batch == id
    }

    /** The verdicts in the trace are those on the probes; the log tells of an abort exactly if the gate tripped. */
    ghost predicate GateSays(id: nat)
      reads `trace, `progress, gate
    {
      && AbortGate.AsJudged(opts.safety, Verdicts(trace), gate.probes)
      && if id >= 1 && progress.stage == Stopped(id) then gate.Tripped(opts.safety) else gate.Ready(opts.safety)
    }

    /** Creates the objects of a batch and waits for them. */
    method CreateAndWait(id: nat, batch: seq<Namespace>) returns (ok: bool, r: BatchReport)
      requires OpenFor(Required(), trace, batches, id, KNamespace) && batch == BatchAt(batches, id)
      requires Logged() && MayStart(id) && (opts.hasCluster || opts.dryRun)
      modifies `phases, `progress, `trace, cluster, env
      ensures Logged() && if ok then progress.stage == Wave(id, Waiting) else Within(id)
      ensures OpenFor(Required(), trace, batches, id, KNamespace)
      ensures Continues(old(trace), trace, id)
      ensures ok ==> WaveDone(Required().(judges := false), trace, batches, id) && ReportIsFull(r, batch)
      ensures opts.dryRun ==> cluster.Contents() == old(cluster.Contents())
      ensures !opts.dryRun ==> Effects(old(cluster.Contents()), cluster.Contents(), batch, r)
      ensures ok && !opts.dryRun ==> StoresHold(cluster.Contents(), graph, batch)
      ensures ok && Required().waits ==> Readiness.BatchReady(cluster, batch)
      ensures Calm(old(env.cancelled), old(env.now))
      ensures !env.faulty && !old(env.cancelled) && !opts.dryRun ==>
                SecretMisconfigured() || (StoresHold(cluster.Contents(), graph, batch)
                                          && (ok || (opts.waitForReady && !Readiness.BatchReady(cluster, batch))))
      ensures opts.dryRun ==> ok
    {
      StartBatch(id);
      ok, r := CreateBatch(id, batch);
      if !ok {
        return;
      }
      ghost var t := trace;
      ok := WaitForBatch(id, batch);
      AfterWait(Required(), old(trace), t, trace, batches, id, ok);
    }

    method StartBatch(id: nat)
      requires Logged() && MayStart(id) && id <= |batches|
      modifies `phases, `progress
      ensures Logged() && progress.stage == Wave(id, Creating)
    {
      Log(BatchStart, id, false);
      Log(ObjectCreation, id, false);
    }

    method RunBatch(id: nat, batch: seq<Namespace>) returns (ok: bool, r: BatchReport)
      requires OpenFor(Required(), trace, batches, id, KNamespace) && batch == BatchAt(batches, id)
      requires Logged() && MayStart(id) && GateSays(id) && (opts.hasCluster || opts.dryRun)
      modifies `phases, `progress, `trace, `settles, `reports, cluster, env, gate
      ensures Logged() && if ok then progress.stage == Wave(id, Checked) else StoppedIn(id)
      ensures OpenFor(Required(), trace, batches, id, KNamespace)
      ensures Extends(old(trace), trace, id) && GateSays(id)
      ensures ok ==> WaveDone(Required(), trace, batches, id)
      ensures reports == old(reports) + [r]
      ensures ok ==> ReportIsFull(r, batch) && (settles <==> Required().judges && Uneasy())
      ensures opts.dryRun ==> cluster.Contents() == old(cluster.Contents())
      ensures !opts.dryRun ==> Effects(old(cluster.Contents()), cluster.Contents(), batch, r)
      ensures ok && !opts.dryRun ==> StoresHold(cluster.Contents(), graph, batch)
      ensures ok && Required().waits ==> Readiness.BatchReady(cluster, batch)
      ensures Calm(old(env.cancelled), old(env.now))
      ensures !env.faulty && !old(env.cancelled) && (Required().judges ==> !AbortGate.IsBad(opts.safety, steadyHealth)) ==>
                || ok
                || (!opts.dryRun && SecretMisconfigured())
                || (!opts.dryRun && StoresHold(cluster.Contents(), graph, batch)
                    && opts.waitForReady && !Readiness.BatchReady(cluster, batch))
    {
      ghost var before := trace;
      ok, r := CreateAndWait(id, batch);
      VerdictsKept(before, trace);
      if ok {
        ok := MeasureAndJudge(id, before);
      }
      reports := reports + [r];
    }

    /** The end of a batch whose objects are there and ready. */
    method MeasureAndJudge(id: nat, ghost before: Trace) returns (ok: bool)
      requires OpenFor(Required(), trace, batches, id, KNamespace) && Continues(before, trace, id)
      requires WaveDone(Required().(judges := false), trace, batches, id)
      requires Logged() && progress.stage == Wave(id, Waiting) && GateSays(id) && (opts.hasCluster || opts.dryRun)
      modifies `phases, `progress, `trace, `settles, gate
      ensures Logged() && if ok then progress.stage == Wave(id, Checked) else progress.stage == Stopped(id)
      ensures OpenFor(Required(), trace, batches, id, KNamespace)
      ensures Extends(before, trace, id) && GateSays(id)
      ensures ok ==> WaveDone(Required(), trace, batches, id) && (settles <==> Required().judges && Uneasy())
      ensures !env.faulty && (Required().judges ==> !AbortGate.IsBad(opts.safety, steadyHealth)) ==> ok
    {
      Log(BatchMeasurement, id, false);
      ghost var t, probes := trace, gate.probes;
      ok := CheckHealth(id);
      VerdictsKept(before, t);
      AfterJudging(Required(), before, t, trace, batches, id, ok);
      if Required().judges {
        StillAsJudged(Verdicts(t), probes, ok);
      }
    }

    lemma StillAsJudged(verdicts: seq<bool>, before: seq<AbortGate.Probe>, ok: bool)
      requires AbortGate.AsJudged(opts.safety, verdicts, before) && Asked(before, ok)
      ensures AbortGate.AsJudged(opts.safety, verdicts + [ok], gate.probes)
    {
      var p := gate.probes[|before|];
      assert gate.probes == before + [p];
      AbortGate.AsJudgedMore(opts.safety, verdicts, before, p, ok);
    }

    // -------------------------------------------------------------------
    // Batch after batch
    // -------------------------------------------------------------------

    /**
     * What a run that got to the namespaces `touched` and completed those in `done`
     * has made of the cluster, in terms of its reports.
     */
    ghost predicate Ledger(s0: Stores, s: Stores, touched: seq<Namespace>, done: seq<Namespace>, reports: seq<BatchReport>) {
      if opts.dryRun then s == s0
      else
        && StoresGrow(s0, s, graph, touched, cluster.neverReady) && Housed(s0, s)
        && StoresHold(s, graph, done)
        && (StoresHold(s0, graph, touched) ==> s == s0 && forall kind: Kind :: CreatedBy(reports, kind) == 0)
        && (!env.faulty ==> forall kind: Kind :: |s.Of(kind)| == |s0.Of(kind)| + CreatedBy(reports, kind))
    }

    lemma LedgerStart(s0: Stores)
      ensures Ledger(s0, s0, [], [], [])
    {
      if !opts.dryRun {
        forall kind: Kind ensures Objects(graph, kind, []) == [] {
        }
      }
    }

    lemma NothingNew(s: Stores, s1: Stores, batch: seq<Namespace>, r: BatchReport)
      requires Effects(s, s1, batch, r) && StoresHold(s, graph, batch)
      ensures s1 == s && forall kind: Kind :: CountsFor(r, kind).created == 0
    {
      forall kind: Kind ensures s1.Of(kind) == s.Of(kind) && CountsFor(r, kind).created == 0 {
        assert AllIn(Objects(graph, kind, batch), s.Of(kind));
        assert KindEffect(s.Of(kind), s1.Of(kind), kind, batch, CountsFor(r, kind));
      }
      assert s1.ns == s1.Of(KNamespace) && s1.svc == s1.Of(KService);
      assert s1.dep == s1.Of(KDeployment) && s1.rt == s1.Of(KRoute);
    }

    lemma EffectsGrow(s: Stores, s1: Stores, batch: seq<Namespace>, r: BatchReport)
      requires Effects(s, s1, batch, r)
      ensures StoresGrow(s, s1, graph, batch, cluster.neverReady)
      ensures !env.faulty ==> forall kind: Kind :: |s1.Of(kind)| == |s.Of(kind)| + CountsFor(r, kind).created
    {
      forall kind: Kind
        ensures Grows(s.Of(kind), s1.Of(kind), Objects(graph, kind, batch), cluster.neverReady)
        ensures !env.faulty ==> |s1.Of(kind)| == |s.Of(kind)| + CountsFor(r, kind).created
      {
        assert KindEffect(s.Of(kind), s1.Of(kind), kind, batch, CountsFor(r, kind));
      }
    }

    /** The ledger after one more batch, finished or not. */
    lemma LedgerStep(s0: Stores, s: Stores, s1: Stores, touched: seq<Namespace>, done: seq<Namespace>,
                     reports: seq<BatchReport>, batch: seq<Namespace>, r: BatchReport)
      requires Ledger(s0, s, touched, done, reports)
      requires if opts.dryRun then s1 == s else Effects(s, s1, batch, r)
      ensures Ledger(s0, s1, touched + batch, done, reports + [r])
      ensures (!opts.dryRun ==> StoresHold(s1, graph, batch)) ==> Ledger(s0, s1, touched + batch, done + batch, reports + [r])
    {
      if !opts.dryRun {
        EffectsGrow(s, s1, batch, r);
        StoresGrowMore(s0, s, s1, graph, touched, batch, cluster.neverReady);
        HousedOn(s0, s, s1, graph, batch, cluster.neverReady);
        StoresHoldOn(s, s1, graph, done, batch, cluster.neverReady);
        if StoresHold(s1, graph, batch) {
          StoresHoldBoth(s1, graph, done, batch);
        }
        assert (reports + [r])[..|reports|] == reports;
        if StoresHold(s0, graph, touched + batch) {
          HeldBefore(s0, graph, touched, batch);
          HeldAfter(s0, graph, touched, batch);
          NothingNew(s, s1, batch, r);
        }
      }
    }

    /** Batches 1..k are over and the next may start; the details are asked for by naming Between. */
    ghost predicate Going(plan: seq<seq<Namespace>>, k: nat, s0: Stores)
      reads this, cluster, gate
    {
      forall j: nat :: j == k ==> Between(plan, j, s0)
    }

    ghost predicate Between(plan: seq<seq<Namespace>>, k: nat, s0: Stores)
      reads this, cluster, gate
    {
      && plan == batches && Flatten(plan) == graph.namespaces && k <= |plan| == |batches|
      && InOrder(k, k)
      && Logged() && MayStart(k + 1) && (k > 0 && k == |plan| ==> progress.stage == Wave(k, Checked))
      && GateSays(k) && (opts.hasCluster || opts.dryRun)
      && Ledger(s0, cluster.Contents(), Flatten(plan[..k]), Flatten(plan[..k]), reports)
      && BatchesReady(cluster.Contents(), k)
      && |reports| == k && forall i :: 0 <= i < k ==> ReportIsFull(reports[i], plan[i])
    }

    /** The run stopped in batch k. */
    ghost predicate Halted(plan: seq<seq<Namespace>>, k: nat, s0: Stores)
      reads this, cluster, gate
    {
      && plan == batches && Flatten(plan) == graph.namespaces && 1 <= k <= |batches|
      && InOrder(k, k - 1)
      && Logged() && StoppedIn(k) && GateSays(k)
      && Ledger(s0, cluster.Contents(), Flatten(plan[..k]), Flatten(plan[..k - 1]), reports)
      && BatchesReady(cluster.Contents(), k - 1)
    }

    /** Where the run waits, the first batches are ready in a cluster that holds s. */
    ghost predicate BatchesReady(s: Stores, done: nat)
      reads `batches
    {
      done <= |batches|
      && (Required().waits ==> forall i :: 0 <= i < done ==> Readiness.HeldReady(s, cluster.neverReady, batches[i]))
    }

    /** The barrier holds, nothing beyond batch k was touched, batches 1..done are complete, and nothing is in flight. */
    ghost predicate InOrder(k: nat, done: nat)
      reads `trace, `batches
    {
      && done <= |batches| && Ordered(Required(), trace, batches) && UpTo(trace, k)
      && WavesDone(Required(), trace, batches, done) && InFlight(trace) == 0
    }

    lemma FlattenNext(plan: seq<seq<Namespace>>, k: nat)
      requires k < |plan|
      ensures Flatten(plan[..k + 1]) == Flatten(plan[..k]) + plan[k]
    {
      assert plan[..k + 1] == plan[..k] + [plan[k]];
      FlattenConcat(plan[..k], [plan[k]]);
      assert [plan[k]][1..] == [] && Flatten([plan[k]]) == plan[k] + [];
    }

    /** Nothing outside the run can make it fail, given what the cluster held at the start. */
    ghost predicate Sure(s0: Stores) {
      && !env.faulty
      && (Required().judges ==> !AbortGate.IsBad(opts.safety, steadyHealth))
      && (opts.dryRun ||
          (!SecretMisconfigured() &&
           (opts.waitForReady ==>
              && !cluster.neverReady && PresentIsReady(s0, graph.namespaces)
              && forall it :: it in Items(graph.namespaces) ==> it.1.replicas > 0)))
    }

    /** A batch that is wholly in the cluster is ready, if what was there before was. */
    lemma WholeBatchReady(plan: seq<seq<Namespace>>, k: nat, batch: seq<Namespace>)
      requires Flatten(plan) == graph.namespaces && k < |plan| && plan[k] == batch
      requires !cluster.neverReady && PresentIsReady(cluster.Contents(), graph.namespaces)
      requires StoresHold(cluster.Contents(), graph, batch)
      ensures Readiness.BatchReady(cluster, batch)
    {
      forall i | 0 <= i < |batch| ensures Readiness.Whole(cluster, batch[i]) {
        OneNamespaceReady(plan, k, batch, i);
      }
    }

    lemma OneNamespaceReady(plan: seq<seq<Namespace>>, k: nat, batch: seq<Namespace>, i: nat)
      requires Flatten(plan) == graph.namespaces && k < |plan| && plan[k] == batch && i < |batch|
      requires !cluster.neverReady && PresentIsReady(cluster.Contents(), graph.namespaces)
      requires StoresHold(cluster.Contents(), graph, batch)
      ensures Readiness.Whole(cluster, batch[i])
    {
      NamespaceOfBatch(plan, k, batch[i]);
      HoldsNamespace(cluster.Contents(), graph, batch, i);
      forall j | 0 <= j < |batch[i].pairs|
        ensures cluster.DeploymentReady((batch[i], batch[i].pairs[j])) && cluster.RouteAdmitted((batch[i], batch[i].pairs[j]))
      {
        PairBecomesReady(plan, k, batch, (batch[i], batch[i].pairs[j]));
      }
    }

    lemma PairBecomesReady(plan: seq<seq<Namespace>>, k: nat, batch: seq<Namespace>, it: (Namespace, Pair))
      requires Flatten(plan) == graph.namespaces && k < |plan| && plan[k] == batch
      requires it.0 in batch && it.1 in it.0.pairs && !cluster.neverReady
      requires DeploymentsReady(cluster.dep, Items(graph.namespaces)) && StoresHold(cluster.Contents(), graph, batch)
      ensures cluster.DeploymentReady(it) && cluster.RouteAdmitted(it)
    {
      ItemOfBatch(plan, k, it);
      HoldsItem(cluster.Contents(), graph, batch, it);
      assert DeploymentKey(it) in cluster.dep && ReadyDeployment(cluster.dep[DeploymentKey(it)]);
    }

    method RunWave(plan: seq<seq<Namespace>>, k: nat, ghost s0: Stores) returns (ok: bool)
      requires k < |plan| && Going(plan, k, s0)
      modifies `phases, `progress, `trace, `settles, `reports, cluster, env, gate
      ensures if ok then Going(plan, k + 1, s0) && progress.stage == Wave(k + 1, Checked) else Halted(plan, k + 1, s0)
      ensures ok ==> (settles <==> Required().judges && Uneasy())
      ensures Calm(old(env.cancelled), old(env.now)) && (Sure(s0) && !old(env.cancelled) ==> ok)
    {
      WaveMayStart(plan, k, s0);
      ghost var s, t, rs := cluster.Contents(), trace, reports;
      var r;
      ok, r := RunBatch(k + 1, plan[k]);
      StandsAfterWave(plan, k, s0, s, t, rs, r, ok);
      if Sure(s0) && !opts.dryRun && opts.waitForReady && StoresHold(cluster.Contents(), graph, plan[k]) {
        PresentStaysReady(plan, k + 1, s0);
        WholeBatchReady(plan, k, plan[k]);
      }
    }

    /** How the run stands after a batch, from how it stood before and what the batch did. */
    lemma StandsAfterWave(plan: seq<seq<Namespace>>, k: nat, s0: Stores, s: Stores, t: Trace, rs: seq<BatchReport>,
                          r: BatchReport, ok: bool)
      requires plan == batches && Flatten(plan) == graph.namespaces && k < |plan|
      requires UpTo(t, k) && WavesDone(Required(), t, batches, k) && BatchesReady(s, k)
      requires Ledger(s0, s, Flatten(plan[..k]), Flatten(plan[..k]), rs)
      requires |rs| == k && forall i :: 0 <= i < k ==> ReportIsFull(rs[i], plan[i])
      requires OpenFor(Required(), trace, batches, k + 1, KNamespace) && Extends(t, trace, k + 1)
      requires if opts.dryRun then cluster.Contents() == s else Effects(s, cluster.Contents(), plan[k], r)
      requires Logged() && GateSays(k + 1) && (opts.hasCluster || opts.dryRun) && reports == rs + [r]
      requires if ok then progress.stage == Wave(k + 1, Checked) else StoppedIn(k + 1)
      requires ok ==> WaveDone(Required(), trace, batches, k + 1) && ReportIsFull(r, plan[k])
      requires ok && !opts.dryRun ==> StoresHold(cluster.Contents(), graph, plan[k])
      requires ok && Required().waits ==> Readiness.BatchReady(cluster, plan[k])
      ensures if ok then Going(plan, k + 1, s0) else Halted(plan, k + 1, s0)
      ensures !opts.dryRun ==> StoresGrow(s0, cluster.Contents(), graph, Flatten(plan[..k + 1]), cluster.neverReady)
    {
      OrderAfterWave(t, k, ok);
      LedgerAfterWave(plan, k, s0, s, rs, r, ok);
      ReadyAfterWave(plan, k, s, r, ok);
      if ok {
        WaveSucceeds(plan, k, s0, rs, r);
      } else {
        WaveFails(plan, k, s0);
      }
    }

    lemma OrderAfterWave(t: Trace, k: nat, ok: bool)
      requires k < |batches| && UpTo(t, k) && WavesDone(Required(), t, batches, k)
      requires OpenFor(Required(), trace, batches, k + 1, KNamespace) && Extends(t, trace, k + 1)
      requires ok ==> WaveDone(Required(), trace, batches, k + 1)
      ensures InOrder(k + 1, if ok then k + 1 else k)
    {
      UpToGrows(t, trace, k + 1);
      WavesDoneGrow(Required(), t, trace, batches, k);
    }

    lemma LedgerAfterWave(plan: seq<seq<Namespace>>, k: nat, s0: Stores, s: Stores, rs: seq<BatchReport>,
                          r: BatchReport, ok: bool)
      requires k < |plan| && Ledger(s0, s, Flatten(plan[..k]), Flatten(plan[..k]), rs)
      requires if opts.dryRun then cluster.Contents() == s else Effects(s, cluster.Contents(), plan[k], r)
      requires ok && !opts.dryRun ==> StoresHold(cluster.Contents(), graph, plan[k])
      ensures Ledger(s0, cluster.Contents(), Flatten(plan[..k + 1]), Flatten(plan[..if ok then k + 1 else k]), rs + [r])
    {
      FlattenNext(plan, k);
      LedgerStep(s0, s, cluster.Contents(), Flatten(plan[..k]), Flatten(plan[..k]), rs, plan[k], r);
    }

    lemma ReadyAfterWave(plan: seq<seq<Namespace>>, k: nat, s: Stores, r: BatchReport, ok: bool)
      requires plan == batches && k < |plan| && BatchesReady(s, k)
      requires if opts.dryRun then cluster.Contents() == s else Effects(s, cluster.Contents(), plan[k], r)
      requires ok && Required().waits ==> Readiness.BatchReady(cluster, plan[k])
      ensures BatchesReady(cluster.Contents(), if ok then k + 1 else k)
    {
      if Required().waits {
        EffectsGrow(s, cluster.Contents(), plan[k], r);
        forall i | 0 <= i < k ensures Readiness.HeldReady(cluster.Contents(), cluster.neverReady, batches[i]) {
          Readiness.ReadyStays(s, cluster.Contents(), cluster.neverReady, batches[i], graph, plan[k]);
        }
        if ok {
          Readiness.HeldReadyIsReady(cluster, plan[k]);
        }
      }
    }

    /** How the run stands after a batch that succeeded. */
    lemma WaveSucceeds(plan: seq<seq<Namespace>>, k: nat, s0: Stores, rs: seq<BatchReport>, r: BatchReport)
      requires plan == batches && Flatten(plan) == graph.namespaces && k < |plan|
      requires InOrder(k + 1, k + 1)
      requires Ledger(s0, cluster.Contents(), Flatten(plan[..k + 1]), Flatten(plan[..k + 1]), reports)
      requires BatchesReady(cluster.Contents(), k + 1)
      requires |rs| == k && forall i :: 0 <= i < k ==> ReportIsFull(rs[i], plan[i])
      requires reports == rs + [r] && ReportIsFull(r, plan[k])
      requires Logged() && progress.stage == Wave(k + 1, Checked) && GateSays(k + 1) && (opts.hasCluster || opts.dryRun)
      ensures Going(plan, k + 1, s0)
    {
      ReportsMore(plan, k, rs, r);
      assert Between(plan, k + 1, s0);
    }

    lemma ReportsMore(plan: seq<seq<Namespace>>, k: nat, rs: seq<BatchReport>, r: BatchReport)
      requires k < |plan| && |rs| == k && ReportIsFull(r, plan[k])
      requires forall i :: 0 <= i < k ==> ReportIsFull(rs[i], plan[i])
      ensures forall i :: 0 <= i < k + 1 ==> ReportIsFull((rs + [r])[i], plan[i])
    {
    }

    /** How it stands after one that failed. */
    lemma WaveFails(plan: seq<seq<Namespace>>, k: nat, s0: Stores)
      requires plan == batches && Flatten(plan) == graph.namespaces && k < |plan|
      requires InOrder(k + 1, k) && Logged() && StoppedIn(k + 1) && GateSays(k + 1)
      requires Ledger(s0, cluster.Contents(), Flatten(plan[..k + 1]), Flatten(plan[..k]), reports)
      requires BatchesReady(cluster.Contents(), k)
      ensures Halted(plan, k + 1, s0)
    {
    }

    /** What was ready stays ready, and what is created is. */
    lemma PresentStaysReady(plan: seq<seq<Namespace>>, k: nat, s0: Stores)
      requires Flatten(plan) == graph.namespaces && k <= |plan| && !cluster.neverReady
      requires StoresGrow(s0, cluster.Contents(), graph, Flatten(plan[..k]), false)
      requires PresentIsReady(s0, graph.namespaces) && forall it :: it in Items(graph.namespaces) ==> it.1.replicas > 0
      ensures PresentIsReady(cluster.Contents(), graph.namespaces)
    {
      StoresGrowSlices(s0, cluster.Contents(), graph, plan, k, false);
      GrowthKeepsReady(s0, cluster.Contents(), graph);
    }

    /** What is known between two batches, as the next one needs it. */
    lemma WaveMayStart(plan: seq<seq<Namespace>>, k: nat, s0: Stores)
      requires k < |plan| && Going(plan, k, s0)
      ensures plan == batches && Flatten(plan) == graph.namespaces
      ensures OpenFor(Required(), trace, batches, k + 1, KNamespace) && plan[k] == BatchAt(batches, k + 1)
      ensures UpTo(trace, k) && WavesDone(Required(), trace, batches, k)
      ensures Logged() && MayStart(k + 1) && GateSays(k + 1) && (opts.hasCluster || opts.dryRun)
      ensures Ledger(s0, cluster.Contents(), Flatten(plan[..k]), Flatten(plan[..k]), reports)
      ensures BatchesReady(cluster.Contents(), k)
      ensures |reports| == k && forall i :: 0 <= i < k ==> ReportIsFull(reports[i], plan[i])
    {
      assert Between(plan, k, s0);
    }

    /** Between two waves: a longer pause after a warning, and a log line that says so. */
    method PauseAfter(plan: seq<seq<Namespace>>, k: nat, ghost s0: Stores) returns (ok: bool)
      requires 0 < k < |plan| && Going(plan, k, s0) && progress.stage == Wave(k, Checked)
      modifies `phases, `progress, env
      ensures Going(plan, k, s0)
      ensures Calm(old(env.cancelled), old(env.now)) && (!env.faulty && !old(env.cancelled) ==> ok)
      ensures ok ==> env.now >= old(env.now) + SettleDelay(opts.batchDelay, settles)
      ensures ok && settles ==> env.now >= old(env.now) + SETTLE_EXTRA
      ensures ok ==> env.now >= old(env.now) + Max(opts.batchDelay, 0)
    {
      assert Between(plan, k, s0);
      if settles {
        Log(HealthCheck, k, false);
      }
      SettleDelayIsLong(opts.batchDelay, settles);
      ok := env.Sleep(SettleDelay(opts.batchDelay, settles));
      assert Between(plan, k, s0);
    }

    method RunBatches(plan: seq<seq<Namespace>>, ghost s0: Stores) returns (ok: bool, reached: nat)
      requires Going(plan, 0, s0)
      modifies `phases, `progress, `trace, `settles, `reports, cluster, env, gate
      ensures reached <= |plan|
      ensures ok ==> reached == |plan| && Going(plan, reached, s0)
      ensures !ok ==> Halted(plan, reached, s0)
      ensures ok ==> env.now >= old(env.now) + Pauses(|plan| - 1, opts.batchDelay)
      ensures Calm(old(env.cancelled), old(env.now)) && (Sure(s0) && !old(env.cancelled) ==> ok)
    {
      reached := 0;
      while reached < |plan|
        invariant reached <= |plan| && Going(plan, reached, s0)
        invariant Calm(old(env.cancelled), old(env.now))
        invariant env.now >= old(env.now) + Pauses(if reached < |plan| then reached else |plan| - 1, opts.batchDelay)
      {
        ok := RunWave(plan, reached, s0);
        reached := reached + 1;
        if !ok {
          return;
        }
        if reached < |plan| {
          ok := PauseAfter(plan, reached, s0);
          if !ok {
            GoingIsHalted(plan, reached, s0);
            return;
          }
        }
      }
      ok := true;
    }

    /** A run that is cancelled between two batches counts as stopped in the earlier one. */
    lemma GoingIsHalted(plan: seq<seq<Namespace>>, k: nat, s0: Stores)
      requires 1 <= k <= |plan| && Going(plan, k, s0)
      ensures Halted(plan, k, s0)
    {
      assert Between(plan, k, s0);
      assert Ledger(s0, cluster.Contents(), Flatten(plan[..k]), Flatten(plan[..k - 1]), reports) by {
        FlattenNext(plan, k - 1);
        LedgerOfPart(s0, cluster.Contents(), Flatten(plan[..k]), Flatten(plan[..k - 1]), plan[k - 1], reports);
      }
      assert InOrder(k, k - 1) by {
        InOrderBefore(k);
      }
    }

    lemma InOrderBefore(k: nat)
      requires k >= 1 && InOrder(k, k)
      ensures InOrder(k, k - 1)
    {
    }

    /** What is complete of two slices is complete of the first. */
    lemma LedgerOfPart(s0: Stores, s: Stores, touched: seq<Namespace>, a: seq<Namespace>, b: seq<Namespace>,
                       reports: seq<BatchReport>)
      requires Ledger(s0, s, touched, a + b, reports)
      ensures Ledger(s0, s, touched, a, reports)
    {
      if !opts.dryRun {
        HeldBefore(s, graph, a, b);
      }
    }

    /** One tick of rate mode: a wave, and the rest of the interval unless it was the last. */
    method RateTick(plan: seq<seq<Namespace>>, k: nat, ghost s0: Stores) returns (ok: bool, reached: nat)
      requires k < |plan| && Going(plan, k, s0)
      modifies `phases, `progress, `trace, `settles, `reports, cluster, env, gate
      ensures if ok then reached == k + 1 && Going(plan, k + 1, s0) else RateEnded(plan, reached, s0)
      ensures ok && k + 1 < |plan| ==> env.now >= old(env.now) + Max(opts.rateInterval, 0)
      ensures Calm(old(env.cancelled), old(env.now)) && (Sure(s0) && !old(env.cancelled) ==> ok)
    {
      var cancelled := env.Cancelled();
      if cancelled {
        ok, reached := false, k;
        if k > 0 {
          GoingIsHalted(plan, k, s0);
        }
        return;
      }
      var tick := env.now;
      ok := RunWave(plan, k, s0);
      reached := k + 1;
      if ok && k + 1 < |plan| {
        ok := env.Sleep(opts.rateInterval - (env.now - tick));
        if !ok {
          GoingIsHalted(plan, k + 1, s0);
        }
      }
    }

    /** A run that fails before its first batch has nothing to halt. */
    ghost predicate RateEnded(plan: seq<seq<Namespace>>, k: nat, s0: Stores)
      reads this, cluster, gate
    {
      if k == 0 then Going(plan, 0, s0) else Halted(plan, k, s0)
    }

    /** Rate mode: one namespace per tick, no settle pause. */
    method RunRate(plan: seq<seq<Namespace>>, ghost s0: Stores) returns (ok: bool, reached: nat)
      requires Going(plan, 0, s0)
      modifies `phases, `progress, `trace, `settles, `reports, cluster, env, gate
      ensures if ok then reached == |plan| && Going(plan, reached, s0) else RateEnded(plan, reached, s0)
      ensures ok ==> env.now >= old(env.now) + Pauses(|plan| - 1, opts.rateInterval)
      ensures Calm(old(env.cancelled), old(env.now)) && (Sure(s0) && !old(env.cancelled) ==> ok)
    {
      reached, ok := 0, true;
      while reached < |plan|
        invariant ok && reached <= |plan| && Going(plan, reached, s0)
        invariant Calm(old(env.cancelled), old(env.now))
        invariant env.now >= old(env.now) + Pauses(if reached < |plan| then reached else |plan| - 1, opts.rateInterval)
        decreases |plan| - reached
      {
        ok, reached := RateTick(plan, reached, s0);
        if !ok {
          return;
        }
      }
    }

    // -------------------------------------------------------------------
    // The run
    // -------------------------------------------------------------------

    /** A real apply needs a reachable cluster that serves routes. */
    method CheckCluster() returns (ok: bool)
      ensures ok ==> opts.dryRun || (opts.hasCluster && cluster.hasRoutes)
      ensures !env.faulty && (opts.dryRun || (opts.hasCluster && cluster.hasRoutes)) ==> ok
    {
      if opts.dryRun {
        return true;
      }
      if !opts.hasCluster {
        return false;
      }
      var fault := env.Fault();
      if fault {
        return false;
      }
      fault := env.Fault();
      ok := !fault && cluster.hasRoutes;
    }

    /** Precheck and baseline, up to the announcement of the plan. */
    method Open() returns (ok: bool)
      requires Logged() && progress == START
      modifies `phases, `progress, env
      ensures Logged() && if ok then progress.stage == Planned(2) else progress.stage in {Stopped(0), BaselineOpen}
      ensures ok ==> opts.dryRun || opts.hasCluster
      ensures ok && !progress.baselineSkipped ==>
                opts.baselineDuration > 0 && env.now >= old(env.now) + opts.baselineDuration
      ensures ok ==> (progress.baselineSkipped <==> opts.skipBaseline || opts.baselineDuration <= 0 || opts.dryRun)
      ensures Calm(old(env.cancelled), old(env.now))
      ensures !env.faulty && !old(env.cancelled) && (opts.dryRun || (opts.hasCluster && cluster.hasRoutes)) ==> ok
    {
      Log(Precheck, 0, false);
      ok := CheckCluster();
      if !ok {
        Log(Aborted, 0, false);
        return;
      }
      if !opts.skipBaseline && opts.baselineDuration > 0 && !opts.dryRun {
        Log(Baseline, 0, false);
        ok := env.Sleep(opts.baselineDuration);
        if !ok {
          return;
        }
      } else {
        Log(Baseline, 0, true);
      }
      Log(Precheck, 0, false);
      Log(Precheck, 0, false);
    }

    /** The log stands where a run with all batches over stands. */
    ghost predicate AllOver()
      reads `phases, `progress, `batches
    {
      Logged() && progress.stage == if |batches| == 0 then Planned(2) else Wave(|batches|, Checked)
    }

    /** Settle, measure, report, done. */
    method Close()
      requires AllOver() && (opts.hasCluster || opts.dryRun)
      modifies `phases, `progress, `convergence, env
      ensures Logged() && progress.stage == Finished
      ensures ConvergenceMeasured(cluster.Contents())
      ensures Calm(old(env.cancelled), old(env.now))
    {
      Settle();
      Measure();
      Conclude();
    }

    method Settle()
      requires AllOver()
      modifies `phases, `progress, env
      ensures Logged() && progress.stage == Converging
      ensures Calm(old(env.cancelled), old(env.now))
    {
      Log(FinalSettle, 0, false);
      if !opts.dryRun {
        var _ := env.Sleep(opts.batchDelay);
      }
      Log(FinalMeasurement, 0, false);
    }

    method Conclude()
      requires Logged() && progress.stage == Converging
      modifies `phases, `progress
      ensures Logged() && progress.stage == Finished
    {
      Log(Report, 0, false);
      Log(Done, 0, false);
    }

    /** The convergence a run reports is that of the cluster; only a faulty one may withhold it. */
    ghost predicate ConvergenceMeasured(s: Stores)
      reads `convergence
    {
      if opts.dryRun then convergence == Some(ComputeConvergence(graph.counts, PlannedSnapshot(graph.counts)))
      else
        || convergence == Some(ComputeConvergence(graph.counts, SnapshotOf(s, graph.runID)))
        || (env.faulty && convergence == None)
    }

    method Measure()
      requires opts.hasCluster || opts.dryRun
      modifies `convergence
      ensures ConvergenceMeasured(cluster.Contents())
    {
      convergence := None;
      if !opts.dryRun && opts.hasCluster {
        var fault := env.Fault();
        if !fault {
          var snap := cluster.ListManaged(graph.runID);
          convergence := Some(ComputeConvergence(graph.counts, snap));
        }
      } else {
        convergence := Some(ComputeConvergence(graph.counts, PlannedSnapshot(graph.counts)));
      }
    }

    /**
     * What a run has done when it returns. The barrier held throughout; it
     * touched nothing beyond the batch it stopped in; every batch before that,
     * or every batch if it succeeded, is complete; and the log, the gate and
     * the cluster say so, too.
     */
    ghost predicate Verdict(ok: bool, reached: nat, s0: Stores)
      reads this, cluster, gate
    {
      && reached <= |batches| && Flatten(batches) == graph.namespaces && Logged() && GateSays(reached)
      && InOrder(reached, Complete(ok, reached))
      && Ledger(s0, cluster.Contents(), Flatten(batches[..reached]), Flatten(batches[..Complete(ok, reached)]), reports)
      && BatchesReady(cluster.Contents(), Complete(ok, reached))
      && if ok then
           && reached == |batches| == |reports| && progress.stage == Finished
           && (forall i :: 0 <= i < |reports| ==> ReportIsFull(reports[i], batches[i]))
           && ConvergenceMeasured(cluster.Contents())
         else if reached == 0 then progress.stage in {Stopped(0), BaselineOpen, Planned(2)}
         else StoppedIn(reached)
    }

    /** How many batches a run has completed that got to this one. */
    function Complete(ok: bool, reached: nat): nat { if ok || reached == 0 then reached else reached - 1 }

    /** The batches of a run are those that anyone who plans from the same configuration arrives at. */
    function PlannedFrom(c: BatchPlan.Settings): seq<seq<Namespace>> {
      BatchPlan.SplitByPlanSpec(BatchPlan.AppliedSettings(c, BatchPlan.PlanBatches(c, |graph.namespaces|)), graph.namespaces)
    }

    method Run() returns (ok: bool, reached: nat)
      requires phases == [] && reports == [] && trace == [] && gate.probes == [] && gate.Ready(opts.safety)
      modifies this, cluster, env, gate, cfg
      ensures batches == PlannedFrom(old(cfg.settings))
      ensures Verdict(ok, reached, old(cluster.Contents()))
      ensures (Sure(old(cluster.Contents())) && !old(env.cancelled)
               && (opts.dryRun || (opts.hasCluster && cluster.hasRoutes))) ==> ok
    {
      ghost var s0 := cluster.Contents();
      batches, progress := PlannedFrom(cfg.settings), START;
      PlanIsWhole(cfg.settings);
      ok := Open();
      if !ok {
        LedgerStart(s0);
        assert batches[..0] == [];
        return false, 0;
      }
      var plan := PrepareBatches();
      ok, reached := Deploy(plan, s0);
    }

    /** Everything after the plan is made. */
    method Deploy(plan: seq<seq<Namespace>>, ghost s0: Stores) returns (ok: bool, reached: nat)
      requires plan == batches && Flatten(plan) == graph.namespaces && s0 == cluster.Contents()
      requires Logged() && progress.stage == Planned(2) && reports == [] && trace == []
      requires GateSays(0) && (opts.hasCluster || opts.dryRun)
      modifies `phases, `progress, `trace, `settles, `reports, `convergence, cluster, env, gate
      ensures Verdict(ok, reached, s0)
      ensures Calm(old(env.cancelled), old(env.now)) && (Sure(s0) && !old(env.cancelled) ==> ok)
    {
      NothingYet(plan, s0);
      ok, reached := RunPlan(plan, s0);
      FinishRun(plan, ok, reached, s0);
    }

    lemma NothingYet(plan: seq<seq<Namespace>>, s0: Stores)
      requires plan == batches && Flatten(plan) == graph.namespaces && s0 == cluster.Contents()
      requires Logged() && progress.stage == Planned(2) && reports == [] && trace == []
      requires GateSays(0) && (opts.hasCluster || opts.dryRun)
      ensures Going(plan, 0, s0)
    {
      assert plan[..0] == [];
      LedgerStart(s0);
    }

    /** The deployment mode decides how the batches are paced. */
    method RunPlan(plan: seq<seq<Namespace>>, ghost s0: Stores) returns (ok: bool, reached: nat)
      requires Going(plan, 0, s0)
      modifies `phases, `progress, `trace, `settles, `reports, cluster, env, gate
      ensures if ok then reached == |plan| && Going(plan, reached, s0) else RateEnded(plan, reached, s0)
      ensures Calm(old(env.cancelled), old(env.now)) && (Sure(s0) && !old(env.cancelled) ==> ok)
    {
      if cfg.settings.mode == BatchPlan.DEPLOY_RATE {
        ok, reached := RunRate(plan, s0);
      } else {
        ok, reached := RunBatches(plan, s0);
      }
    }

    lemma PlanIsWhole(c: BatchPlan.Settings)
      ensures Flatten(PlannedFrom(c)) == graph.namespaces
    {
      var ui := BatchPlan.AppliedSettings(c, BatchPlan.PlanBatches(c, |graph.namespaces|));
      BatchPlan.SplitMatchesPlan(ui, graph.namespaces);
    }

    method PrepareBatches() returns (plan: seq<seq<Namespace>>)
      modifies cfg
      ensures plan == PlannedFrom(old(cfg.settings))
    {
      var p := BatchPlan.PlanBatches(cfg.settings, |graph.namespaces|);
      cfg.ApplyBatchPlan(p);
      var resolved;
      plan, resolved := BatchPlan.SplitByPlan(cfg, graph.namespaces);
    }

    method FinishRun(plan: seq<seq<Namespace>>, ok: bool, reached: nat, ghost s0: Stores)
      requires plan == batches
      requires if ok then reached == |plan| && Going(plan, reached, s0) else RateEnded(plan, reached, s0)
      modifies `phases, `progress, `convergence, env
      ensures Verdict(ok, reached, s0) && Calm(old(env.cancelled), old(env.now))
    {
      if ok {
        assert Between(plan, reached, s0);
        Close();
      } else if reached == 0 {
        assert Between(plan, reached, s0);
      }
    }
  }

  lemma {:induction false} NamespaceOfBatch(plan: seq<seq<Namespace>>, k: nat, ns: Namespace)
    requires k < |plan| && ns in plan[k]
    ensures ns in Flatten(plan)
  {
    if k > 0 {
      NamespaceOfBatch(plan[1..], k - 1, ns);
    }
  }

  lemma ItemOfBatch(plan: seq<seq<Namespace>>, k: nat, it: (Namespace, Pair))
    requires k < |plan| && it.0 in plan[k] && it.1 in it.0.pairs
    ensures it in Items(plan[k]) && it in Items(Flatten(plan))
  {
    NamespaceOfBatch(plan, k, it.0);
    ItemsMembers(plan[k]);
    ItemsMembers(Flatten(plan));
  }

  lemma HoldsNamespace(s: Stores, g: Graph, batch: seq<Namespace>, i: nat)
    requires StoresHold(s, g, batch) && i < |batch|
    ensures batch[i].name in s.ns
  {
    var objs := Objects(g, KNamespace, batch);
    assert AllIn(objs, s.Of(KNamespace));
    assert objs[i] == BuildNamespace(g, batch[i]);
  }

  lemma HoldsItem(s: Stores, g: Graph, batch: seq<Namespace>, it: (Namespace, Pair))
    requires StoresHold(s, g, batch) && it in Items(batch)
    ensures DeploymentKey(it) in s.dep && it.0.name + "/" + it.1.route in s.rt
  {
    var items := Items(batch);
    var i :| 0 <= i < |items| && items[i] == it;
    var deps, rts := Objects(g, KDeployment, batch), Objects(g, KRoute, batch);
    assert AllIn(deps, s.Of(KDeployment)) && AllIn(rts, s.Of(KRoute));
    assert deps[i] == BuildDeployment(g, it.0, it.1) && rts[i] == BuildRoute(g, it.0, it.1);
  }

  lemma FinishedFacts(c: Checks, batches: seq<seq<Namespace>>, s: RL.State, counts: CreateCounts, conc: nat,
                      id: nat, kind: Kind, batch: seq<Namespace>, objs: seq<Object>, before: Trace, now: Trace,
                      m0: Store, m: Store, neverReady: bool, faulty: bool)
    requires RL.Inv(s, conc, |objs|) && s.control.Returned? && |objs| == Total(kind, batch)
    requires Audited(c, batches, s.begun, s.ended, counts, id, kind, objs, before, now, m0, m, neverReady, faulty)
    ensures CallsOf(counts) == Ends(now) - Ends(before) <= |objs|
    ensures s.control.result == RL.Nil <==> CallsOf(counts) == |objs| && counts.failed == 0
    ensures s.control.result == RL.Nil ==> KindDone(now, id, kind, batch) && AllIn(objs, m)
    ensures !faulty ==> counts.failed == 0 && |m| == |m0| + counts.created
    ensures !faulty && !s.cancelled ==> s.control.result == RL.Nil
    ensures Continues(before, now, id) && OpenFor(c, now, batches, id, kind)
  {
    FinalCounts(s, counts, conc, |objs|);
    BooksClosed(c, batches, s.begun, s.ended, s.control.result == RL.Nil, counts, id, kind, batch, objs, before, now,
                m0, m, neverReady, faulty);
  }

  lemma BooksClosed(c: Checks, batches: seq<seq<Namespace>>, begun: set<nat>, ended: map<nat, bool>, allWell: bool,
                    counts: CreateCounts, id: nat, kind: Kind, batch: seq<Namespace>, objs: seq<Object>,
                    before: Trace, now: Trace, m0: Store, m: Store, neverReady: bool, faulty: bool)
    requires Audited(c, batches, begun, ended, counts, id, kind, objs, before, now, m0, m, neverReady, faulty)
    requires |objs| == Total(kind, batch) && |begun| == |ended|
    requires allWell ==> ended.Keys == RL.Below(|objs|) && forall i :: i in ended ==> ended[i]
    ensures CallsOf(counts) == Ends(now) - Ends(before)
    ensures allWell ==> KindDone(now, id, kind, batch) && AllIn(objs, m)
    ensures !faulty ==> counts.failed == 0 && |m| == |m0| + counts.created
    ensures Continues(before, now, id) && OpenFor(c, now, batches, id, kind)
  {
    if allWell {
      AllEndedWell(begun, ended, before, now, id, kind, batch, objs, m);
    }
  }

  lemma AllEndedWell(begun: set<nat>, ended: map<nat, bool>, before: Trace, now: Trace, id: nat, kind: Kind,
                     batch: seq<Namespace>, objs: seq<Object>, m: Store)
    requires TraceLinked(begun, ended, before, now, id, kind) && |objs| == Total(kind, batch)
    requires ended.Keys == RL.Below(|objs|) && forall i :: i in ended ==> ended[i]
    requires forall i :: i in ended && ended[i] && 0 <= i < |objs| ==> KeyOf(objs[i]) in m
    ensures KindDone(now, id, kind, batch) && AllIn(objs, m)
  {
    forall i: nat | i < |objs| ensures Created(now, id, kind, i) && KeyOf(objs[i]) in m {
      assert i in ended;
    }
  }

  /** At the end, a nil result means that as many calls as objects ended and none failed. */
  lemma FinalCounts(s: RL.State, counts: CreateCounts, conc: nat, n: nat)
    requires RL.Inv(s, conc, n) && s.control.Returned? && CountsLinked(s.ended, counts)
    ensures CallsOf(counts) <= n
    ensures s.control.result == RL.Nil <==> CallsOf(counts) == n && counts.failed == 0
    ensures counts.failed == 0 && !s.cancelled ==> s.control.result == RL.Nil
    ensures s.control.result == RL.Nil ==> s.ended.Keys == RL.Below(n) && forall i :: i in s.ended ==> s.ended[i]
    ensures |s.begun| == |s.ended|
  {
    RL.ResultMeaning(s, conc, n);
    assert |s.ended| == |s.ended.Keys|;
    RL.SubsetSize(s.ended.Keys, RL.Below(n));
    assert |s.ended.Keys| == s.next;
  }

  /** Trace, counters and store agree with the calls that have ended. */
  ghost predicate Audited(c: Checks, batches: seq<seq<Namespace>>, begun: set<nat>, ended: map<nat, bool>,
                          counts: CreateCounts, id: nat, kind: Kind,
                          objs: seq<Object>, before: Trace, now: Trace, m0: Store, m: Store, neverReady: bool, faulty: bool)
  {
    && InTurn(c, now, batches, id, kind)
    && TraceLinked(begun, ended, before, now, id, kind)
    && CountsLinked(ended, counts)
    && StoreLinked(ended, counts, m0, m, objs, neverReady, faulty)
  }

  /** The same, for all stores at once: those of other kinds are as they were. */
  ghost predicate Books(c: Checks, batches: seq<seq<Namespace>>, begun: set<nat>, ended: map<nat, bool>,
                        counts: CreateCounts, id: nat, kind: Kind,
                        objs: seq<Object>, before: Trace, now: Trace, all0: Stores, s: Stores, neverReady: bool, faulty: bool)
  {
    && s == all0.With(kind, s.Of(kind))
    && Audited(c, batches, begun, ended, counts, id, kind, objs, before, now, all0.Of(kind), s.Of(kind), neverReady, faulty)
  }

  lemma BooksAfterEnd(c: Checks, batches: seq<seq<Namespace>>, begun: set<nat>, ended: map<nat, bool>,
                      counts: CreateCounts, i: nat,
                      out: Outcome, id: nat, kind: Kind, objs: seq<Object>, before: Trace, now: Trace,
                      all0: Stores, s: Stores, t: Stores, neverReady: bool, faulty: bool)
    requires Books(c, batches, begun, ended, counts, id, kind, objs, before, now, all0, s, neverReady, faulty)
    requires i < |objs| && i in begun && i !in ended && t == s.With(kind, t.Of(kind))
    requires CreateEffect(out, objs[i], s.Of(kind), t.Of(kind), neverReady, faulty)
    ensures Books(c, batches, begun, ended[i := out != Failed], Classified(counts, out), id, kind, objs, before,
                  now + [End(id, kind, i, out)], all0, t, neverReady, faulty)
  {
    LinkedAfterEnd(c, batches, begun, ended, counts, i, out, id, kind, objs, before, now, all0.Of(kind), s.Of(kind), t.Of(kind),
                   neverReady, faulty);
    OtherStoresKept(all0, s, t, kind);
  }

  lemma OtherStoresKept(all0: Stores, s: Stores, t: Stores, kind: Kind)
    requires s == all0.With(kind, s.Of(kind)) && t == s.With(kind, t.Of(kind))
    ensures t == all0.With(kind, t.Of(kind))
  {
  }

  lemma TraceAfterBegin(begun: set<nat>, ended: map<nat, bool>, before: Trace, now: Trace, i: nat, id: nat, kind: Kind)
    requires TraceLinked(begun, ended, before, now, id, kind) && i !in begun
    ensures TraceLinked(begun + {i}, ended, before, now + [Begin(id, kind, i)], id, kind)
  {
    var a := Begin(id, kind, i);
    PrefixMembers(now, now + [a]);
    EndsAppend(now, a);
    InFlightAppend(now, a);
    assert |begun + {i}| == |begun| + 1;
    forall j | j in ended && ended[j] ensures Created(now + [a], id, kind, j) {
      assert Created(now, id, kind, j);
    }
  }

  lemma TraceAfterEnd(begun: set<nat>, ended: map<nat, bool>, before: Trace, now: Trace, i: nat, id: nat,
                      kind: Kind, out: Outcome)
    requires TraceLinked(begun, ended, before, now, id, kind) && i !in ended
    ensures TraceLinked(begun, ended[i := out != Failed], before, now + [End(id, kind, i, out)], id, kind)
  {
    var a := End(id, kind, i, out);
    var t := now + [a];
    PrefixMembers(now, t);
    EndsAppend(now, a);
    InFlightAppend(now, a);
    assert |ended[i := out != Failed]| == |ended| + 1;
    assert a in t;
    forall j | j in ended && ended[j] ensures Created(t, id, kind, j) {
      assert Created(now, id, kind, j);
    }
  }

  lemma AuditStart(c: Checks, batches: seq<seq<Namespace>>, counts: CreateCounts, id: nat, kind: Kind, objs: seq<Object>,
                   now: Trace, m: Store, neverReady: bool, faulty: bool)
    requires OpenFor(c, now, batches, id, kind) && CallsOf(counts) == 0
    ensures Audited(c, batches, {}, map[], counts, id, kind, objs, now, now, m, m, neverReady, faulty)
  {
  }

  lemma LinkedAfterBegin(c: Checks, batches: seq<seq<Namespace>>, begun: set<nat>, ended: map<nat, bool>,
                         counts: CreateCounts, i: nat,
                         id: nat, kind: Kind, objs: seq<Object>, before: Trace, now: Trace, m0: Store, m: Store,
                         neverReady: bool, faulty: bool)
    requires Audited(c, batches, begun, ended, counts, id, kind, objs, before, now, m0, m, neverReady, faulty)
    requires i !in begun && |begun| - |ended| < c.conc
    ensures Audited(c, batches, begun + {i}, ended, counts, id, kind, objs, before, now + [Begin(id, kind, i)], m0, m,
                    neverReady, faulty)
  {
    StillInTurn(c, batches, now, Begin(id, kind, i), id, kind);
    TraceAfterBegin(begun, ended, before, now, i, id, kind);
  }

  lemma LinkedAfterEnd(c: Checks, batches: seq<seq<Namespace>>, begun: set<nat>, ended: map<nat, bool>,
                       counts: CreateCounts, i: nat,
                       out: Outcome, id: nat, kind: Kind, objs: seq<Object>, before: Trace, now: Trace,
                       m0: Store, m: Store, m2: Store, neverReady: bool, faulty: bool)
    requires Audited(c, batches, begun, ended, counts, id, kind, objs, before, now, m0, m, neverReady, faulty)
    requires i < |objs| && i in begun && i !in ended
    requires CreateEffect(out, objs[i], m, m2, neverReady, faulty)
    ensures Audited(c, batches, begun, ended[i := out != Failed], Classified(counts, out), id, kind, objs,
                     before, now + [End(id, kind, i, out)], m0, m2, neverReady, faulty)
  {
    StillInTurn(c, batches, now, End(id, kind, i, out), id, kind);
    CountsStep(ended, counts, i, out);
    StoreAfterEnd(ended, counts, i, out, m0, m, m2, objs, neverReady, faulty);
    TraceAfterEnd(begun, ended, before, now, i, id, kind, out);
  }
}
