/**
 * From a configuration to a converged cluster: what the parts promise together
 * (internal/topology/generator.go:54-102, internal/runner/runner.go:29-139).
 */
module EndToEnd {
  import opened Common
  import opened Topology
  import opened KubeCluster
  import opened Environment
  import opened Generator
  import Naming
  import Waves
  import AbortGate
  import BatchPlan
  import Runner
  import Apply

  /** Every pair of a generated graph wants at least one pod. */
  lemma PairsWantPods(c: TopologyConfig, named: Scheme, g: Graph)
    requires ValidCounts(c) && GraphBy(c, named, g)
    ensures forall it :: it in Items(g.namespaces) ==> it.1.replicas > 0
  {
    var its := Items(g.namespaces);
    ItemsAreNumbered(c, named, g.namespaces, 0);
    if c.pressure {
      assert |its| == 0;
    }
    forall it | it in its ensures it.1.replicas > 0 {
      var k :| 0 <= k < |its| && its[k] == it;
      assert its[k].1.replicas == c.replicas;
    }
  }

  const EMPTY := Stores(map[], map[], map[], map[])

  lemma EmptyIsUntouched(g: Graph)
    ensures Apply.Untouched(EMPTY, g) && Apply.Ours(EMPTY, g) && Waves.PresentIsReady(EMPTY, g.namespaces)
  {
  }

  /** A graph with distinct keys and honest counts, applied to an empty and healthy cluster, and cleaned up. */
  method ApplyToEmpty(g: Graph, opts: Runner.Options, env: Env, cfg: BatchPlan.Config, health: AbortGate.Health)
    returns (convergence: Option<Convergence>, left: Stores)
    requires Apply.GraphKeysDistinct(g) && Apply.CountsMatch(g)
    requires forall it :: it in Items(g.namespaces) ==> it.1.replicas > 0
    requires !env.faulty && !env.cancelled && opts.hasCluster && !opts.dryRun
    requires (opts.pullSecret ==> opts.pullSecretFrom) && !AbortGate.IsBad(opts.safety, health)
    modifies env, cfg
    ensures convergence.Some? && convergence.value.overall == 100.0
    ensures left == EMPTY
  {
    var cluster := new Cluster(false, true);
    assert cluster.Contents() == EMPTY;
    EmptyIsUntouched(g);
    var gate := new AbortGate.Gate();
    var run := new Runner.ApplyRun(opts, g, cluster, env, gate, cfg, health);
    var ok, reached := Apply.ApplyConverges(run);
    convergence := run.convergence;
    ghost var s := cluster.Contents();
    Apply.Outcome(run, ok, reached, EMPTY);
    Apply.Cleanup(cluster, g.runID);
    Apply.CleanupUndoesGrowth(EMPTY, s, g, false);
    left := cluster.Contents();
  }

  /**
   * A valid configuration whose names fit, applied to an empty and healthy reference cluster,
   * always succeeds, reports overall convergence 100, and cleaning up leaves the cluster empty.
   */
  method GenerateApplyCleanup(c: TopologyConfig, runID: string, opts: Runner.Options, env: Env, cfg: BatchPlan.Config,
                              health: AbortGate.Health)
    returns (convergence: Option<Convergence>, left: Stores)
    requires Naming.IsRunID(runID) && Valid(c) && NamesFit(c)
    requires !env.faulty && !env.cancelled && opts.hasCluster && !opts.dryRun
    requires (opts.pullSecret ==> opts.pullSecretFrom) && !AbortGate.IsBad(opts.safety, health)
    modifies env, cfg
    ensures convergence.Some? && convergence.value.overall == 100.0
    ensures left == EMPTY
  {
    var r := Generate(c, runID);
    var g := r.graph;
    GeneratedIsSound(c, runID, g);
    convergence, left := ApplyToEmpty(g, opts, env, cfg, health);
  }

  /** What a generated graph brings to an apply. */
  lemma GeneratedIsSound(c: TopologyConfig, runID: string, g: Graph)
    requires Valid(c) && GraphFor(c, runID, g) && NamesFit(c)
    ensures Apply.GraphKeysDistinct(g) && Apply.CountsMatch(g)
    ensures forall it :: it in Items(g.namespaces) ==> it.1.replicas > 0
  {
    KeysAreDistinct(c, runID, g);
    CountsAreExact(c, NamedBy(runID), g);
    PairsWantPods(c, NamedBy(runID), g);
  }
}
