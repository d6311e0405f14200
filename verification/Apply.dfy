/**
 * Whole applies on the reference cluster: they converge, applying again changes
 * nothing, and cleaning up undoes them (internal/runner/runner.go,
 * internal/runner/cleanup.go:41-116, internal/kube/fake.go).
 */
module Apply {
  import opened Common
  import opened Topology
  import opened KubeCluster
  import opened Waves
  import Runner

  // ---------------------------------------------------------------------
  // Convergence
  // ---------------------------------------------------------------------

  ghost predicate DistinctKeys(objs: seq<Object>) {
    forall i, j :: 0 <= i < j < |objs| ==> KeyOf(objs[i]) != KeyOf(objs[j])
  }

  ghost predicate GraphKeysDistinct(g: Graph) {
    forall kind: Kind :: DistinctKeys(Objects(g, kind, g.namespaces))
  }

  /** The counts of a graph are the sizes of what it asks for. */
  predicate CountsMatch(g: Graph) {
    && g.counts.namespaces == |g.namespaces|
    && g.counts.services == g.counts.routes == g.counts.deployments == |Items(g.namespaces)|
  }

  /** Whatever the store already holds under a key of the graph belongs to this run. */
  ghost predicate OursIn(m: Store, objs: seq<Object>, runID: string) {
    forall i :: 0 <= i < |objs| && KeyOf(objs[i]) in m ==> MatchRun(m[KeyOf(objs[i])].labels, runID)
  }

  ghost predicate Ours(s: Stores, g: Graph) {
    forall kind: Kind :: OursIn(s.Of(kind), Objects(g, kind, g.namespaces), g.runID)
  }

  lemma BuiltIsOurs(g: Graph, kind: Kind, batch: seq<Namespace>, neverReady: bool, i: nat)
    requires i < |Objects(g, kind, batch)|
    ensures MatchRun(Stored(Objects(g, kind, batch)[i], neverReady).labels, g.runID)
  {
  }

  lemma OursStays(m0: Store, m: Store, g: Graph, kind: Kind, neverReady: bool)
    requires Grows(m0, m, Objects(g, kind, g.namespaces), neverReady)
    requires OursIn(m0, Objects(g, kind, g.namespaces), g.runID)
    ensures OursIn(m, Objects(g, kind, g.namespaces), g.runID)
  {
    var objs := Objects(g, kind, g.namespaces);
    forall i | 0 <= i < |objs| && KeyOf(objs[i]) in m ensures MatchRun(m[KeyOf(objs[i])].labels, g.runID) {
      var k := KeyOf(objs[i]);
      if k !in m0 {
        var j :| 0 <= j < |objs| && KeyOf(objs[j]) == k && m[k] == Stored(objs[j], neverReady);
        BuiltIsOurs(g, kind, g.namespaces, neverReady, j);
      }
    }
  }

  /** Objects under pairwise different keys, all present and all of this run, are all counted. */
  lemma {:induction false} ManagedCovers(m: Store, objs: seq<Object>, runID: string)
    requires DistinctKeys(objs) && AllIn(objs, m) && OursIn(m, objs, runID)
    ensures |objs| <= |Managed(m, runID)|
  {
    KeySetSize(objs, set k | k in m && MatchRun(m[k].labels, runID));
  }

  lemma {:induction false} KeySetSize(objs: seq<Object>, keys: set<string>)
    requires DistinctKeys(objs) && forall i :: 0 <= i < |objs| ==> KeyOf(objs[i]) in keys
    ensures |objs| <= |keys|
  {
    if objs != [] {
      var k := KeyOf(objs[|objs| - 1]);
      KeySetSize(objs[..|objs| - 1], keys - {k});
    }
  }

  /**
   * A cluster that holds a whole graph and has only grown by it reports full
   * convergence, provided what was there before under its keys was its own.
   */
  lemma HeldGraphConverges(s0: Stores, s: Stores, g: Graph, neverReady: bool)
    requires StoresGrow(s0, s, g, g.namespaces, neverReady) && StoresHold(s, g, g.namespaces)
    requires GraphKeysDistinct(g) && CountsMatch(g) && Ours(s0, g)
    ensures ComputeConvergence(g.counts, SnapshotOf(s, g.runID)).overall == 100.0
  {
    forall kind: Kind ensures |Objects(g, kind, g.namespaces)| <= |Managed(s.Of(kind), g.runID)| {
      KindConverges(s0, s, g, kind, neverReady);
    }
    assert |Objects(g, KNamespace, g.namespaces)| <= |Managed(s.Of(KNamespace), g.runID)|;
    assert |Objects(g, KService, g.namespaces)| <= |Managed(s.Of(KService), g.runID)|;
    assert |Objects(g, KDeployment, g.namespaces)| <= |Managed(s.Of(KDeployment), g.runID)|;
    assert |Objects(g, KRoute, g.namespaces)| <= |Managed(s.Of(KRoute), g.runID)|;
    ConvergenceIsFull(g.counts, SnapshotOf(s, g.runID));
  }

  lemma KindConverges(s0: Stores, s: Stores, g: Graph, kind: Kind, neverReady: bool)
    requires StoresGrow(s0, s, g, g.namespaces, neverReady) && StoresHold(s, g, g.namespaces)
    requires GraphKeysDistinct(g) && Ours(s0, g)
    ensures |Objects(g, kind, g.namespaces)| <= |Managed(s.Of(kind), g.runID)|
  {
    var objs := Objects(g, kind, g.namespaces);
    assert Grows(s0.Of(kind), s.Of(kind), objs, neverReady);
    assert AllIn(objs, s.Of(kind)) && OursIn(s0.Of(kind), objs, g.runID) && DistinctKeys(objs);
    OursStays(s0.Of(kind), s.Of(kind), g, kind, neverReady);
    ManagedCovers(s.Of(kind), objs, g.runID);
  }

  /** What a run leaves in the cluster, however it ended. */
  lemma Outcome(run: Runner.ApplyRun, ok: bool, reached: nat, s0: Stores)
    requires run.Verdict(ok, reached, s0)
    ensures var s := run.cluster.Contents();
            && StoresGrow(s0, s, run.graph, run.graph.namespaces, run.cluster.neverReady) && Housed(s0, s)
            && (ok && !run.opts.dryRun ==> StoresHold(s, run.graph, run.graph.namespaces))
    ensures !run.opts.dryRun && StoresHold(s0, run.graph, run.graph.namespaces) ==>
              run.cluster.Contents() == s0 && forall kind: Kind :: Runner.CreatedBy(run.reports, kind) == 0
  {
    var bs := run.batches;
    assert bs == bs[..reached] + bs[reached..];
    FlattenConcat(bs[..reached], bs[reached..]);
    var touched, rest := Flatten(bs[..reached]), Flatten(bs[reached..]);
    if !run.opts.dryRun {
      StoresGrowSlices(s0, run.cluster.Contents(), run.graph, bs, reached, run.cluster.neverReady);
      if StoresHold(s0, run.graph, run.graph.namespaces) {
        HeldBefore(s0, run.graph, touched, rest);
      }
      if ok {
        assert bs[..|bs|] == bs;
      }
    }
  }

  /** A successful apply on a faultless cluster reports overall convergence 100, dry run or not. */
  method ApplyConverges(run: Runner.ApplyRun) returns (ok: bool, reached: nat)
    requires run.phases == [] && run.reports == [] && run.trace == []
    requires run.gate.probes == [] && run.gate.Ready(run.opts.safety)
    requires !run.env.faulty && GraphKeysDistinct(run.graph) && CountsMatch(run.graph)
    requires Ours(run.cluster.Contents(), run.graph)
    modifies run, run.cluster, run.env, run.gate, run.cfg
    ensures run.Verdict(ok, reached, old(run.cluster.Contents()))
    ensures ok ==> run.convergence.Some? && run.convergence.value.overall == 100.0
    ensures (run.Sure(old(run.cluster.Contents())) && !old(run.env.cancelled)
             && (run.opts.dryRun || (run.opts.hasCluster && run.cluster.hasRoutes))) ==> ok
  {
    ghost var s0 := run.cluster.Contents();
    ok, reached := run.Run();
    if ok {
      if run.opts.dryRun {
        ConvergenceIsFull(run.graph.counts, PlannedSnapshot(run.graph.counts));
      } else {
        Outcome(run, ok, reached, s0);
        HeldGraphConverges(s0, run.cluster.Contents(), run.graph, run.cluster.neverReady);
      }
    }
  }

  // ---------------------------------------------------------------------
  // Applying twice
  // ---------------------------------------------------------------------

  /**
   * Applying the graph again after a successful apply, under any faults and
   * with any outcome, changes nothing and makes nothing; if it succeeds, every
   * object of every batch is reported as existing; and it does succeed when
   * nothing outside it makes it fail and what there was at first was ready.
   */
  method Reapply(first: Runner.ApplyRun, second: Runner.ApplyRun) returns (ok1: bool, between: Stores, ok2: bool)
    requires first != second && first.cluster == second.cluster && first.graph == second.graph
    requires first.gate != second.gate && first.cfg != second.cfg && first.env != second.env
    requires first.phases == [] && first.reports == [] && first.trace == []
    requires second.phases == [] && second.reports == [] && second.trace == []
    requires first.gate.probes == [] && first.gate.Ready(first.opts.safety)
    requires second.gate.probes == [] && second.gate.Ready(second.opts.safety)
    requires !first.opts.dryRun && !second.opts.dryRun
    modifies first, first.cluster, first.env, first.gate, first.cfg, second, second.env, second.gate, second.cfg
    ensures ok1 ==> StoresHold(between, first.graph, first.graph.namespaces)
    ensures ok1 ==> second.cluster.Contents() == between
    ensures ok1 ==> forall kind: Kind :: Runner.CreatedBy(second.reports, kind) == 0
    ensures ok1 && ok2 ==> |second.reports| == |second.batches| && AllExisting(second.reports, second.batches)
    ensures (ok1 && second.Sure(old(second.cluster.Contents())) && !old(second.env.cancelled)
             && second.opts.hasCluster && second.cluster.hasRoutes) ==> ok2
  {
    ghost var s0 := second.cluster.Contents();
    ok1, between := ApplyOnce(first);
    if ok1 && second.Sure(s0) {
      StillSure(second, s0, between);
    }
    ok2 := ApplyAgain(second);
  }

  /** One real apply, as far as the next one is concerned. */
  method ApplyOnce(run: Runner.ApplyRun) returns (ok: bool, left: Stores)
    requires run.phases == [] && run.reports == [] && run.trace == []
    requires run.gate.probes == [] && run.gate.Ready(run.opts.safety) && !run.opts.dryRun
    modifies run, run.cluster, run.env, run.gate, run.cfg
    ensures left == run.cluster.Contents()
    ensures StoresGrow(old(run.cluster.Contents()), left, run.graph, run.graph.namespaces, run.cluster.neverReady)
    ensures ok ==> StoresHold(left, run.graph, run.graph.namespaces)
  {
    ghost var s0 := run.cluster.Contents();
    var reached;
    ok, reached := run.Run();
    left := run.cluster.Contents();
    Outcome(run, ok, reached, s0);
  }

  /** A real apply of a graph that is already there. */
  method ApplyAgain(run: Runner.ApplyRun) returns (ok: bool)
    requires run.phases == [] && run.reports == [] && run.trace == []
    requires run.gate.probes == [] && run.gate.Ready(run.opts.safety) && !run.opts.dryRun
    modifies run, run.cluster, run.env, run.gate, run.cfg
    ensures StoresHold(old(run.cluster.Contents()), run.graph, run.graph.namespaces) ==>
              && run.cluster.Contents() == old(run.cluster.Contents())
              && (forall kind: Kind :: Runner.CreatedBy(run.reports, kind) == 0)
              && (ok ==> |run.reports| == |run.batches| && AllExisting(run.reports, run.batches))
    ensures (run.Sure(old(run.cluster.Contents())) && !old(run.env.cancelled)
             && run.opts.hasCluster && run.cluster.hasRoutes) ==> ok
  {
    ghost var s0 := run.cluster.Contents();
    var reached;
    ok, reached := run.Run();
    Outcome(run, ok, reached, s0);
    if ok && StoresHold(s0, run.graph, run.graph.namespaces) {
      FullAndNoneCreated(run);
    }
  }

  lemma FullAndNoneCreated(run: Runner.ApplyRun)
    requires |run.reports| == |run.batches|
    requires forall i :: 0 <= i < |run.reports| ==> run.ReportIsFull(run.reports[i], run.batches[i])
    requires forall kind: Kind :: Runner.CreatedBy(run.reports, kind) == 0
    ensures AllExisting(run.reports, run.batches)
  {
    forall i, kind: Kind | 0 <= i < |run.reports|
      ensures Runner.CountsFor(run.reports[i], kind) == CreateCounts(0, Total(kind, run.batches[i]), 0)
    {
      NoneCreated(run.reports, kind, i);
      assert run.ReportIsFull(run.reports[i], run.batches[i]);
    }
  }

  /** Every object of every batch is reported as existing. */
  ghost predicate AllExisting(reports: seq<Runner.BatchReport>, batches: seq<seq<Namespace>>)
    requires |reports| == |batches|
  {
    forall i, kind: Kind :: 0 <= i < |reports| ==>
      Runner.CountsFor(reports[i], kind) == CreateCounts(0, Total(kind, batches[i]), 0)
  }

  /** Growth by the graph keeps a run as sure as it was. */
  lemma StillSure(run: Runner.ApplyRun, s0: Stores, s: Stores)
    requires run.Sure(s0) && !run.opts.dryRun
    requires StoresGrow(s0, s, run.graph, run.graph.namespaces, run.cluster.neverReady)
    ensures run.Sure(s)
  {
    if run.opts.waitForReady {
      GrowthKeepsReady(s0, s, run.graph);
    }
  }

  lemma {:induction false} NoneCreated(reports: seq<Runner.BatchReport>, kind: Kind, i: nat)
    requires i < |reports| && Runner.CreatedBy(reports, kind) == 0
    ensures Runner.CountsFor(reports[i], kind).created == 0
  {
    if i < |reports| - 1 {
      NoneCreated(reports[..|reports| - 1], kind, i);
    }
  }

  // ---------------------------------------------------------------------
  // Cleaning up
  // ---------------------------------------------------------------------

  function Without(m: Store, names: set<string>): Store {
    map k | k in m && m[k].namespace !in names :: m[k]
  }

  /** What is left after deleting namespaces one by one. */
  function Deleted(s: Stores, names: set<string>): Stores {
    Stores(s.ns - names, Without(s.svc, names), Without(s.dep, names), Without(s.rt, names))
  }

  /** The names of the namespaces that belong to a run. */
  function ManagedNames(m: Store, runID: string): set<string> {
    set k | k in Managed(m, runID) :: m[k].name
  }

  /** Deletes every namespace of the run, in any order. */
  method Cleanup(cluster: Cluster, runID: string)
    modifies cluster
    ensures cluster.Contents() == Deleted(old(cluster.Contents()), ManagedNames(old(cluster.ns), runID))
  {
    var names := ManagedNames(cluster.ns, runID);
    var todo := names;
    ghost var s := cluster.Contents();
    DeleteNothing(s);
    while todo != {}
      invariant todo <= names
      invariant cluster.Contents() == Deleted(s, names - todo)
      decreases |todo|
    {
      var name :| name in todo;
      cluster.DeleteNamespace(name);
      DeleteOneMore(s, names - todo, name);
      assert names - todo + {name} == names - (todo - {name});
      todo := todo - {name};
    }
    assert names - {} == names;
  }

  lemma DeleteNothing(s: Stores)
    ensures Deleted(s, {}) == s
  {
  }

  lemma DeleteOneMore(s: Stores, names: set<string>, name: string)
    ensures var d := Deleted(s, names);
            Deleted(s, names + {name}) ==
            Stores(d.ns - {name}, Outside(d.svc, name), Outside(d.dep, name), Outside(d.rt, name))
  {
    assert s.ns - (names + {name}) == s.ns - names - {name};
  }

  function NamesOf(namespaces: seq<Namespace>): set<string> {
    set ns | ns in namespaces :: ns.name
  }

  /** Nothing of the graph is there yet: none of its namespaces, nothing inside them, nothing of its run. */
  ghost predicate Untouched(s: Stores, g: Graph) {
    && (forall k :: k in s.ns ==> k !in NamesOf(g.namespaces) && !MatchRun(s.ns[k].labels, g.runID))
    && (forall kind: Kind, k :: kind != KNamespace && k in s.Of(kind) ==> s.Of(kind)[k].namespace !in NamesOf(g.namespaces))
  }

  /** The namespaces of the run are exactly the new ones. */
  lemma ManagedAreNew(s0: Stores, s: Stores, g: Graph, neverReady: bool)
    requires Untouched(s0, g) && StoresGrow(s0, s, g, g.namespaces, neverReady)
    ensures ManagedNames(s.ns, g.runID) == s.ns.Keys - s0.ns.Keys
    ensures ManagedNames(s.ns, g.runID) <= NamesOf(g.namespaces)
  {
    var objs := Objects(g, KNamespace, g.namespaces);
    assert Grows(s0.ns, s.ns, objs, neverReady) by { assert Grows(s0.Of(KNamespace), s.Of(KNamespace), objs, neverReady); }
    forall k | k in s.ns && k !in s0.ns
      ensures k in NamesOf(g.namespaces) && k in Managed(s.ns, g.runID) && s.ns[k].name == k
    {
      NewNamespaceIsOurs(s0.ns, s.ns, g, neverReady, k);
    }
    forall k | k in s0.ns ensures k !in Managed(s.ns, g.runID) {
      assert s.ns[k] == s0.ns[k];
    }
  }

  lemma NewNamespaceIsOurs(m0: Store, m: Store, g: Graph, neverReady: bool, k: string)
    requires Grows(m0, m, Objects(g, KNamespace, g.namespaces), neverReady) && k in m && k !in m0
    ensures k in NamesOf(g.namespaces) && MatchRun(m[k].labels, g.runID) && m[k].name == k
  {
    var objs := Objects(g, KNamespace, g.namespaces);
    var i :| 0 <= i < |objs| && KeyOf(objs[i]) == k && m[k] == Stored(objs[i], neverReady);
    assert objs[i] == BuildNamespace(g, g.namespaces[i]) && g.namespaces[i] in g.namespaces;
    StoredIdentity(objs[i], neverReady);
    BuiltIsOurs(g, KNamespace, g.namespaces, neverReady, i);
  }

  lemma NewIsInside(m0: Store, m: Store, g: Graph, kind: Kind, neverReady: bool, k: string)
    requires Grows(m0, m, Objects(g, kind, g.namespaces), neverReady) && kind != KNamespace
    requires k in m && k !in m0
    ensures m[k].namespace in NamesOf(g.namespaces)
  {
    var objs := Objects(g, kind, g.namespaces);
    var i :| 0 <= i < |objs| && KeyOf(objs[i]) == k && m[k] == Stored(objs[i], neverReady);
    StoredIdentity(objs[i], neverReady);
    var j := WorkloadBelongs(g, kind, g.namespaces, i);
    assert g.namespaces[j] in g.namespaces;
  }

  lemma WorkloadsAreNew(s0: Stores, s: Stores, g: Graph, kind: Kind, neverReady: bool)
    requires Untouched(s0, g) && StoresGrow(s0, s, g, g.namespaces, neverReady) && Housed(s0, s) && kind != KNamespace
    ensures Without(s.Of(kind), s.ns.Keys - s0.ns.Keys) == s0.Of(kind)
  {
    ManagedAreNew(s0, s, g, neverReady);
    var m0, m := s0.Of(kind), s.Of(kind);
    assert Grows(m0, m, Objects(g, kind, g.namespaces), neverReady) && HousedIn(m0, m, s.ns);
    forall k | k in m ensures k in m0 <==> m[k].namespace !in s.ns.Keys - s0.ns.Keys {
      if k !in m0 {
        NewIsInside(m0, m, g, kind, neverReady, k);
      } else {
        assert k in s0.Of(kind);
      }
    }
  }

  /** Deleting a run's namespaces takes back whatever it created, finished or not, object for object. */
  lemma CleanupUndoesGrowth(s0: Stores, s: Stores, g: Graph, neverReady: bool)
    requires Untouched(s0, g) && StoresGrow(s0, s, g, g.namespaces, neverReady) && Housed(s0, s)
    ensures Deleted(s, ManagedNames(s.ns, g.runID)) == s0
  {
    ManagedAreNew(s0, s, g, neverReady);
    assert s.ns - (s.ns.Keys - s0.ns.Keys) == s0.ns by {
      assert Grows(s0.Of(KNamespace), s.Of(KNamespace), Objects(g, KNamespace, g.namespaces), neverReady);
    }
    WorkloadsAreNew(s0, s, g, KService, neverReady);
    WorkloadsAreNew(s0, s, g, KDeployment, neverReady);
    WorkloadsAreNew(s0, s, g, KRoute, neverReady);
    assert s0.svc == s0.Of(KService) && s0.dep == s0.Of(KDeployment) && s0.rt == s0.Of(KRoute);
  }

  /** Apply, then clean up: whatever happened, the cluster is back where it was. */
  method ApplyAndCleanup(run: Runner.ApplyRun) returns (ok: bool)
    requires run.phases == [] && run.reports == [] && run.trace == []
    requires run.gate.probes == [] && run.gate.Ready(run.opts.safety)
    requires Untouched(run.cluster.Contents(), run.graph)
    modifies run, run.cluster, run.env, run.gate, run.cfg
    ensures run.cluster.Contents() == old(run.cluster.Contents())
  {
    ghost var s0 := run.cluster.Contents();
    var reached;
    ok, reached := run.Run();
    ghost var s := run.cluster.Contents();
    Outcome(run, ok, reached, s0);
    Cleanup(run.cluster, run.graph.runID);
    CleanupUndoesGrowth(s0, s, run.graph, run.cluster.neverReady);
  }
}
