/** Waiting for the objects of a batch (internal/kube/wait.go). */
module Readiness {
  import opened Common
  import opened Topology
  import opened Environment
  import opened Waves
  import K = KubeCluster

  const DEFAULT_TIMEOUT := 300_000_000_000
  const DEFAULT_INTERVAL := 2_000_000_000

  datatype ReadyStats = ReadyStats(namespaces: nat, deployments: nat, routes: nat)

  /** A namespace is active, and every pair in it has its pods and its admitted route. */
  ghost predicate Whole(c: K.Cluster, ns: Namespace)
    reads c
  {
    c.NamespaceReady(ns) && forall j :: 0 <= j < |ns.pairs| ==>
      c.DeploymentReady((ns, ns.pairs[j])) && c.RouteAdmitted((ns, ns.pairs[j]))
  }

  ghost predicate BatchReady(c: K.Cluster, batch: seq<Namespace>)
    reads c
  {
    forall i :: 0 <= i < |batch| ==> Whole(c, batch[i])
  }

  /** The same, of what a cluster holds. */
  ghost predicate HeldReady(s: K.Stores, neverReady: bool, batch: seq<Namespace>) {
    forall i :: 0 <= i < |batch| ==> HeldWhole(s, neverReady, batch[i])
  }

  ghost predicate HeldWhole(s: K.Stores, neverReady: bool, ns: Namespace) {
    && ns.name in s.ns && s.ns[ns.name].active
    && forall j :: 0 <= j < |ns.pairs| ==> HeldPair(s, neverReady, ns.name, ns.pairs[j])
  }

  predicate HeldPair(s: K.Stores, neverReady: bool, name: string, p: Pair) {
    && (name + "/" + p.deployment) in s.dep && K.EnoughAvailable(s.dep[name + "/" + p.deployment], p.replicas)
    && (name + "/" + p.route) in s.rt && !neverReady
  }

  lemma HeldReadyIsReady(c: K.Cluster, batch: seq<Namespace>)
    ensures BatchReady(c, batch) <==> HeldReady(c.Contents(), c.neverReady, batch)
  {
    forall i | 0 <= i < |batch| ensures Whole(c, batch[i]) <==> HeldWhole(c.Contents(), c.neverReady, batch[i]) {
      HeldWholeIsWhole(c, batch[i]);
    }
  }

  lemma HeldWholeIsWhole(c: K.Cluster, ns: Namespace)
    ensures Whole(c, ns) <==> HeldWhole(c.Contents(), c.neverReady, ns)
  {
    forall j | 0 <= j < |ns.pairs|
      ensures HeldPair(c.Contents(), c.neverReady, ns.name, ns.pairs[j]) <==>
                c.DeploymentReady((ns, ns.pairs[j])) && c.RouteAdmitted((ns, ns.pairs[j]))
    {
    }
  }

  /** What is ready stays ready while the cluster grows. */
  lemma ReadyStays(s: K.Stores, s1: K.Stores, neverReady: bool, batch: seq<Namespace>, g: Graph, added: seq<Namespace>)
    requires HeldReady(s, neverReady, batch) && StoresGrow(s, s1, g, added, neverReady)
    ensures HeldReady(s1, neverReady, batch)
  {
    assert Grows(s.Of(KNamespace), s1.Of(KNamespace), Objects(g, KNamespace, added), neverReady);
    assert Grows(s.Of(KDeployment), s1.Of(KDeployment), Objects(g, KDeployment, added), neverReady);
    assert Grows(s.Of(KRoute), s1.Of(KRoute), Objects(g, KRoute, added), neverReady);
    forall i | 0 <= i < |batch| ensures HeldWhole(s1, neverReady, batch[i]) {
      assert HeldWhole(s, neverReady, batch[i]);
      WholeStays(s, s1, neverReady, batch[i]);
    }
  }

  lemma WholeStays(s: K.Stores, s1: K.Stores, neverReady: bool, ns: Namespace)
    requires HeldWhole(s, neverReady, ns)
    requires Keeps(s.ns, s1.ns) && Keeps(s.dep, s1.dep) && Keeps(s.rt, s1.rt)
    ensures HeldWhole(s1, neverReady, ns)
  {
    forall j | 0 <= j < |ns.pairs| ensures HeldPair(s1, neverReady, ns.name, ns.pairs[j]) {
      assert HeldPair(s, neverReady, ns.name, ns.pairs[j]);
    }
  }

  predicate Keeps(m: K.Store, m1: K.Store) {
    forall k :: k in m ==> k in m1 && m1[k] == m[k]
  }

  function DeployCount(batch: seq<Namespace>): nat {
    if batch == [] then 0 else DeployCount(batch[..|batch| - 1]) + |batch[|batch| - 1].pairs|
  }

  predicate ReadyComplete(st: ReadyStats, batch: seq<Namespace>) {
    st.namespaces == |batch| && st.deployments == DeployCount(batch) && st.routes == DeployCount(batch)
  }

  lemma DeployCountNext(batch: seq<Namespace>, i: nat)
    requires i < |batch|
    ensures DeployCount(batch[..i + 1]) == DeployCount(batch[..i]) + |batch[i].pairs|
  {
    assert batch[..i + 1][..i] == batch[..i];
  }

  // ---------------------------------------------------------------------
  // How much is ready
  // ---------------------------------------------------------------------

  function One(b: bool): nat { if b then 1 else 0 }

  /** How many of the first k deployments of a namespace are ready. */
  function DeploymentsReady(c: K.Cluster, ns: Namespace, k: nat): nat
    requires k <= |ns.pairs|
    reads c
  {
    if k == 0 then 0 else DeploymentsReady(c, ns, k - 1) + One(c.DeploymentReady((ns, ns.pairs[k - 1])))
  }

  function RoutesReady(c: K.Cluster, ns: Namespace, k: nat): nat
    requires k <= |ns.pairs|
    reads c
  {
    if k == 0 then 0 else RoutesReady(c, ns, k - 1) + One(c.RouteAdmitted((ns, ns.pairs[k - 1])))
  }

  function ReadyIn(c: K.Cluster, ns: Namespace): ReadyStats
    reads c
  {
    ReadyStats(One(c.NamespaceReady(ns)), DeploymentsReady(c, ns, |ns.pairs|), RoutesReady(c, ns, |ns.pairs|))
  }

  function Plus(a: ReadyStats, b: ReadyStats): ReadyStats {
    ReadyStats(a.namespaces + b.namespaces, a.deployments + b.deployments, a.routes + b.routes)
  }

  /** What is really ready of the first k namespaces of a batch. */
  function ReadyUpTo(c: K.Cluster, batch: seq<Namespace>, k: nat): ReadyStats
    requires k <= |batch|
    reads c
  {
    if k == 0 then ReadyStats(0, 0, 0) else Plus(ReadyUpTo(c, batch, k - 1), ReadyIn(c, batch[k - 1]))
  }

  predicate AtMost(a: ReadyStats, b: ReadyStats) {
    a.namespaces <= b.namespaces && a.deployments <= b.deployments && a.routes <= b.routes
  }

  lemma {:induction false} PairsCounted(c: K.Cluster, ns: Namespace, k: nat)
    requires k <= |ns.pairs|
    ensures DeploymentsReady(c, ns, k) <= k && RoutesReady(c, ns, k) <= k
    ensures DeploymentsReady(c, ns, k) == k <==> forall j :: 0 <= j < k ==> c.DeploymentReady((ns, ns.pairs[j]))
    ensures RoutesReady(c, ns, k) == k <==> forall j :: 0 <= j < k ==> c.RouteAdmitted((ns, ns.pairs[j]))
  {
    if k > 0 {
      PairsCounted(c, ns, k - 1);
    }
  }

  lemma OneCounted(c: K.Cluster, ns: Namespace)
    ensures AtMost(ReadyIn(c, ns), ReadyStats(1, |ns.pairs|, |ns.pairs|))
    ensures ReadyIn(c, ns) == ReadyStats(1, |ns.pairs|, |ns.pairs|) <==> Whole(c, ns)
  {
    PairsCounted(c, ns, |ns.pairs|);
  }

  lemma BothReached(a: ReadyStats, a1: ReadyStats, b: ReadyStats, b1: ReadyStats)
    requires AtMost(a, a1) && AtMost(b, b1)
    ensures AtMost(Plus(a, b), Plus(a1, b1))
    ensures Plus(a, b) == Plus(a1, b1) <==> a == a1 && b == b1
  {
  }

  /** The real counts never exceed the totals, and reach them exactly if every single object is ready. */
  lemma {:induction false} AllCounted(c: K.Cluster, batch: seq<Namespace>, k: nat)
    requires k <= |batch|
    ensures AtMost(ReadyUpTo(c, batch, k), TotalOf(batch, k))
    ensures ReadyUpTo(c, batch, k) == TotalOf(batch, k) <==> forall i :: 0 <= i < k ==> Whole(c, batch[i])
  {
    if k > 0 {
      AllCounted(c, batch, k - 1);
      OneCounted(c, batch[k - 1]);
      DeployCountNext(batch, k - 1);
      var n := |batch[k - 1].pairs|;
      BothReached(ReadyUpTo(c, batch, k - 1), TotalOf(batch, k - 1), ReadyIn(c, batch[k - 1]), ReadyStats(1, n, n));
    }
  }

  function TotalOf(batch: seq<Namespace>, k: nat): ReadyStats
    requires k <= |batch|
  {
    ReadyStats(k, DeployCount(batch[..k]), DeployCount(batch[..k]))
  }

  /**
   * Counts what is ready: never more than really is, and without faults exactly that. So the
   * counts reach their totals only if every single object is ready.
   */
  method SnapshotReady(c: K.Cluster, env: Env, batch: seq<Namespace>) returns (st: ReadyStats)
    ensures AtMost(st, ReadyUpTo(c, batch, |batch|))
    ensures !env.faulty ==> st == ReadyUpTo(c, batch, |batch|)
    ensures ReadyComplete(st, batch) ==> BatchReady(c, batch)
    ensures !env.faulty && BatchReady(c, batch) ==> ReadyComplete(st, batch)
  {
    st := ReadyStats(0, 0, 0);
    for i := 0 to |batch|
      invariant AtMost(st, ReadyUpTo(c, batch, i))
      invariant !env.faulty ==> st == ReadyUpTo(c, batch, i)
    {
      var got := CountOne(c, env, batch[i]);
      st := Plus(st, got);
    }
    AllCounted(c, batch, |batch|);
    assert batch[..|batch|] == batch;
  }

  method CountOne(c: K.Cluster, env: Env, ns: Namespace) returns (st: ReadyStats)
    ensures AtMost(st, ReadyIn(c, ns))
    ensures !env.faulty ==> st == ReadyIn(c, ns)
  {
    var active := 0;
    var fault := env.Fault();
    if !fault && c.NamespaceReady(ns) {
      active := 1;
    }
    var deployments, routes := CountPairs(c, env, ns);
    st := ReadyStats(active, deployments, routes);
  }

  method CountPairs(c: K.Cluster, env: Env, ns: Namespace) returns (deployments: nat, routes: nat)
    ensures deployments <= DeploymentsReady(c, ns, |ns.pairs|) && routes <= RoutesReady(c, ns, |ns.pairs|)
    ensures !env.faulty ==> deployments == DeploymentsReady(c, ns, |ns.pairs|) && routes == RoutesReady(c, ns, |ns.pairs|)
  {
    deployments, routes := 0, 0;
    for j := 0 to |ns.pairs|
      invariant deployments <= DeploymentsReady(c, ns, j) && routes <= RoutesReady(c, ns, j)
      invariant !env.faulty ==> deployments == DeploymentsReady(c, ns, j) && routes == RoutesReady(c, ns, j)
    {
      var fault := env.Fault();
      if !fault && c.DeploymentReady((ns, ns.pairs[j])) {
        deployments := deployments + 1;
      }
      fault := env.Fault();
      if !fault && c.RouteAdmitted((ns, ns.pairs[j])) {
        routes := routes + 1;
      }
    }
  }

  /**
   * Polls until everything is ready, the deadline has passed or the context is
   * cancelled. Success means that every object of the batch is ready; without
   * faults and cancellation the answer is exactly that. It gives up only after
   * the whole timeout or on cancellation.
   */
  method WaitReady(c: K.Cluster, env: Env, batch: seq<Namespace>, timeoutArg: int, intervalArg: int) returns (ok: bool)
    modifies env
    ensures ok ==> BatchReady(c, batch)
    ensures !ok ==> env.cancelled || env.now > old(env.now) + if timeoutArg <= 0 then DEFAULT_TIMEOUT else timeoutArg
    ensures env.now >= old(env.now) && (old(env.cancelled) ==> env.cancelled && !ok)
    ensures !env.faulty ==> env.cancelled == old(env.cancelled)
    ensures !env.faulty && !old(env.cancelled) ==> (ok <==> BatchReady(c, batch))
  {
    var timeout := if timeoutArg <= 0 then DEFAULT_TIMEOUT else timeoutArg;
    var interval := if intervalArg <= 0 then DEFAULT_INTERVAL else intervalArg;
    var deadline := env.now + timeout;
    while true
      invariant env.now >= old(env.now) && (old(env.cancelled) ==> env.cancelled)
      invariant !env.faulty ==> env.cancelled == old(env.cancelled)
      decreases deadline - env.now
    {
      var cancelled := env.Cancelled();
      if cancelled {
        return false;
      }
      var st := SnapshotReady(c, env, batch);
      env.Elapse(1);
      if ReadyComplete(st, batch) {
        return true;
      }
      if env.now > deadline {
        return false;
      }
      var wait := interval;
      if deadline - env.now < wait {
        wait := deadline - env.now;
      }
      var slept := env.Sleep(wait);
      if !slept {
        return false;
      }
    }
  }
}
