/**
 * The reference cluster (internal/kube/fake.go), readiness
 * (internal/kube/wait.go) and convergence (internal/kube/convergence.go).
 */
module KubeCluster {
  import opened Common
  import opened Topology

  datatype Outcome = Made | Exists | Failed

  type Store = map<string, Object>

  function KeyOf(o: Object): string {
    if o.spec.NamespaceSpec? then o.name else o.namespace + "/" + o.name
  }

  /** What the cluster keeps of a created object: it becomes ready at once unless it never does. */
  function Stored(o: Object, neverReady: bool): Object {
    if neverReady then o
    else match o.spec
         case NamespaceSpec => o.(active := true)
         case DeploymentSpec(r, _, _) => o.(available := r)
         case _ => o
  }

  /** Storing an object changes nothing but its status. */
  lemma StoredIdentity(o: Object, neverReady: bool)
    ensures var kept := Stored(o, neverReady);
            kept.namespace == o.namespace && kept.name == o.name && kept.labels == o.labels && kept.spec == o.spec
  {
  }

  predicate MatchRun(labels: Labels, runID: string) {
    && LABEL_MANAGED in labels && labels[LABEL_MANAGED] == "true"
    && (runID != "" ==> LABEL_RUN in labels && labels[LABEL_RUN] == runID)
  }

  function Managed(m: Store, runID: string): set<string> {
    set k | k in m && MatchRun(m[k].labels, runID)
  }

  datatype Snapshot = Snapshot(namespaces: int, services: int, routes: int, deployments: int)

  predicate FitsKind(kind: Kind, o: Object) {
    match kind
    case KNamespace => o.spec.NamespaceSpec?
    case KService => o.spec.ServiceSpec?
    case KDeployment => o.spec.DeploymentSpec?
    case KRoute => o.spec.RouteSpec?
  }

  /** Everything a cluster holds, kind by kind. */
  datatype Stores = Stores(ns: Store, svc: Store, dep: Store, rt: Store) {
    function Of(kind: Kind): Store {
      match kind
      case KNamespace => ns
      case KService => svc
      case KDeployment => dep
      case KRoute => rt
    }

    function With(kind: Kind, m: Store): Stores {
      match kind
      case KNamespace => this.(ns := m)
      case KService => this.(svc := m)
      case KDeployment => this.(dep := m)
      case KRoute => this.(rt := m)
    }
  }

  function SnapshotOf(s: Stores, runID: string): Snapshot {
    Snapshot(|Managed(s.ns, runID)|, |Managed(s.svc, runID)|, |Managed(s.rt, runID)|, |Managed(s.dep, runID)|)
  }

  /** What a dry run reports as observed: exactly what was planned. */
  function PlannedSnapshot(c: Counts): Snapshot {
    Snapshot(c.namespaces, c.services, c.routes, c.deployments)
  }

  class Cluster {
    var ns: Store
    var svc: Store
    var dep: Store
    var rt: Store
    var createCalls: nat
    const neverReady: bool
    const hasRoutes: bool

    constructor (neverReady: bool, hasRoutes: bool)
      ensures ns == svc == dep == rt == map[] && createCalls == 0
      ensures this.neverReady == neverReady && this.hasRoutes == hasRoutes
    {
      ns, svc, dep, rt, createCalls := map[], map[], map[], map[], 0;
      this.neverReady, this.hasRoutes := neverReady, hasRoutes;
    }

    function Contents(): Stores
      reads this
    {
      Stores(ns, svc, dep, rt)
    }

    method CreateNamespace(o: Object) returns (out: Outcome)
      requires FitsKind(KNamespace, o)
      modifies `ns, `createCalls
      ensures createCalls == old(createCalls) + 1
      ensures out == if KeyOf(o) in old(ns) then Exists else Made
      ensures ns == if KeyOf(o) in old(ns) then old(ns) else old(ns)[KeyOf(o) := Stored(o, neverReady)]
    {
      createCalls := createCalls + 1;
      if o.name in ns {
        return Exists;
      }
      var cp := o;
      if !neverReady {
        cp := cp.(active := true);
      }
      ns := ns[o.name := cp];
      return Made;
    }

    method CreateService(o: Object) returns (out: Outcome)
      requires FitsKind(KService, o)
      modifies `svc, `createCalls
      ensures createCalls == old(createCalls) + 1
      ensures out == if KeyOf(o) in old(svc) then Exists else Made
      ensures svc == if KeyOf(o) in old(svc) then old(svc) else old(svc)[KeyOf(o) := Stored(o, neverReady)]
    {
      createCalls := createCalls + 1;
      var k := o.namespace + "/" + o.name;
      if k in svc {
        return Exists;
      }
      svc := svc[k := o];
      return Made;
    }

    method CreateDeployment(o: Object) returns (out: Outcome)
      requires FitsKind(KDeployment, o)
      modifies `dep, `createCalls
      ensures createCalls == old(createCalls) + 1
      ensures out == if KeyOf(o) in old(dep) then Exists else Made
      ensures dep == if KeyOf(o) in old(dep) then old(dep) else old(dep)[KeyOf(o) := Stored(o, neverReady)]
    {
      createCalls := createCalls + 1;
      var k := o.namespace + "/" + o.name;
      if k in dep {
        return Exists;
      }
      var cp := o;
      if !neverReady {
        cp := cp.(available := o.spec.replicas);
      }
      dep := dep[k := cp];
      return Made;
    }

    method CreateRoute(o: Object) returns (out: Outcome)
      requires FitsKind(KRoute, o)
      modifies `rt, `createCalls
      ensures createCalls == old(createCalls) + 1
      ensures out == if KeyOf(o) in old(rt) then Exists else Made
      ensures rt == if KeyOf(o) in old(rt) then old(rt) else old(rt)[KeyOf(o) := Stored(o, neverReady)]
    {
      createCalls := createCalls + 1;
      var k := o.namespace + "/" + o.name;
      if k in rt {
        return Exists;
      }
      rt := rt[k := o];
      return Made;
    }

    method Create(kind: Kind, o: Object) returns (out: Outcome)
      requires FitsKind(kind, o)
      modifies this
      ensures createCalls == old(createCalls) + 1
      ensures out == if KeyOf(o) in old(Contents()).Of(kind) then Exists else Made
      ensures Contents() == if out == Exists then old(Contents())
                            else old(Contents()).With(kind, old(Contents()).Of(kind)[KeyOf(o) := Stored(o, neverReady)])
    {
      match kind {
        case KNamespace => out := CreateNamespace(o);
        case KService => out := CreateService(o);
        case KDeployment => out := CreateDeployment(o);
        case KRoute => out := CreateRoute(o);
      }
    }

    /** Deleting a namespace deletes everything whose own namespace field names it. */
    method DeleteNamespace(name: string)
      modifies this
      ensures ns == old(ns) - {name}
      ensures svc == Outside(old(svc), name) && dep == Outside(old(dep), name) && rt == Outside(old(rt), name)
      ensures createCalls == old(createCalls)
    {
      ns := ns - {name};
      svc := DeleteWithin(svc, name);
      dep := DeleteWithin(dep, name);
      rt := DeleteWithin(rt, name);
    }

    method ListManaged(runID: string) returns (s: Snapshot)
      ensures s == SnapshotOf(Contents(), runID)
    {
      var a := CountManaged(ns, runID);
      var b := CountManaged(svc, runID);
      var c := CountManaged(dep, runID);
      var d := CountManaged(rt, runID);
      s := Snapshot(a, b, d, c);
    }

    predicate NamespaceReady(n: Namespace)
      reads this
    {
      n.name in ns && ns[n.name].active
    }

    predicate DeploymentReady(it: (Namespace, Pair))
      reads this
    {
      var k := it.0.name + "/" + it.1.deployment;
      k in dep && EnoughAvailable(dep[k], it.1.replicas)
    }

    predicate RouteAdmitted(it: (Namespace, Pair))
      reads this
    {
      it.0.name + "/" + it.1.route in rt && !neverReady
    }
  }

  /** A deployment has the pods it asks for itself, or else those that are expected of it, and at least one. */
  predicate EnoughAvailable(d: Object, expected: int) {
    var replicas := if d.spec.DeploymentSpec? then d.spec.replicas else expected;
    d.available >= replicas && replicas > 0
  }

  /** The objects that survive the deletion of a namespace. */
  function Outside(m: Store, name: string): Store {
    map k | k in m && m[k].namespace != name :: m[k]
  }

  method DeleteWithin(m: Store, name: string) returns (r: Store)
    ensures r == Outside(m, name)
  {
    r := m;
    var todo := m.Keys;
    while todo != {}
      invariant todo <= m.Keys
      invariant r == map k | k in m && (k in todo || m[k].namespace != name) :: m[k]
      decreases |todo|
    {
      var k :| k in todo;
      todo := todo - {k};
      if m[k].namespace == name {
        r := r - {k};
      }
    }
  }

  method CountManaged(m: Store, runID: string) returns (n: nat)
    ensures n == |Managed(m, runID)|
  {
    n := 0;
    var todo := m.Keys;
    ghost var seen := {};
    while todo != {}
      invariant todo <= m.Keys
      invariant seen == set k | k in m && k !in todo && MatchRun(m[k].labels, runID)
      invariant n == |seen|
      decreases |todo|
    {
      var k :| k in todo;
      todo := todo - {k};
      if MatchRun(m[k].labels, runID) {
        n := n + 1;
        seen := seen + {k};
      }
    }
    assert seen == Managed(m, runID);
  }

  // ---------------------------------------------------------------------
  // Convergence
  // ---------------------------------------------------------------------

  datatype Convergence = Convergence(namespaces: real, services: real, routes: real, deployments: real, overall: real)

  function Pct(actual: int, desired: int): real {
    if desired <= 0 then 100.0
    else
      var v := 100.0 * (actual as real) / (desired as real);
      if v > 100.0 then 100.0 else v
  }

  function Min4(a: real, b: real, c: real, d: real): real {
    var m1 := if b < a then b else a;
    var m2 := if c < m1 then c else m1;
    if d < m2 then d else m2
  }

  function ComputeConvergence(desired: Counts, s: Snapshot): Convergence {
    var a, b, c, d := Pct(s.namespaces, desired.namespaces), Pct(s.services, desired.services),
                      Pct(s.routes, desired.routes), Pct(s.deployments, desired.deployments);
    Convergence(a, b, c, d, Min4(a, b, c, d))
  }

  predicate Reached(actual: int, desired: int) { desired <= 0 || actual >= desired }

  lemma PctIsFull(actual: int, desired: int)
    ensures Pct(actual, desired) <= 100.0
    ensures Pct(actual, desired) == 100.0 <==> Reached(actual, desired)
  {
    if desired > 0 {
      Quotient(100.0 * (actual as real), desired as real, 100.0);
    }
  }

  /** Overall convergence is full exactly when no desired count is short. */
  lemma ConvergenceIsFull(desired: Counts, s: Snapshot)
    ensures ComputeConvergence(desired, s).overall == 100.0 <==>
              Reached(s.namespaces, desired.namespaces) && Reached(s.services, desired.services)
              && Reached(s.routes, desired.routes) && Reached(s.deployments, desired.deployments)
  {
    PctIsFull(s.namespaces, desired.namespaces);
    PctIsFull(s.services, desired.services);
    PctIsFull(s.routes, desired.routes);
    PctIsFull(s.deployments, desired.deployments);
  }
}
