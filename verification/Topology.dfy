/**
 * The generated topology and the Kubernetes objects built from it
 * (internal/topology/generator.go:19-117, internal/topology/objects.go): the
 * names, labels, selectors and replica counts that the run is about.
 */
module Topology {
  import opened Common

  datatype Pair = Pair(index: nat, app: string, service: string, route: string, deployment: string, replicas: int)

  datatype Namespace = Namespace(name: string, index: nat, pairs: seq<Pair>)

  datatype Counts = Counts(namespaces: int, services: int, routes: int, deployments: int, pods: int)

  datatype Graph = Graph(runID: string, configName: string, namespaces: seq<Namespace>, counts: Counts)

  type Labels = map<string, string>

  const LABEL_MANAGED := "dasm-burner.dasmlab.org/managed"
  const LABEL_RUN := "dasm-burner.dasmlab.org/run"
  const LABEL_PAIR := "dasm-burner.dasmlab.org/pair"
  const LABEL_KIND := "dasm-burner.dasmlab.org/kind"
  const LABEL_CONFIG := "dasm-burner.dasmlab.org/config"
  const LABEL_APP := "app"

  datatype Kind = KNamespace | KService | KDeployment | KRoute

  datatype Spec =
    | NamespaceSpec
    | ServiceSpec(selector: Labels)
    | DeploymentSpec(replicas: int, matchLabels: Labels, podLabels: Labels)
    | RouteSpec(service: string)

  /** An API object: `active` and `available` are the status a controller would report. */
  datatype Object = Object(namespace: string, name: string, labels: Labels, spec: Spec, active: bool, available: int)

  function CommonLabels(runID: string, kind: string): Labels {
    map[LABEL_MANAGED := "true", LABEL_RUN := runID, LABEL_KIND := kind]
  }

  function PairLabels(runID: string, app: string, kind: string): Labels {
    CommonLabels(runID, kind)[LABEL_APP := app][LABEL_PAIR := app]
  }

  function BuildNamespace(g: Graph, ns: Namespace): Object {
    Object("", ns.name, CommonLabels(g.runID, "ns")[LABEL_CONFIG := g.configName], NamespaceSpec, false, 0)
  }

  function BuildService(g: Graph, ns: Namespace, pair: Pair): Object {
    Object(ns.name, pair.service, PairLabels(g.runID, pair.app, "svc"),
           ServiceSpec(map[LABEL_APP := pair.app]), false, 0)
  }

  function BuildDeployment(g: Graph, ns: Namespace, pair: Pair): Object {
    Object(ns.name, pair.deployment, PairLabels(g.runID, pair.app, "deploy"),
           DeploymentSpec(pair.replicas, map[LABEL_APP := pair.app], PairLabels(g.runID, pair.app, "pod")), false, 0)
  }

  function BuildRoute(g: Graph, ns: Namespace, pair: Pair): Object {
    Object(ns.name, pair.route, PairLabels(g.runID, pair.app, "rt"), RouteSpec(pair.service), false, 0)
  }

  /** The pairs of a batch, namespace by namespace. */
  function Items(batch: seq<Namespace>): seq<(Namespace, Pair)> {
    if batch == [] then []
    else seq(|batch[0].pairs|, i requires 0 <= i < |batch[0].pairs| => (batch[0], batch[0].pairs[i])) + Items(batch[1..])
  }

  function BuildItem(g: Graph, kind: Kind, item: (Namespace, Pair)): Object
    requires kind != KNamespace
  {
    match kind
    case KService => BuildService(g, item.0, item.1)
    case KDeployment => BuildDeployment(g, item.0, item.1)
    case KRoute => BuildRoute(g, item.0, item.1)
  }

  /** Everything a batch creates of one kind, in spawning order. */
  function Objects(g: Graph, kind: Kind, batch: seq<Namespace>): (r: seq<Object>)
    ensures |r| == if kind == KNamespace then |batch| else |Items(batch)|
  {
    if kind == KNamespace then seq(|batch|, i requires 0 <= i < |batch| => BuildNamespace(g, batch[i]))
    else
      var items := Items(batch);
      seq(|items|, i requires 0 <= i < |items| => BuildItem(g, kind, items[i]))
  }

  lemma {:induction false} ItemsConcat(a: seq<Namespace>, b: seq<Namespace>)
    ensures Items(a + b) == Items(a) + Items(b)
  {
    if a == [] {
      assert a + b == b;
    } else {
      assert (a + b)[0] == a[0] && (a + b)[1..] == a[1..] + b;
      ItemsConcat(a[1..], b);
    }
  }

  lemma ObjectsConcat(g: Graph, kind: Kind, a: seq<Namespace>, b: seq<Namespace>)
    ensures Objects(g, kind, a + b) == Objects(g, kind, a) + Objects(g, kind, b)
  {
    ItemsConcat(a, b);
  }

  lemma {:induction false} ItemsMembers(batch: seq<Namespace>)
    ensures forall it :: it in Items(batch) <==> it.0 in batch && it.1 in it.0.pairs
  {
    if batch != [] {
      ItemsMembers(batch[1..]);
      var first := seq(|batch[0].pairs|, i requires 0 <= i < |batch[0].pairs| => (batch[0], batch[0].pairs[i]));
      assert batch == [batch[0]] + batch[1..];
      forall it: (Namespace, Pair)
        ensures it in first <==> it.0 == batch[0] && it.1 in it.0.pairs
      {
        if it.0 == batch[0] && it.1 in it.0.pairs {
          var i :| 0 <= i < |it.0.pairs| && it.0.pairs[i] == it.1;
          assert first[i] == it;
        }
      }
    }
  }

  /** What a slice of the namespaces asks for, the whole graph asks for. */
  lemma {:induction false} SliceObjects(g: Graph, kind: Kind, batches: seq<seq<Namespace>>, k: nat)
    requires k < |batches|
    ensures forall o :: o in Objects(g, kind, batches[k]) ==> o in Objects(g, kind, Flatten(batches))
  {
    var first, rest := batches[0], Flatten(batches[1..]);
    ObjectsConcat(g, kind, first, rest);
    if k > 0 {
      SliceObjects(g, kind, batches[1..], k - 1);
    }
  }
}
