/**
 * Generating the topology (internal/topology/generator.go:54-117) from a valid configuration
 * (internal/config/validation.go:8-107, 147-183), and what the names make of it: distinct keys,
 * exact counts, and services and routes that reach exactly their own deployment.
 */
module Generator {
  import opened Common
  import opened Topology
  import opened Naming
  import Taints
  import KubeCluster
  import Apply
  import ExecSteps
  import BatchPlan

  /** What generating reads; `otherwiseValid` stands for the checks on enumerations and free text. */
  datatype TopologyConfig = TopologyConfig(
    name: string, pressure: bool, namespaces: int, services: int, routes: int, replicas: int, oneToOne: bool,
    namespace: NamePrefix, service: NamePrefix, route: NamePrefix, deployment: NamePrefix, otherwiseValid: bool)

  datatype Result = Generated(graph: Graph) | Invalid | CountMismatch

  predicate ValidPrefix(p: NamePrefix) {
    Taints.TrimSpace(p.prefix) != "" && 1 <= p.randomLength <= 8
  }

  /** At least one of everything, and a route for every service. */
  predicate ValidCounts(c: TopologyConfig) {
    && c.namespaces >= 1
    && (!c.pressure ==> c.services >= 1 && c.routes >= 1 && c.replicas >= 1 && c.oneToOne && c.routes == c.services)
  }

  predicate Valid(c: TopologyConfig) {
    && c.otherwiseValid && Taints.TrimSpace(c.name) != "" && ValidCounts(c)
    && ValidPrefix(c.namespace) && ValidPrefix(c.service) && ValidPrefix(c.route) && ValidPrefix(c.deployment)
  }

  /** The intended objects; pods are deployment replicas. */
  function CountsOf(c: TopologyConfig): Counts {
    if c.pressure then Counts(c.namespaces, 0, 0, 0, 0)
    else
      var services := c.namespaces * c.services;
      Counts(c.namespaces, services, c.namespaces * c.routes, services, services * c.replicas)
  }

  function PairsPerNamespace(c: TopologyConfig): int { if c.pressure then 0 else c.services }

  // ---------------------------------------------------------------------
  // What a generated graph looks like
  // ---------------------------------------------------------------------

  ghost predicate Named(runID: string, prefix: string, number: nat, name: string) {
    exists suffix :: IsSuffix(suffix) && name == LabelOf(runID, prefix, number, suffix)
  }

  /** Which names a kind's prefix and a number allow. */
  type Scheme = (string, nat, string) -> bool

  ghost function NamedBy(runID: string): Scheme {
    (prefix: string, number: nat, name: string) => Named(runID, prefix, number, name)
  }

  ghost predicate PairFor(c: TopologyConfig, named: Scheme, pair: Pair, index: nat, number: nat) {
    && pair.index == index && pair.replicas == c.replicas
    && named("pair", number, pair.app)
    && named(c.service.prefix, number, pair.service)
    && named(c.route.prefix, number, pair.route)
    && named(c.deployment.prefix, number, pair.deployment)
  }

  /** Pairs numbered from base + 1 on. */
  ghost predicate PairsFor(c: TopologyConfig, named: Scheme, pairs: seq<Pair>, base: nat) {
    forall p :: 0 <= p < |pairs| ==> PairFor(c, named, pairs[p], p + 1, base + p + 1)
  }

  function Base(c: TopologyConfig, i: nat): int { i * PairsPerNamespace(c) }

  ghost predicate NamespaceFor(c: TopologyConfig, named: Scheme, ns: Namespace, i: nat)
    requires PairsPerNamespace(c) >= 0
  {
    && ns.index == i + 1 && named(c.namespace.prefix, i + 1, ns.name)
    && |ns.pairs| == PairsPerNamespace(c) && PairsFor(c, named, ns.pairs, Base(c, i))
  }

  ghost predicate NamespacesFor(c: TopologyConfig, named: Scheme, nss: seq<Namespace>, from: nat)
    requires PairsPerNamespace(c) >= 0
  {
    forall i :: 0 <= i < |nss| ==> NamespaceFor(c, named, nss[i], from + i)
  }

  ghost predicate GraphBy(c: TopologyConfig, named: Scheme, g: Graph) {
    && g.configName == c.name && g.counts == CountsOf(c) && |g.namespaces| == c.namespaces
    && PairsPerNamespace(c) >= 0 && NamespacesFor(c, named, g.namespaces, 0)
  }

  ghost predicate GraphFor(c: TopologyConfig, runID: string, g: Graph) {
    IsRunID(runID) && g.runID == runID && GraphBy(c, NamedBy(runID), g)
  }

  // ---------------------------------------------------------------------
  // Generating
  // ---------------------------------------------------------------------

  /** The factory names every kind as the configuration says. */
  ghost predicate FactoryFor(f: Factory, c: TopologyConfig, named: Scheme) {
    && f.PrefixOf("ns") == c.namespace.prefix && f.PrefixOf("svc") == c.service.prefix
    && f.PrefixOf("rt") == c.route.prefix && f.PrefixOf("deploy") == c.deployment.prefix
    && f.PrefixOf("pair") == "pair"
    && Means(named, f.runID)
  }

  /** The scheme allows exactly the names of this run. */
  ghost predicate Means(named: Scheme, runID: string) {
    forall number: nat :: MeansAt(named, runID, number)
  }

  ghost predicate MeansAt(named: Scheme, runID: string, number: nat) {
    forall prefix, name :: named(prefix, number, name) <==> Named(runID, prefix, number, name)
  }

  method NewName(f: Factory, ghost named: Scheme, kind: string, number: nat) returns (name: string)
    requires Means(named, f.runID)
    ensures named(f.PrefixOf(kind), number, name)
  {
    assert MeansAt(named, f.runID, number);
    var long := f.Name(kind, number);
    name := SanitizeDNSLabel(long);
  }

  method NewPair(f: Factory, c: TopologyConfig, ghost named: Scheme, index: nat, number: nat) returns (pair: Pair)
    requires FactoryFor(f, c, named)
    ensures PairFor(c, named, pair, index, number)
  {
    var app := NewName(f, named, "pair", number);
    var service := NewName(f, named, "svc", number);
    var route := NewName(f, named, "rt", number);
    var deployment := NewName(f, named, "deploy", number);
    pair := Pair(index, app, service, route, deployment, c.replicas);
  }

  /** The pairs of one namespace, numbered on from what was used before. */
  method NewPairs(f: Factory, c: TopologyConfig, ghost named: Scheme, pairsPerNS: nat, used: nat)
    returns (pairs: seq<Pair>, globalPair: nat)
    requires FactoryFor(f, c, named)
    ensures |pairs| == pairsPerNS && globalPair == used + pairsPerNS && PairsFor(c, named, pairs, used)
  {
    globalPair, pairs := used, [];
    var p := 1;
    while p <= pairsPerNS
      invariant 1 <= p <= pairsPerNS + 1 && |pairs| == p - 1 && globalPair == used + p - 1
      invariant PairsFor(c, named, pairs, used)
    {
      globalPair := globalPair + 1;
      var pair := NewPair(f, c, named, p, globalPair);
      OnePairMore(c, named, pairs, used, pair);
      pairs := pairs + [pair];
      p := p + 1;
    }
  }

  /** The namespaces and, numbered through all of them, their pairs. */
  method NewNamespaces(f: Factory, c: TopologyConfig, ghost named: Scheme, pairsPerNS: nat) returns (namespaces: seq<Namespace>)
    requires FactoryFor(f, c, named) && c.namespaces >= 0 && pairsPerNS == PairsPerNamespace(c)
    ensures |namespaces| == c.namespaces && NamespacesFor(c, named, namespaces, 0)
  {
    var globalPair: nat := 0;
    namespaces := [];
    var i := 1;
    while i <= c.namespaces
      invariant 1 <= i <= c.namespaces + 1 && |namespaces| == i - 1 && globalPair == Base(c, i - 1)
      invariant NamespacesFor(c, named, namespaces, 0)
    {
      var name := NewName(f, named, "ns", i);
      var pairs;
      pairs, globalPair := NewPairs(f, c, named, pairsPerNS, globalPair);
      BaseGrows(c, i - 1);
      OneNamespaceMore(c, named, namespaces, Namespace(name, i, pairs));
      namespaces := namespaces + [Namespace(name, i, pairs)];
      i := i + 1;
    }
  }

  lemma OneNamespaceMore(c: TopologyConfig, named: Scheme, nss: seq<Namespace>, ns: Namespace)
    requires PairsPerNamespace(c) >= 0 && NamespacesFor(c, named, nss, 0) && NamespaceFor(c, named, ns, |nss|)
    ensures NamespacesFor(c, named, nss + [ns], 0)
  {
  }

  lemma OnePairMore(c: TopologyConfig, named: Scheme, pairs: seq<Pair>, base: nat, pair: Pair)
    requires PairsFor(c, named, pairs, base) && PairFor(c, named, pair, |pairs| + 1, base + |pairs| + 1)
    ensures PairsFor(c, named, pairs + [pair], base)
  {
  }

  /** Fails exactly on an invalid configuration; the count check at the end never fires. */
  method Generate(c: TopologyConfig, runID: string) returns (r: Result)
    requires IsRunID(runID)
    ensures r.Generated? <==> Valid(c)
    ensures r.Generated? ==> GraphFor(c, runID, r.graph)
    ensures r != CountMismatch
  {
    if !Valid(c) {
      return Invalid;
    }
    var f := NewFactory(c, runID);
    var pairsPerNS := c.services;
    if c.pressure {
      pairsPerNS := 0;
    }
    var counts := CountsOf(c);
    var namespaces := NewNamespaces(f, c, NamedBy(runID), pairsPerNS);
    if |namespaces| != counts.namespaces {
      return CountMismatch;
    }
    return Generated(Graph(runID, c.name, namespaces, counts));
  }

  method NewFactory(c: TopologyConfig, runID: string) returns (f: Factory)
    requires Valid(c)
    ensures f.runID == runID && FactoryFor(f, c, NamedBy(runID))
  {
    f := new Factory(runID, c.namespace, c.service, c.route, c.deployment);
    assert Means(NamedBy(runID), runID) by {
      forall number: nat ensures MeansAt(NamedBy(runID), runID, number) {
      }
    }
  }

  lemma BaseGrows(c: TopologyConfig, i: nat)
    ensures Base(c, i + 1) == Base(c, i) + PairsPerNamespace(c)
  {
  }

  // ---------------------------------------------------------------------
  // Counts
  // ---------------------------------------------------------------------

  /** Spawning order numbers the pairs 1, 2, ... through the whole graph. */
  lemma {:induction false} ItemsAreNumbered(c: TopologyConfig, named: Scheme, nss: seq<Namespace>, from: nat)
    requires PairsPerNamespace(c) >= 0 && NamespacesFor(c, named, nss, from)
    ensures Base(c, from) >= 0 && |Items(nss)| == |nss| * PairsPerNamespace(c)
    ensures forall k :: 0 <= k < |Items(nss)| ==>
              PairFor(c, named, Items(nss)[k].1, Items(nss)[k].1.index, Base(c, from) + k + 1)
  {
    Product(from, PairsPerNamespace(c));
    if nss != [] {
      RestIsNumbered(c, named, nss, from);
      ItemsAreNumbered(c, named, nss[1..], from + 1);
      BaseGrows(c, from);
      assert NamespaceFor(c, named, nss[0], from + 0);
      OneTimesMore(|nss|, PairsPerNamespace(c));
      FirstAndRest(c, named, nss, Base(c, from));
    }
  }

  lemma RestIsNumbered(c: TopologyConfig, named: Scheme, nss: seq<Namespace>, from: nat)
    requires PairsPerNamespace(c) >= 0 && NamespacesFor(c, named, nss, from) && nss != []
    ensures NamespacesFor(c, named, nss[1..], from + 1)
  {
    var rest := nss[1..];
    forall i | 0 <= i < |rest| ensures NamespaceFor(c, named, rest[i], from + 1 + i) {
      assert rest[i] == nss[i + 1] && NamespaceFor(c, named, nss[i + 1], from + (i + 1));
    }
  }

  lemma OneTimesMore(n: nat, m: nat)
    requires n > 0
    ensures n * m == (n - 1) * m + m
  {
  }

  lemma FirstAndRest(c: TopologyConfig, named: Scheme, nss: seq<Namespace>, base: nat)
    requires nss != [] && PairsFor(c, named, nss[0].pairs, base)
    requires forall k :: 0 <= k < |Items(nss[1..])| ==>
               PairFor(c, named, Items(nss[1..])[k].1, Items(nss[1..])[k].1.index, base + |nss[0].pairs| + k + 1)
    ensures forall k :: 0 <= k < |Items(nss)| ==>
              PairFor(c, named, Items(nss)[k].1, Items(nss)[k].1.index, base + k + 1)
  {
    var first, its := |nss[0].pairs|, Items(nss);
    forall k | 0 <= k < |its| ensures PairFor(c, named, its[k].1, its[k].1.index, base + k + 1) {
      if k >= first {
        assert its[k] == Items(nss[1..])[k - first];
      }
    }
  }

  lemma Product(a: nat, b: nat)
    ensures a * b >= 0
  {
  }

  function PodsOf(items: seq<(Namespace, Pair)>): int {
    if items == [] then 0 else items[0].1.replicas + PodsOf(items[1..])
  }

  lemma {:induction false} PodsOfEqualPairs(items: seq<(Namespace, Pair)>, replicas: int)
    requires forall k :: 0 <= k < |items| ==> items[k].1.replicas == replicas
    ensures PodsOf(items) == |items| * replicas
  {
    if items != [] {
      PodsOfEqualPairs(items[1..], replicas);
    }
  }

  /** The graph has as many namespaces, pairs and pods as the counts say. */
  lemma CountsAreExact(c: TopologyConfig, named: Scheme, g: Graph)
    requires ValidCounts(c) && GraphBy(c, named, g)
    ensures Apply.CountsMatch(g) && g.counts.pods == PodsOf(Items(g.namespaces))
  {
    ItemsAreNumbered(c, named, g.namespaces, 0);
    PodsOfEqualPairs(Items(g.namespaces), c.replicas);
  }

  /** Namespaces are numbered from 1 without gaps, as the steps of the execution expect. */
  lemma IndexedFromOne(c: TopologyConfig, named: Scheme, nss: seq<Namespace>)
    requires PairsPerNamespace(c) >= 0 && NamespacesFor(c, named, nss, 0)
    ensures ExecSteps.Numbered(nss, 1)
  {
    forall i | 0 <= i < |nss| ensures nss[i].index == 1 + i {
      assert NamespaceFor(c, named, nss[i], 0 + i);
    }
  }

  // ---------------------------------------------------------------------
  // Distinct keys
  // ---------------------------------------------------------------------

  /** Every number of every kind of name is visible before the cut. */
  predicate NamesFit(c: TopologyConfig)
    requires PairsPerNamespace(c) >= 0 && c.namespaces >= 0
  {
    var pairs := Pairs(c);
    && NumbersVisible(c.namespace.prefix, c.namespaces) && NumbersVisible("pair", pairs)
    && NumbersVisible(c.service.prefix, pairs) && NumbersVisible(c.route.prefix, pairs)
    && NumbersVisible(c.deployment.prefix, pairs)
  }

  function Pairs(c: TopologyConfig): (n: nat)
    requires PairsPerNamespace(c) >= 0 && c.namespaces >= 0
  {
    Product(c.namespaces, PairsPerNamespace(c));
    c.namespaces * PairsPerNamespace(c)
  }

  /** Names with different numbers up to n diverge. */
  ghost predicate Separates(named: Scheme, prefix: string, n: nat) {
    forall a: nat, b: nat, x, y :: a <= n && b <= n && a != b && named(prefix, a, x) && named(prefix, b, y) ==> Diverge(x, y)
  }

  ghost predicate SeparatesAll(c: TopologyConfig, named: Scheme)
    requires PairsPerNamespace(c) >= 0 && c.namespaces >= 0
  {
    var pairs := Pairs(c);
    && Separates(named, c.namespace.prefix, c.namespaces) && Separates(named, "pair", pairs)
    && Separates(named, c.service.prefix, pairs) && Separates(named, c.route.prefix, pairs)
    && Separates(named, c.deployment.prefix, pairs)
  }

  lemma NamesSeparate(runID: string, prefix: string, n: nat)
    requires IsRunID(runID) && NumbersVisible(prefix, n)
    ensures Separates(NamedBy(runID), prefix, n)
  {
    forall a: nat, b: nat, x, y | a <= n && b <= n && a != b && Named(runID, prefix, a, x) && Named(runID, prefix, b, y)
      ensures Diverge(x, y)
    {
      NamedDiverge(runID, prefix, a, b, n, x, y);
    }
  }

  lemma NamedDiverge(runID: string, prefix: string, a: nat, b: nat, n: nat, x: string, y: string)
    requires IsRunID(runID) && a <= n && b <= n && a != b && NumbersVisible(prefix, n)
    requires Named(runID, prefix, a, x) && Named(runID, prefix, b, y)
    ensures Diverge(x, y)
  {
    var s :| IsSuffix(s) && x == LabelOf(runID, prefix, a, s);
    var t :| IsSuffix(t) && y == LabelOf(runID, prefix, b, t);
    if a < b {
      LabelsDiverge(runID, prefix, a, b, n, s, t);
    } else {
      LabelsDiverge(runID, prefix, b, a, n, t, s);
    }
  }

  lemma AllNamesSeparate(c: TopologyConfig, runID: string)
    requires IsRunID(runID) && PairsPerNamespace(c) >= 0 && c.namespaces >= 0 && NamesFit(c)
    ensures SeparatesAll(c, NamedBy(runID))
  {
    NamesSeparate(runID, c.namespace.prefix, c.namespaces);
    NamesSeparate(runID, "pair", Pairs(c));
    NamesSeparate(runID, c.service.prefix, Pairs(c));
    NamesSeparate(runID, c.route.prefix, Pairs(c));
    NamesSeparate(runID, c.deployment.prefix, Pairs(c));
  }

  /** Different namespaces of a graph have diverging names. */
  lemma NamespacesDiverge(c: TopologyConfig, named: Scheme, g: Graph, i: nat, j: nat)
    requires GraphBy(c, named, g) && SeparatesAll(c, named)
    requires i < |g.namespaces| && j < |g.namespaces| && i != j
    ensures Diverge(g.namespaces[i].name, g.namespaces[j].name)
  {
    assert NamespaceFor(c, named, g.namespaces[i], 0 + i) && NamespaceFor(c, named, g.namespaces[j], 0 + j);
    assert Separates(named, c.namespace.prefix, c.namespaces);
  }

  /** Different pairs of a graph have diverging names of every kind. */
  lemma PairsDiverge(c: TopologyConfig, named: Scheme, g: Graph, j: nat, k: nat)
    requires GraphBy(c, named, g) && SeparatesAll(c, named)
    requires j < |Items(g.namespaces)| && k < |Items(g.namespaces)| && j != k
    ensures var p, q := Items(g.namespaces)[j].1, Items(g.namespaces)[k].1;
            && Diverge(p.app, q.app) && Diverge(p.service, q.service)
            && Diverge(p.route, q.route) && Diverge(p.deployment, q.deployment)
  {
    var its := Items(g.namespaces);
    ItemsAreNumbered(c, named, g.namespaces, 0);
    NumberedDiverge(c, named, its[j].1, its[k].1, j + 1, k + 1);
  }

  lemma NumberedDiverge(c: TopologyConfig, named: Scheme, p: Pair, q: Pair, a: nat, b: nat)
    requires PairsPerNamespace(c) >= 0 && c.namespaces >= 0 && SeparatesAll(c, named)
    requires a <= Pairs(c) && b <= Pairs(c) && a != b
    requires PairFor(c, named, p, p.index, a) && PairFor(c, named, q, q.index, b)
    ensures Diverge(p.app, q.app) && Diverge(p.service, q.service)
    ensures Diverge(p.route, q.route) && Diverge(p.deployment, q.deployment)
  {
  }

  /** Two items lie in one namespace or in namespaces with diverging names. */
  lemma SameOrDiverging(c: TopologyConfig, named: Scheme, g: Graph, j: nat, k: nat)
    requires GraphBy(c, named, g) && SeparatesAll(c, named)
    requires j < |Items(g.namespaces)| && k < |Items(g.namespaces)|
    ensures var x, y := Items(g.namespaces)[j].0, Items(g.namespaces)[k].0;
            x == y || Diverge(x.name, y.name)
  {
    var x, y := Items(g.namespaces)[j].0, Items(g.namespaces)[k].0;
    ItemsMembers(g.namespaces);
    assert Items(g.namespaces)[j] in Items(g.namespaces) && Items(g.namespaces)[k] in Items(g.namespaces);
    var a :| 0 <= a < |g.namespaces| && g.namespaces[a] == x;
    var b :| 0 <= b < |g.namespaces| && g.namespaces[b] == y;
    if a != b {
      NamespacesDiverge(c, named, g, a, b);
    }
  }

  lemma KeysDiffer(o: Object, p: Object)
    requires o.spec.NamespaceSpec? <==> p.spec.NamespaceSpec?
    requires o.spec.NamespaceSpec? ==> o.namespace == p.namespace
    requires o.namespace == p.namespace || Diverge(o.namespace, p.namespace)
    requires o.namespace == p.namespace ==> Diverge(o.name, p.name)
    ensures KubeCluster.KeyOf(o) != KubeCluster.KeyOf(p)
  {
    var a, b := KubeCluster.KeyOf(o), KubeCluster.KeyOf(p);
    if o.namespace != p.namespace {
      var i :| 0 <= i < |o.namespace| && i < |p.namespace| && o.namespace[i] != p.namespace[i];
      assert a[i] == o.namespace[i] && b[i] == p.namespace[i];
    } else {
      var i :| 0 <= i < |o.name| && i < |p.name| && o.name[i] != p.name[i];
      var at := if o.spec.NamespaceSpec? then 0 else |o.namespace| + 1;
      assert a[at + i] == o.name[i] && b[at + i] == p.name[i];
    }
  }

  lemma ObjectKeysDiffer(c: TopologyConfig, named: Scheme, g: Graph, kind: Kind, j: nat, k: nat)
    requires GraphBy(c, named, g) && SeparatesAll(c, named)
    requires j < k < |Objects(g, kind, g.namespaces)|
    ensures KubeCluster.KeyOf(Objects(g, kind, g.namespaces)[j]) != KubeCluster.KeyOf(Objects(g, kind, g.namespaces)[k])
  {
    var objs := Objects(g, kind, g.namespaces);
    if kind == KNamespace {
      NamespacesDiverge(c, named, g, j, k);
    } else {
      SameOrDiverging(c, named, g, j, k);
      PairsDiverge(c, named, g, j, k);
    }
    KeysDiffer(objs[j], objs[k]);
  }

  /** What the objects of a kind are called, item by item. */
  function NameIn(kind: Kind, p: Pair): string
    requires kind != KNamespace
  {
    match kind
    case KService => p.service
    case KDeployment => p.deployment
    case KRoute => p.route
  }

  /** Pairs of one namespace have different names of this kind. */
  ghost predicate NamesApart(g: Graph, kind: Kind) {
    kind != KNamespace ==>
      forall j, k :: 0 <= j < k < |Items(g.namespaces)| && Items(g.namespaces)[j].0 == Items(g.namespaces)[k].0 ==>
        NameIn(kind, Items(g.namespaces)[j].1) != NameIn(kind, Items(g.namespaces)[k].1)
  }

  /**
   * No two objects share a key exactly if the numbers of the namespaces fit, or there is only one,
   * and within every namespace the pairs have different names.
   */
  lemma KeysAreDistinctIff(c: TopologyConfig, runID: string, g: Graph)
    requires GraphFor(c, runID, g) && c.namespaces >= 0
    ensures Apply.GraphKeysDistinct(g) <==>
              (c.namespaces < 2 || NumbersVisible(c.namespace.prefix, c.namespaces)) && forall kind: Kind :: NamesApart(g, kind)
  {
    if c.namespaces < 2 || NumbersVisible(c.namespace.prefix, c.namespaces) {
      forall i: nat, j: nat | i < |g.namespaces| && j < |g.namespaces| && i != j
        ensures Diverge(g.namespaces[i].name, g.namespaces[j].name)
      {
        VisibleNamespacesDiverge(c, runID, g, i, j);
      }
      KeysFollowNames(g);
    } else {
      HiddenNamespacesClash(c, runID, g);
    }
  }

  lemma VisibleNamespacesDiverge(c: TopologyConfig, runID: string, g: Graph, i: nat, j: nat)
    requires GraphFor(c, runID, g) && NumbersVisible(c.namespace.prefix, c.namespaces)
    requires i < |g.namespaces| && j < |g.namespaces| && i != j
    ensures Diverge(g.namespaces[i].name, g.namespaces[j].name)
  {
    NamesSeparate(runID, c.namespace.prefix, c.namespaces);
    NamespaceIsNamed(c, NamedBy(runID), g, i);
    NamespaceIsNamed(c, NamedBy(runID), g, j);
    NumberedDivergeBy(NamedBy(runID), c.namespace.prefix, c.namespaces, g.namespaces[i].name, g.namespaces[j].name, i + 1, j + 1);
  }

  lemma NamespaceIsNamed(c: TopologyConfig, named: Scheme, g: Graph, i: nat)
    requires GraphBy(c, named, g) && i < |g.namespaces|
    ensures named(c.namespace.prefix, i + 1, g.namespaces[i].name)
  {
    assert NamespaceFor(c, named, g.namespaces[i], 0 + i);
  }

  lemma NumberedDivergeBy(named: Scheme, prefix: string, n: nat, x: string, y: string, a: nat, b: nat)
    requires Separates(named, prefix, n) && a <= n && b <= n && a != b && named(prefix, a, x) && named(prefix, b, y)
    ensures Diverge(x, y)
  {
  }

  /** Names that clash are those of the two numbers whose visible digits agree. */
  lemma HiddenNamespacesClash(c: TopologyConfig, runID: string, g: Graph)
    requires GraphFor(c, runID, g) && c.namespaces >= 2 && !NumbersVisible(c.namespace.prefix, c.namespaces)
    ensures !Apply.GraphKeysDistinct(g)
  {
    ClashInRange(c.namespace.prefix, c.namespaces);
    var clash := Clash(c.namespace.prefix);
    ClashingNames(c, runID, g, clash.0 - 1, clash.1 - 1);
    SameNameSameKey(g, clash.0 - 1, clash.1 - 1);
  }

  lemma ClashingNames(c: TopologyConfig, runID: string, g: Graph, i: nat, j: nat)
    requires GraphFor(c, runID, g) && i < |g.namespaces| && j < |g.namespaces|
    requires Clash(c.namespace.prefix) == (i + 1, j + 1)
    ensures g.namespaces[i].name == g.namespaces[j].name
  {
    NamespaceIsNamed(c, NamedBy(runID), g, i);
    NamespaceIsNamed(c, NamedBy(runID), g, j);
    SameClashName(runID, c.namespace.prefix, g.namespaces[i].name, g.namespaces[j].name);
  }

  lemma SameNameSameKey(g: Graph, i: nat, j: nat)
    requires i < |g.namespaces| && j < |g.namespaces| && i != j && g.namespaces[i].name == g.namespaces[j].name
    ensures !Apply.GraphKeysDistinct(g)
  {
    var objs := Objects(g, KNamespace, g.namespaces);
    assert KubeCluster.KeyOf(objs[i]) == KubeCluster.KeyOf(objs[j]);
    assert !Apply.DistinctKeys(objs);
  }

  lemma SameClashName(runID: string, prefix: string, x: string, y: string)
    requires IsRunID(runID) && Named(runID, prefix, Clash(prefix).0, x) && Named(runID, prefix, Clash(prefix).1, y)
    ensures x == y
  {
    var s :| IsSuffix(s) && x == LabelOf(runID, prefix, Clash(prefix).0, s);
    var t :| IsSuffix(t) && y == LabelOf(runID, prefix, Clash(prefix).1, t);
    LabelsClash(runID, prefix, s, t);
  }

  /** With diverging namespaces, keys are as distinct as the names within each. */
  lemma KeysFollowNames(g: Graph)
    requires forall i: nat, j: nat :: i < |g.namespaces| && j < |g.namespaces| && i != j ==>
               Diverge(g.namespaces[i].name, g.namespaces[j].name)
    ensures Apply.GraphKeysDistinct(g) <==> forall kind: Kind :: NamesApart(g, kind)
  {
    forall kind: Kind ensures Apply.DistinctKeys(Objects(g, kind, g.namespaces)) <==> NamesApart(g, kind) {
      if kind == KNamespace {
        NamespaceKeysDiffer(g);
      } else {
        WorkloadKeysFollowNames(g, kind);
      }
    }
  }

  lemma NamespaceKeysDiffer(g: Graph)
    requires forall i: nat, j: nat :: i < |g.namespaces| && j < |g.namespaces| && i != j ==>
               Diverge(g.namespaces[i].name, g.namespaces[j].name)
    ensures Apply.DistinctKeys(Objects(g, KNamespace, g.namespaces))
  {
    var objs := Objects(g, KNamespace, g.namespaces);
    forall i, j | 0 <= i < j < |objs| ensures KubeCluster.KeyOf(objs[i]) != KubeCluster.KeyOf(objs[j]) {
      assert Diverge(g.namespaces[i].name, g.namespaces[j].name);
    }
  }

  lemma WorkloadKeysFollowNames(g: Graph, kind: Kind)
    requires kind != KNamespace
    requires forall i: nat, j: nat :: i < |g.namespaces| && j < |g.namespaces| && i != j ==>
               Diverge(g.namespaces[i].name, g.namespaces[j].name)
    ensures Apply.DistinctKeys(Objects(g, kind, g.namespaces)) <==> NamesApart(g, kind)
  {
    var objs, its := Objects(g, kind, g.namespaces), Items(g.namespaces);
    forall j, k | 0 <= j < k < |objs|
      ensures KubeCluster.KeyOf(objs[j]) == KubeCluster.KeyOf(objs[k]) <==>
                its[j].0 == its[k].0 && NameIn(kind, its[j].1) == NameIn(kind, its[k].1)
    {
      TwoItems(g, j, k);
      TwoKeys(g, kind, its[j], its[k]);
    }
  }

  lemma TwoItems(g: Graph, j: nat, k: nat)
    requires j < |Items(g.namespaces)| && k < |Items(g.namespaces)|
    requires forall i: nat, j: nat :: i < |g.namespaces| && j < |g.namespaces| && i != j ==>
               Diverge(g.namespaces[i].name, g.namespaces[j].name)
    ensures Items(g.namespaces)[j].0 == Items(g.namespaces)[k].0
            || Diverge(Items(g.namespaces)[j].0.name, Items(g.namespaces)[k].0.name)
  {
    var x, y := Items(g.namespaces)[j].0, Items(g.namespaces)[k].0;
    ItemsMembers(g.namespaces);
    assert Items(g.namespaces)[j] in Items(g.namespaces) && Items(g.namespaces)[k] in Items(g.namespaces);
    var a :| 0 <= a < |g.namespaces| && g.namespaces[a] == x;
    var b :| 0 <= b < |g.namespaces| && g.namespaces[b] == y;
  }

  lemma TwoKeys(g: Graph, kind: Kind, x: (Namespace, Pair), y: (Namespace, Pair))
    requires kind != KNamespace && (x.0 == y.0 || Diverge(x.0.name, y.0.name))
    ensures KubeCluster.KeyOf(BuildItem(g, kind, x)) == KubeCluster.KeyOf(BuildItem(g, kind, y)) <==>
              x.0 == y.0 && NameIn(kind, x.1) == NameIn(kind, y.1)
  {
    var a, b := x.0.name + "/" + NameIn(kind, x.1), y.0.name + "/" + NameIn(kind, y.1);
    assert KubeCluster.KeyOf(BuildItem(g, kind, x)) == a && KubeCluster.KeyOf(BuildItem(g, kind, y)) == b;
    if x.0 == y.0 {
      assert a[|x.0.name| + 1..] == NameIn(kind, x.1) && b[|x.0.name| + 1..] == NameIn(kind, y.1);
    } else {
      var i :| 0 <= i < |x.0.name| && i < |y.0.name| && x.0.name[i] != y.0.name[i];
      assert a[i] == x.0.name[i] && b[i] == y.0.name[i];
    }
  }

  /** When all numbers fit, no two objects of a kind share a key. */
  lemma KeysAreDistinct(c: TopologyConfig, runID: string, g: Graph)
    requires GraphFor(c, runID, g) && NamesFit(c)
    ensures Apply.GraphKeysDistinct(g)
  {
    AllNamesSeparate(c, runID);
    forall kind: Kind ensures Apply.DistinctKeys(Objects(g, kind, g.namespaces)) {
      var objs := Objects(g, kind, g.namespaces);
      forall j, k | 0 <= j < k < |objs| ensures KubeCluster.KeyOf(objs[j]) != KubeCluster.KeyOf(objs[k]) {
        ObjectKeysDiffer(c, NamedBy(runID), g, kind, j, k);
      }
    }
  }

  // ---------------------------------------------------------------------
  // Wiring
  // ---------------------------------------------------------------------

  predicate Matches(selector: Labels, labels: Labels) {
    forall k :: k in selector ==> k in labels && labels[k] == selector[k]
  }

  /** A service's selector picks the pods of a deployment. */
  predicate Serves(svc: Object, dep: Object)
    requires svc.spec.ServiceSpec? && dep.spec.DeploymentSpec?
  {
    svc.namespace == dep.namespace && Matches(svc.spec.selector, dep.spec.podLabels)
  }

  predicate RoutesTo(rt: Object, svc: Object)
    requires rt.spec.RouteSpec?
  {
    rt.namespace == svc.namespace && rt.spec.service == svc.name
  }

  /** A deployment claims the pods that another one would make. */
  predicate Claims(dep: Object, other: Object)
    requires dep.spec.DeploymentSpec? && other.spec.DeploymentSpec?
  {
    dep.namespace == other.namespace && Matches(dep.spec.matchLabels, other.spec.podLabels)
  }

  lemma MatchesAppOnly(runID: string, app: string, other: string)
    ensures Matches(map[LABEL_APP := app], PairLabels(runID, other, "pod")) <==> app == other
  {
    var labels := PairLabels(runID, other, "pod");
    assert labels[LABEL_APP] == other;
    assert LABEL_APP in map[LABEL_APP := app];
  }

  /** Each item with its number, which is within the count of pairs. */
  lemma ItemHasNumber(c: TopologyConfig, named: Scheme, g: Graph, j: nat)
    requires GraphBy(c, named, g) && j < |Items(g.namespaces)|
    ensures j + 1 <= Pairs(c) && PairFor(c, named, Items(g.namespaces)[j].1, Items(g.namespaces)[j].1.index, j + 1)
  {
    ItemsAreNumbered(c, named, g.namespaces, 0);
  }

  /** Services and deployments are joined pair by pair and in no other way, whatever their own prefixes. */
  lemma ServedPairByPair(c: TopologyConfig, runID: string, g: Graph, j: nat, k: nat)
    requires GraphFor(c, runID, g) && NumbersVisible("pair", Pairs(c))
    requires j < |Items(g.namespaces)| && k < |Items(g.namespaces)|
    ensures var its := Items(g.namespaces);
            && (Serves(BuildService(g, its[j].0, its[j].1), BuildDeployment(g, its[k].0, its[k].1)) <==> j == k)
            && (Claims(BuildDeployment(g, its[j].0, its[j].1), BuildDeployment(g, its[k].0, its[k].1)) <==> j == k)
  {
    var p, q := Items(g.namespaces)[j].1, Items(g.namespaces)[k].1;
    MatchesAppOnly(runID, p.app, q.app);
    if j != k {
      NamesSeparate(runID, "pair", Pairs(c));
      ItemHasNumber(c, NamedBy(runID), g, j);
      ItemHasNumber(c, NamedBy(runID), g, k);
      NumberedNamesDiffer(NamedBy(runID), "pair", Pairs(c), p.app, q.app, j + 1, k + 1);
    }
  }

  lemma NumberedNamesDiffer(named: Scheme, prefix: string, n: nat, x: string, y: string, a: nat, b: nat)
    requires Separates(named, prefix, n) && a <= n && b <= n && a != b && named(prefix, a, x) && named(prefix, b, y)
    ensures x != y
  {
    assert Diverge(x, y);
  }

  /** The fixed prefix of pairs leaves room for fifty digits. */
  lemma PairNumbersAreVisible(n: nat)
    requires n < Pow10(50)
    ensures NumbersVisible("pair", n)
  {
    if |Dec(n)| > 50 {
      DecIsLeast(n);
      PowGrows(50, |Dec(n)| - 1);
    }
  }

  /** Each route reaches exactly its own service. */
  lemma RoutedPairByPair(c: TopologyConfig, runID: string, g: Graph, j: nat, k: nat)
    requires GraphFor(c, runID, g) && NumbersVisible(c.service.prefix, Pairs(c))
    requires j < |Items(g.namespaces)| && k < |Items(g.namespaces)|
    ensures var its := Items(g.namespaces);
            RoutesTo(BuildRoute(g, its[j].0, its[j].1), BuildService(g, its[k].0, its[k].1)) <==> j == k
  {
    if j != k {
      NamesSeparate(runID, c.service.prefix, Pairs(c));
      ServiceNamesDiffer(c, NamedBy(runID), g, j, k);
    }
  }

  lemma ServiceNamesDiffer(c: TopologyConfig, named: Scheme, g: Graph, j: nat, k: nat)
    requires GraphBy(c, named, g) && Separates(named, c.service.prefix, Pairs(c))
    requires j < |Items(g.namespaces)| && k < |Items(g.namespaces)| && j != k
    ensures Items(g.namespaces)[j].1.service != Items(g.namespaces)[k].1.service
  {
    ItemHasNumber(c, named, g, j);
    ItemHasNumber(c, named, g, k);
    NumberedNamesDiffer(named, c.service.prefix, Pairs(c), Items(g.namespaces)[j].1.service,
                        Items(g.namespaces)[k].1.service, j + 1, k + 1);
  }

  // ---------------------------------------------------------------------
  // Generated graphs and the planner
  // ---------------------------------------------------------------------

  /** The same topology, as planning reads it. */
  predicate SameTopology(c: TopologyConfig, settings: BatchPlan.Settings) {
    && settings.objectPressure == c.pressure && settings.namespaceCount == c.namespaces
    && settings.routesPerNS == c.routes && settings.servicesPerNS == c.services && settings.replicas == c.replicas
  }

  /** The planner's density is exact: over all namespaces it adds up to the routes, services and pods of the graph. */
  lemma DensityIsExact(c: TopologyConfig, settings: BatchPlan.Settings, named: Scheme, g: Graph)
    requires ValidCounts(c) && !c.pressure && SameTopology(c, settings) && GraphBy(c, named, g)
    ensures |g.namespaces| * BatchPlan.ObjectsPerNS(settings) == g.counts.routes + g.counts.services + PodsOf(Items(g.namespaces))
  {
    CountsAreExact(c, named, g);
    SumPerNamespace(c.namespaces, c.routes, c.services, c.replicas);
  }

  lemma SumPerNamespace(n: int, routes: int, services: int, replicas: int)
    ensures n * (routes + services + services * replicas) == n * routes + n * services + n * services * replicas
  {
    Distribute(n, routes + services, services * replicas);
    Distribute(n, routes, services);
  }

  lemma Distribute(n: int, a: int, b: int)
    ensures n * (a + b) == n * a + n * b
  {
  }

  /** The page has one step for every wave of a generated graph, and their ranges tile its namespaces. */
  lemma StepsTileGeneratedGraph(c: TopologyConfig, named: Scheme, g: Graph, settings: BatchPlan.Settings)
    requires ValidCounts(c) && GraphBy(c, named, g)
    ensures var p := BatchPlan.PlanBatches(settings, c.namespaces);
            var batches := BatchPlan.SplitByPlanSpec(BatchPlan.AppliedSettings(settings, p), g.namespaces);
            && (forall k :: 0 <= k < |batches| ==> batches[k] != [])
            && |ExecSteps.BatchSteps(batches)| == p.count
            && ExecSteps.Tiles(ExecSteps.BatchSteps(batches), 1, c.namespaces + 1)
  {
    IndexedFromOne(c, named, g.namespaces);
    ExecSteps.StepsTileTheGraph(settings, g.namespaces);
  }

  /** A generated graph is deployed in at least one wave, whatever the deployment settings. */
  lemma AtLeastOneWave(c: TopologyConfig, named: Scheme, g: Graph, settings: BatchPlan.Settings)
    requires ValidCounts(c) && GraphBy(c, named, g)
    ensures BatchPlan.PlanBatches(settings, |g.namespaces|).count >= 1
    ensures BatchPlan.SplitByPlanSpec(settings, g.namespaces) != []
  {
    BatchPlan.PlanGuarantees(settings, |g.namespaces|);
    BatchPlan.SplitMatchesPlan(settings, g.namespaces);
  }
}
