/**
 * How many pods the density run's nodes can take (internal/kube/capacity.go). Nodes are judged
 * directly from the avoid list; what the pods themselves are given is compiled in Scheduling.
 */
module Capacity {
  import opened Common
  import opened NodeRules
  import opened Taints
  import opened Scheduling

  predicate EffectCompatible(a: string, t: string) { a == "" || t == "" || a == t }

  predicate AvoidMatchesNodeTaint(a: AvoidTaint, t: Taint) {
    if a.key == "" then false
    else if InfraForm(a) then
      ((t.key == ROLE && t.value == "infra") || t.key == INFRA) && EffectCompatible(a.effect, t.effect)
    else
      t.key == a.key && (a.value != "" ==> t.value == a.value) && EffectCompatible(a.effect, t.effect)
  }

  /** The label half of the judgement, entry by entry. */
  predicate LabelAvoided(a: AvoidTaint, labels: Labels) {
    if InfraForm(a) then INFRA in labels || (ROLE in labels && labels[ROLE] == "infra")
    else if a.key != "" && a.value == "" then a.key in labels
    else if a.key != "" then a.key in labels && labels[a.key] == a.value
    else false
  }

  predicate LabelsExcluded(labels: Labels, avoid: seq<AvoidTaint>) {
    || CONTROL_PLANE[0] in labels
    || CONTROL_PLANE[1] in labels
    || exists a :: a in avoid && LabelAvoided(a, labels)
  }

  predicate Blocks(t: Taint) { t.effect == "NoSchedule" || t.effect == "NoExecute" }

  predicate TaintExcludes(t: Taint, avoid: seq<AvoidTaint>) {
    Blocks(t) && (t.key in CONTROL_PLANE || exists a :: a in avoid && AvoidMatchesNodeTaint(a, t))
  }

  predicate Excluded(n: Node, avoid: seq<AvoidTaint>) {
    LabelsExcluded(n.labels, avoid) || exists t :: t in n.taints && TaintExcludes(t, avoid)
  }

  method DensityNodeExcluded(n: Node, avoid: seq<AvoidTaint>) returns (r: bool)
    ensures r == Excluded(n, avoid)
  {
    if CONTROL_PLANE[0] in n.labels || CONTROL_PLANE[1] in n.labels {
      return true;
    }
    for i := 0 to |avoid|
      invariant forall a :: a in avoid[..i] ==> !LabelAvoided(a, n.labels)
    {
      if LabelAvoided(avoid[i], n.labels) {
        assert avoid[i] in avoid;
        return true;
      }
    }
    for i := 0 to |n.taints|
      invariant forall t :: t in n.taints[..i] ==> !TaintExcludes(t, avoid)
    {
      var excludes := NodeTaintExcludes(n.taints[i], avoid);
      if excludes {
        assert n.taints[i] in n.taints;
        return true;
      }
    }
    return false;
  }

  method NodeTaintExcludes(t: Taint, avoid: seq<AvoidTaint>) returns (r: bool)
    ensures r == TaintExcludes(t, avoid)
  {
    if t.effect != "NoSchedule" && t.effect != "NoExecute" {
      return false;
    }
    if t.key == CONTROL_PLANE[0] || t.key == CONTROL_PLANE[1] {
      return true;
    }
    for i := 0 to |avoid|
      invariant forall a :: a in avoid[..i] ==> !AvoidMatchesNodeTaint(a, t)
    {
      if AvoidMatchesNodeTaint(avoid[i], t) {
        assert avoid[i] in avoid;
        return true;
      }
    }
    return false;
  }

  // ---------------------------------------------------------------------
  // Agreement with what the pods are given
  // ---------------------------------------------------------------------

  lemma EntryAgrees(a: AvoidTaint, labels: Labels)
    ensures LabelAvoided(a, labels) <==> exists w :: w in Want(a) && Useful(w) && !Holds(w, labels)
  {
    if InfraForm(a) {
      var u, w := Not(a.key, a.value), Absent(INFRA);
      assert u in Want(a) && w in Want(a) && Useful(u) && Useful(w);
      assert LabelAvoided(a, labels) <==> !Holds(u, labels) || !Holds(w, labels);
    } else {
      var w := if a.value == "" then Absent(a.key) else Not(a.key, a.value);
      assert w in Want(a);
      assert Useful(w) <==> a.key != "";
      assert a.key != "" ==> (LabelAvoided(a, labels) <==> !Holds(w, labels));
    }
  }

  /** Labels are excluded exactly if they fail something the avoid list asks for. */
  lemma LabelsAgree(avoid: seq<AvoidTaint>, labels: Labels)
    ensures LabelsExcluded(labels, avoid) <==> !Meets(labels, avoid)
  {
    WantsMembers(avoid);
    assert Wants([]) == [Absent(CONTROL_PLANE[0]), Absent(CONTROL_PLANE[1])];
    assert Absent(CONTROL_PLANE[0]) in Wants([]) && Absent(CONTROL_PLANE[1]) in Wants([]);
    forall a | a in avoid
      ensures LabelAvoided(a, labels) <==> exists w :: w in Want(a) && Useful(w) && !Holds(w, labels)
    {
      EntryAgrees(a, labels);
    }
  }

  /** What pods scheduled with the avoid list ask of labels, and what the evaluator excludes, agree for all labels ... */
  predicate LabelVerdictsAgree(avoid: seq<AvoidTaint>, labels: Labels) {
    AllHold(Compiled(WithControlPlane(avoid)), labels) <==> !LabelsExcluded(labels, avoid)
  }

  /** ... exactly if compiling the list loses nothing. */
  lemma VerdictsAgreeIff(avoid: seq<AvoidTaint>)
    ensures (forall labels :: LabelVerdictsAgree(avoid, labels)) <==> NothingLost(WithControlPlane(avoid))
  {
    var all := WithControlPlane(avoid);
    forall labels: Labels ensures LabelVerdictsAgree(avoid, labels) <==>
                                  (AllHold(Compiled(all), labels) <==> Meets(labels, all)) {
      LabelsAgree(avoid, labels);
      ControlPlaneIsAlwaysAvoided(avoid, labels);
    }
    CompiledIsFaithfulIff(all);
    if forall labels :: LabelVerdictsAgree(avoid, labels) {
      assert forall labels: Labels :: AllHold(Compiled(all), labels) <==> Meets(labels, all) by {
        forall labels: Labels ensures AllHold(Compiled(all), labels) <==> Meets(labels, all) {
          assert LabelVerdictsAgree(avoid, labels);
        }
      }
    }
  }

  /** They agree for every parsed avoid list, and for any other whose keys have no `!=` in them. */
  lemma MarkFreeVerdictsAgree(avoid: seq<AvoidTaint>, labels: Labels)
    requires MarkFree(avoid)
    ensures LabelVerdictsAgree(avoid, labels)
  {
    BuiltInKeysAreMarkFree();
    MarkFreeLosesNothing(WithControlPlane(avoid));
    VerdictsAgreeIff(avoid);
  }

  /** A fresh pod's affinity rejects the node, or it has an avoided or control-plane blocking taint. */
  predicate Unfit(n: Node, avoid: seq<AvoidTaint>) {
    || !Accepts(Merged(None, Some(Affinity(WithControlPlane(avoid)))), n)
    || exists t :: t in n.taints && TaintExcludes(t, avoid)
  }

  lemma UnfitMeaning(n: Node, avoid: seq<AvoidTaint>)
    ensures Unfit(n, avoid) <==>
              !AllHold(Compiled(WithControlPlane(avoid)), n.labels) || exists t :: t in n.taints && TaintExcludes(t, avoid)
  {
    MergedMeaning(None, WithControlPlane(avoid), n);
  }

  /** The nodes excluded are exactly the unfit ones, for every node exactly if compiling the list loses nothing. */
  lemma ExcludedMeaningIff(avoid: seq<AvoidTaint>)
    ensures (forall n :: Excluded(n, avoid) <==> Unfit(n, avoid)) <==> NothingLost(WithControlPlane(avoid))
  {
    VerdictsAgreeIff(avoid);
    forall n ensures Unfit(n, avoid) <==>
        !AllHold(Compiled(WithControlPlane(avoid)), n.labels) || exists t :: t in n.taints && TaintExcludes(t, avoid) {
      UnfitMeaning(n, avoid);
    }
    if NothingLost(WithControlPlane(avoid)) {
      forall n ensures Excluded(n, avoid) <==> Unfit(n, avoid) {
        assert LabelVerdictsAgree(avoid, n.labels);
      }
    }
    if forall n :: Excluded(n, avoid) <==> Unfit(n, avoid) {
      forall labels ensures LabelVerdictsAgree(avoid, labels) {
        var n := Node("", labels, [], true, None);
        assert Excluded(n, avoid) <==> Unfit(n, avoid);
      }
    }
  }

  /** What the parser yields always gives a list on which both agree. */
  lemma ParsedListsAgree(texts: seq<string>, n: Node)
    requires ParseAll(texts).Ok?
    ensures Excluded(n, Dedup(ParseAll(texts).value)) <==> Unfit(n, Dedup(ParseAll(texts).value))
  {
    var avoid := Dedup(ParseAll(texts).value);
    ParseAllCanonical(texts);
    DedupMeaning(ParseAll(texts).value);
    ParsedIsMarkFree(avoid);
    MarkFreeLosesNothing(WithControlPlane(avoid));
    ExcludedMeaningIff(avoid);
  }

  /** Adding to the avoid list can only exclude more nodes. */
  lemma ExcludedGrows(n: Node, avoid: seq<AvoidTaint>, more: seq<AvoidTaint>)
    requires Excluded(n, avoid) && forall a :: a in avoid ==> a in more
    ensures Excluded(n, more)
  {
  }

  // ---------------------------------------------------------------------
  // Tolerations against the evaluator's reading of taints
  // ---------------------------------------------------------------------

  predicate EffectsMeet(a: AvoidTaint, tol: Toleration) {
    a.effect == "" || tol.effect == "" || a.effect == tol.effect
  }

  /** Tolerations the filter keeps although the evaluator reads an avoided taint into what they tolerate. */
  predicate SlipsThrough(a: AvoidTaint, tol: Toleration) {
    && tol.operator in ["", "Equal", "Exists"] && a.key != "" && EffectsMeet(a, tol)
    && if InfraForm(a) then tol.key == INFRA
       else tol.key == a.key && a.value == "" && tol.operator != "Exists" && tol.value != ""
  }

  /** A toleration kept despite an entry tolerates a taint the evaluator counts as avoided in exactly those cases. */
  lemma SlipsThroughIff(a: AvoidTaint, tol: Toleration)
    requires !MatchesToleration(a, tol)
    ensures SlipsThrough(a, tol) <==> exists t :: AvoidMatchesNodeTaint(a, t) && Tolerates(tol, t)
  {
    WordsAreDistinct();
    assert |INFRA| > |ROLE|;
    var t := Taint(tol.key, tol.value, if tol.effect != "" then tol.effect else a.effect);
    if SlipsThrough(a, tol) {
      assert AvoidMatchesNodeTaint(a, t) && Tolerates(tol, t);
    }
  }

  const DEFAULT_AVOID := [AvoidTaint(ROLE, "infra", "NoSchedule")]

  /** By default, a pod that tolerates the infra role label as a taint keeps that toleration. */
  lemma InfraTolerationSlipsThrough()
    ensures var tol, t := Toleration(INFRA, "Exists", "", ""), Taint(INFRA, "", "NoSchedule");
            && Kept([tol], WithControlPlane(DEFAULT_AVOID)) == [tol]
            && Tolerates(tol, t) && TaintExcludes(t, DEFAULT_AVOID)
  {
    var tol, all := Toleration(INFRA, "Exists", "", ""), WithControlPlane(DEFAULT_AVOID);
    InfraIsItsOwnKey();
    assert all[0] == DEFAULT_AVOID[0] && |all| == 3;
    assert Allowed(tol, all);
    FilterAll([tol], (x: Toleration) => Allowed(x, all));
    assert DEFAULT_AVOID[0] in DEFAULT_AVOID;
  }

  lemma InfraIsItsOwnKey()
    ensures INFRA != ROLE && INFRA != CONTROL_PLANE[0] && INFRA != CONTROL_PLANE[1]
  {
    assert |INFRA| == 29 && |ROLE| == 23 && |CONTROL_PLANE[0]| == 30 && |CONTROL_PLANE[1]| == 37;
  }

  // ---------------------------------------------------------------------
  // Slots
  // ---------------------------------------------------------------------

  datatype DensityCapacity = DensityCapacity(
    workerNodes: int, slots: int, maxPodsTypical: int, excludedNodes: int,
    podsAsked: int, wavePods: int, waveNS: int, fitsRun: bool, fitsWave: bool)

  /** Allocatable pods; nothing when the node does not say. */
  function AllocatablePods(n: Node): int { if n.pods.Some? then n.pods.value else 0 }

  predicate Usable(n: Node, avoid: seq<AvoidTaint>) {
    n.ready && !Excluded(n, avoid) && AllocatablePods(n) > 0
  }

  function Workers(nodes: seq<Node>, avoid: seq<AvoidTaint>): seq<Node> {
    Filter(nodes, n => Usable(n, avoid))
  }

  function SumPods(nodes: seq<Node>): int {
    if nodes == [] then 0 else SumPods(nodes[..|nodes| - 1]) + AllocatablePods(nodes[|nodes| - 1])
  }

  function MostPods(nodes: seq<Node>): int {
    if nodes == [] then 0 else Max(MostPods(nodes[..|nodes| - 1]), AllocatablePods(nodes[|nodes| - 1]))
  }

  method EvaluateDensityCapacity(nodes: seq<Node>, avoid: seq<AvoidTaint>, podsAsked: int, waveNS: int, podsPerNS: int)
    returns (c: DensityCapacity)
    ensures var ws := Workers(nodes, avoid);
            var wave := if podsPerNS > 0 && waveNS > 0 then waveNS * podsPerNS else 0;
            c == DensityCapacity(|ws|, SumPods(ws), MostPods(ws), |nodes| - |ws|, podsAsked, wave, waveNS,
                                 podsAsked <= SumPods(ws), wave == 0 || wave <= SumPods(ws))
  {
    var wavePods := 0;
    if podsPerNS > 0 && waveNS > 0 {
      wavePods := waveNS * podsPerNS;
    }
    var workers, slots, most, excluded := 0, 0, 0, 0;
    for i := 0 to |nodes|
      invariant workers == |Workers(nodes[..i], avoid)| && excluded == i - workers
      invariant slots == SumPods(Workers(nodes[..i], avoid)) && most == MostPods(Workers(nodes[..i], avoid))
    {
      WorkersStep(nodes, i, avoid);
      var n := nodes[i];
      var out := true;
      if n.ready {
        out := DensityNodeExcluded(n, avoid);
      }
      if out || AllocatablePods(n) <= 0 {
        excluded := excluded + 1;
        continue;
      }
      workers := workers + 1;
      slots := slots + AllocatablePods(n);
      if AllocatablePods(n) > most {
        most := AllocatablePods(n);
      }
    }
    assert nodes[..|nodes|] == nodes;
    c := DensityCapacity(workers, slots, most, excluded, podsAsked, wavePods, waveNS,
                         podsAsked <= slots, wavePods == 0 || wavePods <= slots);
  }

  lemma WorkersStep(nodes: seq<Node>, i: nat, avoid: seq<AvoidTaint>)
    requires i < |nodes|
    ensures var before, now := Workers(nodes[..i], avoid), Workers(nodes[..i + 1], avoid);
            if Usable(nodes[i], avoid) then
              && |now| == |before| + 1 && SumPods(now) == SumPods(before) + AllocatablePods(nodes[i])
              && MostPods(now) == Max(MostPods(before), AllocatablePods(nodes[i]))
            else now == before
  {
    assert nodes[..i + 1] == nodes[..i] + [nodes[i]];
    FilterConcat(nodes[..i], [nodes[i]], n => Usable(n, avoid));
    var before, now := Workers(nodes[..i], avoid), Workers(nodes[..i + 1], avoid);
    if Usable(nodes[i], avoid) {
      assert now == before + [nodes[i]] && now[..|before|] == before;
    }
  }

  /** Slots lie between one a worker and the largest node for each. */
  lemma {:induction false} SlotsBounds(nodes: seq<Node>, avoid: seq<AvoidTaint>)
    ensures var ws := Workers(nodes, avoid);
            |ws| <= SumPods(ws) <= |ws| * MostPods(ws) && (ws == [] <==> SumPods(ws) == 0)
  {
    FilterMembers(nodes, (n: Node) => Usable(n, avoid));
    SumBounds(Workers(nodes, avoid));
  }

  lemma {:induction false} SumBounds(ws: seq<Node>)
    requires forall n :: n in ws ==> AllocatablePods(n) >= 1
    ensures |ws| <= SumPods(ws) <= |ws| * MostPods(ws)
  {
    if ws != [] {
      var k := |ws| - 1;
      assert ws[k] in ws;
      SumBounds(ws[..k]);
      MoreAtMost(k, SumPods(ws[..k]), MostPods(ws[..k]), AllocatablePods(ws[k]), MostPods(ws));
    }
  }

  lemma MoreAtMost(k: nat, sum: int, most: int, next: int, all: int)
    requires sum <= k * most && most <= all && next <= all
    ensures sum + next <= (k + 1) * all
  {
    assert k * most <= k * all by {
      assert k * (all - most) >= 0;
    }
    assert (k + 1) * all == k * all + all;
  }

  /** Avoiding more never adds a worker or a slot, so a run that does not fit still does not. */
  lemma {:induction false} AvoidingMoreNeverAddsSlots(nodes: seq<Node>, avoid: seq<AvoidTaint>, more: seq<AvoidTaint>)
    requires forall a :: a in avoid ==> a in more
    ensures |Workers(nodes, more)| <= |Workers(nodes, avoid)|
    ensures SumPods(Workers(nodes, more)) <= SumPods(Workers(nodes, avoid))
  {
    if nodes != [] {
      var i := |nodes| - 1;
      AvoidingMoreNeverAddsSlots(nodes[..i], avoid, more);
      WorkersStep(nodes, i, avoid);
      WorkersStep(nodes, i, more);
      assert nodes[..i + 1] == nodes;
      if Excluded(nodes[i], avoid) {
        ExcludedGrows(nodes[i], avoid, more);
      }
    }
  }
}
