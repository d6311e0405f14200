/**
 * The wave planner: how many namespaces go into one wave, and the slices that
 * result (internal/runner/batchplan.go, internal/runner/safety.go).
 */
module BatchPlan {
  import opened Common

  const SOFT_MAX_BATCHES := 8
  const HARD_MAX_BATCHES := 24
  const TARGET_WAVE_OBJECTS := 1878
  const REFERENCE_ROUTES := 2
  const REFERENCE_SERVICES := 2
  const REFERENCE_REPLICAS := 1

  const DEPLOY_SEQUENTIAL := "sequential"
  const DEPLOY_BATCH := "batch"
  const DEPLOY_RATE := "rate"

  datatype Strategy = Auto | Fixed | Sequential | Rate

  datatype Plan = Plan(mode: string, strategy: Strategy, size: int, count: int,
                       namespaces: nat, objectsPerNS: int, objectsPerWave: int)

  // ---------------------------------------------------------------------
  // Arithmetic
  // ---------------------------------------------------------------------

  /** Go's integer division truncates toward zero. */
  function TruncDiv(a: int, b: int): int
    requires b > 0
  {
    if a >= 0 then a / b else -((-a) / b)
  }

  function CeilDiv(a: int, b: int): int {
    if b <= 0 then a else TruncDiv(a + b - 1, b)
  }

  function BatchCount(n: int, size: int): int {
    if n <= 0 then 0 else if size <= 0 then 1 else CeilDiv(n, size)
  }

  lemma DivBounds(a: nat, b: int)
    requires b > 0
    ensures a / b * b <= a < (a / b + 1) * b
  {
    assert a == a / b * b + a % b;
    assert (a / b + 1) * b == a / b * b + b;
  }

  /** k waves of `size` are enough for n namespaces exactly when the count is at most k. */
  lemma CountAtMost(n: int, size: int, k: int)
    requires n > 0 && size > 0 && k >= 0
    ensures BatchCount(n, size) <= k <==> n <= k * size
  {
    var c := BatchCount(n, size);
    DivBounds(n + size - 1, size);
    assert c * size <= n + size - 1 < (c + 1) * size;
    assert (c + 1) * size == c * size + size && (c - 1) * size == c * size - size;
    if c <= k {
      assert c * size <= k * size by { MulMono(c, k, size); }
    } else {
      assert k * size <= (c - 1) * size by { MulMono(k, c - 1, size); }
    }
  }

  lemma MulMono(a: int, b: int, c: int)
    requires a <= b && c >= 0
    ensures a * c <= b * c
  {
    assert (b - a) * c >= 0;
    assert b * c == a * c + (b - a) * c;
  }

  // ---------------------------------------------------------------------
  // The plan
  // ---------------------------------------------------------------------

  function AutoBatchSize(n: int): int {
    if n <= 5 then n
    else if n <= 10 then
      var size := (n + 1) / 2;
      if size > 5 then 5 else size
    else if n <= 30 then
      var waves := if n < 5 then n else 5;
      CeilDiv(n, waves)
    else CeilDiv(n, SOFT_MAX_BATCHES)
  }

  function ApplyDensityCap(n: int, size: int, perNS: int): int {
    if size <= 0 || perNS <= 0 then size
    else
      var budget := TARGET_WAVE_OBJECTS / perNS;
      var maxNS := if budget < 1 then 1 else budget;
      if size <= maxNS then size
      else if BatchCount(n, maxNS) > HARD_MAX_BATCHES then CeilDiv(n, HARD_MAX_BATCHES)
      else maxNS
  }

  function RecommendBatchSize(n: int, configured: int, perNS: int): (int, Strategy) {
    if n <= 0 then (0, Auto)
    else
      var per := if perNS < 1 then 1 else perNS;
      var autoSize := ApplyDensityCap(n, AutoBatchSize(n), per);
      if configured > 0 && BatchCount(n, configured) <= HARD_MAX_BATCHES
      then (configured, Fixed)
      else (autoSize, Auto)
  }

  /** The number of waves the light-density breakpoints aim for. */
  function PreferredWaves(n: int): int {
    if n <= 5 then 1 else if n <= 10 then 2 else if n <= 30 then 5 else SOFT_MAX_BATCHES
  }

  ghost predicate SmallestWithin(size: int, n: int, waves: int) {
    && size >= 1
    && BatchCount(n, size) <= waves
    && forall s :: 1 <= s < size ==> BatchCount(n, s) > waves
  }

  /** Every breakpoint is the smallest wave size that meets its wave target. */
  lemma AutoSizeIsSmallestForPreferredWaves(n: int)
    requires n > 0
    ensures SmallestWithin(AutoBatchSize(n), n, PreferredWaves(n))
    ensures AutoBatchSize(n) <= n
  {
    CeilDivIsSmallest(n, PreferredWaves(n));
  }

  lemma CeilDivIsSmallest(n: int, waves: int)
    requires n > 0 && waves > 0
    ensures SmallestWithin(CeilDiv(n, waves), n, waves)
    ensures CeilDiv(n, waves) <= n
  {
    var size := CeilDiv(n, waves);
    CountAtMost(n, waves, size);
    CountAtMost(n, waves, n);
    assert n <= n * waves by { MulMono(1, waves, n); }
    assert size >= 1 by { CountAtMost(n, waves, 0); }
    CountAtMost(n, size, waves);
    forall s | 1 <= s < size ensures BatchCount(n, s) > waves {
      CountAtMost(n, waves, s);
      CountAtMost(n, s, waves);
    }
  }

  // ---------------------------------------------------------------------
  // Optimality of automatic sizes
  // ---------------------------------------------------------------------

  /** A wave size that respects the preferred size, the object budget and the hard wave limit. */
  predicate Feasible(s: int, n: int, perNS: int) {
    1 <= s <= AutoBatchSize(n) && s * perNS <= TARGET_WAVE_OBJECTS && BatchCount(n, s) <= HARD_MAX_BATCHES
  }

  /**
   * What an automatic size ought to be: the largest feasible size, or, when no
   * size is feasible, the smallest size that keeps within the hard wave limit.
   */
  ghost predicate IsBestSize(size: int, n: int, perNS: int) {
    if exists s :: Feasible(s, n, perNS)
    then Feasible(size, n, perNS) && forall s :: Feasible(s, n, perNS) ==> s <= size
    else SmallestWithin(size, n, HARD_MAX_BATCHES)
  }

  lemma SmallerSizeMoreWaves(n: int, s: int, t: int)
    requires n > 0 && 1 <= s <= t
    ensures BatchCount(n, t) <= BatchCount(n, s)
  {
    var k := BatchCount(n, s);
    assert k >= 0 by { if k < 0 { CountAtMost(n, s, 0); } }
    CountAtMost(n, s, k);
    CountAtMost(n, t, k);
    assert k * s <= k * t by { MulMono(s, t, k); }
  }

  lemma BudgetBound(s: int, perNS: int)
    requires s >= 1 && perNS >= 1
    ensures s * perNS <= TARGET_WAVE_OBJECTS <==> s <= TARGET_WAVE_OBJECTS / perNS
  {
    var q := TARGET_WAVE_OBJECTS / perNS;
    DivBounds(TARGET_WAVE_OBJECTS, perNS);
    if s <= q {
      MulMono(s, q, perNS);
    } else {
      MulMono(q + 1, s, perNS);
    }
  }

  /** The automatic size is the best size, for every namespace count and density. */
  lemma AutoSizeIsBest(n: int, perNS: int)
    requires n > 0 && perNS >= 1
    ensures IsBestSize(ApplyDensityCap(n, AutoBatchSize(n), perNS), n, perNS)
  {
    var auto := AutoBatchSize(n);
    var size := ApplyDensityCap(n, auto, perNS);
    var budget := TARGET_WAVE_OBJECTS / perNS;
    AutoSizeIsSmallestForPreferredWaves(n);
    forall s | s >= 1
      ensures Feasible(s, n, perNS) <==> s <= auto && s <= budget && BatchCount(n, s) <= HARD_MAX_BATCHES
    {
      BudgetBound(s, perNS);
    }
    if budget >= 1 && auto <= budget {
      assert Feasible(auto, n, perNS);
    } else if budget >= 1 {
      if BatchCount(n, budget) > HARD_MAX_BATCHES {
        forall s | 1 <= s <= budget ensures !Feasible(s, n, perNS) {
          SmallerSizeMoreWaves(n, s, budget);
        }
        CeilDivIsSmallest(n, HARD_MAX_BATCHES);
      } else {
        assert Feasible(budget, n, perNS);
      }
    } else if auto == 1 {
      assert size == 1;
    } else {
      CeilDivIsSmallest(n, HARD_MAX_BATCHES);
    }
  }

  /** The description is tight: at most one size is best. */
  lemma BestSizeIsUnique(n: int, perNS: int, s: int, t: int)
    requires n > 0 && IsBestSize(s, n, perNS) && IsBestSize(t, n, perNS)
    ensures s == t
  {
  }

  lemma BestSizeWithinHardLimit(n: int, perNS: int, size: int)
    requires n > 0 && perNS >= 1 && IsBestSize(size, n, perNS)
    ensures size >= 1 && BatchCount(n, size) <= HARD_MAX_BATCHES
    ensures size <= AutoBatchSize(n)
    ensures size * perNS > TARGET_WAVE_OBJECTS ==>
              forall s :: s >= 1 ==> !(s * perNS <= TARGET_WAVE_OBJECTS && BatchCount(n, s) <= HARD_MAX_BATCHES)
  {
    var auto := AutoBatchSize(n);
    AutoSizeIsSmallestForPreferredWaves(n);
    assert BatchCount(n, auto) <= HARD_MAX_BATCHES;
    if !exists s :: Feasible(s, n, perNS) {
      assert size <= auto;
      forall s | s >= 1 && s * perNS <= TARGET_WAVE_OBJECTS && BatchCount(n, s) <= HARD_MAX_BATCHES
        ensures false
      {
        if s > auto {
          MulMono(auto, s, perNS);
          assert Feasible(auto, n, perNS);
        } else {
          assert Feasible(s, n, perNS);
        }
      }
    }
  }

  // ---------------------------------------------------------------------
  // Configuration and planning
  // ---------------------------------------------------------------------

  /** One enabled or disabled kind of an object-pressure topology. */
  datatype PressureObject = PressureObject(enabled: bool, replicasPerNS: int)

  /** The part of the configuration that planning reads. */
  datatype Settings = Settings(objectPressure: bool, namespaceCount: int, objects: seq<PressureObject>,
                               routesPerNS: int, servicesPerNS: int, replicas: int,
                               mode: string, batchSize: int)

  function EnabledReplicas(objects: seq<PressureObject>): int {
    if objects == [] then 0
    else (if objects[0].enabled then objects[0].replicasPerNS else 0) + EnabledReplicas(objects[1..])
  }

  /** Intended objects of an object-pressure topology, accumulated kind by kind. */
  function IntendedPressure(ns: int, objects: seq<PressureObject>): int {
    if objects == [] then ns
    else IntendedPressure(ns, objects[1..]) + (if objects[0].enabled then ns * objects[0].replicasPerNS else 0)
  }

  function OrDefault(v: int, d: int): int { if v <= 0 then d else v }

  function ObjectsPerNS(c: Settings): int {
    if c.objectPressure then
      if c.namespaceCount <= 0 then 1
      else
        var per := TruncDiv(IntendedPressure(c.namespaceCount, c.objects), c.namespaceCount);
        if per < 1 then 1 else per
    else
      var s := OrDefault(c.servicesPerNS, REFERENCE_SERVICES);
      OrDefault(c.routesPerNS, REFERENCE_ROUTES) + s + s * OrDefault(c.replicas, REFERENCE_REPLICAS)
  }

  lemma {:induction false} IntendedIsMultiple(ns: int, objects: seq<PressureObject>)
    ensures IntendedPressure(ns, objects) == ns * (1 + EnabledReplicas(objects))
  {
    if objects != [] {
      IntendedIsMultiple(ns, objects[1..]);
    }
  }

  lemma NatDivision(a: nat, b: int)
    requires b > 0
    ensures b * a >= 0 && b * a / b == a
  {
    MulMono(0, a, b);
    DivBounds(b * a, b);
    if b * a / b < a { MulMono(b * a / b + 1, a, b); }
  }

  lemma ExactDivision(a: int, b: int)
    requires b > 0
    ensures TruncDiv(b * a, b) == a
  {
    if a >= 0 {
      NatDivision(a, b);
    } else {
      NatDivision(-a, b);
      assert -(b * a) == b * (-a);
      assert b * (-a) >= b by { MulMono(1, -a, b); }
    }
  }

  /**
   * The density estimate is never below one. For object pressure the division
   * of the intended total is exact: one unit for the namespace itself and one
   * for every enabled replica in it.
   */
  lemma ObjectsPerNSMeaning(c: Settings)
    ensures ObjectsPerNS(c) >= 1
    ensures c.objectPressure && c.namespaceCount > 0 ==>
              ObjectsPerNS(c) == Max(1, 1 + EnabledReplicas(c.objects))
  {
    if c.objectPressure && c.namespaceCount > 0 {
      IntendedIsMultiple(c.namespaceCount, c.objects);
      ExactDivision(1 + EnabledReplicas(c.objects), c.namespaceCount);
    } else {
      var s, r := OrDefault(c.servicesPerNS, REFERENCE_SERVICES), OrDefault(c.replicas, REFERENCE_REPLICAS);
      assert s * r >= 1 by { MulMono(1, r, s); }
    }
  }

  function PlanBatches(c: Settings, n: nat): Plan {
    var mode := if c.mode != "" then c.mode else DEPLOY_BATCH;
    var perNS := ObjectsPerNS(c);
    if mode == DEPLOY_SEQUENTIAL then Plan(mode, Sequential, 1, n, n, perNS, perNS)
    else if mode == DEPLOY_RATE then Plan(mode, Rate, 1, n, n, perNS, perNS)
    else
      var (size, strategy) := RecommendBatchSize(n, c.batchSize, perNS);
      Plan(mode, strategy, size, BatchCount(n, size), n, perNS, size * perNS)
  }

  /** The configuration as the runner and the UI hold it: planning writes its batch size. */
  class Config {
    var settings: Settings

    constructor (s: Settings)
      ensures settings == s
    {
      settings := s;
    }

    method ApplyBatchPlan(plan: Plan)
      modifies this
      ensures settings == AppliedSettings(old(settings), plan)
    {
      if plan.mode == DEPLOY_BATCH && plan.size > 0 {
        settings := settings.(batchSize := plan.size);
      }
    }
  }

  function AppliedSettings(c: Settings, plan: Plan): Settings {
    if plan.mode == DEPLOY_BATCH && plan.size > 0 then c.(batchSize := plan.size) else c
  }

  /** What every plan of a non-empty graph guarantees, whatever was configured. */
  lemma PlanGuarantees(c: Settings, n: nat)
    requires n > 0
    ensures var p := PlanBatches(c, n);
            && p.size >= 1
            && p.count == BatchCount(n, p.size) >= 1
            && p.objectsPerWave == p.size * p.objectsPerNS
            && (p.strategy == Auto ==> IsBestSize(p.size, n, p.objectsPerNS))
            && (p.strategy == Auto || p.strategy == Fixed ==> p.count <= HARD_MAX_BATCHES)
            && (p.strategy == Fixed ==> p.size == c.batchSize)
  {
    var p := PlanBatches(c, n);
    ObjectsPerNSMeaning(c);
    if p.strategy == Auto {
      AutoSizeIsBest(n, p.objectsPerNS);
      BestSizeWithinHardLimit(n, p.objectsPerNS, p.size);
    }
    AtLeastOne(n, p.size);
    OneByOne(n);
  }

  lemma AtLeastOne(n: int, size: int)
    requires n > 0 && size > 0
    ensures BatchCount(n, size) >= 1
  {
    CountAtMost(n, size, 0);
  }

  lemma OneByOne(n: int)
    requires n > 0
    ensures BatchCount(n, 1) == n
  {
    CountAtMost(n, 1, n);
    CountAtMost(n, 1, n - 1);
  }

  /**
   * Planning is a fixpoint: after the plan is written back, every later plan
   * resolves to the same slices, so the UI and the runner agree.
   */
  lemma PlanIsFixpoint(c: Settings, n: nat)
    ensures var p := PlanBatches(c, n);
            var q := PlanBatches(AppliedSettings(c, p), n);
            q == p.(strategy := q.strategy) && (q.strategy == p.strategy || q.strategy == Fixed)
    ensures var p := PlanBatches(c, n);
            AppliedSettings(AppliedSettings(c, p), PlanBatches(AppliedSettings(c, p), n)) == AppliedSettings(c, p)
  {
    var p := PlanBatches(c, n);
    var d := AppliedSettings(c, p);
    assert ObjectsPerNS(d) == ObjectsPerNS(c);
    if n > 0 {
      PlanGuarantees(c, n);
    }
  }

  // ---------------------------------------------------------------------
  // Slicing
  // ---------------------------------------------------------------------

  /** Consecutive slices of `size` elements; the last may be shorter. */
  function Slices<T>(s: seq<T>, size: int): seq<seq<T>>
    requires size > 0
  {
    if s == [] then []
    else if |s| <= size then [s]
    else [s[..size]] + Slices(s[size..], size)
  }

  function SplitSpec<T>(s: seq<T>, size: int): seq<seq<T>> {
    if size <= 0 || size > |s| then (if s == [] then [] else [s]) else Slices(s, size)
  }

  method SplitBatches<T>(namespaces: seq<T>, size: int) returns (out: seq<seq<T>>)
    ensures out == SplitSpec(namespaces, size)
  {
    if size <= 0 || size > |namespaces| {
      if |namespaces| == 0 {
        return [];
      }
      return [namespaces];
    }
    out := [];
    var i := 0;
    while i < |namespaces|
      invariant 0 <= i
      invariant out + (if i < |namespaces| then Slices(namespaces[i..], size) else []) == Slices(namespaces, size)
      decreases |namespaces| - i
    {
      var end := i + size;
      if end > |namespaces| {
        end := |namespaces|;
      }
      assert namespaces[i..end] == namespaces[i..][..end - i];
      if i + size < |namespaces| {
        assert namespaces[i + size..] == namespaces[i..][size..];
      } else {
        assert namespaces[i..end] == namespaces[i..];
      }
      out := out + [namespaces[i..end]];
      i := i + size;
    }
  }

  function Singletons<T>(s: seq<T>): seq<seq<T>> {
    seq(|s|, i requires 0 <= i < |s| => [s[i]])
  }

  function SplitByPlanSpec<T>(c: Settings, namespaces: seq<T>): seq<seq<T>> {
    var plan := PlanBatches(c, |namespaces|);
    if plan.mode == DEPLOY_SEQUENTIAL || plan.mode == DEPLOY_RATE then Singletons(namespaces)
    else SplitSpec(namespaces, plan.size)
  }

  method SplitByPlan<T>(cfg: Config, namespaces: seq<T>) returns (out: seq<seq<T>>, plan: Plan)
    ensures plan == PlanBatches(cfg.settings, |namespaces|)
    ensures out == SplitByPlanSpec(cfg.settings, namespaces)
  {
    plan := PlanBatches(cfg.settings, |namespaces|);
    if plan.mode == DEPLOY_SEQUENTIAL || plan.mode == DEPLOY_RATE {
      out := [];
      for i := 0 to |namespaces|
        invariant out == Singletons(namespaces)[..i]
      {
        out := out + [[namespaces[i]]];
      }
    } else {
      out := SplitBatches(namespaces, plan.size);
    }
  }

  /** What it means for slices to cut s into consecutive non-empty pieces of at most `size`. */
  ghost predicate Cuts<T>(slices: seq<seq<T>>, s: seq<T>, size: int) {
    && Flatten(slices) == s
    && (forall k :: 0 <= k < |slices| ==> 1 <= |slices[k]| <= size)
  }

  lemma {:induction false} SlicesCut<T>(s: seq<T>, size: int)
    requires size > 0
    ensures Cuts(Slices(s, size), s, size)
    decreases |s|
  {
    var out := Slices(s, size);
    if s == [] {
    } else if |s| <= size {
      assert out[1..] == [] && Flatten(out) == s + [];
    } else {
      SlicesCut(s[size..], size);
      assert out[1..] == Slices(s[size..], size);
      assert s == s[..size] + s[size..];
    }
  }

  /** One more full slice is one more wave. */
  lemma CountStep(n: int, size: int)
    requires n > 0 && size > 0
    ensures BatchCount(n + size, size) == BatchCount(n, size) + 1
  {
    var c := BatchCount(n, size);
    CountAtMost(n, size, 0);
    CountAtMost(n, size, c);
    CountAtMost(n, size, c - 1);
    CountAtMost(n + size, size, c + 1);
    CountAtMost(n + size, size, c);
    assert (c + 1) * size == c * size + size && c * size == (c - 1) * size + size;
  }

  lemma {:induction false} SlicesCount<T>(s: seq<T>, size: int)
    requires size > 0
    ensures |Slices(s, size)| == BatchCount(|s|, size)
    decreases |s|
  {
    if s == [] {
    } else if |s| <= size {
      CountAtMost(|s|, size, 1);
      CountAtMost(|s|, size, 0);
    } else {
      SlicesCount(s[size..], size);
      CountStep(|s| - size, size);
    }
  }

  lemma {:induction false} SingletonsCut<T>(s: seq<T>)
    ensures Cuts(Singletons(s), s, 1)
  {
    if s != [] {
      SingletonsCut(s[1..]);
      assert Singletons(s)[1..] == Singletons(s[1..]);
      assert s == [s[0]] + s[1..];
    }
  }

  /**
   * The slices put back together give the namespaces, none is empty, and there
   * are exactly as many as the plan announced, in every mode and for every
   * configured size.
   */
  lemma SplitMatchesPlan<T>(c: Settings, namespaces: seq<T>)
    ensures var p := PlanBatches(c, |namespaces|);
            var out := SplitByPlanSpec(c, namespaces);
            |out| == p.count && Cuts(out, namespaces, Max(p.size, 1))
  {
    var n := |namespaces|;
    var p := PlanBatches(c, n);
    var out := SplitByPlanSpec(c, namespaces);
    if p.mode == DEPLOY_SEQUENTIAL || p.mode == DEPLOY_RATE {
      SingletonsCut(namespaces);
    } else if n == 0 {
    } else {
      PlanGuarantees(c, n);
      if p.size > n {
        assert out == [namespaces] && out[1..] == [] && Flatten(out) == namespaces + [];
        CountAtMost(n, p.size, 1);
      } else {
        SlicesCut(namespaces, p.size);
        SlicesCount(namespaces, p.size);
      }
    }
  }

  /** The UI, which plans before the runner does, shows the very slices the runner applies. */
  lemma UiAndRunnerAgree<T>(c: Settings, namespaces: seq<T>)
    ensures var p := PlanBatches(c, |namespaces|);
            var ui := AppliedSettings(c, p);
            var run := AppliedSettings(ui, PlanBatches(ui, |namespaces|));
            && SplitByPlanSpec(run, namespaces) == SplitByPlanSpec(ui, namespaces)
            && |SplitByPlanSpec(run, namespaces)| == p.count
  {
    var n := |namespaces|;
    var p := PlanBatches(c, n);
    PlanIsFixpoint(c, n);
    SplitMatchesPlan(AppliedSettings(c, p), namespaces);
  }
}
