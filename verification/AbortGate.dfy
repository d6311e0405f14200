/**
 * The abort gate: the verdict for one health snapshot and the grace period that
 * carries state from probe to probe and from batch to batch
 * (internal/runner/abort.go, internal/runner/runner.go:417-468).
 */
module AbortGate {
  import opened Common

  /** Nanoseconds, as in Go's time.Duration. */
  const SECOND := 1_000_000_000
  const CONTROL_PLANE_GRACE := 15 * SECOND

  datatype Health = Health(nodesNotReady: int, mastersNotReady: int, mastersMemoryPressure: int,
                           etcdPods: int, etcdReady: int, ovnPods: int, ovnReady: int, oomKilled: int,
                           managedPods: int, managedReady: int)

  datatype Safety = Safety(enabled: bool, abortOnMaster: bool, abortOnEtcd: bool, abortOnNode: bool,
                           abortOnOOM: bool, abortOnAlert: bool,
                           maxNodeNotReady: int, maxPodFailurePercent: real, gracePeriod: int)

  datatype Signal = MasterNotReady | EtcdUnhealthy | NodesNotReady | OOMKilled | PodFailures | OVNUnhealthy

  datatype Level = Normal | Warning | Abort

  datatype Decision = Decision(abort: bool, reasons: seq<Signal>, level: Level)

  /** Control plane first: the order in which reasons are reported. */
  const SIGNALS: seq<Signal> := [MasterNotReady, EtcdUnhealthy, NodesNotReady, OOMKilled, PodFailures, OVNUnhealthy]

  function FailurePercent(h: Health): real
    requires h.managedPods > 0
  {
    100.0 * ((h.managedPods - h.managedReady) as real) / (h.managedPods as real)
  }

  predicate Breached(safety: Safety, h: Health, signal: Signal) {
    match signal
    case MasterNotReady => safety.abortOnMaster && h.mastersNotReady > 0
    case EtcdUnhealthy => safety.abortOnEtcd && h.etcdReady < h.etcdPods && h.etcdPods > 0
    case NodesNotReady => safety.abortOnNode && h.nodesNotReady > safety.maxNodeNotReady
    case OOMKilled => safety.abortOnOOM && h.oomKilled > 0
    case PodFailures =>
      h.managedPods > 0 && safety.maxPodFailurePercent > 0.0 && FailurePercent(h) > safety.maxPodFailurePercent
    case OVNUnhealthy => safety.abortOnAlert && h.ovnReady < h.ovnPods && h.ovnPods > 0
  }

  /** The breached signals among the first k, in reporting order. */
  function BreachedUpTo(safety: Safety, h: Health, k: nat): seq<Signal>
    requires k <= |SIGNALS|
  {
    if k == 0 then []
    else BreachedUpTo(safety, h, k - 1) + if Breached(safety, h, SIGNALS[k - 1]) then [SIGNALS[k - 1]] else []
  }

  function Reasons(safety: Safety, h: Health): seq<Signal> {
    if safety.enabled then BreachedUpTo(safety, h, |SIGNALS|) else []
  }

  /** Rank of a signal in the reporting order. */
  function Rank(s: Signal): nat {
    match s
    case MasterNotReady => 0
    case EtcdUnhealthy => 1
    case NodesNotReady => 2
    case OOMKilled => 3
    case PodFailures => 4
    case OVNUnhealthy => 5
  }

  lemma RankIsPosition(s: Signal)
    ensures Rank(s) < |SIGNALS| && SIGNALS[Rank(s)] == s
  {
  }

  /** Reasons are exactly the breached signals, once each and control plane first. */
  lemma {:induction false} ReasonsMeaning(safety: Safety, h: Health, k: nat)
    requires k <= |SIGNALS|
    ensures var r := BreachedUpTo(safety, h, k);
            && (forall s :: s in r <==> Rank(s) < k && Breached(safety, h, s))
            && (forall i, j :: 0 <= i < j < |r| ==> Rank(r[i]) < Rank(r[j]))
  {
    if k > 0 {
      ReasonsMeaning(safety, h, k - 1);
      assert Rank(SIGNALS[k - 1]) == k - 1;
      forall s: Signal ensures Rank(s) == k - 1 <==> s == SIGNALS[k - 1] {
        RankIsPosition(s);
      }
    }
  }

  lemma {:induction false} FirstReasonIsBreached(safety: Safety, h: Health, k: nat)
    requires k <= |SIGNALS|
    ensures var r := BreachedUpTo(safety, h, k); r != [] ==> Breached(safety, h, r[0])
  {
    if k > 0 {
      FirstReasonIsBreached(safety, h, k - 1);
    }
  }

  ghost predicate IsBad(safety: Safety, h: Health) {
    safety.enabled && exists s :: Breached(safety, h, s)
  }

  lemma BadMeansReasons(safety: Safety, h: Health)
    ensures IsBad(safety, h) <==> Reasons(safety, h) != []
  {
    var r := BreachedUpTo(safety, h, |SIGNALS|);
    ReasonsMeaning(safety, h, |SIGNALS|);
    FirstReasonIsBreached(safety, h, |SIGNALS|);
    if IsBad(safety, h) {
      var s :| Breached(safety, h, s);
      RankIsPosition(s);
      assert s in r;
    }
  }

  /** The verdict lists every breached signal and aborts if there is one. */
  method Evaluate(safety: Safety, h: Health) returns (d: Decision)
    ensures d.reasons == Reasons(safety, h)
    ensures d.abort <==> IsBad(safety, h)
    ensures d.level == if d.abort then Abort else Normal
  {
    BadMeansReasons(safety, h);
    if !safety.enabled {
      return Decision(false, [], Normal);
    }
    var reasons := [];
    if safety.abortOnMaster && h.mastersNotReady > 0 {
      reasons := reasons + [MasterNotReady];
    }
    assert reasons == BreachedUpTo(safety, h, 1);
    if safety.abortOnEtcd && h.etcdPods > 0 && h.etcdReady < h.etcdPods {
      reasons := reasons + [EtcdUnhealthy];
    }
    assert reasons == BreachedUpTo(safety, h, 2);
    if safety.abortOnNode && h.nodesNotReady > safety.maxNodeNotReady {
      reasons := reasons + [NodesNotReady];
    }
    assert reasons == BreachedUpTo(safety, h, 3);
    if safety.abortOnOOM && h.oomKilled > 0 {
      reasons := reasons + [OOMKilled];
    }
    assert reasons == BreachedUpTo(safety, h, 4);
    if h.managedPods > 0 && safety.maxPodFailurePercent > 0.0 {
      var failPct := 100.0 * ((h.managedPods - h.managedReady) as real) / (h.managedPods as real);
      if failPct > safety.maxPodFailurePercent {
        reasons := reasons + [PodFailures];
      }
    }
    assert reasons == BreachedUpTo(safety, h, 5);
    if safety.abortOnAlert {
      if h.ovnPods > 0 && h.ovnReady < h.ovnPods {
        reasons := reasons + [OVNUnhealthy];
      }
    }
    assert reasons == BreachedUpTo(safety, h, 6);
    if |reasons| == 0 {
      return Decision(false, reasons, Normal);
    }
    return Decision(true, reasons, Abort);
  }

  /** Every reading of `worse` is at least as bad as the same reading of h. */
  predicate AtLeastAsBad(h: Health, worse: Health) {
    && h.nodesNotReady <= worse.nodesNotReady && h.mastersNotReady <= worse.mastersNotReady
    && h.oomKilled <= worse.oomKilled
    && h.etcdPods == worse.etcdPods && worse.etcdReady <= h.etcdReady
    && h.ovnPods == worse.ovnPods && worse.ovnReady <= h.ovnReady
    && h.managedPods == worse.managedPods && worse.managedReady <= h.managedReady
  }

  /** The verdict is monotone: a worse cluster never turns an abort into a pass. */
  lemma VerdictIsMonotone(safety: Safety, h: Health, worse: Health)
    requires AtLeastAsBad(h, worse) && IsBad(safety, h)
    ensures IsBad(safety, worse)
  {
    var s :| Breached(safety, h, s);
    if s == PodFailures {
      var n := h.managedPods as real;
      var a, b := 100.0 * ((h.managedPods - h.managedReady) as real), 100.0 * ((h.managedPods - worse.managedReady) as real);
      assert a <= b;
      Quotient(b, n, a / n);
    }
    assert Breached(safety, worse, s);
  }

  // ---------------------------------------------------------------------
  // The gate
  // ---------------------------------------------------------------------

  /** One call of the health probe: when it was judged, and the snapshot unless the probe failed. */
  datatype Probe = Probe(at: int, health: Option<Health>)

  datatype Outcome = Skipped | Passed(level: Level) | ProbeFailed | Aborted(reasons: seq<Signal>)

  function EffectiveGrace(safety: Safety, h: Health): int {
    if (h.mastersNotReady > 0 || (h.etcdPods > 0 && h.etcdReady < h.etcdPods)) && safety.gracePeriod > CONTROL_PLANE_GRACE
    then CONTROL_PLANE_GRACE
    else safety.gracePeriod
  }

  ghost predicate BadProbe(safety: Safety, p: Probe) {
    p.health.Some? && IsBad(safety, p.health.value)
  }

  /** i starts the unbroken streak of abort verdicts that ends at j. */
  ghost predicate IsStreak(safety: Safety, probes: seq<Probe>, i: int, j: int) {
    && 0 <= i <= j < |probes|
    && (forall k :: i <= k <= j ==> BadProbe(safety, probes[k]))
    && (i > 0 ==> !BadProbe(safety, probes[i - 1]))
  }

  /** The abort rule, as a property of the whole probe history. */
  ghost predicate AbortsAt(safety: Safety, probes: seq<Probe>, j: int)
    requires 0 <= j < |probes|
  {
    probes[j].health == None
    || (BadProbe(safety, probes[j])
        && (safety.gracePeriod <= 0
            || exists i :: IsStreak(safety, probes, i, j)
                           && probes[j].at - probes[i].at >= EffectiveGrace(safety, probes[j].health.value)))
  }

  /** The run has gone on past every probe so far. */
  ghost predicate Survives(safety: Safety, probes: seq<Probe>) {
    forall j :: 0 <= j < |probes| ==> !AbortsAt(safety, probes, j)
  }

  /** What the gate remembers after surviving `probes`: the time the current streak began. */
  ghost predicate Remembers(safety: Safety, probes: seq<Probe>, since: Option<int>) {
    if probes == [] || !BadProbe(safety, probes[|probes| - 1]) then since == None
    else exists i :: IsStreak(safety, probes, i, |probes| - 1) && since == Some(probes[i].at)
  }

  /** Each verdict says whether the history up to its probe let the run go on. */
  ghost predicate AsJudged(safety: Safety, verdicts: seq<bool>, probes: seq<Probe>) {
    |verdicts| == |probes| && forall j :: 0 <= j < |probes| ==> (verdicts[j] <==> !AbortsAt(safety, probes, j))
  }

  lemma AsJudgedMore(safety: Safety, verdicts: seq<bool>, probes: seq<Probe>, p: Probe, ok: bool)
    requires AsJudged(safety, verdicts, probes) && (ok <==> !AbortsAt(safety, probes + [p], |probes|))
    ensures AsJudged(safety, verdicts + [ok], probes + [p])
  {
    SurvivalIsPrefixClosed(safety, probes, p);
    forall j | 0 <= j < |probes| ensures (verdicts + [ok])[j] <==> !AbortsAt(safety, probes + [p], j) {
      assert verdicts[j] <==> !AbortsAt(safety, probes, j);
    }
  }

  class Gate {
    var since: Option<int>
    ghost var probes: seq<Probe>

    /** The gate has let the run go on so far, and remembers what it must. */
    ghost predicate Ready(safety: Safety)
      reads this
    {
      Survives(safety, probes) && Remembers(safety, probes, since)
    }

    /** The last probe called for an abort, and no earlier one did. */
    ghost predicate Tripped(safety: Safety)
      reads this
    {
      probes != [] && AbortsAt(safety, probes, |probes| - 1) && Survives(safety, probes[..|probes| - 1])
    }

    constructor ()
      ensures probes == [] && forall safety :: Ready(safety)
    {
      since, probes := None, [];
    }

    /**
     * Judges one probe. The answer is an abort exactly when the history as a
     * whole calls for one.
     */
    method CheckHealth(safety: Safety, probe: Probe) returns (outcome: Outcome)
      requires Ready(safety)
      modifies this
      ensures !safety.enabled ==> outcome == Skipped && probes == old(probes) && since == old(since)
      ensures safety.enabled ==> probes == old(probes) + [probe]
      ensures safety.enabled ==>
                ((outcome.ProbeFailed? || outcome.Aborted?) <==> AbortsAt(safety, probes, |probes| - 1))
      ensures safety.enabled ==> (outcome.ProbeFailed? <==> probe.health == None)
      ensures outcome.Aborted? ==> outcome.reasons == Reasons(safety, probe.health.value)
      ensures outcome.Passed? ==> outcome.level == if BadProbe(safety, probe) then Warning else Normal
      ensures outcome.Passed? || outcome.Skipped? ==> Ready(safety)
      ensures outcome.ProbeFailed? || outcome.Aborted? ==> Tripped(safety)
      ensures outcome.Skipped? ==> !safety.enabled
    {
      if !safety.enabled {
        return Skipped;
      }
      probes := probes + [probe];
      SurvivalIsPrefixClosed(safety, old(probes), probe);
      assert probes[..|probes| - 1] == old(probes);
      if probe.health == None {
        return ProbeFailed;
      }
      var h := probe.health.value;
      var d := Evaluate(safety, h);
      if !d.abort {
        assert !BadProbe(safety, probes[|probes| - 1]);
        since := None;
        return Passed(d.level);
      }
      var grace := safety.gracePeriod;
      if h.mastersNotReady > 0 || (h.etcdPods > 0 && h.etcdReady < h.etcdPods) {
        if grace > CONTROL_PLANE_GRACE {
          grace := CONTROL_PLANE_GRACE;
        }
      }
      if grace > 0 {
        BadProbeVerdict(safety, old(probes), probe, since);
        if since == None {
          since := Some(probe.at);
          return Passed(Warning);
        }
        if probe.at - since.value < grace {
          return Passed(Warning);
        }
      }
      return Aborted(d.reasons);
    }
  }

  /** Earlier verdicts do not depend on later probes. */
  lemma SurvivalIsPrefixClosed(safety: Safety, probes: seq<Probe>, p: Probe)
    ensures forall j :: 0 <= j < |probes| ==>
              (AbortsAt(safety, probes + [p], j) <==> AbortsAt(safety, probes, j))
  {
    var all := probes + [p];
    forall j | 0 <= j < |probes|
      ensures AbortsAt(safety, all, j) <==> AbortsAt(safety, probes, j)
    {
      forall i ensures IsStreak(safety, all, i, j) <==> IsStreak(safety, probes, i, j) {
        assert forall k :: 0 <= k <= j ==> all[k] == probes[k];
      }
    }
  }

  /** A bad probe prolongs the streak before it, or starts one of its own. */
  lemma StreakGrows(safety: Safety, probes: seq<Probe>, p: Probe)
    requires BadProbe(safety, p)
    ensures var all := probes + [p];
            forall i :: IsStreak(safety, all, i, |probes|) <==>
              (if probes != [] && BadProbe(safety, probes[|probes| - 1])
               then IsStreak(safety, probes, i, |probes| - 1) else i == |probes|)
  {
    var all := probes + [p];
    var last := |probes| - 1;
    assert forall k :: 0 <= k <= last ==> all[k] == probes[k];
    forall i
      ensures IsStreak(safety, all, i, |probes|) <==>
        (if probes != [] && BadProbe(safety, probes[last])
         then IsStreak(safety, probes, i, last) else i == |probes|)
    {
      if probes != [] && BadProbe(safety, probes[last]) {
        assert i == |probes| ==> BadProbe(safety, all[i - 1]);
      } else if 0 <= i < |probes| {
        assert !BadProbe(safety, all[last]);
      }
    }
  }

  /** What the gate remembers is enough to judge the next bad probe. */
  lemma BadProbeVerdict(safety: Safety, probes: seq<Probe>, p: Probe, since: Option<int>)
    requires safety.gracePeriod > 0 && BadProbe(safety, p) && Remembers(safety, probes, since)
    ensures var all := probes + [p];
            AbortsAt(safety, all, |probes|) <==>
              since.Some? && p.at - since.value >= EffectiveGrace(safety, p.health.value)
    ensures Remembers(safety, probes + [p], if since == None then Some(p.at) else since)
  {
    var all := probes + [p];
    var last := |probes| - 1;
    StreakGrows(safety, probes, p);
    if probes == [] || !BadProbe(safety, probes[last]) {
      assert IsStreak(safety, all, |probes|, |probes|);
    } else {
      var i :| IsStreak(safety, probes, i, last) && since == Some(probes[i].at);
      assert IsStreak(safety, all, i, |probes|) && all[i] == probes[i];
      forall k | IsStreak(safety, all, k, |probes|) ensures k == i {
        StreakIsUnique(safety, probes, i, k, last);
      }
    }
  }

  lemma StreakIsUnique(safety: Safety, probes: seq<Probe>, i: int, k: int, j: int)
    requires IsStreak(safety, probes, i, j) && IsStreak(safety, probes, k, j)
    ensures i == k
  {
  }

  /** With a positive grace, a bad probe right after a good one (or the very first) never aborts. */
  lemma IsolatedBadProbeNeverAborts(safety: Safety, probes: seq<Probe>, j: int)
    requires safety.gracePeriod > 0 && 0 <= j < |probes| && probes[j].health.Some?
    requires j == 0 || !BadProbe(safety, probes[j - 1])
    ensures !AbortsAt(safety, probes, j)
  {
  }

  /** Over non-decreasing clocks, a longer grace never aborts where a shorter one does not. */
  lemma LongerGraceIsMoreTolerant(safety: Safety, grace: int, probes: seq<Probe>, j: int)
    requires 0 <= j < |probes| && safety.gracePeriod <= grace
    requires forall a, b :: 0 <= a <= b < |probes| ==> probes[a].at <= probes[b].at
    requires AbortsAt(safety.(gracePeriod := grace), probes, j)
    ensures AbortsAt(safety, probes, j)
  {
    var longer := safety.(gracePeriod := grace);
    forall p: Probe ensures BadProbe(longer, p) <==> BadProbe(safety, p) {
      if p.health.Some? {
        assert forall s :: Breached(longer, p.health.value, s) <==> Breached(safety, p.health.value, s);
      }
    }
    if probes[j].health.Some? && safety.gracePeriod > 0 {
      var i :| IsStreak(longer, probes, i, j)
               && probes[j].at - probes[i].at >= EffectiveGrace(longer, probes[j].health.value);
      assert IsStreak(safety, probes, i, j);
    }
  }
}
