/**
 * The cleanup watcher: a stateful sampler of not-ready nodes and its pure twin
 * (internal/cleanupwatch/watch.go:98-204, 319-338). Its claims are about every
 * sequence of ticks, so the class keeps the whole history as a ghost.
 */
module Watcher {
  import opened Common

  const MAX_SAMPLES := 200

  datatype Sample = Sample(at: int, nodesNotReady: int, memoryPressure: int, monitoringOOM: int,
                           monitoringRestarts: int, notReadyNodes: seq<string>)

  datatype IncidentKind = NodeNotReady | NodeRecovered | MemoryPressure | PrometheusOOM | PodRestartBurst

  datatype AnyIncident = Incident(at: int, kind: IncidentKind, node: string)

  /** Only incidents of nodes name a node. */
  type Incident = i: AnyIncident | i.kind == NodeNotReady || i.kind == NodeRecovered || i.node == ""
    witness Incident(0, MemoryPressure, "")

  datatype Observation = Observation(samples: seq<Sample>, incidents: seq<Incident>, maxNotReady: int,
                                     maxNotReadyDurSec: int, monitoringOOM: int, worstNodes: seq<string>)

  const SECOND := 1_000_000_000

  type History = seq<Sample>

  predicate Down(h: History, k: int, x: string)
    requires 0 <= k < |h|
  {
    x in h[k].notReadyNodes
  }

  predicate DownAtEnd(h: History, x: string) { h != [] && Down(h, |h| - 1, x) }

  // ---------------------------------------------------------------------
  // What the history means
  // ---------------------------------------------------------------------

  /** When the spell that is still open at the last sample began. */
  function Since(h: History, x: string): int
    requires DownAtEnd(h, x)
  {
    var before := h[..|h| - 1];
    if DownAtEnd(before, x) then Since(before, x) else h[|h| - 1].at
  }

  /** The incidents one node gives rise to: one per change between consecutive samples. */
  function NodeIncidents(h: History, x: string): seq<Incident> {
    if h == [] then []
    else
      var before, at := h[..|h| - 1], h[|h| - 1].at;
      NodeIncidents(before, x) + Change(DownAtEnd(before, x), DownAtEnd(h, x), at, x)
  }

  function Change(was: bool, now: bool, at: int, x: string): seq<Incident> {
    if now && !was then [Incident(at, NodeNotReady, x)]
    else if was && !now then [Incident(at, NodeRecovered, x)]
    else []
  }

  /** The node incidents of x among all incidents. */
  function Project(incidents: seq<Incident>, x: string): seq<Incident> {
    if incidents == [] then []
    else
      var last := incidents[|incidents| - 1];
      Project(incidents[..|incidents| - 1], x)
      + if (last.kind == NodeNotReady || last.kind == NodeRecovered) && last.node == x then [last] else []
  }

  /** A not-ready spell of x from sample i to sample j: to its recovery, or to the last sample if still open. */
  ghost predicate IsSpell(h: History, x: string, i: int, j: int) {
    && 0 <= i <= j < |h|
    && Down(h, i, x) && (i > 0 ==> !Down(h, i - 1, x))
    && (forall k :: i <= k < j ==> Down(h, k, x))
    && (j < |h| - 1 ==> !Down(h, j, x))
  }

  /** d is the length of the longest spell of any node, zero if there is none. */
  ghost predicate IsLongest(h: History, d: int) {
    && d >= 0
    && (forall x, i, j :: IsSpell(h, x, i, j) ==> h[j].at - h[i].at <= d)
    && (d > 0 ==> exists x, i, j :: IsSpell(h, x, i, j) && h[j].at - h[i].at == d)
  }

  function MaxNotReady(h: History): int {
    if h == [] then 0 else Max(MaxNotReady(h[..|h| - 1]), h[|h| - 1].nodesNotReady)
  }

  function MaxOOM(h: History): int {
    if h == [] then 0 else Max(MaxOOM(h[..|h| - 1]), h[|h| - 1].monitoringOOM)
  }

  ghost predicate Chronological(h: History) {
    forall i, j :: 0 <= i <= j < |h| ==> InTime(h, i, j)
  }

  predicate InTime(h: History, i: int, j: int)
    requires 0 <= i <= j < |h|
  {
    h[i].at <= h[j].at
  }

  lemma ChronologicalMore(h: History, s: Sample)
    requires Chronological(h) && (h != [] ==> h[|h| - 1].at <= s.at)
    ensures Chronological(h + [s])
  {
    forall i, j | 0 <= i <= j < |h + [s]| ensures InTime(h + [s], i, j) {
      if j < |h| {
        assert InTime(h, i, j);
      } else if i < |h| {
        assert InTime(h, i, |h| - 1);
      }
    }
  }

  /** The not-ready map after a sample: nodes keep the time they were first seen. */
  function Tracked(before: map<string, int>, at: int, nodes: seq<string>): map<string, int> {
    map x | x in nodes :: if x in before then before[x] else at
  }

  /** The incidents that are not about a node. */
  function Others(incidents: seq<Incident>): seq<Incident> {
    if incidents == [] then []
    else
      var last := incidents[|incidents| - 1];
      Others(incidents[..|incidents| - 1]) + if OfNode(last.kind) then [] else [last]
  }

  /** What a sample tells about the cluster as a whole, compared with the one before. */
  function PressureIncidents(prev: Option<Sample>, s: Sample): seq<Incident> {
    if prev == None then []
    else
      (if s.memoryPressure > prev.value.memoryPressure then [Incident(s.at, MemoryPressure, "")] else [])
      + (if s.monitoringOOM > prev.value.monitoringOOM then [Incident(s.at, PrometheusOOM, "")] else [])
      + (if s.monitoringRestarts - prev.value.monitoringRestarts >= 3 then [Incident(s.at, PodRestartBurst, "")] else [])
  }

  function ClusterIncidents(h: History): seq<Incident> {
    if h == [] then []
    else
      var before := h[..|h| - 1];
      ClusterIncidents(before) + PressureIncidents(LastOf(before), h[|h| - 1])
  }

  // ---------------------------------------------------------------------
  // The watcher
  // ---------------------------------------------------------------------

  class Watcher {
    var samples: seq<Sample>
    var incidents: seq<Incident>
    var prev: Option<Sample>
    var notReady: map<string, int>
    var maxNR: int
    var maxNRDur: int
    var oomTotal: int
    ghost var history: History

    /** The state says what the whole history says. */
    ghost predicate Valid()
      reads this
    {
      && Chronological(history) && prev == LastOf(history)
      && WindowOk(history, samples, maxNR, oomTotal)
      && NodesOk(history, notReady, maxNRDur)
      && Records(history, incidents) && TellsCluster(history, incidents)
    }

    constructor ()
      ensures Valid() && history == []
    {
      samples, incidents, prev, notReady, maxNR, maxNRDur, oomTotal := [], [], None, map[], 0, 0, 0;
      history := [];
    }

    /**
     * What the watcher reports: the window, the maxima over the whole history, and, each once,
     * every node that was ever not ready, even in samples that have left the window.
     */
    method Snapshot() returns (obs: Observation)
      requires Valid()
      ensures obs.samples == LastN(history, MAX_SAMPLES) && obs.incidents == incidents
      ensures obs.maxNotReady == MaxNotReady(history) && obs.monitoringOOM == MaxOOM(history)
      ensures IsLongest(history, maxNRDur) && obs.maxNotReadyDurSec == maxNRDur / SECOND
      ensures Distinct(obs.worstNodes) && forall x :: x in obs.worstNodes <==> x != "" && EverDown(history, x)
    {
      var worst: seq<string> := [];
      var seen: set<string> := {};
      for i := 0 to |incidents|
        invariant Distinct(worst) && forall x :: x in seen <==> x in worst
        invariant forall x :: x in worst <==> x != "" && Mentions(incidents[..i], x)
      {
        var inc := incidents[i];
        MentionsMore(incidents, i);
        if inc.node != "" && inc.node !in seen {
          worst := worst + [inc.node];
          seen := seen + {inc.node};
        }
      }
      assert incidents[..|incidents|] == incidents;
      forall x | x != "" ensures Mentions(incidents, x) <==> EverDown(history, x) {
        MentionedIfDown(history, incidents, x);
      }
      obs := Observation(samples, incidents, maxNR, maxNRDur / SECOND, oomTotal, worst);
    }

    /** One tick; a failed sample changes nothing. */
    method Tick(sampled: Option<Sample>)
      requires Valid()
      requires sampled.Some? && history != [] ==> history[|history| - 1].at <= sampled.value.at
      modifies this
      ensures Valid()
      ensures history == old(history) + if sampled.Some? then [sampled.value] else []
      ensures sampled.Some? ==> notReady == Tracked(old(notReady), sampled.value.at, sampled.value.notReadyNodes)
      ensures sampled == None ==> unchanged(this)
    {
      if sampled.Some? {
        ChronologicalMore(history, sampled.value);
        Take(sampled.value);
      }
    }

    method Take(s: Sample)
      requires Valid() && Chronological(history + [s])
      modifies this
      ensures Valid() && history == old(history) + [s]
      ensures notReady == Tracked(old(notReady), s.at, s.notReadyNodes)
    {
      KeepSample(s);
      Observe(s);
      TellPressure(s);
      history := history + [s];
    }

    /** The cluster part of a tick. */
    method TellPressure(s: Sample)
      requires Records(history + [s], incidents) && TellsCluster(history, incidents) && prev == LastOf(history)
      modifies `incidents, `prev
      ensures Records(history + [s], incidents) && TellsCluster(history + [s], incidents)
      ensures prev == LastOf(history + [s])
    {
      ghost var seen := incidents;
      ClusterIncidentsOn(history, s);
      NotePressure(s);
      RecordsSame(history + [s], seen, incidents);
    }

    /** The node part of a tick. */
    method Observe(s: Sample)
      requires Chronological(history + [s]) && NodesOk(history, notReady, maxNRDur)
      requires Records(history, incidents) && TellsCluster(history, incidents)
      modifies `notReady, `incidents, `maxNRDur
      ensures notReady == Tracked(old(notReady), s.at, s.notReadyNodes)
      ensures NodesOk(history + [s], notReady, maxNRDur)
      ensures Records(history + [s], incidents) && TellsCluster(history, incidents)
    {
      ghost var m, inc0, d0 := notReady, incidents, maxNRDur;
      var cur := MarkNotReady(s);
      ghost var entered, inc1 := notReady, incidents;
      MeasureAndRecover(s.at, cur);
      TickOn(history, s, m, inc0, d0, entered, inc1, cur, notReady, incidents, maxNRDur);
    }

    /** The sample window and the plain maxima. */
    method KeepSample(s: Sample)
      requires WindowOk(history, samples, maxNR, oomTotal)
      modifies `samples, `maxNR, `oomTotal
      ensures WindowOk(history + [s], samples, maxNR, oomTotal)
    {
      HistoryGrows(history, s);
      LastNAppend(history, s, MAX_SAMPLES);
      if |samples| >= MAX_SAMPLES {
        samples := samples[1..];
      }
      samples := samples + [s];
      if s.nodesNotReady > maxNR {
        maxNR := s.nodesNotReady;
      }
      if s.monitoringOOM > oomTotal {
        oomTotal := s.monitoringOOM;
      }
    }

    /** Enters the newly not-ready nodes, in list order, each once however often it is listed. */
    method MarkNotReady(s: Sample) returns (cur: set<string>)
      modifies `notReady, `incidents
      ensures forall x :: x in cur <==> x in s.notReadyNodes
      ensures Marked(old(notReady), old(incidents), s.at, cur, notReady, incidents)
    {
      cur := {};
      ghost var m0, inc0 := notReady, incidents;
      for i := 0 to |s.notReadyNodes|
        invariant forall x :: x in cur <==> x in s.notReadyNodes[..i]
        invariant Marked(m0, inc0, s.at, cur, notReady, incidents)
      {
        var n := s.notReadyNodes[i];
        MarkedMore(m0, inc0, s.at, cur, n, notReady, incidents);
        cur := cur + {n};
        if n !in notReady {
          notReady := notReady[n := s.at];
          incidents := incidents + [Incident(s.at, NodeNotReady, n)];
        }
      }
      assert s.notReadyNodes[..|s.notReadyNodes|] == s.notReadyNodes;
    }

    /** Measures every spell that reaches this sample and closes those of recovered nodes, in any order. */
    method MeasureAndRecover(now: int, cur: set<string>)
      modifies `notReady, `incidents, `maxNRDur
      ensures Swept(old(notReady), old(incidents), old(maxNRDur), now, cur, old(notReady).Keys,
                    notReady, incidents, maxNRDur)
    {
      ghost var m0, inc0, d0 := notReady, incidents, maxNRDur;
      var todo := notReady.Keys;
      ghost var done := {};
      while todo != {}
        invariant done == m0.Keys - todo && todo <= m0.Keys
        invariant Swept(m0, inc0, d0, now, cur, done, notReady, incidents, maxNRDur)
        decreases todo
      {
        var n :| n in todo;
        todo := todo - {n};
        SweptMore(m0, inc0, d0, now, cur, done, notReady, incidents, maxNRDur, n);
        done := done + {n};
        var dur := now - notReady[n];
        if dur > maxNRDur {
          maxNRDur := dur;
        }
        if n !in cur {
          Recover(n, now);
        }
      }
      assert done == m0.Keys;
    }

    method Recover(n: string, now: int)
      modifies `notReady, `incidents
      ensures notReady == old(notReady) - {n} && incidents == old(incidents) + [Incident(now, NodeRecovered, n)]
    {
      incidents := incidents + [Incident(now, NodeRecovered, n)];
      notReady := notReady - {n};
    }

    /** Pressure, OOM and restart incidents: none of them is about a node. */
    method NotePressure(s: Sample)
      modifies `incidents, `prev
      ensures prev == Some(s)
      ensures SameRecords(old(incidents), incidents)
      ensures Others(incidents) == Others(old(incidents)) + PressureIncidents(old(prev), s)
    {
      if prev.Some? {
        NoteIf(s.memoryPressure > prev.value.memoryPressure, Incident(s.at, MemoryPressure, ""));
        NoteIf(s.monitoringOOM > prev.value.monitoringOOM, Incident(s.at, PrometheusOOM, ""));
        NoteIf(s.monitoringRestarts - prev.value.monitoringRestarts >= 3, Incident(s.at, PodRestartBurst, ""));
      }
      prev := Some(s);
    }

    method NoteIf(happened: bool, i: Incident)
      requires !OfNode(i.kind) && i.node == ""
      modifies `incidents
      ensures SameRecords(old(incidents), incidents)
      ensures Others(incidents) == Others(old(incidents)) + if happened then [i] else []
    {
      if happened {
        ProjectAppend(incidents, i);
        OthersAppend(incidents, i);
        incidents := incidents + [i];
      }
    }
  }

  /** The window and the plain maxima, over the whole history. */
  ghost predicate WindowOk(h: History, samples: seq<Sample>, maxNR: int, oomTotal: int) {
    samples == LastN(h, MAX_SAMPLES) && maxNR == MaxNotReady(h) && oomTotal == MaxOOM(h)
  }

  ghost predicate NodesOk(h: History, notReady: map<string, int>, maxNRDur: int) {
    TracksEnd(h, notReady) && IsLongest(h, maxNRDur)
  }

  /** The incidents that are not about nodes are those of the whole history. */
  ghost predicate TellsCluster(h: History, incidents: seq<Incident>) {
    Others(incidents) == ClusterIncidents(h)
  }

  /** The keys of the map are the not-ready nodes of the last sample, each with the start of its open spell. */
  ghost predicate TracksEnd(h: History, m: map<string, int>) {
    && (forall x :: x in m <==> DownAtEnd(h, x))
    && (forall x :: x in m && DownAtEnd(h, x) ==> m[x] == Since(h, x))
  }

  predicate OfNode(kind: IncidentKind) { kind == NodeNotReady || kind == NodeRecovered }

  /** To every node in `who`, and to no other, one incident of this kind has been added. */
  ghost predicate Adds(inc0: seq<Incident>, inc: seq<Incident>, kind: IncidentKind, at: int, who: set<string>)
    requires OfNode(kind)
  {
    && (forall x :: Project(inc, x) == Project(inc0, x) + if x in who then [Incident(at, kind, x)] else [])
    && Others(inc) == Others(inc0)
  }

  lemma AddsMore(inc0: seq<Incident>, inc: seq<Incident>, kind: IncidentKind, at: int, who: set<string>, n: string)
    requires OfNode(kind) && Adds(inc0, inc, kind, at, who) && n !in who
    ensures Adds(inc0, inc + [Incident(at, kind, n)], kind, at, who + {n})
  {
    ProjectAppend(inc, Incident(at, kind, n));
    OthersAppend(inc, Incident(at, kind, n));
  }

  ghost predicate Entered(m0: map<string, int>, at: int, seen: set<string>, m: map<string, int>) {
    && (forall x :: x in m <==> x in m0 || x in seen)
    && (forall x :: x in m ==> m[x] == if x in m0 then m0[x] else at)
  }

  /** The nodes seen so far have been entered: new ones at this time, each with one incident. */
  ghost predicate Marked(m0: map<string, int>, inc0: seq<Incident>, at: int, seen: set<string>,
                         m: map<string, int>, inc: seq<Incident>) {
    Entered(m0, at, seen, m) && Adds(inc0, inc, NodeNotReady, at, seen - m0.Keys)
  }

  lemma EnteredMore(m0: map<string, int>, at: int, seen: set<string>, m: map<string, int>, n: string)
    requires Entered(m0, at, seen, m)
    ensures Entered(m0, at, seen + {n}, if n in m then m else m[n := at])
  {
  }

  lemma MarkedMore(m0: map<string, int>, inc0: seq<Incident>, at: int, seen: set<string>, n: string,
                   m: map<string, int>, inc: seq<Incident>)
    requires Marked(m0, inc0, at, seen, m, inc)
    ensures n in m ==> Marked(m0, inc0, at, seen + {n}, m, inc)
    ensures n !in m ==> Marked(m0, inc0, at, seen + {n}, m[n := at], inc + [Incident(at, NodeNotReady, n)])
  {
    EnteredMore(m0, at, seen, m, n);
    if n in m {
      assert seen + {n} - m0.Keys == seen - m0.Keys;
    } else {
      AddsMore(inc0, inc, NodeNotReady, at, seen - m0.Keys, n);
      assert seen + {n} - m0.Keys == seen - m0.Keys + {n};
    }
  }

  ghost predicate Remaining(m0: map<string, int>, gone: set<string>, m: map<string, int>) {
    && (forall x :: x in m <==> x in m0 && x !in gone)
    && (forall x :: x in m ==> m[x] == m0[x])
  }

  lemma RemainingLess(m0: map<string, int>, gone: set<string>, m: map<string, int>, n: string)
    requires Remaining(m0, gone, m)
    ensures Remaining(m0, gone + {n}, m - {n})
  {
  }

  /** The nodes in `done` have been measured, and those of them that recovered are gone, each with one incident. */
  ghost predicate Swept(m0: map<string, int>, inc0: seq<Incident>, d0: int, now: int, cur: set<string>, done: set<string>,
                        m: map<string, int>, inc: seq<Incident>, d: int) {
    Remaining(m0, done - cur, m) && Adds(inc0, inc, NodeRecovered, now, done - cur) && IsMax(d0, m0, now, done, d)
  }

  lemma SweptMore(m0: map<string, int>, inc0: seq<Incident>, d0: int, now: int, cur: set<string>, done: set<string>,
                  m: map<string, int>, inc: seq<Incident>, d: int, n: string)
    requires Swept(m0, inc0, d0, now, cur, done, m, inc, d) && n in m0 && n !in done
    ensures n in cur ==> Swept(m0, inc0, d0, now, cur, done + {n}, m, inc, Max(d, now - m0[n]))
    ensures n !in cur ==> Swept(m0, inc0, d0, now, cur, done + {n}, m - {n}, inc + [Incident(now, NodeRecovered, n)],
                                Max(d, now - m0[n]))
  {
    MaxMore(d0, m0, now, done, d, n);
    if n in cur {
      assert done + {n} - cur == done - cur;
    } else {
      AddsMore(inc0, inc, NodeRecovered, now, done - cur, n);
      RemainingLess(m0, done - cur, m, n);
      assert done + {n} - cur == done - cur + {n};
    }
  }

  /** d is the largest of d0 and the spells of the nodes in `done` measured at `now`. */
  ghost predicate IsMax(d0: int, m: map<string, int>, now: int, done: set<string>, d: int) {
    && d >= d0 && (forall x :: x in done && x in m ==> now - m[x] <= d)
    && (d == d0 || exists x :: x in done && x in m && d == now - m[x])
  }

  lemma MaxMore(d0: int, m: map<string, int>, now: int, done: set<string>, d: int, n: string)
    requires IsMax(d0, m, now, done, d) && n in m
    ensures IsMax(d0, m, now, done + {n}, Max(d, now - m[n]))
  {
    if now - m[n] > d {
      assert n in done + {n} && Max(d, now - m[n]) == now - m[n];
    } else if d != d0 {
      var x :| x in done && x in m && d == now - m[x];
      assert x in done + {n};
    }
  }

  /** Both halves of a tick together carry the history on by one sample. */
  lemma TickOn(h: History, s: Sample, m: map<string, int>, inc0: seq<Incident>, d0: int,
               entered: map<string, int>, inc1: seq<Incident>, cur: set<string>,
               left: map<string, int>, inc2: seq<Incident>, d: int)
    requires Chronological(h + [s]) && TracksEnd(h, m) && Records(h, inc0) && IsLongest(h, d0)
    requires forall x :: x in cur <==> x in s.notReadyNodes
    requires Marked(m, inc0, s.at, cur, entered, inc1)
    requires Swept(entered, inc1, d0, s.at, cur, entered.Keys, left, inc2, d)
    ensures left == Tracked(m, s.at, s.notReadyNodes)
    ensures TracksEnd(h + [s], left) && Records(h + [s], inc2) && IsLongest(h + [s], d)
    ensures Others(inc2) == Others(inc0)
  {
    LeftIsTracked(m, inc0, s, entered, inc1, cur, d0, left, inc2, d);
    TracksOn(h, s, m);
    RecordsOn(h, s, m, inc0, inc1, inc2);
    LongestOn(h, s, m, entered, d0, d);
  }

  lemma LeftIsTracked(m: map<string, int>, inc0: seq<Incident>, s: Sample, entered: map<string, int>, inc1: seq<Incident>,
                      cur: set<string>, d0: int, left: map<string, int>, inc2: seq<Incident>, d: int)
    requires forall x :: x in cur <==> x in s.notReadyNodes
    requires Marked(m, inc0, s.at, cur, entered, inc1)
    requires Swept(entered, inc1, d0, s.at, cur, entered.Keys, left, inc2, d)
    ensures left == Tracked(m, s.at, s.notReadyNodes)
    ensures forall x :: Project(inc2, x) ==
              Project(inc1, x) + if x in m && x !in s.notReadyNodes then [Incident(s.at, NodeRecovered, x)] else []
  {
  }

  lemma ProjectAppend(incidents: seq<Incident>, i: Incident)
    ensures forall x :: Project(incidents + [i], x) ==
              Project(incidents, x) + if (i.kind == NodeNotReady || i.kind == NodeRecovered) && i.node == x then [i] else []
  {
    assert (incidents + [i])[..|incidents|] == incidents;
  }

  lemma ClusterIncidentsOn(h: History, s: Sample)
    ensures ClusterIncidents(h + [s]) == ClusterIncidents(h) + PressureIncidents(LastOf(h), s)
    ensures LastOf(h + [s]) == Some(s)
  {
    assert (h + [s])[..|h|] == h;
  }

  lemma OthersAppend(incidents: seq<Incident>, i: Incident)
    ensures Others(incidents + [i]) == Others(incidents) + if OfNode(i.kind) then [] else [i]
  {
    assert (incidents + [i])[..|incidents|] == incidents;
  }

  function LastOf(h: History): Option<Sample> {
    if h == [] then None else Some(h[|h| - 1])
  }

  /** The incidents tell of every node exactly what its history gives rise to. */
  ghost predicate Records(h: History, incidents: seq<Incident>) {
    forall x :: Project(incidents, x) == NodeIncidents(h, x)
  }

  ghost predicate SameRecords(a: seq<Incident>, b: seq<Incident>) {
    forall x :: Project(b, x) == Project(a, x)
  }

  lemma RecordsSame(h: History, a: seq<Incident>, b: seq<Incident>)
    requires Records(h, a) && SameRecords(a, b)
    ensures Records(h, b)
  {
  }

  lemma HistoryGrows(h: History, s: Sample)
    ensures MaxNotReady(h + [s]) == Max(MaxNotReady(h), s.nodesNotReady)
    ensures MaxOOM(h + [s]) == Max(MaxOOM(h), s.monitoringOOM)
    ensures LastOf(h + [s]) == Some(s)
  {
    assert (h + [s])[..|h|] == h;
  }

  lemma RecordsOn(h: History, s: Sample, m: map<string, int>, inc0: seq<Incident>, inc1: seq<Incident>, inc2: seq<Incident>)
    requires TracksEnd(h, m) && Records(h, inc0)
    requires forall x :: Project(inc1, x) ==
               Project(inc0, x) + if x in s.notReadyNodes && x !in m then [Incident(s.at, NodeNotReady, x)] else []
    requires forall x :: Project(inc2, x) ==
               Project(inc1, x) + if x in m && x !in s.notReadyNodes then [Incident(s.at, NodeRecovered, x)] else []
    ensures Records(h + [s], inc2)
  {
    forall x ensures Project(inc2, x) == NodeIncidents(h + [s], x) {
      IncidentsOn(h, s, m, x);
    }
  }

  lemma TracksOn(h: History, s: Sample, m: map<string, int>)
    requires TracksEnd(h, m)
    ensures TracksEnd(h + [s], Tracked(m, s.at, s.notReadyNodes))
  {
    assert (h + [s])[..|h|] == h;
  }

  lemma IncidentsOn(h: History, s: Sample, m: map<string, int>, x: string)
    requires TracksEnd(h, m)
    ensures NodeIncidents(h + [s], x) == NodeIncidents(h, x) + Change(x in m, x in s.notReadyNodes, s.at, x)
  {
    assert (h + [s])[..|h|] == h;
  }

  // ---------------------------------------------------------------------
  // Reports over the whole history
  // ---------------------------------------------------------------------

  ghost predicate EverDown(h: History, x: string) {
    exists k :: 0 <= k < |h| && Down(h, k, x)
  }

  ghost predicate Mentions(incidents: seq<Incident>, x: string) {
    exists i :: i in incidents && i.node == x
  }

  lemma MentionsMore(incidents: seq<Incident>, k: nat)
    requires k < |incidents|
    ensures forall x :: Mentions(incidents[..k + 1], x) <==> Mentions(incidents[..k], x) || incidents[k].node == x
  {
    assert incidents[..k + 1] == incidents[..k] + [incidents[k]];
    forall x ensures Mentions(incidents[..k + 1], x) <==> Mentions(incidents[..k], x) || incidents[k].node == x {
      if incidents[k].node == x {
        assert incidents[k] in incidents[..k + 1];
      }
      if Mentions(incidents[..k], x) {
        var i :| i in incidents[..k] && i.node == x;
        assert i in incidents[..k + 1];
      }
    }
  }

  lemma {:induction false} DownGivesIncident(h: History, x: string)
    ensures NodeIncidents(h, x) != [] <==> EverDown(h, x)
  {
    if h != [] {
      var before := h[..|h| - 1];
      DownGivesIncident(before, x);
      EverDownSplits(h, x);
      if DownAtEnd(before, x) {
        EverDownSplits(before, x);
      }
    }
  }

  lemma EverDownSplits(h: History, x: string)
    requires h != []
    ensures EverDown(h, x) <==> EverDown(h[..|h| - 1], x) || DownAtEnd(h, x)
  {
    var before := h[..|h| - 1];
    if EverDown(before, x) {
      var k :| 0 <= k < |before| && Down(before, k, x);
      assert Down(h, k, x);
    }
    if EverDown(h, x) {
      var k :| 0 <= k < |h| && Down(h, k, x);
      assert k < |before| ==> Down(before, k, x);
    }
  }

  lemma {:induction false} ProjectKeepsMentions(incidents: seq<Incident>, x: string)
    requires x != ""
    ensures Project(incidents, x) != [] <==> Mentions(incidents, x)
  {
    if incidents != [] {
      var k := |incidents| - 1;
      ProjectKeepsMentions(incidents[..k], x);
      MentionsMore(incidents, k);
      assert incidents[..k + 1] == incidents;
      assert incidents[k] in incidents;
    }
  }

  lemma MentionedIfDown(h: History, incidents: seq<Incident>, x: string)
    requires Records(h, incidents) && x != ""
    ensures Mentions(incidents, x) <==> EverDown(h, x)
  {
    ProjectKeepsMentions(incidents, x);
    DownGivesIncident(h, x);
    assert Project(incidents, x) == NodeIncidents(h, x);
  }

  /** The running maximum is the largest reading of the whole history, and zero before the first. */
  lemma {:induction false} MaxNotReadyMeaning(h: History)
    requires forall k :: 0 <= k < |h| ==> h[k].nodesNotReady >= 0
    ensures forall k :: 0 <= k < |h| ==> h[k].nodesNotReady <= MaxNotReady(h)
    ensures if h == [] then MaxNotReady(h) == 0 else exists k :: 0 <= k < |h| && h[k].nodesNotReady == MaxNotReady(h)
  {
    if h != [] {
      var last := |h| - 1;
      MaxNotReadyMeaning(h[..last]);
      if MaxNotReady(h) == h[last].nodesNotReady {
        assert h[last].nodesNotReady == MaxNotReady(h);
      } else {
        var k :| 0 <= k < last && h[..last][k].nodesNotReady == MaxNotReady(h[..last]);
        assert h[k].nodesNotReady == MaxNotReady(h);
      }
    }
  }

  // ---------------------------------------------------------------------
  // The longest spell
  // ---------------------------------------------------------------------

  lemma {:induction false} SinceStartsSpell(h: History, x: string) returns (i: int)
    requires DownAtEnd(h, x)
    ensures IsSpell(h, x, i, |h| - 1) && h[i].at == Since(h, x)
  {
    var before := h[..|h| - 1];
    if DownAtEnd(before, x) {
      i := SinceStartsSpell(before, x);
      assert forall k :: 0 <= k < |before| ==> before[k] == h[k];
      forall k | i <= k < |h| - 1 ensures Down(h, k, x) {
        assert Down(before, k, x);
      }
    } else {
      i := |h| - 1;
      assert i > 0 ==> before[i - 1] == h[i - 1];
    }
  }

  /** A spell still open at the last sample is the one that Since measures. */
  lemma {:induction false} OpenSpellIsSince(h: History, x: string, i: int)
    requires IsSpell(h, x, i, |h| - 1) && DownAtEnd(h, x)
    ensures h[i].at == Since(h, x)
  {
    var before := h[..|h| - 1];
    if i < |h| - 1 {
      assert forall k :: 0 <= k < |before| ==> before[k] == h[k];
      assert Down(h, |h| - 2, x);
      forall k | i <= k < |before| ensures Down(before, k, x) {
        assert Down(h, k, x);
      }
      assert IsSpell(before, x, i, |before| - 1);
      OpenSpellIsSince(before, x, i);
    } else if i > 0 {
      assert before[i - 1] == h[i - 1];
    }
  }

  /** How the spells of a longer history come from those of the shorter one. */
  lemma SpellsOn(h: History, s: Sample, m: map<string, int>, x: string, i: int, j: int)
    requires TracksEnd(h, m) && IsSpell(h + [s], x, i, j)
    ensures j < |h| ==> IsSpell(h, x, i, j)
    ensures j == |h| && i < |h| ==> x in m && m[x] == h[i].at
    ensures j == |h| && i == |h| ==> x in s.notReadyNodes
  {
    var g := h + [s];
    assert forall k :: 0 <= k < |h| ==> g[k] == h[k];
    if j < |h| {
      forall k | i <= k < j ensures Down(h, k, x) {
        assert Down(g, k, x);
      }
      assert j < |h| - 1 ==> !Down(h, j, x);
    } else if i < |h| {
      assert Down(g, |h| - 1, x);
      forall k | i <= k < |h| - 1 ensures Down(h, k, x) {
        assert Down(g, k, x);
      }
      assert IsSpell(h, x, i, |h| - 1);
      OpenSpellIsSince(h, x, i);
    }
  }

  lemma LongestUpper(h: History, s: Sample, m: map<string, int>, entered: map<string, int>, d0: int, d: int)
    requires TracksEnd(h, m) && IsLongest(h, d0) && IsMax(d0, entered, s.at, entered.Keys, d)
    requires forall x :: x in m ==> x in entered && entered[x] == m[x]
    ensures forall x, i, j :: IsSpell(h + [s], x, i, j) ==> (h + [s])[j].at - (h + [s])[i].at <= d
  {
    var g := h + [s];
    forall x, i, j | IsSpell(g, x, i, j) ensures g[j].at - g[i].at <= d {
      SpellsOn(h, s, m, x, i, j);
      if j == |h| && i < |h| {
        assert s.at - entered[x] <= d;
      }
    }
  }

  /** A closed spell stays a spell; an open one goes on to the new sample. */
  lemma SpellGoesOn(h: History, s: Sample, x: string, i: int, j: int)
    requires IsSpell(h, x, i, j)
    ensures !Down(h, j, x) ==> IsSpell(h + [s], x, i, j)
    ensures Down(h, j, x) ==> j == |h| - 1 && IsSpell(h + [s], x, i, |h|)
  {
    var g := h + [s];
    assert forall k :: 0 <= k < |h| ==> g[k] == h[k];
    forall k | i <= k < j ensures Down(g, k, x) {
      assert Down(h, k, x);
    }
    if Down(h, j, x) {
      assert Down(g, |h| - 1, x);
    }
  }

  lemma LongestOn(h: History, s: Sample, m: map<string, int>, entered: map<string, int>, d0: int, d: int)
    requires Chronological(h + [s]) && TracksEnd(h, m) && IsLongest(h, d0) && IsMax(d0, entered, s.at, entered.Keys, d)
    requires forall x :: x in entered <==> x in m || x in s.notReadyNodes
    requires forall x :: x in entered ==> entered[x] == if x in m then m[x] else s.at
    ensures IsLongest(h + [s], d)
  {
    var g := h + [s];
    LongestUpper(h, s, m, entered, d0, d);
    if d > 0 {
      if d == d0 {
        var x, i, j :| IsSpell(h, x, i, j) && h[j].at - h[i].at == d0;
        SpellGoesOn(h, s, x, i, j);
        if Down(h, j, x) {
          assert InTime(g, j, |h|);
          assert g[j] == h[j] && g[i] == h[i] && g[j].at <= g[|h|].at;
          assert g[|h|].at - g[i].at <= d;
          assert IsSpell(g, x, i, |h|) && g[|h|].at - g[i].at == d;
        } else {
          assert IsSpell(g, x, i, j) && g[j].at - g[i].at == d;
        }
      } else {
        var x :| x in entered && d == s.at - entered[x];
        assert x in m && DownAtEnd(h, x);
        var i := SinceStartsSpell(h, x);
        SpellGoesOn(h, s, x, i, |h| - 1);
        assert IsSpell(g, x, i, |h|) && g[|h|].at - g[i].at == d;
      }
    }
  }

  // ---------------------------------------------------------------------
  // Alternation
  // ---------------------------------------------------------------------

  /** The incidents of a node alternate, starting with not-ready, and end with it exactly if it is down now. */
  lemma {:induction false} IncidentsAlternate(h: History, x: string)
    ensures var inc := NodeIncidents(h, x);
            && (forall i :: 0 <= i < |inc| ==> inc[i].node == x && inc[i].kind == if i % 2 == 0 then NodeNotReady else NodeRecovered)
            && (DownAtEnd(h, x) <==> |inc| % 2 == 1)
  {
    if h != [] {
      IncidentsAlternate(h[..|h| - 1], x);
    }
  }

  // ---------------------------------------------------------------------
  // The pure twin
  // ---------------------------------------------------------------------

  function Occurrences(nodes: seq<string>, x: string): nat {
    if nodes == [] then 0
    else Occurrences(nodes[..|nodes| - 1], x) + if nodes[|nodes| - 1] == x then 1 else 0
  }

  lemma {:induction false} OccursIfMember(nodes: seq<string>, x: string)
    ensures Occurrences(nodes, x) > 0 <==> x in nodes
  {
    if nodes != [] {
      OccursIfMember(nodes[..|nodes| - 1], x);
      assert nodes == nodes[..|nodes| - 1] + [nodes[|nodes| - 1]];
    }
  }

  /** A not-ready incident of x for every time it is listed. */
  function Announced(now: int, nodes: seq<string>, x: string): seq<Incident> {
    if nodes == [] then []
    else Announced(now, nodes[..|nodes| - 1], x)
         + if nodes[|nodes| - 1] == x then [Incident(now, NodeNotReady, x)] else []
  }

  lemma {:induction false} AnnouncedOften(now: int, nodes: seq<string>, x: string)
    ensures |Announced(now, nodes, x)| == Occurrences(nodes, x)
    ensures forall i :: i in Announced(now, nodes, x) ==> i == Incident(now, NodeNotReady, x)
  {
    if nodes != [] {
      AnnouncedOften(now, nodes[..|nodes| - 1], x);
    }
  }

  lemma AnnouncedMore(now: int, nodes: seq<string>, i: nat, x: string)
    requires i < |nodes|
    ensures Announced(now, nodes[..i + 1], x) ==
            Announced(now, nodes[..i], x) + if nodes[i] == x then [Incident(now, NodeNotReady, x)] else []
  {
    assert nodes[..i + 1][..i] == nodes[..i];
  }

  /** What the pure twin reports of one node: a new node once for every time it is listed. */
  function TwinIncidents(before: map<string, int>, now: int, nodes: seq<string>, x: string): seq<Incident> {
    if x in before then (if x in nodes then [] else [Incident(now, NodeRecovered, x)])
    else Announced(now, nodes, x)
  }

  method DetectNodeTransition(before: map<string, int>, now: int, nodes: seq<string>)
    returns (still: map<string, int>, incidents: seq<Incident>)
    ensures still == Tracked(before, now, nodes)
    ensures forall x :: Project(incidents, x) == TwinIncidents(before, now, nodes, x)
    ensures Others(incidents) == []
  {
    var cur, listed;
    still, cur, listed := ListAll(before, now, nodes);
    incidents := RecoverAll(before, now, cur, listed);
    TwinReports(before, now, nodes, still, cur, listed, incidents);
  }

  lemma TwinReports(before: map<string, int>, now: int, nodes: seq<string>, still: map<string, int>, cur: set<string>,
                    listed: seq<Incident>, incidents: seq<Incident>)
    requires ListedNodes(before, now, cur, still) && Listed(before, now, nodes, listed)
    requires forall x :: x in cur <==> x in nodes
    requires Adds(listed, incidents, NodeRecovered, now, before.Keys - cur)
    ensures still == Tracked(before, now, nodes)
    ensures forall x :: Project(incidents, x) == TwinIncidents(before, now, nodes, x)
  {
    StillIsTracked(before, now, nodes, still, cur);
    forall x ensures Project(incidents, x) == TwinIncidents(before, now, nodes, x) {
      TwinReportsOf(before, now, nodes, x);
      assert Project(listed, x) == if x in before then [] else Announced(now, nodes, x);
      assert x in before.Keys - cur <==> x in before && x !in nodes;
    }
  }

  lemma StillIsTracked(before: map<string, int>, now: int, nodes: seq<string>, still: map<string, int>, cur: set<string>)
    requires ListedNodes(before, now, cur, still) && forall x :: x in cur <==> x in nodes
    ensures still == Tracked(before, now, nodes)
  {
  }

  /** A node known before is not announced, and one that is not listed is not announced, either. */
  lemma TwinReportsOf(before: map<string, int>, now: int, nodes: seq<string>, x: string)
    ensures TwinIncidents(before, now, nodes, x) ==
              (if x in before then [] else Announced(now, nodes, x))
              + if x in before && x !in nodes then [Incident(now, NodeRecovered, x)] else []
  {
  }

  /** What the first loop of the twin has reported once it has read `nodes`. */
  ghost predicate Listed(before: map<string, int>, now: int, nodes: seq<string>, incidents: seq<Incident>) {
    forall x :: Project(incidents, x) ==
      if x in before then [] else Announced(now, nodes, x)
  }

  lemma ListedOn(before: map<string, int>, now: int, nodes: seq<string>, i: nat, incidents: seq<Incident>)
    requires i < |nodes| && Listed(before, now, nodes[..i], incidents)
    ensures Listed(before, now, nodes[..i + 1],
                   if nodes[i] in before then incidents else incidents + [Incident(now, NodeNotReady, nodes[i])])
  {
    ProjectAppend(incidents, Incident(now, NodeNotReady, nodes[i]));
    forall x ensures Announced(now, nodes[..i + 1], x) ==
        Announced(now, nodes[..i], x) + if nodes[i] == x then [Incident(now, NodeNotReady, x)] else []
    {
      AnnouncedMore(now, nodes, i, x);
    }
  }

  /** The listed nodes, each with the time it was first seen. */
  ghost predicate ListedNodes(before: map<string, int>, now: int, cur: set<string>, still: map<string, int>) {
    && (forall x :: x in still <==> x in cur)
    && (forall x :: x in still ==> still[x] == if x in before then before[x] else now)
  }

  lemma ListedNodesMore(before: map<string, int>, now: int, cur: set<string>, still: map<string, int>, n: string)
    requires ListedNodes(before, now, cur, still)
    ensures ListedNodes(before, now, cur + {n}, still[n := if n in before then before[n] else now])
  {
  }

  /** Where the first loop of the twin stands after reading `nodes`. */
  ghost predicate ListState(before: map<string, int>, now: int, nodes: seq<string>, still: map<string, int>,
                            cur: set<string>, incidents: seq<Incident>) {
    && ListedNodes(before, now, cur, still) && Listed(before, now, nodes, incidents)
    && (forall x :: x in cur <==> x in nodes) && Others(incidents) == []
  }

  lemma SeenMore(nodes: seq<string>, i: nat, cur: set<string>)
    requires i < |nodes| && forall x :: x in cur <==> x in nodes[..i]
    ensures forall x :: x in cur + {nodes[i]} <==> x in nodes[..i + 1]
  {
    assert nodes[..i + 1] == nodes[..i] + [nodes[i]];
  }

  /** One listed node. */
  method ListOne(before: map<string, int>, now: int, ghost nodes: seq<string>, ghost i: nat, n: string,
                 still0: map<string, int>, cur0: set<string>, inc0: seq<Incident>)
    returns (still: map<string, int>, cur: set<string>, incidents: seq<Incident>)
    requires i < |nodes| && nodes[i] == n && ListState(before, now, nodes[..i], still0, cur0, inc0)
    ensures ListState(before, now, nodes[..i + 1], still, cur, incidents)
  {
    SeenMore(nodes, i, cur0);
    ListedNodesMore(before, now, cur0, still0, n);
    cur := cur0 + {n};
    still := still0[n := if n in before then before[n] else now];
    incidents := Announce(before, now, nodes, i, n, inc0);
  }

  method Announce(before: map<string, int>, now: int, ghost nodes: seq<string>, ghost i: nat, n: string, inc0: seq<Incident>)
    returns (incidents: seq<Incident>)
    requires i < |nodes| && nodes[i] == n && Listed(before, now, nodes[..i], inc0) && Others(inc0) == []
    ensures Listed(before, now, nodes[..i + 1], incidents) && Others(incidents) == []
  {
    ListedOn(before, now, nodes, i, inc0);
    incidents := inc0;
    if n !in before {
      OthersAppend(inc0, Incident(now, NodeNotReady, n));
      incidents := incidents + [Incident(now, NodeNotReady, n)];
    }
  }

  /** The first loop of the twin: a listed node keeps its time, or is reported as new. */
  method ListAll(before: map<string, int>, now: int, nodes: seq<string>)
    returns (still: map<string, int>, cur: set<string>, incidents: seq<Incident>)
    ensures ListState(before, now, nodes, still, cur, incidents)
  {
    still, cur, incidents := map[], {}, [];
    for i := 0 to |nodes|
      invariant ListState(before, now, nodes[..i], still, cur, incidents)
    {
      still, cur, incidents := ListOne(before, now, nodes, i, nodes[i], still, cur, incidents);
    }
    assert nodes[..|nodes|] == nodes;
  }

  lemma RecoveredMore(inc0: seq<Incident>, inc: seq<Incident>, now: int, done: set<string>, cur: set<string>, n: string)
    requires Adds(inc0, inc, NodeRecovered, now, done - cur) && n !in done
    ensures Adds(inc0, if n in cur then inc else inc + [Incident(now, NodeRecovered, n)], NodeRecovered, now, done + {n} - cur)
  {
    if n in cur {
      assert done + {n} - cur == done - cur;
    } else {
      AddsMore(inc0, inc, NodeRecovered, now, done - cur, n);
      assert done + {n} - cur == done - cur + {n};
    }
  }

  method RecoverAll(before: map<string, int>, now: int, cur: set<string>, inc0: seq<Incident>) returns (incidents: seq<Incident>)
    ensures Adds(inc0, incidents, NodeRecovered, now, before.Keys - cur)
  {
    incidents := inc0;
    var todo := before.Keys;
    ghost var done := {};
    while todo != {}
      invariant done == before.Keys - todo && todo <= before.Keys
      invariant Adds(inc0, incidents, NodeRecovered, now, done - cur)
      decreases todo
    {
      var n :| n in todo;
      todo := todo - {n};
      RecoveredMore(inc0, incidents, now, done, cur, n);
      if n !in cur {
        incidents := incidents + [Incident(now, NodeRecovered, n)];
      }
      done := done + {n};
    }
    assert done == before.Keys;
  }

  /**
   * The twin always arrives at the map of a tick. It reports the same incidents
   * for every node exactly if no newly not-ready node is listed twice.
   */
  lemma TwinAgreesExactly(h: History, m: map<string, int>, s: Sample)
    requires TracksEnd(h, m)
    ensures TracksEnd(h + [s], Tracked(m, s.at, s.notReadyNodes))
    ensures (forall x :: NodeIncidents(h + [s], x) == NodeIncidents(h, x) + TwinIncidents(m, s.at, s.notReadyNodes, x))
            <==> (forall x :: x in s.notReadyNodes && x !in m ==> Occurrences(s.notReadyNodes, x) == 1)
  {
    TracksOn(h, s, m);
    forall x
      ensures NodeIncidents(h + [s], x) == NodeIncidents(h, x) + TwinIncidents(m, s.at, s.notReadyNodes, x)
              <==> (x in s.notReadyNodes && x !in m ==> Occurrences(s.notReadyNodes, x) == 1)
    {
      IncidentsOn(h, s, m, x);
      ChangeIsTwin(m, s.at, s.notReadyNodes, x);
      SameTail(NodeIncidents(h, x), Change(x in m, x in s.notReadyNodes, s.at, x), TwinIncidents(m, s.at, s.notReadyNodes, x));
    }
  }

  lemma ChangeIsTwin(m: map<string, int>, at: int, nodes: seq<string>, x: string)
    ensures Change(x in m, x in nodes, at, x) == TwinIncidents(m, at, nodes, x)
            <==> (x in nodes && x !in m ==> Occurrences(nodes, x) == 1)
  {
    OccursIfMember(nodes, x);
    AnnouncedOften(at, nodes, x);
    var said := Announced(at, nodes, x);
    if |said| == 1 {
      assert said[0] in said && said == [said[0]];
    }
  }

  lemma SameTail<T>(a: seq<T>, b: seq<T>, c: seq<T>)
    ensures a + b == a + c <==> b == c
  {
    if a + b == a + c {
      assert b == (a + b)[|a|..] && c == (a + c)[|a|..];
    }
  }
}
