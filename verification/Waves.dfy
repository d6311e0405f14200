/**
 * The order of a run, as a property of its trace: what was begun, what ended
 * and how, over all batches. This is the specification of the apply engine.
 */
module Waves {
  import opened Common
  import opened Topology
  import opened KubeCluster

  /** What an observer of the cluster sees of a run; batches count from one, items from zero. */
  datatype Action =
    | Begin(batch: nat, kind: Kind, item: nat)
    | End(batch: nat, kind: Kind, item: nat, outcome: Outcome)
    | Secret(batch: nat, item: nat)
    | Waited(batch: nat, ok: bool)
    | Judged(batch: nat, ok: bool)

  type Trace = seq<Action>

  /**
   * What a run does besides: creates at all, waits for a batch, judges health after it, copies a
   * pull secret into it; and how many creates it may have in flight.
   */
  datatype Checks = Checks(creates: bool, waits: bool, judges: bool, copies: bool, conc: nat)

  function Total(kind: Kind, batch: seq<Namespace>): nat {
    if kind == KNamespace then |batch| else |Items(batch)|
  }

  function Rank(kind: Kind): nat {
    match kind
    case KNamespace => 0
    case KService => 1
    case KDeployment => 2
    case KRoute => 3
  }

  /** A create that left the object in the cluster, newly made or already there. */
  ghost predicate Created(t: Trace, batch: nat, kind: Kind, item: nat) {
    End(batch, kind, item, Made) in t || End(batch, kind, item, Exists) in t
  }

  ghost predicate KindDone(t: Trace, id: nat, kind: Kind, batch: seq<Namespace>) {
    forall i :: 0 <= i < Total(kind, batch) ==> Created(t, id, kind, i)
  }

  /** Batches are numbered from one. */
  function BatchAt(batches: seq<seq<Namespace>>, id: nat): seq<Namespace>
    requires 1 <= id <= |batches|
  {
    batches[id - 1]
  }

  /** Every create, the readiness wait and the health check of a batch succeeded. */
  ghost predicate WaveDone(c: Checks, t: Trace, batches: seq<seq<Namespace>>, id: nat)
    requires 1 <= id <= |batches|
  {
    && (c.creates ==> AllDone(t, batches, id))
    && (c.waits ==> Waited(id, true) in t)
    && (c.judges ==> Judged(id, true) in t)
  }

  ghost predicate WavesDone(c: Checks, t: Trace, batches: seq<seq<Namespace>>, k: nat)
    requires k <= |batches|
  {
    forall id :: 1 <= id <= k ==> WaveDone(c, t, batches, id)
  }

  ghost predicate SecretsCopied(t: Trace, id: nat, batch: seq<Namespace>) {
    forall i :: 0 <= i < |batch| ==> Secret(id, i) in t
  }

  /** All that has to be over before a create of this kind in this batch may begin. */
  ghost predicate MayBegin(c: Checks, t: Trace, batches: seq<seq<Namespace>>, id: nat, kind: Kind) {
    && 1 <= id <= |batches|
    && WavesDone(c, t, batches, id - 1)
    && (c.copies && kind != KNamespace ==> SecretsCopied(t, id, BatchAt(batches, id)))
    && forall before: Kind :: Rank(before) < Rank(kind) ==> KindDone(t, id, before, BatchAt(batches, id))
  }

  ghost predicate AllDone(t: Trace, batches: seq<seq<Namespace>>, id: nat)
    requires 1 <= id <= |batches|
  {
    forall kind: Kind :: KindDone(t, id, kind, BatchAt(batches, id))
  }

  /** How many creates have begun and not ended. */
  function InFlight(t: Trace): int {
    if t == [] then 0
    else
      InFlight(t[..|t| - 1])
      + (match t[|t| - 1]
         case Begin(_, _, _) => 1
         case End(_, _, _, _) => -1
         case _ => 0)
  }

  /**
   * What may come next in a trace. A create begins or ends only where it may, begins only while
   * there is room, and ends only once begun. A secret is copied once the namespaces of its batch
   * exist; readiness is waited for once all of the batch does, and health judged after that.
   */
  ghost predicate MayFollow(c: Checks, t: Trace, batches: seq<seq<Namespace>>, a: Action) {
    match a
    case Begin(id, kind, _) => MayBegin(c, t, batches, id, kind) && InFlight(t) < c.conc
    case End(id, kind, item, _) => MayBegin(c, t, batches, id, kind) && Begin(id, kind, item) in t
    case Secret(id, _) =>
      MayBegin(c, t, batches, id, KNamespace) && KindDone(t, id, KNamespace, BatchAt(batches, id))
    case Waited(id, _) => MayBegin(c, t, batches, id, KNamespace) && (c.creates ==> AllDone(t, batches, id))
    case Judged(id, _) =>
      MayBegin(c, t, batches, id, KNamespace) && WaveDone(c.(judges := false), t, batches, id)
  }

  /** The barrier: whenever a create begins or ends, everything before it in the plan is complete. */
  ghost predicate Ordered(c: Checks, t: Trace, batches: seq<seq<Namespace>>) {
    forall k {:trigger MayFollow(c, t[..k], batches, t[k])} ::
      0 <= k < |t| ==> MayFollow(c, t[..k], batches, t[k])
  }

  /** Nothing of a batch beyond k was touched. */
  ghost predicate UpTo(t: Trace, k: nat) {
    forall a :: a in t ==> a.batch <= k
  }

  lemma MayBeginGrows(c: Checks, t: Trace, u: Trace, batches: seq<seq<Namespace>>, id: nat, kind: Kind)
    requires t <= u && MayBegin(c, t, batches, id, kind)
    ensures MayBegin(c, u, batches, id, kind)
  {
    forall b: Kind | Rank(b) < Rank(kind) ensures KindDone(u, id, b, BatchAt(batches, id)) {
      KindDoneGrows(t, u, id, b, BatchAt(batches, id));
    }
    WavesDoneGrow(c, t, u, batches, id - 1);
    PrefixMembers(t, u);
  }

  lemma KindDoneGrows(t: Trace, u: Trace, id: nat, kind: Kind, batch: seq<Namespace>)
    requires t <= u && KindDone(t, id, kind, batch)
    ensures KindDone(u, id, kind, batch)
  {
    forall i | 0 <= i < Total(kind, batch) ensures Created(u, id, kind, i) {
      assert Created(t, id, kind, i);
      PrefixMembers(t, u);
    }
  }

  lemma PrefixMembers(t: Trace, u: Trace)
    requires t <= u
    ensures forall a :: a in t ==> a in u
  {
  }

  lemma WaveDoneGrows(c: Checks, t: Trace, u: Trace, batches: seq<seq<Namespace>>, id: nat)
    requires t <= u && 1 <= id <= |batches| && WaveDone(c, t, batches, id)
    ensures WaveDone(c, u, batches, id)
  {
    PrefixMembers(t, u);
    if c.creates {
      forall kind: Kind ensures KindDone(u, id, kind, BatchAt(batches, id)) {
        KindDoneGrows(t, u, id, kind, BatchAt(batches, id));
      }
    }
  }

  lemma WavesDoneGrow(c: Checks, t: Trace, u: Trace, batches: seq<seq<Namespace>>, k: nat)
    requires t <= u && k <= |batches| && WavesDone(c, t, batches, k)
    ensures WavesDone(c, u, batches, k)
  {
    forall id | 1 <= id <= k ensures WaveDone(c, u, batches, id) {
      WaveDoneGrows(c, t, u, batches, id);
    }
  }

  lemma OrderedAppend(c: Checks, t: Trace, batches: seq<seq<Namespace>>, a: Action)
    requires Ordered(c, t, batches) && MayFollow(c, t, batches, a)
    ensures Ordered(c, t + [a], batches)
  {
    var u := t + [a];
    forall k | 0 <= k < |u| ensures MayFollow(c, u[..k], batches, u[k]) {
      if k < |t| {
        assert u[..k] == t[..k] && u[k] == t[k];
        assert MayFollow(c, t[..k], batches, t[k]);
      } else {
        assert u[..k] == t;
      }
    }
  }

  // ---------------------------------------------------------------------
  // What the barrier means
  // ---------------------------------------------------------------------

  /**
   * Nothing is begun or done in batch b before a successful create of every
   * object of every earlier batch, its readiness wait and its health check; and
   * nothing is begun or done for a service, deployment or route before every
   * object of the kinds before it in its own batch exists.
   */
  lemma BarrierMeaning(c: Checks, t: Trace, batches: seq<seq<Namespace>>, k: nat, id: nat, kind: Kind, item: nat)
    requires Ordered(c, t, batches) && k < |t| && (t[k].Begin? || t[k].End?) && c.creates
    requires 1 <= id <= |batches| && item < Total(kind, BatchAt(batches, id))
    requires id < t[k].batch || (id == t[k].batch && Rank(kind) < Rank(t[k].kind))
    ensures exists j :: 0 <= j < k && (t[j] == End(id, kind, item, Made) || t[j] == End(id, kind, item, Exists))
    ensures id < t[k].batch && c.waits ==> exists j :: 0 <= j < k && t[j] == Waited(id, true)
    ensures id < t[k].batch && c.judges ==> exists j :: 0 <= j < k && t[j] == Judged(id, true)
  {
    var before := t[..k];
    assert MayFollow(c, before, batches, t[k]);
    if id < t[k].batch {
      assert WaveDone(c, before, batches, id);
      assert KindDone(before, id, kind, BatchAt(batches, id));
    } else {
      assert KindDone(before, id, kind, BatchAt(batches, id));
    }
    assert Created(before, id, kind, item);
    var a :| a in before && (a == End(id, kind, item, Made) || a == End(id, kind, item, Exists));
    var j :| 0 <= j < k && before[j] == a;
    assert t[j] == a;
  }

  /** No create ends that has not begun. */
  lemma EndsWereBegun(c: Checks, t: Trace, batches: seq<seq<Namespace>>, k: nat)
    requires Ordered(c, t, batches) && k < |t| && t[k].End?
    ensures exists j :: 0 <= j < k && t[j] == Begin(t[k].batch, t[k].kind, t[k].item)
  {
    var before := t[..k];
    assert MayFollow(c, before, batches, t[k]);
    var j :| 0 <= j < k && before[j] == Begin(t[k].batch, t[k].kind, t[k].item);
    assert t[j] == before[j];
  }

  /** With a pull secret, nothing is begun or done for a workload before every namespace of its batch has it. */
  lemma SecretsComeFirst(c: Checks, t: Trace, batches: seq<seq<Namespace>>, k: nat, item: nat)
    requires Ordered(c, t, batches) && k < |t| && (t[k].Begin? || t[k].End?) && c.copies && t[k].kind != KNamespace
    requires 1 <= t[k].batch <= |batches| && item < |BatchAt(batches, t[k].batch)|
    ensures exists j :: 0 <= j < k && t[j] == Secret(t[k].batch, item)
  {
    var before := t[..k];
    assert MayFollow(c, before, batches, t[k]);
    assert Secret(t[k].batch, item) in before;
    var j :| 0 <= j < k && before[j] == Secret(t[k].batch, item);
    assert t[j] == before[j];
  }

  lemma InFlightAppend(t: Trace, a: Action)
    ensures InFlight(t + [a]) == InFlight(t) + if a.Begin? then 1 else if a.End? then -1 else 0
  {
    assert (t + [a])[..|t|] == t;
  }

  /** At no point of an ordered trace are more creates in flight than allowed. */
  lemma {:induction false} AtMostConc(c: Checks, t: Trace, batches: seq<seq<Namespace>>, k: nat)
    requires Ordered(c, t, batches) && k <= |t|
    ensures InFlight(t[..k]) <= c.conc
  {
    if k > 0 {
      AtMostConc(c, t, batches, k - 1);
      assert MayFollow(c, t[..k - 1], batches, t[k - 1]);
      assert t[..k] == t[..k - 1] + [t[k - 1]];
      InFlightAppend(t[..k - 1], t[k - 1]);
    }
  }

  /** Readiness is waited for only when all of the batch exists, and health judged only after the wait. */
  lemma WaitsAndVerdictsInTurn(c: Checks, t: Trace, batches: seq<seq<Namespace>>, k: nat, kind: Kind, item: nat)
    requires Ordered(c, t, batches) && k < |t| && (t[k].Waited? || t[k].Judged?)
    requires 1 <= t[k].batch <= |batches| && item < Total(kind, BatchAt(batches, t[k].batch))
    ensures c.creates ==> exists j :: 0 <= j < k && (t[j] == End(t[k].batch, kind, item, Made)
                                                     || t[j] == End(t[k].batch, kind, item, Exists))
    ensures t[k].Judged? && c.waits ==> exists j :: 0 <= j < k && t[j] == Waited(t[k].batch, true)
  {
    var before := t[..k];
    assert MayFollow(c, before, batches, t[k]);
    if c.creates {
      assert KindDone(before, t[k].batch, kind, BatchAt(batches, t[k].batch));
      assert Created(before, t[k].batch, kind, item);
      var a :| a in before && (a == End(t[k].batch, kind, item, Made) || a == End(t[k].batch, kind, item, Exists));
      var j :| 0 <= j < k && before[j] == a;
      assert t[j] == a;
    }
    if t[k].Judged? && c.waits {
      var j :| 0 <= j < k && before[j] == Waited(t[k].batch, true);
      assert t[j] == before[j];
    }
  }

  // ---------------------------------------------------------------------
  // Health verdicts in a trace
  // ---------------------------------------------------------------------

  /** The health verdicts of a trace, in order. */
  function Verdicts(t: Trace): seq<bool> {
    if t == [] then []
    else Verdicts(t[..|t| - 1]) + if t[|t| - 1].Judged? then [t[|t| - 1].ok] else []
  }

  lemma VerdictsAppend(t: Trace, a: Action)
    ensures Verdicts(t + [a]) == Verdicts(t) + if a.Judged? then [a.ok] else []
  {
    assert (t + [a])[..|t|] == t;
  }

  lemma {:induction false} VerdictsKept(t: Trace, u: Trace)
    requires t <= u && forall k :: |t| <= k < |u| ==> !u[k].Judged?
    ensures Verdicts(u) == Verdicts(t)
  {
    if |t| < |u| {
      VerdictsKept(t, u[..|u| - 1]);
    } else {
      assert t == u;
    }
  }

  // ---------------------------------------------------------------------
  // One limited run of creates, seen from the trace, the counters and the store
  // ---------------------------------------------------------------------

  /** One number for each way a create can end. */
  datatype PerOutcome<N> = CreateCounts(created: N, existing: N, failed: N)

  type CreateCounts = PerOutcome<nat>

  /** classifyCreate */
  function Classified(c: CreateCounts, out: Outcome): CreateCounts {
    match out
    case Made => c.(created := c.created + 1)
    case Exists => c.(existing := c.existing + 1)
    case Failed => c.(failed := c.failed + 1)
  }

  /** How many of the first k actions are ends of calls. */
  function EndsUpTo(t: Trace, k: nat): nat
    requires k <= |t|
  {
    if k == 0 then 0 else EndsUpTo(t, k - 1) + if t[k - 1].End? then 1 else 0
  }

  function Ends(t: Trace): nat { EndsUpTo(t, |t|) }

  lemma {:induction false} EndsOfPrefix(t: Trace, u: Trace, k: nat)
    requires t <= u && k <= |t|
    ensures EndsUpTo(u, k) == EndsUpTo(t, k)
  {
    if k > 0 {
      EndsOfPrefix(t, u, k - 1);
    }
  }

  lemma EndsAppend(t: Trace, a: Action)
    ensures Ends(t + [a]) == Ends(t) + if a.End? then 1 else 0
  {
    EndsOfPrefix(t, t + [a], |t|);
  }

  function CallsOf(c: CreateCounts): nat { c.created + c.existing + c.failed }

  /** The trace has grown by nothing but this kind and batch, and records every call that began or ended. */
  ghost predicate TraceLinked(begun: set<nat>, ended: map<nat, bool>, before: Trace, now: Trace, id: nat, kind: Kind) {
    && before <= now
    && (forall i :: i in begun ==> Begin(id, kind, i) in now)
    && InFlight(now) == |begun| - |ended|
    && (forall k :: |before| <= k < |now| ==>
          (now[k].Begin? || now[k].End?) && now[k].batch == id && now[k].kind == kind)
    && (forall i :: i in ended && ended[i] ==> Created(now, id, kind, i))
    && Ends(now) == Ends(before) + |ended|
  }

  /** Each call that ended is counted once, and as a failure exactly if it failed. */
  ghost predicate CountsLinked(ended: map<nat, bool>, c: CreateCounts) {
    && CallsOf(c) == |ended|
    && (c.failed == 0 <==> forall i :: i in ended ==> ended[i])
  }

  /** A store only grows, and only by objects that were asked for. */
  ghost predicate Grows(m0: Store, m: Store, objs: seq<Object>, neverReady: bool) {
    && (forall k :: k in m0 ==> k in m && m[k] == m0[k])
    && (forall k :: k in m && k !in m0 ==>
          exists i :: 0 <= i < |objs| && KeyOf(objs[i]) == k && m[k] == Stored(objs[i], neverReady))
  }

  ghost predicate AllIn(objs: seq<Object>, m: Store) {
    forall i :: 0 <= i < |objs| ==> KeyOf(objs[i]) in m
  }

  ghost predicate StoreLinked(ended: map<nat, bool>, c: CreateCounts, m0: Store, m: Store, objs: seq<Object>,
                              neverReady: bool, faulty: bool) {
    && Grows(m0, m, objs, neverReady)
    && (forall i :: i in ended && ended[i] && 0 <= i < |objs| ==> KeyOf(objs[i]) in m)
    && (AllIn(objs, m0) ==> m == m0 && c.created == 0)
    && (!faulty ==> c.failed == 0 && |m| == |m0| + c.created)
  }

  lemma CountsStep(ended: map<nat, bool>, c: CreateCounts, i: nat, out: Outcome)
    requires CountsLinked(ended, c) && i !in ended
    ensures CountsLinked(ended[i := out != Failed], Classified(c, out))
  {
    var t := ended[i := out != Failed];
    assert forall j :: j in ended ==> j in t && t[j] == ended[j];
    assert i in t;
  }

  /** A store that received one more of the objects, or none. */
  lemma GrowsStep(m0: Store, m: Store, m2: Store, objs: seq<Object>, neverReady: bool, i: nat)
    requires Grows(m0, m, objs, neverReady) && i < |objs|
    requires m2 == m || (KeyOf(objs[i]) !in m && m2 == m[KeyOf(objs[i]) := Stored(objs[i], neverReady)])
    ensures Grows(m0, m2, objs, neverReady)
    ensures AllIn(objs, m0) && m == m0 ==> m2 == m0
  {
    if m2 != m {
      forall k | k in m2 && k !in m0
        ensures exists j :: 0 <= j < |objs| && KeyOf(objs[j]) == k && m2[k] == Stored(objs[j], neverReady)
      {
        if k == KeyOf(objs[i]) {
          assert m2[k] == Stored(objs[i], neverReady);
        } else {
          assert m2[k] == m[k];
        }
      }
    }
  }

  /** What one create call may do to its store, by what it answers. */
  ghost predicate CreateEffect(out: Outcome, o: Object, m: Store, m2: Store, neverReady: bool, faulty: bool) {
    var made := KeyOf(o) !in m && m2 == m[KeyOf(o) := Stored(o, neverReady)];
    match out
    case Made => made
    case Exists => KeyOf(o) in m && m2 == m
    case Failed => faulty && (made || m2 == m)
  }

  lemma StoreAfterEnd(ended: map<nat, bool>, c: CreateCounts, i: nat, out: Outcome, m0: Store, m: Store, m2: Store,
                      objs: seq<Object>, neverReady: bool, faulty: bool)
    requires StoreLinked(ended, c, m0, m, objs, neverReady, faulty) && i < |objs|
    requires CreateEffect(out, objs[i], m, m2, neverReady, faulty)
    ensures StoreLinked(ended[i := out != Failed], Classified(c, out), m0, m2, objs, neverReady, faulty)
  {
    GrowsStep(m0, m, m2, objs, neverReady, i);
    assert AllIn(objs, m0) ==> KeyOf(objs[i]) in m0;
  }

  lemma GrowsTrans(m0: Store, m1: Store, m2: Store, a: seq<Object>, b: seq<Object>, all: seq<Object>, neverReady: bool)
    requires Grows(m0, m1, a, neverReady) && Grows(m1, m2, b, neverReady)
    requires forall o :: o in a || o in b ==> o in all
    ensures Grows(m0, m2, all, neverReady)
  {
    forall k | k in m2 && k !in m0
      ensures exists j :: 0 <= j < |all| && KeyOf(all[j]) == k && m2[k] == Stored(all[j], neverReady)
    {
      if k in m1 {
        var i :| 0 <= i < |a| && KeyOf(a[i]) == k && m1[k] == Stored(a[i], neverReady);
        assert a[i] in all;
      } else {
        var i :| 0 <= i < |b| && KeyOf(b[i]) == k && m2[k] == Stored(b[i], neverReady);
        assert b[i] in all;
      }
    }
  }

  // ---------------------------------------------------------------------
  // A whole batch
  // ---------------------------------------------------------------------

  /** A trace that is in order so far, and in which creates of this kind and batch may begin. */
  ghost predicate InTurn(c: Checks, t: Trace, batches: seq<seq<Namespace>>, id: nat, kind: Kind) {
    1 <= id <= |batches| && Ordered(c, t, batches) && MayBegin(c, t, batches, id, kind)
  }

  /** The same, with no create in flight. */
  ghost predicate OpenFor(c: Checks, t: Trace, batches: seq<seq<Namespace>>, id: nat, kind: Kind) {
    InTurn(c, t, batches, id, kind) && InFlight(t) == 0
  }

  function NextKind(kind: Kind): Kind {
    match kind
    case KNamespace => KService
    case KService => KDeployment
    case KDeployment => KRoute
    case KRoute => KRoute
  }

  lemma NextKindOpens(c: Checks, t: Trace, batches: seq<seq<Namespace>>, id: nat, kind: Kind)
    requires OpenFor(c, t, batches, id, kind) && KindDone(t, id, kind, BatchAt(batches, id))
    requires kind == KNamespace && c.copies ==> SecretsCopied(t, id, BatchAt(batches, id))
    ensures OpenFor(c, t, batches, id, NextKind(kind))
  {
    forall b: Kind | Rank(b) < Rank(NextKind(kind)) ensures KindDone(t, id, b, BatchAt(batches, id)) {
      if Rank(b) == Rank(kind) {
        assert b == kind;
      }
    }
  }

  lemma AllKindsDone(c: Checks, t: Trace, batches: seq<seq<Namespace>>, id: nat)
    requires OpenFor(c, t, batches, id, KRoute) && KindDone(t, id, KRoute, BatchAt(batches, id))
    ensures forall kind: Kind :: KindDone(t, id, kind, BatchAt(batches, id))
  {
    forall kind: Kind ensures KindDone(t, id, kind, BatchAt(batches, id)) {
      if Rank(kind) == 3 {
        assert kind == KRoute;
      }
    }
  }

  ghost predicate StoresGrow(s0: Stores, s1: Stores, g: Graph, batch: seq<Namespace>, neverReady: bool) {
    forall kind: Kind :: Grows(s0.Of(kind), s1.Of(kind), Objects(g, kind, batch), neverReady)
  }

  ghost predicate StoresHold(s: Stores, g: Graph, batch: seq<Namespace>) {
    forall kind: Kind :: AllIn(Objects(g, kind, batch), s.Of(kind))
  }

  /** The trace has grown, by actions of one batch only. */
  ghost predicate Extends(before: Trace, now: Trace, id: nat) {
    before <= now && forall k :: |before| <= k < |now| ==> now[k].batch == id
  }

  /** The same, and health was not judged. */
  ghost predicate Continues(before: Trace, now: Trace, id: nat) {
    Extends(before, now, id) && forall k :: |before| <= k < |now| ==> !now[k].Judged?
  }

  /** A create that may begin or end leaves the trace in order. */
  lemma StillInTurn(c: Checks, batches: seq<seq<Namespace>>, now: Trace, a: Action, id: nat, kind: Kind)
    requires InTurn(c, now, batches, id, kind) && (a.Begin? || a.End?) && a.batch == id && a.kind == kind
    requires if a.Begin? then InFlight(now) < c.conc else Begin(id, kind, a.item) in now
    ensures InTurn(c, now + [a], batches, id, kind)
  {
    OrderedAppend(c, now, batches, a);
    MayBeginGrows(c, now, now + [a], batches, id, kind);
  }

  /** So does anything else that may follow, and it leaves no create in flight. */
  lemma StillOpen(c: Checks, batches: seq<seq<Namespace>>, now: Trace, a: Action, id: nat)
    requires OpenFor(c, now, batches, id, KNamespace) && a.batch == id && !a.Begin? && !a.End?
    requires MayFollow(c, now, batches, a)
    ensures OpenFor(c, now + [a], batches, id, KNamespace)
  {
    OrderedAppend(c, now, batches, a);
    MayBeginGrows(c, now, now + [a], batches, id, KNamespace);
    InFlightAppend(now, a);
  }

  lemma AfterWait(c: Checks, before: Trace, t: Trace, u: Trace, batches: seq<seq<Namespace>>, id: nat, ok: bool)
    requires OpenFor(c, t, batches, id, KNamespace) && Continues(before, t, id)
    requires c.creates ==> AllDone(t, batches, id)
    requires u == t + if c.waits then [Waited(id, ok)] else []
    ensures OpenFor(c, u, batches, id, KNamespace) && Continues(before, u, id)
    ensures ok ==> WaveDone(c.(judges := false), u, batches, id)
  {
    if c.waits {
      StillOpen(c, batches, t, Waited(id, ok), id);
      assert Waited(id, ok) in u;
    } else {
      assert u == t;
    }
    if c.creates {
      forall kind: Kind ensures KindDone(u, id, kind, BatchAt(batches, id)) {
        KindDoneGrows(t, u, id, kind, BatchAt(batches, id));
      }
    }
  }

  lemma AfterJudging(c: Checks, before: Trace, t: Trace, u: Trace, batches: seq<seq<Namespace>>, id: nat, ok: bool)
    requires OpenFor(c, t, batches, id, KNamespace) && Continues(before, t, id)
    requires WaveDone(c.(judges := false), t, batches, id)
    requires u == t + if c.judges then [Judged(id, ok)] else []
    ensures OpenFor(c, u, batches, id, KNamespace) && Extends(before, u, id)
    ensures ok ==> WaveDone(c, u, batches, id)
    ensures Verdicts(u) == Verdicts(before) + if c.judges then [ok] else []
  {
    VerdictsKept(before, t);
    WaveDoneGrows(c.(judges := false), t, u, batches, id);
    if c.judges {
      StillOpen(c, batches, t, Judged(id, ok), id);
      assert Judged(id, ok) in u;
      VerdictsAppend(t, Judged(id, ok));
    } else {
      assert u == t;
    }
  }

  // ---------------------------------------------------------------------
  // From batch to batch
  // ---------------------------------------------------------------------

  /** A trace that extends another by actions of batch `id` stays within it. */
  lemma UpToGrows(t: Trace, u: Trace, id: nat)
    requires t <= u && UpTo(t, id) && forall k :: |t| <= k < |u| ==> u[k].batch == id
    ensures UpTo(u, id)
  {
    forall a | a in u ensures a.batch <= id {
      var k :| 0 <= k < |u| && u[k] == a;
      if k < |t| {
        assert a == t[k] && t[k] in t;
      }
    }
  }

  // ---------------------------------------------------------------------
  // Readiness of what a run creates
  // ---------------------------------------------------------------------

  function DeploymentKey(it: (Namespace, Pair)): string { it.0.name + "/" + it.1.deployment }

  predicate ReadyDeployment(d: Object) {
    d.spec.DeploymentSpec? && d.available >= d.spec.replicas > 0
  }

  ghost predicate NamespacesReady(m: Store, namespaces: seq<Namespace>) {
    forall ns :: ns in namespaces && ns.name in m ==> m[ns.name].active
  }

  ghost predicate DeploymentsReady(m: Store, items: seq<(Namespace, Pair)>) {
    forall it :: it in items && DeploymentKey(it) in m ==> ReadyDeployment(m[DeploymentKey(it)])
  }

  /** Whatever of the graph is already in the store is ready. */
  ghost predicate PresentIsReady(s: Stores, namespaces: seq<Namespace>) {
    NamespacesReady(s.ns, namespaces) && DeploymentsReady(s.dep, Items(namespaces))
  }

  lemma NamespacesStayReady(m0: Store, m: Store, g: Graph)
    requires Grows(m0, m, Objects(g, KNamespace, g.namespaces), false) && NamespacesReady(m0, g.namespaces)
    ensures NamespacesReady(m, g.namespaces)
  {
  }

  lemma DeploymentsStayReady(m0: Store, m: Store, g: Graph)
    requires Grows(m0, m, Objects(g, KDeployment, g.namespaces), false) && DeploymentsReady(m0, Items(g.namespaces))
    requires forall it :: it in Items(g.namespaces) ==> it.1.replicas > 0
    ensures DeploymentsReady(m, Items(g.namespaces))
  {
    var objs, items := Objects(g, KDeployment, g.namespaces), Items(g.namespaces);
    forall it | it in items && DeploymentKey(it) in m && DeploymentKey(it) !in m0
      ensures ReadyDeployment(m[DeploymentKey(it)])
    {
      var k := DeploymentKey(it);
      var i :| 0 <= i < |objs| && KeyOf(objs[i]) == k && m[k] == Stored(objs[i], false);
      BuiltBecomesReady(g, i);
    }
  }

  lemma BuiltBecomesReady(g: Graph, i: nat)
    requires i < |Items(g.namespaces)| && forall it :: it in Items(g.namespaces) ==> it.1.replicas > 0
    ensures ReadyDeployment(Stored(Objects(g, KDeployment, g.namespaces)[i], false))
  {
    var items := Items(g.namespaces);
    assert items[i] in items;
    assert Objects(g, KDeployment, g.namespaces)[i] == BuildDeployment(g, items[i].0, items[i].1);
  }

  /** Creating more of the graph keeps what is there ready, if every pair asks for a pod. */
  lemma GrowthKeepsReady(s0: Stores, s: Stores, g: Graph)
    requires StoresGrow(s0, s, g, g.namespaces, false) && PresentIsReady(s0, g.namespaces)
    requires forall it :: it in Items(g.namespaces) ==> it.1.replicas > 0
    ensures PresentIsReady(s, g.namespaces)
  {
    assert s0.ns == s0.Of(KNamespace) && s.ns == s.Of(KNamespace);
    assert s0.dep == s0.Of(KDeployment) && s.dep == s.Of(KDeployment);
    NamespacesStayReady(s0.ns, s.ns, g);
    DeploymentsStayReady(s0.dep, s.dep, g);
  }

  // ---------------------------------------------------------------------
  // Nothing outside a namespace
  // ---------------------------------------------------------------------

  /** Whatever is new in m lives in a namespace that is in ns. */
  ghost predicate HousedIn(m0: Store, m: Store, ns: Store) {
    forall k :: k in m && k !in m0 ==> m[k].namespace in ns
  }

  /** No service, deployment or route has been added outside an existing namespace. */
  ghost predicate Housed(s0: Stores, s: Stores) {
    forall kind: Kind :: kind != KNamespace ==> HousedIn(s0.Of(kind), s.Of(kind), s.ns)
  }

  /** Every workload of a batch belongs to one of its namespaces. */
  lemma WorkloadBelongs(g: Graph, kind: Kind, batch: seq<Namespace>, i: nat) returns (j: nat)
    requires kind != KNamespace && i < |Objects(g, kind, batch)|
    ensures j < |batch| && Objects(g, kind, batch)[i].namespace == batch[j].name
  {
    var item := Items(batch)[i];
    ItemsMembers(batch);
    assert item in Items(batch);
    j :| j < |batch| && batch[j] == item.0;
    assert Objects(g, kind, batch)[i] == BuildItem(g, kind, item);
  }

  /** What is created of a batch whose namespaces are there is housed. */
  lemma GrowsHoused(m0: Store, m: Store, g: Graph, kind: Kind, batch: seq<Namespace>, neverReady: bool, ns: Store)
    requires kind != KNamespace && Grows(m0, m, Objects(g, kind, batch), neverReady)
    requires AllIn(Objects(g, KNamespace, batch), ns)
    ensures HousedIn(m0, m, ns)
  {
    var objs, homes := Objects(g, kind, batch), Objects(g, KNamespace, batch);
    forall k | k in m && k !in m0 ensures m[k].namespace in ns {
      var i :| 0 <= i < |objs| && KeyOf(objs[i]) == k && m[k] == Stored(objs[i], neverReady);
      StoredIdentity(objs[i], neverReady);
      var j := WorkloadBelongs(g, kind, batch, i);
      assert homes[j] == BuildNamespace(g, batch[j]);
    }
  }

  lemma HousedOn(s0: Stores, s: Stores, s1: Stores, g: Graph, batch: seq<Namespace>, neverReady: bool)
    requires Housed(s0, s) && Housed(s, s1) && StoresGrow(s, s1, g, batch, neverReady)
    ensures Housed(s0, s1)
  {
    assert Grows(s.Of(KNamespace), s1.Of(KNamespace), Objects(g, KNamespace, batch), neverReady);
    forall kind: Kind | kind != KNamespace ensures HousedIn(s0.Of(kind), s1.Of(kind), s1.ns) {
      assert HousedIn(s0.Of(kind), s.Of(kind), s.ns) && HousedIn(s.Of(kind), s1.Of(kind), s1.ns);
      assert Grows(s.Of(kind), s1.Of(kind), Objects(g, kind, batch), neverReady);
    }
  }

  // ---------------------------------------------------------------------
  // Stores over a whole run
  // ---------------------------------------------------------------------

  /** Growth by one slice and then by another is growth by both. */
  lemma StoresGrowMore(s0: Stores, s: Stores, s1: Stores, g: Graph, a: seq<Namespace>, b: seq<Namespace>, neverReady: bool)
    requires StoresGrow(s0, s, g, a, neverReady) && StoresGrow(s, s1, g, b, neverReady)
    ensures StoresGrow(s0, s1, g, a + b, neverReady)
  {
    forall kind: Kind
      ensures Grows(s0.Of(kind), s1.Of(kind), Objects(g, kind, a + b), neverReady)
    {
      ObjectsConcat(g, kind, a, b);
      GrowsTrans(s0.Of(kind), s.Of(kind), s1.Of(kind), Objects(g, kind, a), Objects(g, kind, b),
                 Objects(g, kind, a + b), neverReady);
    }
  }

  /** Growth by a slice is growth by any list that has it as its front. */
  lemma StoresGrowWithin(s0: Stores, s: Stores, g: Graph, a: seq<Namespace>, b: seq<Namespace>, neverReady: bool)
    requires StoresGrow(s0, s, g, a, neverReady)
    ensures StoresGrow(s0, s, g, a + b, neverReady)
  {
    forall kind: Kind ensures Grows(s.Of(kind), s.Of(kind), Objects(g, kind, b), neverReady) {
    }
    StoresGrowMore(s0, s, s, g, a, b, neverReady);
  }

  /** Growth by the first slices of a list is growth by the list. */
  lemma StoresGrowSlices(s0: Stores, s: Stores, g: Graph, slices: seq<seq<Namespace>>, k: nat, neverReady: bool)
    requires k <= |slices| && StoresGrow(s0, s, g, Flatten(slices[..k]), neverReady)
    ensures StoresGrow(s0, s, g, Flatten(slices), neverReady)
  {
    assert slices == slices[..k] + slices[k..];
    FlattenConcat(slices[..k], slices[k..]);
    StoresGrowWithin(s0, s, g, Flatten(slices[..k]), Flatten(slices[k..]), neverReady);
  }

  lemma StoresHoldOn(s: Stores, s1: Stores, g: Graph, batch: seq<Namespace>, added: seq<Namespace>, neverReady: bool)
    requires StoresHold(s, g, batch) && StoresGrow(s, s1, g, added, neverReady)
    ensures StoresHold(s1, g, batch)
  {
    forall kind: Kind ensures AllIn(Objects(g, kind, batch), s1.Of(kind)) {
      assert AllIn(Objects(g, kind, batch), s.Of(kind));
      assert Grows(s.Of(kind), s1.Of(kind), Objects(g, kind, added), neverReady);
    }
  }

  /** Holding two slices is holding both together. */
  lemma StoresHoldBoth(s: Stores, g: Graph, a: seq<Namespace>, b: seq<Namespace>)
    requires StoresHold(s, g, a) && StoresHold(s, g, b)
    ensures StoresHold(s, g, a + b)
  {
    forall kind: Kind ensures AllIn(Objects(g, kind, a + b), s.Of(kind)) {
      ObjectsConcat(g, kind, a, b);
      AllInBoth(Objects(g, kind, a), Objects(g, kind, b), s.Of(kind));
    }
  }

  lemma HeldBefore(s: Stores, g: Graph, a: seq<Namespace>, b: seq<Namespace>)
    requires StoresHold(s, g, a + b)
    ensures StoresHold(s, g, a)
  {
    forall kind: Kind ensures AllIn(Objects(g, kind, a), s.Of(kind)) {
      ObjectsConcat(g, kind, a, b);
      AllInPart(Objects(g, kind, a), Objects(g, kind, b), s.Of(kind));
    }
  }

  lemma HeldAfter(s: Stores, g: Graph, a: seq<Namespace>, b: seq<Namespace>)
    requires StoresHold(s, g, a + b)
    ensures StoresHold(s, g, b)
  {
    forall kind: Kind ensures AllIn(Objects(g, kind, b), s.Of(kind)) {
      ObjectsConcat(g, kind, a, b);
      AllInRest(Objects(g, kind, a), Objects(g, kind, b), s.Of(kind));
    }
  }

  lemma AllInRest(a: seq<Object>, b: seq<Object>, m: Store)
    requires AllIn(a + b, m)
    ensures AllIn(b, m)
  {
    forall i | 0 <= i < |b| ensures KeyOf(b[i]) in m {
      assert (a + b)[|a| + i] == b[i];
    }
  }

  lemma AllInPart(a: seq<Object>, b: seq<Object>, m: Store)
    requires AllIn(a + b, m)
    ensures AllIn(a, m)
  {
    forall i | 0 <= i < |a| ensures KeyOf(a[i]) in m {
      assert (a + b)[i] == a[i];
    }
  }

  lemma AllInBoth(a: seq<Object>, b: seq<Object>, m: Store)
    requires AllIn(a, m) && AllIn(b, m)
    ensures AllIn(a + b, m)
  {
  }
}
