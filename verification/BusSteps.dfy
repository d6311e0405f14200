/**
 * The event bus under concurrency: publishers and subscribers as interleaved
 * steps (internal/ui/bus.go:60-123). A publisher draws its number first, logs
 * the event under the lock, copies the subscribers, and sends after unlocking;
 * a full channel drops. A channel is closed only when no send to it is under
 * way. Events are told by their positions in the log.
 */
module BusSteps {
  import opened Common
  import EventBus

  datatype Publisher =
    | Idle
    | Drawn(num: nat)                        // number taken, lock not yet
    | Sending(pos: nat, targets: set<nat>)   // logged at pos, these channels still to be offered

  /**
   * A subscriber: where it joined and the number it asked to go on from, what it was replayed, what its
   * channel was offered and what of it was sent, how much of that the client has read, and when it left.
   */
  datatype Subscriber = Subscriber(
    joined: nat, after: nat, replay: seq<nat>,
    offered: multiset<nat>, sent: seq<nat>, read: nat, left: Option<nat>)

  /** The log holds the numbers of the events in the order they were logged. */
  datatype State = State(counter: nat, log: seq<nat>, pubs: map<nat, Publisher>, subs: map<nat, Subscriber>)

  datatype Step =
    | Draw(p: nat)
    | Lock(p: nat)
    | Offer(p: nat, s: nat)
    | Receive(s: nat)
    | Finish(p: nat)
    | Subscribe(s: nat, after: nat)
    | Unsubscribe(s: nat)

  function PubOf(st: State, p: nat): Publisher { if p in st.pubs then st.pubs[p] else Idle }

  /** Log positions that replay delivers: those the ring still holds and whose number is past `after`. */
  function ReplayPositions(log: seq<nat>, after: nat, from: nat): (r: seq<nat>)
    ensures forall i :: i in r <==> from <= i < |log| && log[i] > after
    ensures forall k :: 0 <= k < |r| ==> from <= r[k] < |log|
    decreases |log| - from
  {
    if from >= |log| then []
    else (if log[from] > after then [from] else []) + ReplayPositions(log, after, from + 1)
  }

  function OldestKept(log: seq<nat>): nat { Max(0, |log| - EventBus.BUS_RING_SIZE) }

  predicate HasRoom(sub: Subscriber) { |sub.sent| < sub.read + EventBus.BUS_SUB_BUF }

  /** An event offered to a channel is sent if there is room, and dropped otherwise. */
  function OfferTo(sub: Subscriber, pos: nat): Subscriber {
    sub.(offered := sub.offered + multiset{pos}, sent := if HasRoom(sub) then sub.sent + [pos] else sub.sent)
  }

  function Joining(log: seq<nat>, after: nat): Subscriber {
    Subscriber(|log|, after, ReplayPositions(log, after, OldestKept(log)), multiset{}, [], 0, None)
  }

  function Registered(st: State): set<nat> { set s | s in st.subs && st.subs[s].left == None }

  const START := State(0, [], map[], map[])

  predicate Enabled(st: State, step: Step) {
    match step
    case Draw(p) => PubOf(st, p) == Idle
    case Lock(p) => PubOf(st, p).Drawn?
    case Offer(p, s) => PubOf(st, p).Sending? && s in PubOf(st, p).targets && s in st.subs
    case Receive(s) => s in st.subs && st.subs[s].read < |st.subs[s].sent|
    case Finish(p) => PubOf(st, p).Sending? && PubOf(st, p).targets == {}
    case Subscribe(s, _) => s !in st.subs
    case Unsubscribe(s) =>
      && s in st.subs && st.subs[s].left == None
      && forall p :: p in st.pubs ==> !(st.pubs[p].Sending? && s in st.pubs[p].targets)
  }

  function Apply(st: State, step: Step): State
    requires Enabled(st, step)
  {
    match step
    case Draw(p) => st.(counter := st.counter + 1, pubs := st.pubs[p := Drawn(st.counter + 1)])
    case Lock(p) =>
      st.(log := st.log + [PubOf(st, p).num], pubs := st.pubs[p := Sending(|st.log|, Registered(st))])
    case Offer(p, s) =>
      var pub := PubOf(st, p);
      st.(pubs := st.pubs[p := Sending(pub.pos, pub.targets - {s})], subs := st.subs[s := OfferTo(st.subs[s], pub.pos)])
    case Receive(s) => st.(subs := st.subs[s := st.subs[s].(read := st.subs[s].read + 1)])
    case Finish(p) => st.(pubs := st.pubs[p := Idle])
    case Subscribe(s, after) => st.(subs := st.subs[s := Joining(st.log, after)])
    case Unsubscribe(s) => st.(subs := st.subs[s := st.subs[s].(left := Some(|st.log|))])
  }

  /** The k-th step leads from state k to state k + 1. */
  ghost predicate IsStep(states: seq<State>, steps: seq<Step>, k: int)
    requires |states| == |steps| + 1 && 0 <= k < |steps|
  {
    Enabled(states[k], steps[k]) && states[k + 1] == Apply(states[k], steps[k])
  }

  ghost predicate IsRun(states: seq<State>, steps: seq<Step>) {
    && |states| == |steps| + 1 && states[0] == START
    && forall k :: 0 <= k < |steps| ==> IsStep(states, steps, k)
  }

  // ---------------------------------------------------------------------
  // Exactly once
  // ---------------------------------------------------------------------

  /** Publisher p has logged position pos and still has to offer it to s. */
  ghost predicate Pending(st: State, p: nat, s: nat, pos: nat) {
    p in st.pubs && st.pubs[p].Sending? && st.pubs[p].pos == pos && s in st.pubs[p].targets
  }

  /** The positions a subscriber is owed: everything logged from joining until leaving. */
  predicate Owed(st: State, sub: Subscriber, pos: nat) {
    sub.joined <= pos < (if sub.left.Some? then sub.left.value else |st.log|)
  }

  ghost predicate OncePer(st: State, s: nat, pos: nat)
    requires s in st.subs
  {
    var sub := st.subs[s];
    if Owed(st, sub, pos) then
      (sub.offered[pos] == 1 && forall p :: !Pending(st, p, s, pos))
      || (sub.offered[pos] == 0 && exists p :: Pending(st, p, s, pos))
    else sub.offered[pos] == 0 && forall p :: !Pending(st, p, s, pos)
  }

  ghost predicate PubsOk(st: State) {
    && (forall p :: p in st.pubs && st.pubs[p].Sending? ==> st.pubs[p].pos < |st.log| && st.pubs[p].targets <= Registered(st))
    && (forall p, q :: p in st.pubs && q in st.pubs && p != q && st.pubs[p].Sending? && st.pubs[q].Sending? ==>
          st.pubs[p].pos != st.pubs[q].pos)
  }

  ghost predicate SubsOk(st: State) {
    forall s :: s in st.subs ==>
      && st.subs[s].joined <= |st.log|
      && (st.subs[s].left.Some? ==> st.subs[s].joined <= st.subs[s].left.value <= |st.log|)
      && StreamOk(st.log, st.subs[s])
  }

  /** The replay is that of the log at joining; sent were distinct events offered since then. */
  ghost predicate StreamOk(log: seq<nat>, sub: Subscriber) {
    && sub.joined <= |log|
    && sub.replay == ReplayPositions(log[..sub.joined], sub.after, OldestKept(log[..sub.joined]))
    && (forall i :: 0 <= i < |sub.sent| ==> sub.joined <= sub.sent[i] < |log| && sub.sent[i] in sub.offered)
    && Distinct(sub.sent)
    && sub.read <= |sub.sent| <= sub.read + EventBus.BUS_SUB_BUF
  }

  lemma StreamGrowsLog(log: seq<nat>, sub: Subscriber, more: seq<nat>)
    requires StreamOk(log, sub)
    ensures StreamOk(log + more, sub)
  {
    assert (log + more)[..sub.joined] == log[..sub.joined];
  }

  lemma StreamTakesOffer(log: seq<nat>, sub: Subscriber, pos: nat)
    requires StreamOk(log, sub) && sub.joined <= pos < |log| && pos !in sub.offered
    ensures StreamOk(log, OfferTo(sub, pos))
  {
  }

  ghost predicate Inv(st: State) {
    PubsOk(st) && SubsOk(st) && forall s, pos: nat :: s in st.subs ==> OncePer(st, s, pos)
  }

  lemma StepKeepsPubs(st: State, step: Step)
    requires PubsOk(st) && Enabled(st, step)
    ensures PubsOk(Apply(st, step))
  {
  }

  lemma StepKeepsStream(st: State, step: Step, s: nat)
    requires Inv(st) && Enabled(st, step) && s in Apply(st, step).subs
    ensures StreamOk(Apply(st, step).log, Apply(st, step).subs[s])
  {
    match step
    case Lock(p) => StreamGrowsLog(st.log, st.subs[s], [PubOf(st, p).num]);
    case Offer(p, to) =>
      if s == to {
        PendingIsNew(st, p, s, st.pubs[p].pos);
        StreamTakesOffer(st.log, st.subs[s], st.pubs[p].pos);
      }
    case Subscribe(_, _) => assert st.log[..|st.log|] == st.log;
    case _ =>
  }

  lemma StepKeepsSubs(st: State, step: Step)
    requires Inv(st) && Enabled(st, step)
    ensures SubsOk(Apply(st, step))
  {
    forall s | s in Apply(st, step).subs ensures StreamOk(Apply(st, step).log, Apply(st, step).subs[s]) {
      StepKeepsStream(st, step, s);
    }
  }

  /** What is pending for a subscriber is owed to it and was not offered yet. */
  lemma PendingIsNew(st: State, p: nat, s: nat, pos: nat)
    requires Inv(st) && s in st.subs && Pending(st, p, s, pos)
    ensures st.subs[s].joined <= pos < |st.log| && pos !in st.subs[s].offered && st.subs[s].left == None
  {
    assert OncePer(st, s, pos);
    assert s in Registered(st);
  }

  lemma LockKeepsOnce(st: State, p: nat, s: nat, pos: nat)
    requires Inv(st) && Enabled(st, Lock(p)) && s in st.subs
    ensures OncePer(Apply(st, Lock(p)), s, pos)
  {
    var t := Apply(st, Lock(p));
    assert OncePer(st, s, pos);
    forall q ensures Pending(t, q, s, pos) <==>
        if q == p then pos == |st.log| && s in Registered(st) else Pending(st, q, s, pos) {
    }
    if pos == |st.log| {
      assert forall q :: !Pending(st, q, s, pos);
      if st.subs[s].left == None {
        assert Pending(t, p, s, pos);
      }
    } else if exists q :: Pending(st, q, s, pos) {
      var q :| Pending(st, q, s, pos);
      assert q != p && Pending(t, q, s, pos);
    }
  }

  lemma OfferKeepsOnce(st: State, p: nat, to: nat, s: nat, pos: nat)
    requires Inv(st) && Enabled(st, Offer(p, to)) && s in st.subs
    ensures OncePer(Apply(st, Offer(p, to)), s, pos)
  {
    var t := Apply(st, Offer(p, to));
    assert OncePer(st, s, pos);
    forall q ensures Pending(t, q, s, pos) <==> Pending(st, q, s, pos) && !(q == p && s == to) {
    }
    if s == to && pos == st.pubs[p].pos {
      assert Pending(st, p, s, pos);
      assert forall q :: Pending(st, q, s, pos) ==> q == p;
    } else if exists q :: Pending(st, q, s, pos) {
      var q :| Pending(st, q, s, pos);
      assert Pending(t, q, s, pos);
    }
  }

  lemma OtherKeepsOnce(st: State, step: Step, s: nat, pos: nat)
    requires Inv(st) && Enabled(st, step) && !step.Lock? && !step.Offer? && s in Apply(st, step).subs
    ensures OncePer(Apply(st, step), s, pos)
  {
    var t := Apply(st, step);
    PendingStays(st, step);
    if s in st.subs {
      assert OncePer(st, s, pos);
      assert forall p :: Pending(t, p, s, pos) <==> Pending(st, p, s, pos);
    } else {
      assert forall p :: !Pending(st, p, s, pos);
    }
  }

  lemma PendingStays(st: State, step: Step)
    requires Enabled(st, step) && !step.Lock? && !step.Offer?
    ensures forall p, s, pos :: Pending(Apply(st, step), p, s, pos) <==> Pending(st, p, s, pos)
  {
  }

  lemma StepKeepsInv(st: State, step: Step)
    requires Inv(st) && Enabled(st, step)
    ensures Inv(Apply(st, step))
  {
    StepKeepsPubs(st, step);
    StepKeepsSubs(st, step);
    forall s, pos: nat | s in Apply(st, step).subs ensures OncePer(Apply(st, step), s, pos) {
      match step
      case Lock(p) => LockKeepsOnce(st, p, s, pos);
      case Offer(p, to) => OfferKeepsOnce(st, p, to, s, pos);
      case _ => OtherKeepsOnce(st, step, s, pos);
    }
  }

  lemma {:induction false} RunKeepsInv(states: seq<State>, steps: seq<Step>, k: nat)
    requires IsRun(states, steps) && k < |states|
    ensures Inv(states[k])
  {
    if k > 0 {
      RunKeepsInv(states, steps, k - 1);
      assert IsStep(states, steps, k - 1);
      StepKeepsInv(states[k - 1], steps[k - 1]);
    }
  }

  /**
   * In every state of every interleaving: an event logged before a subscriber
   * joined reaches it by replay at most, never live; an event logged after it
   * joined is never replayed, and its channel has been offered it once, or
   * exactly one publisher still owes that offer.
   */
  lemma ReplayedOrOfferedOnce(states: seq<State>, steps: seq<Step>, k: nat, s: nat, pos: nat)
    requires IsRun(states, steps) && k < |states| && s in states[k].subs && pos < |states[k].log|
    ensures var st, sub := states[k], states[k].subs[s];
            && (pos < sub.joined ==> sub.offered[pos] == 0 && forall p :: !Pending(st, p, s, pos))
            && (pos >= sub.joined ==> pos !in sub.replay)
            && (pos >= sub.joined && sub.left == None ==>
                  (sub.offered[pos] == 1 && forall p :: !Pending(st, p, s, pos))
                  || (sub.offered[pos] == 0 && exists p :: Pending(st, p, s, pos)))
            && (forall p, q :: Pending(st, p, s, pos) && Pending(st, q, s, pos) ==> p == q)
  {
    RunKeepsInv(states, steps, k);
    assert OncePer(states[k], s, pos);
  }

  /** Once every publisher is idle, each event since joining has been offered exactly once. */
  lemma QuietMeansDelivered(states: seq<State>, steps: seq<Step>, k: nat, s: nat, pos: nat)
    requires IsRun(states, steps) && k < |states| && s in states[k].subs && states[k].subs[s].left == None
    requires forall p :: p in states[k].pubs ==> states[k].pubs[p] == Idle
    ensures states[k].subs[s].offered[pos] == if states[k].subs[s].joined <= pos < |states[k].log| then 1 else 0
  {
    RunKeepsInv(states, steps, k);
    assert OncePer(states[k], s, pos);
    assert forall p :: !Pending(states[k], p, s, pos);
  }

  // ---------------------------------------------------------------------
  // Number order and log order
  // ---------------------------------------------------------------------

  /** Publisher p holds a number that is not logged yet. */
  predicate Holds(st: State, p: nat) { p in st.pubs && st.pubs[p].Drawn? }

  /** Publisher p holds the smallest number that is not logged yet. */
  ghost predicate HoldsSmallest(st: State, p: nat) {
    Holds(st, p) && forall q :: Holds(st, q) ==> st.pubs[p].num <= st.pubs[q].num
  }

  /** The schedule: the k-th step, if it logs, logs the smallest number held. */
  ghost predicate SmallestFirst(states: seq<State>, steps: seq<Step>)
    requires |states| == |steps| + 1
  {
    forall k :: 0 <= k < |steps| ==> LogsSmallest(states, steps, k)
  }

  ghost predicate LogsSmallest(states: seq<State>, steps: seq<Step>, k: int)
    requires |states| == |steps| + 1 && 0 <= k < |steps|
  {
    steps[k].Lock? ==> HoldsSmallest(states[k], steps[k].p)
  }

  ghost predicate Increasing(log: seq<nat>) {
    forall i, j :: 0 <= i < j < |log| ==> log[i] < log[j]
  }

  /** Every number drawn so far is held by one publisher or in the log, and not both. */
  ghost predicate NumbersOk(st: State) {
    && NumbersApart(st)
    && (forall n :: 1 <= n <= st.counter ==> n in st.log || Held(st, n))
  }

  ghost predicate NumbersApart(st: State) {
    && (forall i :: 0 <= i < |st.log| ==> 1 <= st.log[i] <= st.counter)
    && (forall p :: Holds(st, p) ==> 1 <= st.pubs[p].num <= st.counter && st.pubs[p].num !in st.log)
    && (forall p, q :: Holds(st, p) && Holds(st, q) && p != q ==> st.pubs[p].num != st.pubs[q].num)
  }

  ghost predicate Held(st: State, n: nat) {
    exists p :: Holds(st, p) && st.pubs[p].num == n
  }

  lemma HeldAfter(st: State, step: Step, n: nat)
    requires Enabled(st, step) && Held(st, n)
    ensures Held(Apply(st, step), n) || (step.Lock? && Apply(st, step).log == st.log + [n])
  {
    var p :| Holds(st, p) && st.pubs[p].num == n;
    var t := Apply(st, step);
    if step.Lock? && step.p == p {
      assert t.log == st.log + [n];
    } else {
      assert Holds(t, p) && t.pubs[p].num == n;
    }
  }

  lemma StepKeepsApart(st: State, step: Step)
    requires NumbersApart(st) && Enabled(st, step)
    ensures NumbersApart(Apply(st, step))
  {
  }

  lemma StepKeepsNumbers(st: State, step: Step)
    requires NumbersOk(st) && Enabled(st, step)
    ensures NumbersOk(Apply(st, step))
  {
    var t := Apply(st, step);
    StepKeepsApart(st, step);
    forall n | 1 <= n <= t.counter ensures n in t.log || Held(t, n) {
      if n <= st.counter {
        if Held(st, n) {
          HeldAfter(st, step, n);
        }
      } else {
        assert Holds(t, step.p) && t.pubs[step.p].num == n;
      }
    }
  }

  lemma {:induction false} RunKeepsNumbers(states: seq<State>, steps: seq<Step>, k: nat)
    requires IsRun(states, steps) && k < |states|
    ensures NumbersOk(states[k])
  {
    if k > 0 {
      RunKeepsNumbers(states, steps, k - 1);
      assert IsStep(states, steps, k - 1);
      StepKeepsNumbers(states[k - 1], steps[k - 1]);
    }
  }

  /** The log is in order, and below every number still held. */
  ghost predicate AheadOfHeld(st: State) {
    && Increasing(st.log)
    && forall i, p :: 0 <= i < |st.log| && Holds(st, p) ==> st.log[i] < st.pubs[p].num
  }

  lemma SmallestKeepsAhead(st: State, step: Step)
    requires NumbersOk(st) && AheadOfHeld(st) && Enabled(st, step)
    requires step.Lock? ==> HoldsSmallest(st, step.p)
    ensures AheadOfHeld(Apply(st, step))
  {
    var t := Apply(st, step);
    forall p | Holds(t, p) ensures Holds(st, p) || (step == Draw(p) && t.pubs[p].num == st.counter + 1) {
    }
  }

  lemma {:induction false} SmallestFirstKeepsAhead(states: seq<State>, steps: seq<Step>, k: nat)
    requires IsRun(states, steps) && SmallestFirst(states, steps) && k < |states|
    ensures AheadOfHeld(states[k])
  {
    if k > 0 {
      SmallestFirstKeepsAhead(states, steps, k - 1);
      RunKeepsNumbers(states, steps, k - 1);
      assert IsStep(states, steps, k - 1) && LogsSmallest(states, steps, k - 1);
      SmallestKeepsAhead(states[k - 1], steps[k - 1]);
    }
  }

  /** Number m was passed over: it is still held, or it is in the log behind the larger n. */
  ghost predicate Passed(st: State, m: nat, n: nat) {
    && m < n
    && exists i :: 0 <= i < |st.log| && st.log[i] == n && (Held(st, m) || m in st.log[i + 1..])
  }

  lemma PassedStays(st: State, step: Step, m: nat, n: nat)
    requires Enabled(st, step) && Passed(st, m, n)
    ensures Passed(Apply(st, step), m, n)
  {
    var i :| 0 <= i < |st.log| && st.log[i] == n && (Held(st, m) || m in st.log[i + 1..]);
    var t := Apply(st, step);
    assert t.log[i] == n;
    if m in st.log[i + 1..] {
      assert st.log[i + 1..] <= t.log[i + 1..];
    } else {
      HeldAfter(st, step, m);
      if t.log == st.log + [m] {
        assert t.log[i + 1..] == st.log[i + 1..] + [m];
      }
    }
  }

  lemma {:induction false} PassedForGood(states: seq<State>, steps: seq<Step>, j: nat, k: nat, m: nat, n: nat)
    requires IsRun(states, steps) && j <= k < |states| && Passed(states[j], m, n)
    ensures Passed(states[k], m, n)
    decreases k
  {
    if j < k {
      PassedForGood(states, steps, j, k - 1, m, n);
      assert IsStep(states, steps, k - 1);
      PassedStays(states[k - 1], steps[k - 1], m, n);
    }
  }

  lemma PassedBreaksOrder(st: State, m: nat, n: nat)
    requires Passed(st, m, n) && !Held(st, m)
    ensures !Increasing(st.log)
  {
    var i :| 0 <= i < |st.log| && st.log[i] == n && m in st.log[i + 1..];
    var d :| 0 <= d < |st.log[i + 1..]| && st.log[i + 1..][d] == m;
    assert st.log[i + 1 + d] == m;
  }

  /** Logging another number passes the smaller one over. */
  lemma LockPasses(st: State, p: nat, q: nat)
    requires Enabled(st, Lock(p)) && Holds(st, q) && st.pubs[q].num < st.pubs[p].num
    ensures Passed(Apply(st, Lock(p)), st.pubs[q].num, st.pubs[p].num)
  {
    var t := Apply(st, Lock(p));
    assert t.log[|st.log|] == st.pubs[p].num;
    assert Holds(t, q) && t.pubs[q].num == st.pubs[q].num;
  }

  /**
   * The numbers of a run at whose end none is held are logged in increasing order exactly if every
   * event that was logged had the smallest number held at that moment; and then the log is
   * 1, 2, 3, ... without gaps.
   */
  lemma LogOrderIff(states: seq<State>, steps: seq<Step>)
    requires IsRun(states, steps) && forall p :: !Holds(states[|steps|], p)
    ensures Increasing(states[|steps|].log) <==> SmallestFirst(states, steps)
    ensures Increasing(states[|steps|].log) <==> forall i :: 0 <= i < |states[|steps|].log| ==> states[|steps|].log[i] == i + 1
  {
    var last := |steps|;
    RunKeepsNumbers(states, steps, last);
    if SmallestFirst(states, steps) {
      SmallestFirstKeepsAhead(states, steps, last);
    } else {
      var k :| 0 <= k < last && !LogsSmallest(states, steps, k);
      OutOfTurn(states, steps, k);
    }
    if Increasing(states[last].log) {
      NoGaps(states[last]);
    }
  }

  lemma OutOfTurn(states: seq<State>, steps: seq<Step>, k: nat)
    requires IsRun(states, steps) && forall p :: !Holds(states[|steps|], p)
    requires k < |steps| && !LogsSmallest(states, steps, k)
    ensures !Increasing(states[|steps|].log)
  {
    var st, p := states[k], steps[k].p;
    assert IsStep(states, steps, k);
    var q :| Holds(st, q) && st.pubs[q].num < st.pubs[p].num;
    LockPasses(st, p, q);
    PassedForGood(states, steps, k + 1, |steps|, st.pubs[q].num, st.pubs[p].num);
    PassedBreaksOrder(states[|steps|], st.pubs[q].num, st.pubs[p].num);
  }

  /** An increasing log that holds all numbers drawn has each at its place. */
  lemma NoGaps(st: State)
    requires NumbersOk(st) && Increasing(st.log) && forall p :: !Holds(st, p)
    ensures forall i :: 0 <= i < |st.log| ==> st.log[i] == i + 1
  {
    forall i | 0 <= i < |st.log| ensures st.log[i] == i + 1 {
      AtItsPlace(st, i);
    }
  }

  lemma {:induction false} AtItsPlace(st: State, i: nat)
    requires NumbersOk(st) && Increasing(st.log) && (forall p :: !Holds(st, p)) && i < |st.log|
    ensures st.log[i] == i + 1
  {
    AtLeastItsPlace(st, i);
    assert i + 1 in st.log;
    var j :| 0 <= j < |st.log| && st.log[j] == i + 1;
    if j < i {
      AtItsPlace(st, j);
    }
  }

  lemma {:induction false} AtLeastItsPlace(st: State, i: nat)
    requires NumbersOk(st) && Increasing(st.log) && i < |st.log|
    ensures i + 1 <= st.log[i] <= st.counter
  {
    if i > 0 {
      AtLeastItsPlace(st, i - 1);
      assert st.log[i - 1] < st.log[i];
    }
  }

  /** A number is drawn only when none is held. */
  ghost predicate TakeTurns(states: seq<State>, steps: seq<Step>)
    requires |states| == |steps| + 1
  {
    forall k :: 0 <= k < |steps| && steps[k].Draw? ==> forall p :: !Holds(states[k], p)
  }

  /** Publishers that take turns, each drawing only when no number is held, log in order. */
  lemma TakingTurnsIsSmallestFirst(states: seq<State>, steps: seq<Step>)
    requires IsRun(states, steps)
    requires TakeTurns(states, steps)
    ensures SmallestFirst(states, steps)
  {
    forall k | 0 <= k < |steps| ensures LogsSmallest(states, steps, k) {
      AtMostOneHeld(states, steps, k);
      assert IsStep(states, steps, k);
      assert steps[k].Lock? ==> Holds(states[k], steps[k].p);
    }
  }

  lemma {:induction false} AtMostOneHeld(states: seq<State>, steps: seq<Step>, k: nat)
    requires IsRun(states, steps) && k < |states|
    requires TakeTurns(states, steps)
    ensures forall p, q :: Holds(states[k], p) && Holds(states[k], q) ==> p == q
  {
    if k > 0 {
      AtMostOneHeld(states, steps, k - 1);
      assert IsStep(states, steps, k - 1);
      forall p | Holds(states[k], p) ensures Holds(states[k - 1], p) || steps[k - 1] == Draw(p) {
      }
    }
  }

  /** Without turns two publishers can log in the opposite order of their numbers. */
  lemma NumbersCanBeLoggedOutOfOrder() returns (states: seq<State>, steps: seq<Step>)
    ensures IsRun(states, steps) && states[|states| - 1].log == [2, 1]
  {
    var s1 := Apply(START, Draw(0));
    var s2 := Apply(s1, Draw(1));
    var s3 := Apply(s2, Lock(1));
    var s4 := Apply(s3, Lock(0));
    states, steps := [START, s1, s2, s3, s4], [Draw(0), Draw(1), Lock(1), Lock(0)];
    assert IsStep(states, steps, 0) && IsStep(states, steps, 1) && IsStep(states, steps, 2) && IsStep(states, steps, 3);
  }

  // ---------------------------------------------------------------------
  // Delivery order
  // ---------------------------------------------------------------------

  /** A full channel dropped this event. */
  predicate Dropped(sub: Subscriber, pos: nat) { pos in sub.offered && pos !in sub.sent }

  /** Nothing logged earlier, since s joined, is pending for s or was dropped. */
  ghost predicate SmallestDue(st: State, s: nat, pos: nat)
    requires s in st.subs
  {
    forall e: nat :: st.subs[s].joined <= e < pos ==> !Dropped(st.subs[s], e) && forall q :: !Pending(st, q, s, e)
  }

  /** The k-th step, if it sends to s, sends the smallest position due. */
  ghost predicate SendsSmallest(states: seq<State>, steps: seq<Step>, k: int, s: nat)
    requires |states| == |steps| + 1 && 0 <= k < |steps|
  {
    steps[k].Offer? && steps[k].s == s && Enabled(states[k], steps[k]) && HasRoom(states[k].subs[s]) ==>
      SmallestDue(states[k], s, states[k].pubs[steps[k].p].pos)
  }

  /** The schedule of the sends to s. */
  ghost predicate SendsInTurn(states: seq<State>, steps: seq<Step>, s: nat)
    requires |states| == |steps| + 1
  {
    forall k :: 0 <= k < |steps| ==> SendsSmallest(states, steps, k, s)
  }

  /** A stream without gaps: the log from the joining point on. */
  ghost predicate Contiguous(sub: Subscriber) {
    forall i :: 0 <= i < |sub.sent| ==> sub.sent[i] == sub.joined + i
  }

  /** Behind a stream without gaps the smallest position due is the next one of the log. */
  lemma SmallestDueIsNext(st: State, p: nat, s: nat)
    requires Inv(st) && Enabled(st, Offer(p, s)) && Contiguous(st.subs[s])
    ensures SmallestDue(st, s, st.pubs[p].pos) <==> st.pubs[p].pos == st.subs[s].joined + |st.subs[s].sent|
  {
    var sub, pos := st.subs[s], st.pubs[p].pos;
    assert Pending(st, p, s, pos);
    PendingIsNew(st, p, s, pos);
    var next := sub.joined + |sub.sent|;
    forall e: nat | sub.joined <= e < next ensures e in sub.sent && forall q :: !Pending(st, q, s, e) {
      assert sub.sent[e - sub.joined] == e && OncePer(st, s, e);
    }
    if pos != next {
      assert pos !in sub.sent;
      assert next < pos && next !in sub.sent && OncePer(st, s, next);
      assert Dropped(sub, next) || exists q :: Pending(st, q, s, next);
    }
  }

  /** From step to step a stream only grows. */
  lemma StreamGrows(st: State, step: Step, s: nat)
    requires Enabled(st, step) && s in st.subs
    ensures s in Apply(st, step).subs
    ensures st.subs[s].joined == Apply(st, step).subs[s].joined && st.subs[s].sent <= Apply(st, step).subs[s].sent
  {
  }

  lemma {:induction false} StreamIsPrefix(states: seq<State>, steps: seq<Step>, j: nat, k: nat, s: nat)
    requires IsRun(states, steps) && j <= k < |states| && s in states[j].subs
    ensures s in states[k].subs && states[j].subs[s].joined == states[k].subs[s].joined
    ensures states[j].subs[s].sent <= states[k].subs[s].sent
    decreases k
  {
    if j < k {
      StreamIsPrefix(states, steps, j, k - 1, s);
      assert IsStep(states, steps, k - 1);
      StreamGrows(states[k - 1], steps[k - 1], s);
    }
  }

  /**
   * A subscriber's stream is the log from where it joined, without gaps, exactly if each send to it
   * was of the smallest position due: no earlier event was still pending for it or had been dropped.
   */
  lemma SentInOrderIff(states: seq<State>, steps: seq<Step>, s: nat)
    requires IsRun(states, steps) && s in states[|steps|].subs
    ensures Contiguous(states[|steps|].subs[s]) <==> SendsInTurn(states, steps, s)
  {
    if SendsInTurn(states, steps, s) {
      InTurnIsContiguous(states, steps, |steps|, s);
    }
    if Contiguous(states[|steps|].subs[s]) {
      forall k | 0 <= k < |steps| ensures SendsSmallest(states, steps, k, s) {
        ContiguousIsInTurn(states, steps, k, s);
      }
    }
  }

  lemma {:induction false} InTurnIsContiguous(states: seq<State>, steps: seq<Step>, k: nat, s: nat)
    requires IsRun(states, steps) && SendsInTurn(states, steps, s) && k < |states| && s in states[k].subs
    ensures Contiguous(states[k].subs[s])
  {
    if k > 0 {
      var st, step := states[k - 1], steps[k - 1];
      assert IsStep(states, steps, k - 1);
      if s in st.subs {
        InTurnIsContiguous(states, steps, k - 1, s);
        if step.Offer? && step.s == s {
          RunKeepsInv(states, steps, k - 1);
          SmallestDueIsNext(st, step.p, s);
          assert SendsSmallest(states, steps, k - 1, s);
        }
      }
    }
  }

  lemma ContiguousIsInTurn(states: seq<State>, steps: seq<Step>, k: nat, s: nat)
    requires IsRun(states, steps) && s in states[|steps|].subs && Contiguous(states[|steps|].subs[s]) && k < |steps|
    ensures SendsSmallest(states, steps, k, s)
  {
    var st, step := states[k], steps[k];
    assert IsStep(states, steps, k);
    if step.Offer? && step.s == s && HasRoom(st.subs[s]) {
      StreamIsPrefix(states, steps, k, |steps|, s);
      StreamIsPrefix(states, steps, k + 1, |steps|, s);
      RunKeepsInv(states, steps, k);
      var sent := states[k + 1].subs[s].sent;
      assert sent[|sent| - 1] == st.pubs[step.p].pos;
      SmallestDueIsNext(st, step.p, s);
    }
  }

  // ---------------------------------------------------------------------
  // Resuming
  // ---------------------------------------------------------------------

  /** What a client is replayed that last saw this event. */
  function ReplayedAfter(log: seq<nat>, last: nat): seq<nat>
    requires last < |log|
  {
    ReplayPositions(log, log[last], OldestKept(log))
  }

  /** Numbers in the ring, and the last one before it, increase. */
  ghost predicate RingInOrder(log: seq<nat>) {
    forall i, j :: 0 <= i < j < |log| && OldestKept(log) <= i + 1 ==> log[i] < log[j]
  }

  /** The ring has dropped the event right after this one. */
  predicate TooLate(log: seq<nat>, last: nat) { last + 1 < OldestKept(log) }

  /** Going on after this event replays exactly the rest of the log. */
  ghost predicate ReplaysRest(log: seq<nat>, last: nat)
    requires last < |log|
  {
    forall pos :: pos in ReplayedAfter(log, last) <==> last < pos < |log|
  }

  /**
   * Whoever has read the log in log order, up to an event that is not too far back, is replayed exactly
   * the rest exactly when numbers were logged in increasing order from there on.
   */
  lemma ReplayNeedsNumberOrder(log: seq<nat>)
    ensures (forall last :: 0 <= last < |log| && !TooLate(log, last) ==> ReplaysRest(log, last)) <==> RingInOrder(log)
  {
    if forall last :: 0 <= last < |log| && !TooLate(log, last) ==> ReplaysRest(log, last) {
      forall i, j | 0 <= i < j < |log| && OldestKept(log) <= i + 1 ensures log[i] < log[j] {
        assert ReplaysRest(log, i);
        assert j in ReplayedAfter(log, i);
      }
    }
    if RingInOrder(log) {
      forall last | 0 <= last < |log| && !TooLate(log, last) ensures ReplaysRest(log, last) {
      }
    }
  }

  /** A client that missed what the ring has dropped cannot resume without loss, in whatever order numbers were logged. */
  lemma TooLateToResume(log: seq<nat>, last: nat)
    requires last < |log| && TooLate(log, last)
    ensures !ReplaysRest(log, last)
  {
    assert last + 1 !in ReplayedAfter(log, last);
  }

  /** What a client gets to read: the replay, then its channel. */
  function Stream(sub: Subscriber): seq<nat> { sub.replay + sub.sent }

  /** What a client is due: its replay, and everything logged since it joined. */
  predicate Due(log: seq<nat>, sub: Subscriber, pos: nat) { pos in sub.replay || sub.joined <= pos < |log| }

  /** A client that leaves after n events of its stream is replayed exactly what it was due and has not read. */
  ghost predicate ResumesAfter(log: seq<nat>, sub: Subscriber, n: nat)
    requires StreamOk(log, sub) && 0 < n <= |Stream(sub)|
  {
    var seen := Stream(sub)[..n];
    forall pos :: pos in ReplayedAfter(log, seen[n - 1]) <==> Due(log, sub, pos) && pos !in seen
  }

  /** Wherever a client leaves its stream, unless it stays away too long, it can resume. */
  ghost predicate AlwaysResumes(log: seq<nat>, sub: Subscriber)
    requires StreamOk(log, sub)
  {
    forall n: nat :: 0 < n <= |Stream(sub)| && !TooLate(log, Stream(sub)[n - 1]) ==> ResumesAfter(log, sub, n)
  }

  /** Every event sent that is not too far back came when all between joining and it had come. */
  ghost predicate InStep(log: seq<nat>, sub: Subscriber) {
    forall i :: 0 <= i < |sub.sent| && !TooLate(log, sub.sent[i]) ==> sub.sent[i] == sub.joined + i
  }

  function Elements(s: seq<nat>): set<nat> { set x | x in s }

  function Range(from: nat, to: nat): (r: set<nat>)
    requires from <= to
    ensures |r| == to - from && forall x :: x in r <==> from <= x < to
  {
    if from == to then {} else Range(from, to - 1) + {to - 1}
  }

  lemma {:induction false} DistinctCount(s: seq<nat>)
    requires Distinct(s)
    ensures |Elements(s)| == |s|
  {
    if s != [] {
      var init, last := s[..|s| - 1], s[|s| - 1];
      DistinctCount(init);
      assert s == init + [last];
      assert Elements(s) == Elements(init) + {last};
    }
  }

  lemma SameSizeMeansSame(have: set<nat>, all: set<nat>)
    requires have <= all && |have| == |all|
    ensures have == all
  {
    assert all == have + (all - have);
    assert |all| == |have| + |all - have|;
  }

  /** Distinct numbers of a range are all of it exactly if there are as many. */
  lemma FillsRange(s: seq<nat>, from: nat, to: nat)
    requires Distinct(s) && from <= to && forall i :: 0 <= i < |s| ==> from <= s[i] < to
    ensures (forall x: nat :: from <= x < to ==> x in s) <==> |s| == to - from
  {
    DistinctCount(s);
    if |s| == to - from {
      SameSizeMeansSame(Elements(s), Range(from, to));
      forall x: nat | from <= x < to ensures x in s {
        assert x in Range(from, to);
      }
    }
    if forall x: nat :: from <= x < to ==> x in s {
      assert Elements(s) == Range(from, to);
    }
  }

  /** With numbers in order, going on after an event that is not too far back replays the rest. */
  lemma OrderedRingReplaysRest(log: seq<nat>, last: nat)
    requires RingInOrder(log) && last < |log| && !TooLate(log, last)
    ensures ReplaysRest(log, last)
  {
  }

  /**
   * A client that leaves while reading its channel resumes exactly if the event it read last came at
   * its place in the log, after smaller ones only.
   */
  lemma LiveReaderResumes(log: seq<nat>, sub: Subscriber, i: nat)
    requires StreamOk(log, sub) && RingInOrder(log) && i < |sub.sent| && !TooLate(log, sub.sent[i])
    ensures ResumesAfter(log, sub, |sub.replay| + i + 1) <==>
              sub.sent[i] == sub.joined + i && forall j :: 0 <= j < i ==> sub.sent[j] < sub.sent[i]
  {
    var read, last := sub.sent[..i + 1], sub.sent[i];
    var seen := Stream(sub)[..|sub.replay| + i + 1];
    assert seen == sub.replay + read;
    OrderedRingReplaysRest(log, last);
    if ResumesAfter(log, sub, |seen|) {
      forall j | 0 <= j <= i ensures sub.joined <= read[j] <= last {
        assert read[j] in seen;
      }
      forall x | sub.joined <= x <= last ensures x in read {
        assert Due(log, sub, x) && x !in ReplayedAfter(log, last);
      }
      FillsRange(read, sub.joined, last + 1);
    }
    if last == sub.joined + i && forall j :: 0 <= j < i ==> sub.sent[j] < last {
      FillsRange(read, sub.joined, last + 1);
    }
  }

  ghost predicate Ascending(s: seq<nat>) {
    forall i, j :: 0 <= i < j < |s| ==> s[i] < s[j]
  }

  lemma {:induction false} ReplayAscends(log: seq<nat>, after: nat, from: nat)
    ensures Ascending(ReplayPositions(log, after, from))
    decreases |log| - from
  {
    if from < |log| {
      ReplayAscends(log, after, from + 1);
    }
  }

  /** With numbers in order, a replay that has come to some event goes on with all logged after it. */
  lemma ReplayGoesOn(log: seq<nat>, after: nat, oldest: nat, n: nat, pos: nat)
    requires 0 < n <= |ReplayPositions(log, after, oldest)| && pos < |log|
    requires ReplayPositions(log, after, oldest)[n - 1] < pos ==> log[ReplayPositions(log, after, oldest)[n - 1]] < log[pos]
    ensures var replay := ReplayPositions(log, after, oldest);
            (pos in replay && pos !in replay[..n]) <==> replay[n - 1] < pos
  {
    var replay := ReplayPositions(log, after, oldest);
    ReplayAscends(log, after, oldest);
    var last := replay[n - 1];
    assert last in replay;
    if pos in replay {
      var j :| 0 <= j < |replay| && replay[j] == pos;
      assert j < n <==> pos <= last;
      if j < n {
        assert replay[..n][j] == pos;
      }
    }
    assert forall i :: 0 <= i < n ==> replay[..n][i] <= last;
  }

  /** A client that leaves during its replay resumes. */
  lemma ReplayReaderResumes(log: seq<nat>, sub: Subscriber, n: nat)
    requires StreamOk(log, sub) && RingInOrder(log) && 0 < n <= |sub.replay|
    requires !TooLate(log, sub.replay[n - 1])
    ensures ResumesAfter(log, sub, n)
  {
    var last, seen, before := sub.replay[n - 1], Stream(sub)[..n], log[..sub.joined];
    assert seen == sub.replay[..n];
    OrderedRingReplaysRest(log, last);
    forall pos: nat | pos < sub.joined ensures (pos in sub.replay && pos !in seen) <==> last < pos {
      assert last < pos ==> log[last] < log[pos];
      ReplayGoesOn(before, sub.after, OldestKept(before), n, pos);
    }
    forall pos: nat | sub.joined <= pos ensures pos !in seen && last < pos {
      assert pos !in sub.replay;
    }
  }

  lemma InStepResumes(log: seq<nat>, sub: Subscriber, n: nat)
    requires StreamOk(log, sub) && RingInOrder(log) && InStep(log, sub)
    requires 0 < n <= |Stream(sub)| && !TooLate(log, Stream(sub)[n - 1])
    ensures ResumesAfter(log, sub, n)
  {
    if n <= |sub.replay| {
      ReplayReaderResumes(log, sub, n);
    } else {
      var i := n - |sub.replay| - 1;
      assert sub.sent[i] == sub.joined + i;
      forall j | 0 <= j < i ensures sub.sent[j] < sub.sent[i] {
        assert TooLate(log, sub.sent[j]) || sub.sent[j] == sub.joined + j;
      }
      LiveReaderResumes(log, sub, i);
    }
  }

  lemma ResumesInStep(log: seq<nat>, sub: Subscriber, i: nat)
    requires StreamOk(log, sub) && RingInOrder(log) && AlwaysResumes(log, sub)
    requires i < |sub.sent| && !TooLate(log, sub.sent[i])
    ensures sub.sent[i] == sub.joined + i
  {
    var n := |sub.replay| + i + 1;
    assert Stream(sub)[n - 1] == sub.sent[i];
    assert ResumesAfter(log, sub, n);
    LiveReaderResumes(log, sub, i);
  }

  /** With numbers in order a subscriber can always resume exactly if its channel is in step with the log. */
  lemma AlwaysResumesIff(log: seq<nat>, sub: Subscriber)
    requires StreamOk(log, sub) && RingInOrder(log)
    ensures AlwaysResumes(log, sub) <==> InStep(log, sub)
  {
    if AlwaysResumes(log, sub) {
      forall i | 0 <= i < |sub.sent| && !TooLate(log, sub.sent[i]) ensures sub.sent[i] == sub.joined + i {
        ResumesInStep(log, sub, i);
      }
    }
    if InStep(log, sub) {
      forall n: nat | 0 < n <= |Stream(sub)| && !TooLate(log, Stream(sub)[n - 1]) ensures ResumesAfter(log, sub, n) {
        InStepResumes(log, sub, n);
      }
    }
  }

  /** Whoever read the log in log order can resume, and so can each subscriber. */
  ghost predicate EveryoneResumes(st: State)
    requires SubsOk(st)
  {
    && (forall last :: 0 <= last < |st.log| && !TooLate(st.log, last) ==> ReplaysRest(st.log, last))
    && forall s :: s in st.subs ==> AlwaysResumes(st.log, st.subs[s])
  }

  /**
   * In every state of every interleaving: whoever is not too late can resume without loss or repetition
   * exactly when the numbers in the ring are in order and every channel is in step with the log.
   */
  lemma ResumeIff(states: seq<State>, steps: seq<Step>, k: nat)
    requires IsRun(states, steps) && k < |states|
    ensures Inv(states[k])
    ensures EveryoneResumes(states[k]) <==>
              RingInOrder(states[k].log) && forall s :: s in states[k].subs ==> InStep(states[k].log, states[k].subs[s])
  {
    RunKeepsInv(states, steps, k);
    var st := states[k];
    ReplayNeedsNumberOrder(st.log);
    if RingInOrder(st.log) {
      forall s | s in st.subs ensures AlwaysResumes(st.log, st.subs[s]) <==> InStep(st.log, st.subs[s]) {
        AlwaysResumesIff(st.log, st.subs[s]);
      }
    }
  }

  /** The whole schedule: smallest number logged first, smallest position sent first. */
  ghost predicate InTurn(states: seq<State>, steps: seq<Step>)
    requires |states| == |steps| + 1
  {
    SmallestFirst(states, steps) && forall s :: s in states[|steps|].subs ==> SendsInTurn(states, steps, s)
  }

  /** So under such a schedule everyone who is not too late can resume. */
  lemma InTurnResumes(states: seq<State>, steps: seq<Step>)
    requires IsRun(states, steps) && InTurn(states, steps)
    ensures Inv(states[|steps|]) && EveryoneResumes(states[|steps|])
  {
    SmallestFirstKeepsAhead(states, steps, |steps|);
    ResumeIff(states, steps, |steps|);
    forall s | s in states[|steps|].subs ensures Contiguous(states[|steps|].subs[s]) {
      SentInOrderIff(states, steps, s);
    }
  }

  /** And as long as the ring has dropped one event at most, under no other schedule. */
  lemma ResumeNeedsTurns(states: seq<State>, steps: seq<Step>)
    requires IsRun(states, steps) && forall p :: !Holds(states[|steps|], p)
    requires OldestKept(states[|steps|].log) <= 1
    ensures Inv(states[|steps|])
    ensures EveryoneResumes(states[|steps|]) <==> InTurn(states, steps)
  {
    var st := states[|steps|];
    ResumeIff(states, steps, |steps|);
    LogOrderIff(states, steps);
    assert RingInOrder(st.log) <==> Increasing(st.log);
    forall s | s in st.subs ensures InStep(st.log, st.subs[s]) <==> SendsInTurn(states, steps, s) {
      SentInOrderIff(states, steps, s);
    }
  }

  /** One more step makes a longer run. */
  lemma RunGrows(states: seq<State>, steps: seq<Step>, step: Step)
    requires IsRun(states, steps) && SmallestFirst(states, steps) && Enabled(states[|steps|], step)
    requires step.Lock? ==> HoldsSmallest(states[|steps|], step.p)
    ensures var more := states + [Apply(states[|steps|], step)];
            IsRun(more, steps + [step]) && SmallestFirst(more, steps + [step])
  {
    var more, longer := states + [Apply(states[|steps|], step)], steps + [step];
    forall k | 0 <= k < |longer| ensures IsStep(more, longer, k) && LogsSmallest(more, longer, k) {
      if k < |steps| {
        assert IsStep(states, steps, k) && LogsSmallest(states, steps, k);
      }
    }
  }

  /** Numbers in order are not enough: number two can be sent before number one. */
  lemma SendsCanOvertake() returns (states: seq<State>, steps: seq<Step>)
    ensures IsRun(states, steps) && SmallestFirst(states, steps)
    ensures var st := states[|steps|]; st.log == [1, 2] && 7 in st.subs && st.subs[7].joined == 0 && st.subs[7].sent == [1]
  {
    states, steps := TwoLogged();
    var st := states[|steps|];
    RunGrows(states, steps, Offer(1, 7));
    states, steps := states + [Apply(st, Offer(1, 7))], steps + [Offer(1, 7)];
  }

  lemma TwoDrawn() returns (states: seq<State>, steps: seq<Step>)
    ensures IsRun(states, steps) && SmallestFirst(states, steps)
    ensures states[|steps|] == State(2, [], map[0 := Drawn(1), 1 := Drawn(2)], map[7 := Joining([], 0)])
  {
    var s1 := Apply(START, Subscribe(7, 0));
    RunGrows([START], [], Subscribe(7, 0));
    var s2 := Apply(s1, Draw(0));
    RunGrows([START] + [s1], [] + [Subscribe(7, 0)], Draw(0));
    RunGrows([START] + [s1] + [s2], [] + [Subscribe(7, 0)] + [Draw(0)], Draw(1));
    states := [START] + [s1] + [s2] + [Apply(s2, Draw(1))];
    steps := [] + [Subscribe(7, 0)] + [Draw(0)] + [Draw(1)];
  }

  lemma TwoLogged() returns (states: seq<State>, steps: seq<Step>)
    ensures IsRun(states, steps) && SmallestFirst(states, steps)
    ensures states[|steps|] ==
            State(2, [1, 2], map[0 := Sending(0, {7}), 1 := Sending(1, {7})], map[7 := Joining([], 0)])
  {
    states, steps := TwoDrawn();
    var st := states[|steps|];
    assert Registered(st) == {7};
    RunGrows(states, steps, Lock(0));
    var next := Apply(st, Lock(0));
    states, steps := states + [next], steps + [Lock(0)];
    assert Registered(next) == {7};
    RunGrows(states, steps, Lock(1));
    states, steps := states + [Apply(next, Lock(1))], steps + [Lock(1)];
  }

  /** Whoever leaves then loses number one. */
  lemma OvertakenMeansLoss(states: seq<State>, steps: seq<Step>, s: nat)
    requires IsRun(states, steps) && s in states[|steps|].subs
    requires var st := states[|steps|]; st.log == [1, 2] && st.subs[s].joined == 0 && st.subs[s].sent == [1]
    ensures Inv(states[|steps|]) && !EveryoneResumes(states[|steps|])
  {
    ResumeIff(states, steps, |steps|);
    assert !TooLate([1, 2], 1) && !InStep([1, 2], states[|steps|].subs[s]);
  }

  // ---------------------------------------------------------------------
  // One publisher at a time
  // ---------------------------------------------------------------------

  /** A publisher starts only when no other is under way. */
  ghost predicate OneAtATime(states: seq<State>, steps: seq<Step>)
    requires |states| == |steps| + 1
  {
    forall k :: 0 <= k < |steps| && steps[k].Draw? ==> forall p :: PubOf(states[k], p) == Idle
  }

  /** No offer ever meets a full channel. */
  ghost predicate NeverFull(states: seq<State>, steps: seq<Step>)
    requires |states| == |steps| + 1
  {
    forall k :: 0 <= k < |steps| && steps[k].Offer? && steps[k].s in states[k].subs ==> HasRoom(states[k].subs[steps[k].s])
  }

  lemma {:induction false} AtMostOneBusy(states: seq<State>, steps: seq<Step>, k: nat)
    requires IsRun(states, steps) && OneAtATime(states, steps) && k < |states|
    ensures forall p, q :: PubOf(states[k], p) != Idle && PubOf(states[k], q) != Idle ==> p == q
  {
    if k > 0 {
      AtMostOneBusy(states, steps, k - 1);
      assert IsStep(states, steps, k - 1);
      forall p | PubOf(states[k], p) != Idle ensures PubOf(states[k - 1], p) != Idle || steps[k - 1] == Draw(p) {
      }
    }
  }

  lemma {:induction false} NothingDropped(states: seq<State>, steps: seq<Step>, k: nat, s: nat, pos: nat)
    requires IsRun(states, steps) && NeverFull(states, steps) && k < |states| && s in states[k].subs
    ensures !Dropped(states[k].subs[s], pos)
  {
    if k > 0 {
      assert IsStep(states, steps, k - 1);
      if s in states[k - 1].subs {
        NothingDropped(states, steps, k - 1, s, pos);
      }
    }
  }

  lemma AloneIsInTurn(states: seq<State>, steps: seq<Step>, k: nat, s: nat)
    requires IsRun(states, steps) && OneAtATime(states, steps) && NeverFull(states, steps)
    requires k < |steps| && s in states[k].subs
    ensures SendsSmallest(states, steps, k, s)
  {
    var st, step := states[k], steps[k];
    if step.Offer? && step.s == s && Enabled(st, step) {
      AtMostOneBusy(states, steps, k);
      forall e: nat | e < st.pubs[step.p].pos ensures !Dropped(st.subs[s], e) && forall q :: !Pending(st, q, s, e) {
        NothingDropped(states, steps, k, s, e);
        forall q ensures !Pending(st, q, s, e) {
          assert PubOf(st, step.p) != Idle && (Pending(st, q, s, e) ==> PubOf(st, q) != Idle);
        }
      }
    }
  }

  /** Publishers that run one after another and channels that are read in time let everyone resume. */
  lemma OneAtATimeResumes(states: seq<State>, steps: seq<Step>)
    requires IsRun(states, steps) && OneAtATime(states, steps) && NeverFull(states, steps)
    ensures Inv(states[|steps|]) && EveryoneResumes(states[|steps|])
  {
    forall k, p | 0 <= k < |steps| && steps[k].Draw? ensures !Holds(states[k], p) {
      assert PubOf(states[k], p) == Idle;
    }
    TakingTurnsIsSmallestFirst(states, steps);
    forall s, k | s in states[|steps|].subs && 0 <= k < |steps| ensures SendsSmallest(states, steps, k, s) {
      if s in states[k].subs {
        AloneIsInTurn(states, steps, k, s);
      }
    }
    InTurnResumes(states, steps);
  }
}
