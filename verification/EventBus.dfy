/**
 * The event bus, one call at a time: a ring for replay, and bounded channels
 * that drop when full (internal/ui/bus.go). It refines an unbounded log.
 */
module EventBus {
  import opened Common

  const BUS_RING_SIZE := 1024
  const BUS_SUB_BUF := 64

  datatype Event = Event(num: nat, kind: string, cluster: string, template: string, data: string)

  /** What became of one subscriber: where it joined the log, what it asked for and what it got. */
  datatype Story = Story(joined: nat, after: nat, replay: seq<Event>, received: seq<Event>)

  /** Events are numbered from one in log order. */
  ghost predicate Numbered(log: seq<Event>) {
    forall i :: 0 <= i < |log| ==> log[i].num == i + 1
  }

  /** Where a replay starts: right after what the client has seen, or at the oldest event kept. */
  function ReplayStart(length: nat, after: nat): nat {
    Min(Max(after, length - BUS_RING_SIZE), length)
  }

  function Replay(log: seq<Event>, after: nat): seq<Event> {
    log[ReplayStart(|log|, after)..]
  }

  /** What the ring holds of a log. */
  function Kept(log: seq<Event>): seq<Event> { LastN(log, BUS_RING_SIZE) }

  function Newer(events: seq<Event>, after: nat): seq<Event> {
    Filter(events, (ev: Event) => ev.num > after)
  }

  lemma NewerMore(log: seq<Event>, from: nat, to: nat, after: nat)
    requires from <= to < |log|
    ensures Newer(log[from..to + 1], after) == Newer(log[from..to], after) + if log[to].num > after then [log[to]] else []
  {
    assert log[from..to + 1] == log[from..to] + [log[to]];
    FilterConcat(log[from..to], [log[to]], (ev: Event) => ev.num > after);
  }

  /** With events numbered in log order, the newer ones are a suffix. */
  lemma NewerIsReplay(log: seq<Event>, after: nat)
    requires Numbered(log)
    ensures Newer(Kept(log), after) == Replay(log, after)
  {
    var base := Max(0, |log| - BUS_RING_SIZE);
    assert Kept(log) == log[base..];
    NewerSuffix(log, base, after);
  }

  lemma {:induction false} NewerSuffix(log: seq<Event>, base: nat, after: nat)
    requires Numbered(log) && base <= |log|
    ensures Newer(log[base..], after) == log[Min(Max(after, base), |log|)..]
    decreases |log| - base
  {
    if base < |log| {
      NewerSuffix(log, base + 1, after);
      assert log[base..] == [log[base]] + log[base + 1..];
    }
  }

  /** What a subscriber has been sent live, received or still in its channel. */
  function Live(st: Story, buffer: seq<Event>): seq<Event> { st.received + buffer }

  ghost predicate Increasing(s: seq<Event>) {
    forall i, j :: 0 <= i < j < |s| ==> s[i].num < s[j].num
  }

  /** Live events are log events from the joining point on, in order; none is missing unless some were dropped. */
  ghost predicate StreamOk(log: seq<Event>, st: Story, buffer: seq<Event>) {
    && st.joined <= |log| && |buffer| <= BUS_SUB_BUF
    && st.replay == Replay(log[..st.joined], st.after)
    && FromLog(log, st.joined, Live(st, buffer))
  }

  /** Events of the log from a point on, in order, and all of them unless there are fewer. */
  ghost predicate FromLog(log: seq<Event>, joined: nat, live: seq<Event>)
    requires joined <= |log|
  {
    && (forall i :: 0 <= i < |live| ==> joined < live[i].num <= |log| && live[i] == log[live[i].num - 1])
    && Increasing(live)
    && |live| <= |log| - joined
    && (|live| == |log| - joined ==> live == log[joined..])
  }

  ghost predicate StreamsOk(log: seq<Event>, stories: map<nat, Story>, subs: map<nat, seq<Event>>) {
    forall id :: id in subs ==> id in stories && StreamOk(log, stories[id], subs[id])
  }

  class EventBus {
    var seqN: nat
    var subN: nat
    const ring: array<Event>
    var head: nat  // next write index
    var n: nat     // valid entries
    var subs: map<nat, seq<Event>>  // the channel of each live subscriber
    ghost var log: seq<Event>
    ghost var stories: map<nat, Story>

    /** The ring holds the last events of the log, each in its slot. */
    ghost predicate RingOk()
      reads `head, `n, `log, ring
    {
      && ring.Length == BUS_RING_SIZE
      && head == |log| % BUS_RING_SIZE && n == Min(|log|, BUS_RING_SIZE)
      && (forall i :: |log| - n <= i < |log| ==> ring[i % BUS_RING_SIZE] == log[i])
    }

    ghost predicate Valid()
      reads this, ring
    {
      seqN == |log| && Numbered(log) && RingOk() && SubsOk()
    }

    ghost predicate SubsOk()
      reads `log, `subs, `subN, `stories
    {
      (forall id :: id in subs ==> id <= subN) && StreamsOk(log, stories, subs)
    }

    constructor ()
      ensures Valid() && log == [] && subs == map[]
      ensures fresh(ring)
    {
      seqN, subN, head, n, subs := 0, 0, 0, 0, map[];
      ring := new Event[BUS_RING_SIZE](_ => Event(0, "", "", "", ""));
      log, stories := [], map[];
    }

    /** Appends one event to the log and offers it to every subscriber; a full channel drops it. */
    method Publish(kind: string, cluster: string, template: string, data: string) returns (num: nat)
      requires Valid()
      modifies this, ring
      ensures Valid() && stories == old(stories)
      ensures num == |old(log)| + 1 && log == old(log) + [Event(num, kind, cluster, template, data)]
      ensures subs == Offered(old(subs), log[|log| - 1])
    {
      ghost var before := log;
      seqN := seqN + 1;
      num := seqN;
      var ev := Event(num, kind, cluster, template, data);
      Store(ev);
      Fan(ev, before);
    }

    /** The part of a publish under the lock: one more slot of the ring. */
    method Store(ev: Event)
      requires RingOk()
      modifies `head, `n, `log, ring
      ensures RingOk() && log == old(log) + [ev]
    {
      ghost var before, slots := log, ring[..];
      NextSlot(|log|);
      StoreKeepsSlots(before, ev, slots, n);
      ring[head] := ev;
      assert ring[..] == slots[head := ev];
      log := log + [ev];
      head := (head + 1) % ring.Length;
      if n < ring.Length {
        n := n + 1;
      }
      forall i | |log| - n <= i < |log| ensures ring[i % BUS_RING_SIZE] == log[i] {
        assert ring[i % BUS_RING_SIZE] == ring[..][i % BUS_RING_SIZE];
      }
    }

    /** The sends of one publish, subscriber by subscriber in any order. */
    method Fan(ev: Event, ghost before: seq<Event>)
      requires log == before + [ev] && Numbered(log)
      requires StreamsOk(before, stories, subs) && forall id :: id in subs ==> id <= subN
      modifies `subs
      ensures subs == Offered(old(subs), ev) && SubsOk()
    {
      var todo := subs.Keys;
      ghost var start := subs;
      while todo != {}
        invariant Offering(start, ev, todo, subs)
        decreases todo
      {
        var id :| id in todo;
        OfferOne(start, ev, todo, subs, id);
        todo := todo - {id};
        if |subs[id]| < BUS_SUB_BUF {
          subs := subs[id := subs[id] + [ev]];
        }
      }
      assert subs == Offered(start, ev) && log[|before|] == ev;
      FanKeepsStreams(before, ev, stories, start);
    }

    method Subscribe(after: nat) returns (id: nat, replay: seq<Event>)
      requires Valid()
      modifies this
      ensures Valid() && log == old(log)
      ensures replay == Replay(log, after)
      ensures id !in old(subs) && subs == old(subs)[id := []]
      ensures stories == old(stories)[id := Story(|log|, after, replay, [])]
    {
      subN := subN + 1;
      id := subN;
      replay := ReplayLocked(after);
      NewerIsReplay(log, after);
      subs := subs[id := []];
      assert log[..|log|] == log;
      stories := stories[id := Story(|log|, after, replay, [])];
    }

    /** The events still held that are newer than what the client has seen, in log order. */
    method ReplayLocked(after: nat) returns (out: seq<Event>)
      requires RingOk()
      ensures out == Newer(Kept(log), after)
    {
      if n == 0 {
        return [];
      }
      out := [];
      var start: int := head - n;
      if start < 0 {
        start := start + ring.Length;
      }
      ghost var base := |log| - n;
      for i := 0 to n
        invariant out == Newer(log[base..base + i], after)
      {
        SlotOf(|log|, n, head, start, i);
        var ev := ring[(start + i) % ring.Length];
        assert ev == log[base + i];
        NewerMore(log, base, base + i, after);
        if ev.num > after {
          out := out + [ev];
        }
      }
      assert log[base..|log|] == Kept(log);
    }

    method Unsubscribe(id: nat)
      requires Valid()
      modifies `subs
      ensures Valid() && subs == old(subs) - {id}
    {
      if id in subs {
        subs := subs - {id};
      }
    }

    /** The client takes the next event from its channel, if there is one. */
    method Receive(id: nat) returns (ev: Option<Event>)
      requires Valid() && id in subs
      modifies `subs, `stories
      ensures Valid() && subs.Keys == old(subs).Keys
      ensures old(subs[id]) == [] ==> ev == None && stories == old(stories) && subs == old(subs)
      ensures old(subs[id]) != [] ==>
                && ev == Some(old(subs[id])[0]) && subs == old(subs)[id := old(subs[id])[1..]]
                && stories == old(stories)[id := Received(old(stories[id]), ev.value)]
    {
      if |subs[id]| == 0 {
        return None;
      }
      ReceiveKeepsStreams(log, stories, subs, id);
      ev := Some(subs[id][0]);
      stories := stories[id := Received(stories[id], ev.value)];
      subs := subs[id := subs[id][1..]];
    }
  }

  function Received(st: Story, ev: Event): Story { st.(received := st.received + [ev]) }

  lemma ReceiveKeepsStreams(log: seq<Event>, stories: map<nat, Story>, subs: map<nat, seq<Event>>, id: nat)
    requires StreamsOk(log, stories, subs) && id in subs && subs[id] != []
    ensures StreamsOk(log, stories[id := Received(stories[id], subs[id][0])], subs[id := subs[id][1..]])
  {
    var st := Received(stories[id], subs[id][0]);
    assert Live(st, subs[id][1..]) == Live(stories[id], subs[id]);
    assert StreamOk(log, st, subs[id][1..]);
  }

  function Sent(buffer: seq<Event>, ev: Event): seq<Event> {
    if |buffer| < BUS_SUB_BUF then buffer + [ev] else buffer
  }

  function Offered(subs: map<nat, seq<Event>>, ev: Event): map<nat, seq<Event>> {
    map id | id in subs :: Sent(subs[id], ev)
  }

  /** Every channel but those in `todo` has been offered the event. */
  ghost predicate Offering(start: map<nat, seq<Event>>, ev: Event, todo: set<nat>, subs: map<nat, seq<Event>>) {
    && subs.Keys == start.Keys && todo <= start.Keys
    && forall id :: id in start ==> subs[id] == if id in todo then start[id] else Sent(start[id], ev)
  }

  lemma OfferOne(start: map<nat, seq<Event>>, ev: Event, todo: set<nat>, subs: map<nat, seq<Event>>, id: nat)
    requires Offering(start, ev, todo, subs) && id in todo
    ensures Offering(start, ev, todo - {id}, subs[id := Sent(subs[id], ev)])
    ensures Sent(subs[id], ev) == subs[id] ==> subs[id := Sent(subs[id], ev)] == subs
  {
  }

  /** Two positions less than a ring apart have different slots. */
  lemma WindowSlots(i: int, j: int)
    requires 0 <= i < j < i + BUS_RING_SIZE
    ensures i % BUS_RING_SIZE != j % BUS_RING_SIZE
  {
  }

  lemma NextSlot(length: nat)
    ensures (length % BUS_RING_SIZE + 1) % BUS_RING_SIZE == (length + 1) % BUS_RING_SIZE
  {
  }

  /** Overwriting the next slot keeps the others of the window. */
  lemma StoreKeepsSlots(log: seq<Event>, ev: Event, slots: seq<Event>, n: nat)
    requires |slots| == BUS_RING_SIZE && n == Min(|log|, BUS_RING_SIZE)
    requires forall i :: |log| - n <= i < |log| ==> slots[i % BUS_RING_SIZE] == log[i]
    ensures var after, more := slots[|log| % BUS_RING_SIZE := ev], Min(|log| + 1, BUS_RING_SIZE);
            forall i :: |log| + 1 - more <= i <= |log| ==> after[i % BUS_RING_SIZE] == (log + [ev])[i]
  {
    forall i | |log| + 1 - BUS_RING_SIZE <= i < |log| && 0 <= i ensures i % BUS_RING_SIZE != |log| % BUS_RING_SIZE {
      WindowSlots(i, |log|);
    }
  }

  lemma SlotOf(length: nat, n: nat, head: nat, start: int, i: nat)
    requires n == Min(length, BUS_RING_SIZE) && i < n && head == length % BUS_RING_SIZE
    requires start == if head - n < 0 then head - n + BUS_RING_SIZE else head - n
    ensures 0 <= start && (start + i) % BUS_RING_SIZE == (length - n + i) % BUS_RING_SIZE
  {
  }

  /** A new event of the log may be dropped. */
  lemma StreamSkips(log: seq<Event>, ev: Event, joined: nat, live: seq<Event>)
    requires joined <= |log| && FromLog(log, joined, live)
    ensures FromLog(log + [ev], joined, live)
  {
  }

  /** Or it is passed on. */
  lemma StreamGrows(log: seq<Event>, ev: Event, joined: nat, live: seq<Event>)
    requires joined <= |log| && FromLog(log, joined, live) && ev.num == |log| + 1
    ensures FromLog(log + [ev], joined, live + [ev])
  {
    var g, more := log + [ev], live + [ev];
    assert g[joined..] == log[joined..] + [ev];
    forall i | 0 <= i < |more| ensures joined < more[i].num <= |g| && more[i] == g[more[i].num - 1] {
      if i < |live| {
        assert more[i] == live[i];
      }
    }
    assert Increasing(more);
  }

  lemma SentKeepsStream(log: seq<Event>, ev: Event, st: Story, buffer: seq<Event>)
    requires StreamOk(log, st, buffer) && ev.num == |log| + 1
    ensures StreamOk(log + [ev], st, Sent(buffer, ev))
  {
    assert (log + [ev])[..st.joined] == log[..st.joined];
    assert Live(st, buffer + [ev]) == Live(st, buffer) + [ev];
    StreamSkips(log, ev, st.joined, Live(st, buffer));
    StreamGrows(log, ev, st.joined, Live(st, buffer));
  }

  lemma FanKeepsStreams(log: seq<Event>, ev: Event, stories: map<nat, Story>, subs: map<nat, seq<Event>>)
    requires StreamsOk(log, stories, subs) && ev.num == |log| + 1
    ensures StreamsOk(log + [ev], stories, Offered(subs, ev))
  {
    forall id | id in subs ensures StreamOk(log + [ev], stories[id], Sent(subs[id], ev)) {
      SentKeepsStream(log, ev, stories[id], subs[id]);
    }
  }

  // ---------------------------------------------------------------------
  // What a client sees
  // ---------------------------------------------------------------------

  /**
   * Replay and live events together never repeat or reorder an event, and all
   * come from the log.
   */
  lemma ClientNeverSeesTwice(log: seq<Event>, st: Story, buffer: seq<Event>)
    requires Numbered(log) && StreamOk(log, st, buffer)
    ensures Increasing(st.replay + Live(st, buffer))
    ensures forall e :: e in st.replay + Live(st, buffer) ==> e in log
  {
    var start := ReplayStart(st.joined, st.after);
    assert forall i :: 0 <= i < |st.replay| ==> st.replay[i] == log[start + i];
  }

  /**
   * The resume contract: if nothing was dropped, replay and live events are
   * exactly the log from where the client left off, or from the oldest event
   * the ring still held when it joined.
   */
  lemma ResumeContract(log: seq<Event>, st: Story, buffer: seq<Event>)
    requires Numbered(log) && StreamOk(log, st, buffer)
    requires |Live(st, buffer)| == |log| - st.joined
    ensures st.replay + Live(st, buffer) == log[ReplayStart(st.joined, st.after)..]
  {
    SliceTwice(log, st.joined, ReplayStart(st.joined, st.after));
  }

  lemma SliceTwice(log: seq<Event>, joined: nat, start: nat)
    requires start <= joined <= |log|
    ensures log[..joined][start..] + log[joined..] == log[start..]
  {
  }

  /**
   * A returning client misses nothing exactly when the ring still reaches back
   * to the event it saw last.
   */
  lemma ResumeIsGapFree(log: seq<Event>, st: Story, buffer: seq<Event>)
    requires Numbered(log) && StoryIsHonest(st) && StreamOk(log, st, buffer)
    requires |Live(st, buffer)| == |log| - st.joined
    ensures st.replay + Live(st, buffer) == log[st.after..] <==> st.joined - st.after <= BUS_RING_SIZE
  {
    ResumeContract(log, st, buffer);
    if st.joined - st.after > BUS_RING_SIZE {
      assert |st.replay + Live(st, buffer)| < |log[st.after..]|;
    }
  }

  /** The client asks to resume after an event that exists. */
  predicate StoryIsHonest(st: Story) { st.after <= st.joined }
}
