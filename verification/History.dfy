/** The bounded list of past runs (internal/ui/history.go:54-103). */
module History {
  import opened Common

  const LIMIT := 200

  datatype Entry = Entry(runID: string, template: string, seed: int, dryRun: bool, status: string) {
    predicate SameRun(e: Entry) { runID == e.runID && template == e.template }
  }

  /** All records so far, each having moved its run to the end. */
  function MovedToEnd(records: seq<Entry>): seq<Entry> {
    if records == [] then []
    else
      var e := records[|records| - 1];
      Filter(MovedToEnd(records[..|records| - 1]), (x: Entry) => !x.SameRun(e)) + [e]
  }

  /** The records that no later one is about the same run as, in the order they were made. */
  function Latest(records: seq<Entry>): seq<Entry> {
    if records == [] then []
    else if exists x :: x in records[1..] && x.SameRun(records[0]) then Latest(records[1..])
    else [records[0]] + Latest(records[1..])
  }

  lemma {:induction false} LatestMore(records: seq<Entry>, e: Entry)
    ensures Latest(records + [e]) == Filter(Latest(records), (x: Entry) => !x.SameRun(e)) + [e]
  {
    if records != [] {
      var rest := records[1..];
      LatestMore(rest, e);
      assert (records + [e])[1..] == rest + [e];
      assert (exists x :: x in rest + [e] && x.SameRun(records[0]))
        <==> (exists x :: x in rest && x.SameRun(records[0])) || e.SameRun(records[0]);
    } else {
      assert [e][1..] == [];
    }
  }

  /** Moving to the end and keeping the latest record of each run are the same. */
  lemma {:induction false} MovedToEndIsLatest(records: seq<Entry>)
    ensures MovedToEnd(records) == Latest(records)
  {
    if records != [] {
      var before, e := records[..|records| - 1], records[|records| - 1];
      MovedToEndIsLatest(before);
      LatestMore(before, e);
      assert records == before + [e];
    }
  }

  /** A record is listed exactly if it is the last about its run; a dry run hides the real one it repeats. */
  lemma {:induction false} LatestMeaning(records: seq<Entry>)
    ensures forall e :: e in Latest(records) <==>
              exists i :: 0 <= i < |records| && records[i] == e && LastOfItsRun(records, i)
  {
    if records != [] {
      var rest := records[1..];
      LatestMeaning(rest);
      forall i | 0 <= i < |rest| ensures LastOfItsRun(rest, i) <==> LastOfItsRun(records, i + 1) {
        assert rest[i + 1..] == records[i + 2..];
      }
      forall e ensures e in Latest(records) <==>
                 exists i :: 0 <= i < |records| && records[i] == e && LastOfItsRun(records, i) {
        if e in Latest(rest) {
          var i :| 0 <= i < |rest| && rest[i] == e && LastOfItsRun(rest, i);
          assert records[i + 1] == e && LastOfItsRun(records, i + 1);
        }
        if i :| 0 < i < |records| && records[i] == e && LastOfItsRun(records, i) {
          assert rest[i - 1] == e && LastOfItsRun(rest, i - 1);
        }
        assert LastOfItsRun(records, 0) <==> forall x :: x in rest ==> !x.SameRun(records[0]);
      }
    }
  }

  predicate LastOfItsRun(records: seq<Entry>, i: nat)
    requires i < |records|
  {
    forall x :: x in records[i + 1..] ==> !x.SameRun(records[i])
  }

  ghost predicate UniqueRuns(s: seq<Entry>) {
    forall i, j :: 0 <= i < j < |s| ==> !s[i].SameRun(s[j])
  }

  lemma {:induction false} LatestIsUnique(records: seq<Entry>)
    ensures UniqueRuns(Latest(records)) && forall x :: x in Latest(records) ==> x in records
  {
    if records != [] {
      LatestIsUnique(records[1..]);
      var later := Latest(records[1..]);
      forall i | 0 <= i < |later| ensures later[i] in records[1..] {
        assert later[i] in later;
      }
    }
  }

  /** At most one entry of a list of distinct runs is about a given run. */
  lemma {:induction false} FilterDropsAtMostOne(s: seq<Entry>, e: Entry)
    requires UniqueRuns(s)
    ensures |s| - 1 <= |Filter(s, (x: Entry) => !x.SameRun(e))| <= |s|
    ensures |Filter(s, (x: Entry) => !x.SameRun(e))| == |s| ==> Filter(s, (x: Entry) => !x.SameRun(e)) == s
  {
    if s != [] {
      var rest := s[1..];
      FilterDropsAtMostOne(rest, e);
      assert s == [s[0]] + rest;
      if s[0].SameRun(e) {
        forall x | x in rest ensures !x.SameRun(e) {
          var i :| 0 <= i < |rest| && rest[i] == x;
          assert s[i + 1] == x;
        }
        FilterNone(rest, e);
      }
    }
  }

  lemma {:induction false} FilterNone(s: seq<Entry>, e: Entry)
    requires forall x :: x in s ==> !x.SameRun(e)
    ensures Filter(s, (x: Entry) => !x.SameRun(e)) == s
  {
    if s != [] {
      assert s == [s[0]] + s[1..];
      assert s[0] in s;
      FilterNone(s[1..], e);
    }
  }

  lemma FilterFromWindow(all: seq<Entry>, k: nat, e: Entry)
    requires k <= |all|
    ensures var other := (x: Entry) => !x.SameRun(e);
            Filter(all, other) == Filter(all[..|all| - k], other) + Filter(all[|all| - k..], other)
  {
    assert all == all[..|all| - k] + all[|all| - k..];
    FilterConcat(all[..|all| - k], all[|all| - k..], (x: Entry) => !x.SameRun(e));
  }

  lemma UniqueInWindow(all: seq<Entry>, k: nat)
    requires k <= |all| && UniqueRuns(all)
    ensures UniqueRuns(all[|all| - k..])
  {
  }

  /** Truncating after every record, or once at the end, makes no difference. */
  lemma TruncationCommutes(all: seq<Entry>, e: Entry)
    requires UniqueRuns(all)
    ensures var other := (x: Entry) => !x.SameRun(e);
            LastN(Filter(LastN(all, LIMIT), other) + [e], LIMIT) == LastN(Filter(all, other) + [e], LIMIT)
  {
    if |all| > LIMIT {
      var other := (x: Entry) => !x.SameRun(e);
      var before, window := Filter(all[..|all| - LIMIT], other), all[|all| - LIMIT..];
      FilterFromWindow(all, LIMIT, e);
      UniqueInWindow(all, LIMIT);
      FilterDropsAtMostOne(window, e);
      LastOfConcat(before, Filter(window, other), e, LIMIT);
    }
  }

  lemma LastOfConcat<T>(a: seq<T>, b: seq<T>, x: T, k: nat)
    requires |b| + 1 >= k > 0
    ensures LastN(b + [x], k) == LastN(a + b + [x], k)
  {
    assert a + b + [x] == a + (b + [x]);
  }

  class RunHistory {
    var entries: seq<Entry>
    ghost var records: seq<Entry>

    ghost predicate Valid()
      reads this
    {
      entries == LastN(Latest(records), LIMIT)
    }

    constructor ()
      ensures Valid() && records == []
    {
      entries, records := [], [];
    }

    /** Drops the run's earlier entry, appends the new one, and keeps the last 200. */
    method RecordHistory(e: Entry)
      requires Valid()
      modifies this
      ensures Valid() && records == old(records) + [e]
      ensures entries != [] && entries[|entries| - 1] == e && |entries| <= LIMIT && UniqueRuns(entries)
    {
      var out := OtherRuns(e);
      out := out + [e];
      if |out| > LIMIT {
        out := out[|out| - LIMIT..];
      }
      LatestIsUnique(records);
      LatestMore(records, e);
      TruncationCommutes(Latest(records), e);
      entries := out;
      records := records + [e];
      LatestIsUnique(records);
    }

    method OtherRuns(e: Entry) returns (out: seq<Entry>)
      ensures out == Filter(entries, (x: Entry) => !x.SameRun(e))
    {
      var other := (x: Entry) => !x.SameRun(e);
      out := [];
      for i := 0 to |entries|
        invariant out == Filter(entries[..i], other)
      {
        assert entries[..i + 1] == entries[..i] + [entries[i]];
        FilterConcat(entries[..i], [entries[i]], other);
        if !entries[i].SameRun(e) {
          out := out + [entries[i]];
        }
      }
      assert entries[..|entries|] == entries;
    }

    /** The last listed run that was not a dry run, of the given template or of any. */
    method LastRealRun(template: string) returns (r: Option<Entry>)
      requires Valid()
      ensures r.None? ==> forall i :: 0 <= i < |entries| ==> !IsReal(entries[i], template)
      ensures r.Some? ==>
                && IsReal(r.value, template)
                && exists i :: 0 <= i < |entries| && entries[i] == r.value &&
                     forall j :: i < j < |entries| ==> !IsReal(entries[j], template)
    {
      var i := |entries| - 1;
      while i >= 0
        invariant -1 <= i < |entries|
        invariant forall j :: i < j < |entries| ==> !IsReal(entries[j], template)
      {
        var e := entries[i];
        if e.dryRun || (template != "" && e.template != template) {
          i := i - 1;
          continue;
        }
        return Some(e);
      }
      return None;
    }

    /** The listed real runs of a template, oldest first: the last of them is the last real run. */
    method RunsForTemplate(template: string) returns (out: seq<Entry>)
      requires Valid()
      ensures out == Filter(entries, (e: Entry) => IsReal(e, template))
    {
      var wanted := (e: Entry) => IsReal(e, template);
      out := [];
      for i := 0 to |entries|
        invariant out == Filter(entries[..i], wanted)
      {
        assert entries[..i + 1] == entries[..i] + [entries[i]];
        FilterConcat(entries[..i], [entries[i]], wanted);
        if entries[i].dryRun || (template != "" && entries[i].template != template) {
          continue;
        }
        out := out + [entries[i]];
      }
      assert entries[..|entries|] == entries;
    }
  }

  predicate IsReal(e: Entry, template: string) {
    !e.dryRun && (template == "" || e.template == template)
  }

  /** A real run that is recorded again as a dry run is no longer found, whatever it was. */
  lemma DryRunHidesRealRun(records: seq<Entry>, actual: Entry, dry: Entry)
    requires !actual.dryRun && dry.dryRun && dry.SameRun(actual)
    ensures forall x :: x in Latest(records + [actual] + [dry]) ==> x.SameRun(actual) ==> x == dry
  {
    var s := records + [actual];
    LatestMore(s, dry);
    FilterMembers(Latest(s), (x: Entry) => !x.SameRun(dry));
  }
}
