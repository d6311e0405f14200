/**
 * Keeping workload pods off avoided nodes (internal/topology/scheduling.go): tolerations that
 * would let a pod in are dropped, and the avoid list is compiled to required node affinity.
 */
module Scheduling {
  import opened Common
  import opened NodeRules
  import opened Taints

  const CONTROL_PLANE := ["node-role.kubernetes.io/master", "node-role.kubernetes.io/control-plane"]
  const ROLE := "node-role.kubernetes.io"
  const INFRA := "node-role.kubernetes.io/infra"

  function WithControlPlane(avoid: seq<AvoidTaint>): seq<AvoidTaint> {
    avoid + [AvoidTaint(CONTROL_PLANE[0], "", "NoSchedule"), AvoidTaint(CONTROL_PLANE[1], "", "NoSchedule")]
  }

  predicate InfraForm(a: AvoidTaint) { a.key == ROLE && a.value == "infra" }

  // ---------------------------------------------------------------------
  // Tolerations
  // ---------------------------------------------------------------------

  /** Lower case, as far as a comparison with words of ASCII letters can tell. */
  function Lower(c: char): char {
    if 'A' <= c <= 'Z' then (c as int + 32) as char
    else if c == '\U{130}' then 'i'
    else if c == '\U{212A}' then 'k'
    else c
  }

  function LowerAll(s: string): string {
    seq(|s|, i requires 0 <= i < |s| => Lower(s[i]))
  }

  predicate MatchesToleration(a: AvoidTaint, tol: Toleration) {
    if tol.key == "" then true
    else if tol.key != a.key then false
    else
      var op := if tol.operator == "" then "equal" else LowerAll(tol.operator);
      if op == "equal" && a.value != tol.value then false
      else if op != "equal" && op != "exists" && a.value != "" && tol.value != "" && a.value != tol.value then false
      else !(a.effect != "" && tol.effect != "" && a.effect != tol.effect)
  }

  predicate Allowed(tol: Toleration, avoid: seq<AvoidTaint>) {
    forall a :: a in avoid ==> !MatchesToleration(a, tol)
  }

  method TolerationAllowed(tol: Toleration, avoid: seq<AvoidTaint>) returns (ok: bool)
    ensures ok == Allowed(tol, avoid)
  {
    for i := 0 to |avoid|
      invariant Allowed(tol, avoid[..i])
    {
      if MatchesToleration(avoid[i], tol) {
        return false;
      }
    }
    return true;
  }

  function Kept(tols: seq<Toleration>, avoid: seq<AvoidTaint>): seq<Toleration> {
    Filter(tols, tol => Allowed(tol, avoid))
  }

  method FilterTolerations(tols: seq<Toleration>, avoid: seq<AvoidTaint>) returns (out: seq<Toleration>)
    ensures out == Kept(tols, avoid)
  {
    var allowed := (tol: Toleration) => Allowed(tol, avoid);
    if |avoid| == 0 || |tols| == 0 {
      FilterAll(tols, allowed);
      return tols;
    }
    out := [];
    for i := 0 to |tols|
      invariant out == Filter(tols[..i], allowed)
    {
      assert tols[..i + 1] == tols[..i] + [tols[i]];
      FilterConcat(tols[..i], [tols[i]], allowed);
      var ok := TolerationAllowed(tols[i], avoid);
      if ok {
        out := out + [tols[i]];
      }
    }
    assert tols[..|tols|] == tols;
  }

  lemma {:induction false} FilterAll<T>(s: seq<T>, p: T -> bool)
    requires forall x :: x in s ==> p(x)
    ensures Filter(s, p) == s
  {
    if s != [] {
      assert s[0] in s && s == [s[0]] + s[1..];
      FilterAll(s[1..], p);
    }
  }

  /** The elements of a appear in b, in order. */
  ghost predicate Within<T>(a: seq<T>, b: seq<T>) {
    if a == [] then true
    else if b == [] then false
    else (a[0] == b[0] && Within(a[1..], b[1..])) || Within(a, b[1..])
  }

  /** An in-order subsequence, with every allowed toleration as often as before and no other. */
  lemma {:induction false} KeptMeaning(tols: seq<Toleration>, avoid: seq<AvoidTaint>)
    ensures Within(Kept(tols, avoid), tols)
    ensures forall tol :: multiset(Kept(tols, avoid))[tol] ==
                          if Allowed(tol, avoid) then multiset(tols)[tol] else 0
  {
    if tols != [] {
      KeptMeaning(tols[1..], avoid);
      assert tols == [tols[0]] + tols[1..];
    }
  }

  /** The taints an avoid entry names. */
  predicate Names(a: AvoidTaint, t: Taint) {
    t.key == a.key && t.value == a.value && (a.effect == "" || t.effect == a.effect)
  }

  /** No kept toleration tolerates a taint that is named by the avoid list. */
  lemma KeptToleratesNoNamedTaint(tols: seq<Toleration>, avoid: seq<AvoidTaint>, tol: Toleration, a: AvoidTaint, t: Taint)
    requires tol in Kept(tols, avoid) && a in avoid && Names(a, t)
    ensures !Tolerates(tol, t)
  {
    FilterMembers(tols, (x: Toleration) => Allowed(x, avoid));
    WordsAreDistinct();
  }

  lemma WordsAreDistinct()
    ensures LowerAll("Equal") == "equal" && LowerAll("Exists") == "exists"
    ensures "equal" != "exists" && "Equal" != "Exists" && "Exists" != "" && "Equal" != ""
  {
    assert LowerAll("Equal") == "equal";
    assert LowerAll("Exists") == "exists";
    assert |"equal"| == 5 && |"exists"| == 6;
  }

  /**
   * A toleration of a taint the entry names is dropped; and one with a key and a known operator
   * is dropped only if it is such a toleration.
   */
  lemma MatchesIffToleratesNamed(a: AvoidTaint, tol: Toleration)
    ensures (exists t :: Names(a, t) && Tolerates(tol, t)) ==> MatchesToleration(a, tol)
    ensures tol.key != "" && tol.operator in ["", "Equal", "Exists"] && MatchesToleration(a, tol) ==>
              exists t :: Names(a, t) && Tolerates(tol, t)
  {
    WordsAreDistinct();
    var t := Taint(a.key, a.value, if a.effect != "" then a.effect else tol.effect);
    if tol.key != "" && tol.operator in ["", "Equal", "Exists"] && MatchesToleration(a, tol) {
      assert Names(a, t) && Tolerates(tol, t);
    }
  }

  // ---------------------------------------------------------------------
  // The avoid list as requirements
  // ---------------------------------------------------------------------

  function Absent(key: string): Requirement { Requirement(key, DoesNotExist, []) }

  function Not(key: string, value: string): Requirement { Requirement(key, NotIn, [value]) }

  predicate IsWant(w: Requirement) { w == Absent(w.key) || (|w.values| == 1 && w == Not(w.key, w.values[0])) }

  /** What one entry asks of a node's labels. */
  function Want(a: AvoidTaint): (ws: seq<Requirement>)
    ensures forall w :: w in ws ==> IsWant(w)
  {
    if InfraForm(a) then [Not(a.key, a.value), Absent(INFRA)]
    else if a.value == "" then [Absent(a.key)]
    else [Not(a.key, a.value)]
  }

  function Wants(avoid: seq<AvoidTaint>): (ws: seq<Requirement>)
    ensures forall w :: w in ws ==> IsWant(w)
  {
    if avoid == [] then [Absent(CONTROL_PLANE[0]), Absent(CONTROL_PLANE[1])]
    else Wants(avoid[..|avoid| - 1]) + Want(avoid[|avoid| - 1])
  }

  lemma {:induction false} WantsMembers(avoid: seq<AvoidTaint>)
    ensures forall w :: w in Wants(avoid) <==>
                        w in Wants([]) || exists a :: a in avoid && w in Want(a)
  {
    if avoid != [] {
      WantsMembers(avoid[..|avoid| - 1]);
      assert avoid == avoid[..|avoid| - 1] + [avoid[|avoid| - 1]];
    }
  }

  /** Requirements without a key, or on an empty value, are not added. */
  predicate Useful(w: Requirement) { w.key != "" && w.values != [""] }

  /** The text by which a requirement is recognised as already present. */
  function Id(w: Requirement): string
    requires IsWant(w)
  {
    if w.op.DoesNotExist? then "!" + w.key else w.key + "!=" + w.values[0]
  }

  predicate SeenIn(id: string, ws: seq<Requirement>)
    requires forall w :: w in ws ==> IsWant(w)
  {
    exists w :: w in ws && Useful(w) && Id(w) == id
  }

  /** The useful requirements, one for each text. */
  function Once(ws: seq<Requirement>): seq<Requirement>
    requires forall w :: w in ws ==> IsWant(w)
  {
    if ws == [] then []
    else
      var before, w := ws[..|ws| - 1], ws[|ws| - 1];
      if Useful(w) && !SeenIn(Id(w), before) then Once(before) + [w] else Once(before)
  }

  function Ids(ws: seq<Requirement>): set<string>
    requires forall w :: w in ws ==> IsWant(w)
  {
    set w | w in ws && Useful(w) :: Id(w)
  }

  ghost predicate Added(ws: seq<Requirement>, seen: set<string>, exprs: seq<Requirement>) {
    (forall w :: w in ws ==> IsWant(w)) && exprs == Once(ws) && seen == Ids(ws)
  }

  lemma AddedMore(ws: seq<Requirement>, seen: set<string>, exprs: seq<Requirement>, w: Requirement)
    requires Added(ws, seen, exprs) && IsWant(w)
    ensures !Useful(w) ==> Added(ws + [w], seen, exprs)
    ensures Useful(w) && Id(w) in seen ==> Added(ws + [w], seen, exprs)
    ensures Useful(w) && Id(w) !in seen ==> Added(ws + [w], seen + {Id(w)}, exprs + [w])
  {
    assert (ws + [w])[..|ws|] == ws;
    assert Id(w) in seen <==> SeenIn(Id(w), ws);
    assert Ids(ws + [w]) == if Useful(w) then Ids(ws) + {Id(w)} else Ids(ws);
  }

  method AddDoesNotExist(ghost ws: seq<Requirement>, seen: set<string>, exprs: seq<Requirement>, key: string)
    returns (seen': set<string>, exprs': seq<Requirement>)
    requires Added(ws, seen, exprs)
    ensures Added(ws + [Absent(key)], seen', exprs')
  {
    AddedMore(ws, seen, exprs, Absent(key));
    if key == "" || "!" + key in seen {
      return seen, exprs;
    }
    seen', exprs' := seen + {"!" + key}, exprs + [Absent(key)];
  }

  method AddNotIn(ghost ws: seq<Requirement>, seen: set<string>, exprs: seq<Requirement>, key: string, value: string)
    returns (seen': set<string>, exprs': seq<Requirement>)
    requires Added(ws, seen, exprs)
    ensures Added(ws + [Not(key, value)], seen', exprs')
  {
    AddedMore(ws, seen, exprs, Not(key, value));
    var id := key + "!=" + value;
    if key == "" || value == "" || id in seen {
      return seen, exprs;
    }
    seen', exprs' := seen + {id}, exprs + [Not(key, value)];
  }

  /** Adds what one entry asks for. */
  method AddEntry(ghost ws: seq<Requirement>, seen: set<string>, exprs: seq<Requirement>, a: AvoidTaint)
    returns (seen': set<string>, exprs': seq<Requirement>)
    requires Added(ws, seen, exprs)
    ensures Added(ws + Want(a), seen', exprs')
  {
    if a.key == ROLE && a.value == "infra" {
      seen', exprs' := AddNotIn(ws, seen, exprs, a.key, a.value);
      seen', exprs' := AddDoesNotExist(ws + [Not(a.key, a.value)], seen', exprs', INFRA);
      assert ws + [Not(a.key, a.value)] + [Absent(INFRA)] == ws + Want(a);
    } else if Contains(a.key, ROLE + "/") && a.value == "" {
      seen', exprs' := AddDoesNotExist(ws, seen, exprs, a.key);
    } else if a.value != "" {
      seen', exprs' := AddNotIn(ws, seen, exprs, a.key, a.value);
    } else {
      seen', exprs' := AddDoesNotExist(ws, seen, exprs, a.key);
    }
  }

  predicate Contains(s: string, part: string)
    requires part != ""
  {
    if |s| < |part| then false else s[..|part|] == part || Contains(s[1..], part)
  }

  function Compiled(avoid: seq<AvoidTaint>): seq<Requirement> { Once(Wants(avoid)) }

  method AvoidLabelExpressions(avoid: seq<AvoidTaint>) returns (exprs: seq<Requirement>)
    ensures exprs == Compiled(avoid)
  {
    var seen: set<string> := {};
    exprs := [];
    seen, exprs := AddDoesNotExist([], seen, exprs, CONTROL_PLANE[0]);
    seen, exprs := AddDoesNotExist([Absent(CONTROL_PLANE[0])], seen, exprs, CONTROL_PLANE[1]);
    for i := 0 to |avoid|
      invariant Added(Wants(avoid[..i]), seen, exprs)
    {
      assert avoid[..i + 1][..i] == avoid[..i];
      seen, exprs := AddEntry(Wants(avoid[..i]), seen, exprs, avoid[i]);
    }
    assert avoid[..|avoid|] == avoid;
  }

  /** A requirement of the list that no earlier useful one shares its text with. */
  predicate Chosen(ws: seq<Requirement>, w: Requirement)
    requires forall u :: u in ws ==> IsWant(u)
  {
    exists i :: 0 <= i < |ws| && FirstOfItsText(ws, i) && ws[i] == w
  }

  lemma FirstInLonger(before: seq<Requirement>, last: Requirement, i: nat)
    requires (forall u :: u in before ==> IsWant(u)) && IsWant(last) && i < |before|
    ensures FirstOfItsText(before + [last], i) <==> FirstOfItsText(before, i)
  {
    assert (before + [last])[..i] == before[..i];
  }

  lemma ChosenMore(before: seq<Requirement>, last: Requirement, w: Requirement)
    requires (forall u :: u in before ==> IsWant(u)) && IsWant(last)
    ensures Chosen(before + [last], w) <==>
              Chosen(before, w) || (w == last && Useful(last) && !SeenIn(Id(last), before))
  {
    var ws := before + [last];
    assert ws[..|before|] == before;
    if Chosen(before, w) {
      var i :| 0 <= i < |before| && FirstOfItsText(before, i) && before[i] == w;
      FirstInLonger(before, last, i);
      assert ws[i] == w;
    }
    if Chosen(ws, w) {
      var i :| 0 <= i < |ws| && FirstOfItsText(ws, i) && ws[i] == w;
      if i < |before| {
        FirstInLonger(before, last, i);
      }
    }
    if w == last && Useful(last) && !SeenIn(Id(last), before) {
      assert FirstOfItsText(ws, |before|);
    }
  }

  /** Kept are the useful requirements that no earlier useful one shares its text with. */
  lemma {:induction false} OnceMeaning(ws: seq<Requirement>)
    requires forall w :: w in ws ==> IsWant(w)
    ensures forall w :: w in Once(ws) <==> Chosen(ws, w)
  {
    if ws != [] {
      var before, last := ws[..|ws| - 1], ws[|ws| - 1];
      OnceMeaning(before);
      assert ws == before + [last];
      forall w ensures w in Once(ws) <==> Chosen(ws, w) {
        ChosenMore(before, last, w);
      }
    }
  }

  predicate FirstOfItsText(ws: seq<Requirement>, i: int)
    requires forall w :: w in ws ==> IsWant(w)
    requires 0 <= i < |ws|
  {
    Useful(ws[i]) && !SeenIn(Id(ws[i]), ws[..i])
  }

  /** Every useful requirement is represented by a kept one with the same text. */
  lemma {:induction false} OnceCovers(ws: seq<Requirement>, w: Requirement)
    requires (forall u :: u in ws ==> IsWant(u)) && w in ws && Useful(w)
    ensures exists u :: u in Once(ws) && u in ws && Useful(u) && Id(u) == Id(w)
  {
    var before, last := ws[..|ws| - 1], ws[|ws| - 1];
    assert ws == before + [last];
    if w in before {
      OnceCovers(before, w);
    } else if SeenIn(Id(w), before) {
      var v :| v in before && Useful(v) && Id(v) == Id(w);
      OnceCovers(before, v);
    }
  }

  lemma {:induction false} OnceWithin(ws: seq<Requirement>)
    requires forall u :: u in ws ==> IsWant(u)
    ensures forall u :: u in Once(ws) ==> u in ws && Useful(u)
  {
    if ws != [] {
      OnceWithin(ws[..|ws| - 1]);
    }
  }

  /** A key with an exclamation mark right before an equals sign; no parsed key has an equals sign at all. */
  predicate HasMark(key: string) {
    exists i :: 0 <= i < |key| - 1 && MarkAt(key, i)
  }

  predicate MarkAt(s: string, i: int)
    requires 0 <= i < |s| - 1
  {
    s[i] == '!' && s[i + 1] == '='
  }

  predicate MarkFree(avoid: seq<AvoidTaint>) {
    forall a :: a in avoid ==> !HasMark(a.key)
  }

  lemma IdOfNot(w: Requirement, i: nat)
    requires IsWant(w) && w.op.NotIn?
    ensures |Id(w)| >= |w.key| + 2 && MarkAt(Id(w), |w.key|)
    ensures i < |w.key| ==> Id(w)[i] == w.key[i]
    ensures Id(w)[..|w.key|] == w.key && Id(w)[|w.key| + 2..] == w.values[0]
  {
  }

  /** Texts stand for one requirement when no key has such a mark. */
  lemma TextsAreUnique(u: Requirement, w: Requirement)
    requires IsWant(u) && IsWant(w) && u.key != "" && w.key != ""
    requires !HasMark(u.key) && !HasMark(w.key) && Id(u) == Id(w)
    ensures u == w
  {
    if u.op.DoesNotExist? && w.op.DoesNotExist? {
      assert Id(u)[1..] == u.key && Id(w)[1..] == w.key;
    } else if u.op.DoesNotExist? {
      AbsentIsNotNot(u, w);
    } else if w.op.DoesNotExist? {
      AbsentIsNotNot(w, u);
    } else if |u.key| < |w.key| {
      ShorterHasMark(u, w);
    } else if |w.key| < |u.key| {
      ShorterHasMark(w, u);
    } else {
      IdOfNot(u, 0);
      IdOfNot(w, 0);
    }
  }

  lemma AbsentIsNotNot(u: Requirement, w: Requirement)
    requires IsWant(u) && IsWant(w) && u.op.DoesNotExist? && w.op.NotIn? && w.key != "" && Id(u) == Id(w)
    ensures HasMark(u.key)
  {
    var n := |w.key|;
    IdOfNot(w, 0);
    assert Id(u)[n] == u.key[n - 1] && Id(u)[n + 1] == u.key[n];
    assert MarkAt(u.key, n - 1);
  }

  lemma ShorterHasMark(u: Requirement, w: Requirement)
    requires IsWant(u) && IsWant(w) && u.op.NotIn? && w.op.NotIn? && Id(u) == Id(w) && |u.key| < |w.key|
    ensures HasMark(w.key)
  {
    var n := |u.key|;
    IdOfNot(u, 0);
    IdOfNot(w, n);
    IdOfNot(w, n + 1);
    assert MarkAt(w.key, n);
  }

  /** A node's labels meet everything the avoid list asks for. */
  predicate Meets(labels: Labels, avoid: seq<AvoidTaint>) {
    forall w :: w in Wants(avoid) && Useful(w) ==> Holds(w, labels)
  }

  /** Whatever is asked for comes first with its text, or its key is asked to be absent and that comes first. */
  predicate NothingLost(avoid: seq<AvoidTaint>) {
    forall w :: w in Wants(avoid) && Useful(w) ==> Chosen(Wants(avoid), w) || Chosen(Wants(avoid), Absent(w.key))
  }

  /** The compiled list never asks for more than the avoid list. */
  lemma CompiledIsNeverStricter(avoid: seq<AvoidTaint>, labels: Labels)
    requires Meets(labels, avoid)
    ensures AllHold(Compiled(avoid), labels)
  {
    OnceWithin(Wants(avoid));
  }

  /** Recognising requirements by their text is faithful exactly if nothing is lost. */
  lemma CompiledIsFaithfulIff(avoid: seq<AvoidTaint>)
    ensures (forall labels: Labels :: AllHold(Compiled(avoid), labels) <==> Meets(labels, avoid)) <==> NothingLost(avoid)
  {
    OnceMeaning(Wants(avoid));
    if NothingLost(avoid) {
      forall labels: Labels ensures AllHold(Compiled(avoid), labels) <==> Meets(labels, avoid) {
        if Meets(labels, avoid) {
          CompiledIsNeverStricter(avoid, labels);
        }
      }
    } else {
      var w :| w in Wants(avoid) && Useful(w) && w !in Compiled(avoid) && Absent(w.key) !in Compiled(avoid);
      var labels := Breaking(avoid, w);
      assert !Meets(labels, avoid) && AllHold(Compiled(avoid), labels);
    }
  }

  /** Labels that break a lost requirement and no compiled one. */
  lemma Breaking(avoid: seq<AvoidTaint>, w: Requirement) returns (labels: Labels)
    requires w in Wants(avoid) && Useful(w) && w !in Compiled(avoid) && Absent(w.key) !in Compiled(avoid)
    ensures !Holds(w, labels) && AllHold(Compiled(avoid), labels)
  {
    var rs := Compiled(avoid);
    OnceWithin(Wants(avoid));
    var value := if w.op.NotIn? then w.values[0] else Fresh(rs);
    labels := map[w.key := value];
    forall r | r in rs ensures Holds(r, labels) {
      if r.key == w.key {
        assert r != w && r.op.NotIn?;
        assert r.values[0] != value;
      }
    }
  }

  /** A string that no requirement mentions as a value. */
  function Fresh(rs: seq<Requirement>): (s: string)
    ensures s != "" && forall r :: r in rs ==> forall v :: v in r.values ==> |v| < |s|
  {
    if rs == [] then "a"
    else
      assert rs == [rs[0]] + rs[1..];
      var s := Fresh(rs[1..]) + Longest(rs[0].values);
      assert forall v :: v in rs[0].values ==> |v| < |s|;
      s
  }

  function Longest(vs: seq<string>): (s: string)
    ensures forall v :: v in vs ==> |v| <= |s|
  {
    if vs == [] then ""
    else
      assert vs == [vs[0]] + vs[1..];
      vs[0] + Longest(vs[1..])
  }

  lemma BuiltInKeysAreMarkFree()
    ensures !HasMark(INFRA) && !HasMark(CONTROL_PLANE[0]) && !HasMark(CONTROL_PLANE[1])
  {
    assert '=' !in INFRA && '=' !in CONTROL_PLANE[0] && '=' !in CONTROL_PLANE[1];
    NoEqualsNoMark(INFRA);
    NoEqualsNoMark(CONTROL_PLANE[0]);
    NoEqualsNoMark(CONTROL_PLANE[1]);
  }

  lemma NoEqualsNoMark(key: string)
    requires '=' !in key || '!' !in key
    ensures !HasMark(key)
  {
  }

  lemma {:induction false} WantedKeysAreMarkFree(avoid: seq<AvoidTaint>)
    requires MarkFree(avoid)
    ensures forall w :: w in Wants(avoid) ==> !HasMark(w.key)
  {
    BuiltInKeysAreMarkFree();
    if avoid != [] {
      WantedKeysAreMarkFree(avoid[..|avoid| - 1]);
    }
  }

  /** Without such a mark in any key nothing is lost. */
  lemma MarkFreeLosesNothing(avoid: seq<AvoidTaint>)
    requires MarkFree(avoid)
    ensures NothingLost(avoid)
  {
    var ws := Wants(avoid);
    WantedKeysAreMarkFree(avoid);
    OnceMeaning(ws);
    forall w | w in ws && Useful(w) ensures w in Once(ws) {
      OnceCovers(ws, w);
      var u :| u in Once(ws) && u in ws && Useful(u) && Id(u) == Id(w);
      TextsAreUnique(u, w);
    }
  }

  /** Every parsed avoid list, and every list without exclamation marks in its keys, is free of them. */
  lemma ParsedIsMarkFree(avoid: seq<AvoidTaint>)
    requires (forall a :: a in avoid ==> Canonical(a)) || (forall a :: a in avoid ==> '!' !in a.key)
    ensures MarkFree(avoid) && MarkFree(WithControlPlane(avoid))
  {
    forall a | a in avoid ensures !HasMark(a.key) {
      NoEqualsNoMark(a.key);
    }
    BuiltInKeysAreMarkFree();
  }

  lemma {:induction false} OnceKeepsOnePerText(ws: seq<Requirement>, u: Requirement, w: Requirement)
    requires forall x :: x in ws ==> IsWant(x)
    requires u in Once(ws) && w in Once(ws) && u in ws && w in ws && Id(u) == Id(w)
    ensures u == w
  {
    var before, last := ws[..|ws| - 1], ws[|ws| - 1];
    OnceWithin(before);
    if u in Once(before) && w in Once(before) {
      OnceKeepsOnePerText(before, u, w);
    }
  }

  /**
   * Of two different requirements with one text, only one is kept. So if nothing is lost, the
   * key of one of them is also asked to be absent.
   */
  lemma SharedTextKeepsOne(avoid: seq<AvoidTaint>, u: Requirement, w: Requirement)
    requires u in Wants(avoid) && w in Wants(avoid) && Useful(u) && Useful(w)
    requires u != w && Id(u) == Id(w)
    ensures !Chosen(Wants(avoid), u) || !Chosen(Wants(avoid), w)
    ensures NothingLost(avoid) ==> Chosen(Wants(avoid), Absent(u.key)) || Chosen(Wants(avoid), Absent(w.key))
    ensures NothingLost(avoid) ==> Absent(u.key) in Wants(avoid) || Absent(w.key) in Wants(avoid)
  {
    var ws := Wants(avoid);
    OnceMeaning(ws);
    OnceWithin(ws);
    if u in Once(ws) && w in Once(ws) {
      OnceKeepsOnePerText(ws, u, w);
    }
  }

  const SHARING := [AvoidTaint("a", "b!=c", ""), AvoidTaint("a!=b", "c", "")]

  lemma SharingWants()
    ensures Not("a", "b!=c") in Wants(SHARING) && Not("a!=b", "c") in Wants(SHARING)
    ensures Absent("a") !in Wants(SHARING) && Absent("a!=b") !in Wants(SHARING)
  {
    WantsMembers(SHARING);
    assert |ROLE| > 4 && |CONTROL_PLANE[0]| > 4 && |CONTROL_PLANE[1]| > 4 && |INFRA| > 4;
    assert Want(SHARING[0]) == [Not("a", "b!=c")] && Want(SHARING[1]) == [Not("a!=b", "c")];
    assert SHARING[0] in SHARING && SHARING[1] in SHARING;
  }

  lemma SharingTexts()
    ensures Id(Not("a", "b!=c")) == Id(Not("a!=b", "c"))
  {
    assert Id(Not("a", "b!=c")) == "a!=b!=c" && Id(Not("a!=b", "c")) == "a!=b!=c";
  }

  /** Two requirements can share a text, and one of them is lost. */
  lemma TextsCanBeShared()
    ensures !NothingLost(SHARING)
  {
    SharingWants();
    SharingTexts();
    SharedTextKeepsOne(SHARING, Not("a", "b!=c"), Not("a!=b", "c"));
  }

  // ---------------------------------------------------------------------
  // Affinity
  // ---------------------------------------------------------------------

  function Affinity(avoid: seq<AvoidTaint>): NodeAffinity {
    NodeAffinity(Some([Term(Compiled(avoid), [])]), [])
  }

  /** Never empty-handed: the control-plane labels are always asked to be absent. */
  method AvoidTaintAffinity(avoid: seq<AvoidTaint>) returns (aff: Option<NodeAffinity>)
    ensures aff == Some(Affinity(avoid))
  {
    var exprs := AvoidLabelExpressions(avoid);
    AlwaysCompiled(avoid);
    if |exprs| == 0 {
      return None;
    }
    return Some(NodeAffinity(Some([Term(exprs, [])]), []));
  }

  lemma {:induction false} AlwaysCompiled(avoid: seq<AvoidTaint>)
    ensures Compiled(avoid) != []
  {
    var ws := Wants(avoid);
    WantsMembers(avoid);
    assert Wants([])[0] == Absent(CONTROL_PLANE[0]) && Useful(Absent(CONTROL_PLANE[0]));
    OnceCovers(ws, Absent(CONTROL_PLANE[0]));
  }

  function AllExprs(terms: seq<Term>): seq<Requirement> {
    if terms == [] then [] else AllExprs(terms[..|terms| - 1]) + terms[|terms| - 1].exprs
  }

  function Extended(terms: seq<Term>, extra: seq<Requirement>): seq<Term> {
    seq(|terms|, i requires 0 <= i < |terms| => terms[i].(exprs := terms[i].exprs + extra))
  }

  function Merged(existing: Option<NodeAffinity>, extra: Option<NodeAffinity>): Option<NodeAffinity> {
    match (existing, extra)
    case (None, _) => extra
    case (_, None) => existing
    case (Some(e), Some(x)) =>
      if e.required.None? || (x.required.Some? && e.required.value == []) then Some(e.(required := x.required))
      else if x.required.None? then existing
      else Some(e.(required := Some(Extended(e.required.value, AllExprs(x.required.value)))))
  }

  method MergeNodeAffinity(existing: Option<NodeAffinity>, extra: Option<NodeAffinity>)
    returns (r: Option<NodeAffinity>)
    ensures r == Merged(existing, extra)
  {
    if existing.None? { return extra; }
    if extra.None? { return existing; }
    var e, x := existing.value, extra.value;
    if e.required.None? { return Some(e.(required := x.required)); }
    if x.required.None? { return existing; }
    var terms := e.required.value;
    if |terms| == 0 { return Some(e.(required := x.required)); }
    var more: seq<Requirement> := [];
    var xs := x.required.value;
    for i := 0 to |xs|
      invariant more == AllExprs(xs[..i])
    {
      assert xs[..i + 1][..i] == xs[..i];
      more := more + xs[i].exprs;
    }
    assert xs[..|xs|] == xs;
    for i := 0 to |terms|
      invariant |terms| == |e.required.value|
      invariant terms == Extended(e.required.value[..i], more) + e.required.value[i..]
    {
      terms := terms[i := terms[i].(exprs := terms[i].exprs + more)];
    }
    assert e.required.value[..|terms|] == e.required.value && terms == Extended(e.required.value, more);
    return Some(e.(required := Some(terms)));
  }

  /** The old affinity has a required list, and in it a term without requirements or no term. */
  predicate HasVoid(aff: Option<NodeAffinity>) {
    && aff.Some? && aff.value.required.Some?
    && (aff.value.required.value == [] || exists t :: t in aff.value.required.value && t.Empty())
  }

  /** Merging means both, except that a term that selected nothing now selects what the avoid list does. */
  lemma MergedMeaning(prior: Option<NodeAffinity>, avoid: seq<AvoidTaint>, n: Node)
    ensures Accepts(Merged(prior, Some(Affinity(avoid))), n)
       <==> AllHold(Compiled(avoid), n.labels) && (Accepts(prior, n) || HasVoid(prior))
    ensures prior.Some? ==> Merged(prior, Some(Affinity(avoid))).value.preferred == prior.value.preferred
  {
    var extra := Compiled(avoid);
    AlwaysCompiled(avoid);
    var own := [Term(extra, [])];
    assert AllExprs(own) == extra by { assert own[..0] == []; }
    SingleTerm(extra, n);
    if prior.Some? && prior.value.required.Some? && prior.value.required.value != [] {
      ExtendedSelects(prior.value.required.value, extra, n);
    }
  }

  lemma SingleTerm(extra: seq<Requirement>, n: Node)
    requires extra != []
    ensures Selects([Term(extra, [])], n) <==> AllHold(extra, n.labels)
  {
    var t := Term(extra, []);
    assert t in [t];
  }

  lemma ExtendedSelects(terms: seq<Term>, extra: seq<Requirement>, n: Node)
    requires extra != []
    ensures Selects(Extended(terms, extra), n)
       <==> AllHold(extra, n.labels) && (Selects(terms, n) || exists t :: t in terms && t.Empty())
  {
    var longer := Extended(terms, extra);
    forall i | 0 <= i < |terms|
      ensures TermSelects(longer[i], n) <==> AllHold(extra, n.labels) && (TermSelects(terms[i], n) || terms[i].Empty())
    {
    }
    if Selects(longer, n) {
      var i :| 0 <= i < |longer| && TermSelects(longer[i], n);
      assert terms[i] in terms;
    }
    if AllHold(extra, n.labels) && (Selects(terms, n) || exists t :: t in terms && t.Empty()) {
      var i :| 0 <= i < |terms| && (TermSelects(terms[i], n) || terms[i].Empty());
      assert longer[i] in longer;
    }
  }

  /**
   * The merged affinity means both exactly if the old one had no void term. With one, it still
   * does only if the old affinity accepted whatever the avoid list allows, a condition on what
   * it meant and not on how it was written.
   */
  lemma MergePreservesMeaningIff(prior: Option<NodeAffinity>, avoid: seq<AvoidTaint>)
    ensures (forall n: Node :: Accepts(Merged(prior, Some(Affinity(avoid))), n)
                         <==> Accepts(prior, n) && AllHold(Compiled(avoid), n.labels))
       <==> !HasVoid(prior) || forall n: Node :: AllHold(Compiled(avoid), n.labels) ==> Accepts(prior, n)
  {
    forall n: Node ensures Accepts(Merged(prior, Some(Affinity(avoid))), n)
                      <==> AllHold(Compiled(avoid), n.labels) && (Accepts(prior, n) || HasVoid(prior)) {
      MergedMeaning(prior, avoid, n);
    }
  }

  /** Terms that are all void selected nothing; merged, they accept an unlabelled node. */
  lemma VoidTermsStartAccepting(terms: seq<Term>, avoid: seq<AvoidTaint>, n: Node)
    requires n.labels == map[] && forall t :: t in terms ==> t.Empty()
    ensures var prior := Some(NodeAffinity(Some(terms), []));
            !Accepts(prior, n) && Accepts(Merged(prior, Some(Affinity(avoid))), n)
  {
    var prior := Some(NodeAffinity(Some(terms), []));
    MergedMeaning(prior, avoid, n);
    OnceWithin(Wants(avoid));
    if terms != [] {
      assert terms[0] in terms;
    }
  }

  // ---------------------------------------------------------------------
  // Pods
  // ---------------------------------------------------------------------

  class PodSpec {
    var tolerations: seq<Toleration>
    var affinity: Option<NodeAffinity>

    constructor (tolerations: seq<Toleration>, affinity: Option<NodeAffinity>)
      ensures this.tolerations == tolerations && this.affinity == affinity
    {
      this.tolerations := tolerations;
      this.affinity := affinity;
    }

    /** Drops tolerations of avoided taints and requires nodes the avoid list does not rule out. */
    method ApplyScheduling(avoid: seq<AvoidTaint>)
      modifies this
      ensures tolerations == Kept(old(tolerations), WithControlPlane(avoid))
      ensures affinity == Merged(old(affinity), Some(Affinity(WithControlPlane(avoid))))
    {
      var all := WithControlPlane(avoid);
      tolerations := FilterTolerations(tolerations, all);
      var aff := AvoidTaintAffinity(all);
      if aff.Some? {
        affinity := MergeNodeAffinity(affinity, aff);
      }
    }
  }

  /** Applying the same avoid list again changes nothing for any node, and keeps the same tolerations. */
  lemma ApplyingTwiceMeansOnce(tols: seq<Toleration>, prior: Option<NodeAffinity>, avoid: seq<AvoidTaint>, n: Node)
    ensures Kept(Kept(tols, avoid), avoid) == Kept(tols, avoid)
    ensures Accepts(Merged(Merged(prior, Some(Affinity(avoid))), Some(Affinity(avoid))), n)
       <==> Accepts(Merged(prior, Some(Affinity(avoid))), n)
  {
    var allowed := (tol: Toleration) => Allowed(tol, avoid);
    FilterMembers(tols, allowed);
    FilterAll(Filter(tols, allowed), allowed);
    var once := Merged(prior, Some(Affinity(avoid)));
    MergedMeaning(prior, avoid, n);
    MergedMeaning(once, avoid, n);
    MergedHasNoVoid(prior, avoid);
  }

  lemma MergedHasNoVoid(prior: Option<NodeAffinity>, avoid: seq<AvoidTaint>)
    ensures !HasVoid(Merged(prior, Some(Affinity(avoid))))
  {
    AlwaysCompiled(avoid);
    var own := [Term(Compiled(avoid), [])];
    assert AllExprs(own) == Compiled(avoid) by { assert own[..0] == []; }
  }

  /** The control-plane entries that applying adds are already in every compiled list. */
  lemma ControlPlaneIsAlwaysAvoided(avoid: seq<AvoidTaint>, labels: Labels)
    ensures Meets(labels, WithControlPlane(avoid)) <==> Meets(labels, avoid)
  {
    var all := WithControlPlane(avoid);
    WantsMembers(avoid);
    WantsMembers(all);
    assert Want(all[|avoid|]) == [Absent(CONTROL_PLANE[0])] && Want(all[|avoid| + 1]) == [Absent(CONTROL_PLANE[1])];
    assert forall a :: a in all ==> a in avoid || a == all[|avoid|] || a == all[|avoid| + 1];
    assert forall a :: a in avoid ==> a in all;
    assert Wants([]) == [Absent(CONTROL_PLANE[0]), Absent(CONTROL_PLANE[1])];
    assert forall w :: w in Wants(all) <==> w in Wants(avoid);
  }
}
