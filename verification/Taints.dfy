/**
 * Avoided taints: their text form, and which tolerations they rule out
 * (internal/config/taints.go).
 */
module Taints {
  import opened Common

  datatype AvoidTaint = AvoidTaint(key: string, value: string, effect: string)

  datatype ParseError = EmptyTaint | MissingKey

  datatype Result<+T> = Ok(value: T) | Err(error: ParseError)

  const EFFECTS := ["NoSchedule", "PreferNoSchedule", "NoExecute"]

  // ---------------------------------------------------------------------
  // Strings
  // ---------------------------------------------------------------------

  /** unicode.IsSpace */
  predicate IsSpace(c: char) {
    || c in ['\t', '\n', '\U{0B}', '\U{0C}', '\r', ' ', '\U{85}', '\U{A0}', '\U{1680}']
    || '\U{2000}' <= c <= '\U{200A}'
    || c in ['\U{2028}', '\U{2029}', '\U{202F}', '\U{205F}', '\U{3000}']
  }

  function TrimLeft(s: string): (r: string)
    ensures |r| <= |s| && r == s[|s| - |r|..]
    ensures r == "" || !IsSpace(r[0])
    ensures s == "" || !IsSpace(s[0]) ==> r == s
  {
    if s != "" && IsSpace(s[0]) then TrimLeft(s[1..]) else s
  }

  function TrimRight(s: string): (r: string)
    ensures |r| <= |s| && r == s[..|r|]
    ensures r == "" || !IsSpace(r[|r| - 1])
    ensures s == "" || !IsSpace(s[|s| - 1]) ==> r == s
  {
    if s != "" && IsSpace(s[|s| - 1]) then TrimRight(s[..|s| - 1]) else s
  }

  predicate Trimmed(s: string) {
    s == "" || (!IsSpace(s[0]) && !IsSpace(s[|s| - 1]))
  }

  function TrimSpace(s: string): (r: string)
    ensures Trimmed(r) && (Trimmed(s) ==> r == s)
    ensures forall c :: c in r ==> c in s
  {
    var l := TrimLeft(s);
    var r := TrimRight(l);
    assert r != "" ==> r[0] == l[0];
    r
  }

  function IndexOf(s: string, c: char): (r: int)
    ensures -1 <= r < |s|
    ensures r == -1 ==> c !in s
    ensures r >= 0 ==> s[r] == c && c !in s[..r]
  {
    if s == "" then -1
    else if s[0] == c then 0
    else
      var i := IndexOf(s[1..], c);
      if i == -1 then -1 else
        assert s[..i + 1] == [s[0]] + s[1..][..i];
        i + 1
  }

  function LastIndexOf(s: string, c: char): (r: int)
    ensures -1 <= r < |s|
    ensures r == -1 ==> c !in s
    ensures r >= 0 ==> s[r] == c && c !in s[r + 1..]
  {
    if s == "" then -1
    else if s[|s| - 1] == c then |s| - 1
    else
      var r := LastIndexOf(s[..|s| - 1], c);
      NotLater(s, r + 1, c);
      r
  }

  lemma NotLater(s: string, from: nat, c: char)
    requires from < |s| && s[|s| - 1] != c && c !in s[..|s| - 1][from..]
    ensures c !in s[from..]
  {
    assert s[from..] == s[..|s| - 1][from..] + [s[|s| - 1]];
  }

  // ---------------------------------------------------------------------
  // Text form
  // ---------------------------------------------------------------------

  /** KEY[=VALUE][:EFFECT]; an unrecognised effect is part of the value or the key. */
  method ParseAvoidTaint(text: string) returns (r: Result<AvoidTaint>)
    ensures r == Parse(text)
  {
    var s := TrimSpace(text);
    if s == "" {
      return Err(EmptyTaint);
    }
    var body, effect := CutEffect(s);
    var key, value := CutValue(body);
    key := TrimSpace(key);
    value := TrimSpace(value);
    if key == "" {
      return Err(MissingKey);
    }
    return Ok(AvoidTaint(key, value, effect));
  }

  method CutEffect(s: string) returns (body: string, effect: string)
    ensures (body, effect) == SplitEffect(s)
  {
    effect := "NoSchedule";
    body := s;
    var i := LastIndexOf(s, ':');
    if i >= 0 {
      var maybe := s[i + 1..];
      if maybe in EFFECTS {
        effect := maybe;
        body := s[..i];
      }
    }
  }

  method CutValue(body: string) returns (key: string, value: string)
    ensures (key, value) == SplitValue(body)
  {
    key, value := body, "";
    var i := IndexOf(body, '=');
    if i >= 0 {
      key := body[..i];
      value := body[i + 1..];
    }
  }

  /** Splits off a recognised effect. */
  function SplitEffect(s: string): (string, string) {
    var i := LastIndexOf(s, ':');
    if i >= 0 && s[i + 1..] in EFFECTS then (s[..i], s[i + 1..]) else (s, "NoSchedule")
  }

  function SplitValue(body: string): (string, string) {
    var i := IndexOf(body, '=');
    if i >= 0 then (body[..i], body[i + 1..]) else (body, "")
  }

  function Parse(text: string): Result<AvoidTaint> {
    var s := TrimSpace(text);
    if s == "" then Err(EmptyTaint)
    else
      var (body, effect) := SplitEffect(s);
      var (k, v) := SplitValue(body);
      var key, value := TrimSpace(k), TrimSpace(v);
      if key == "" then Err(MissingKey) else Ok(AvoidTaint(key, value, effect))
  }

  function Print(t: AvoidTaint): string {
    if t.value != "" then
      (if t.effect != "" then t.key + "=" + t.value + ":" + t.effect else t.key + "=" + t.value)
    else if t.effect != "" then t.key + ":" + t.effect
    else t.key
  }

  /** What parsing yields: a trimmed key without equals sign, a trimmed value, a known effect. */
  predicate Canonical(t: AvoidTaint) {
    t.key != "" && Trimmed(t.key) && '=' !in t.key && Trimmed(t.value) && t.effect in EFFECTS
  }

  lemma ParseIsCanonical(text: string)
    requires Parse(text).Ok?
    ensures Canonical(Parse(text).value)
  {
    var s := TrimSpace(text);
    var (body, effect) := SplitEffect(s);
    assert "NoSchedule" == EFFECTS[0];
    var (k, v) := SplitValue(body);
    assert '=' !in k;
  }

  lemma EffectsAreWords(e: string)
    requires e in EFFECTS
    ensures e != "" && ':' !in e && Trimmed(e)
  {
  }

  lemma LastIndexIs(s: string, c: char, p: nat)
    requires p < |s| && s[p] == c && c !in s[p + 1..]
    ensures LastIndexOf(s, c) == p
  {
  }

  lemma {:induction false} IndexIs(s: string, c: char, p: nat)
    requires p < |s| && s[p] == c && c !in s[..p]
    ensures IndexOf(s, c) == p
  {
    if p > 0 {
      assert s[0] == s[..p][0] && s[1..][..p - 1] == s[..p][1..];
      IndexIs(s[1..], c, p - 1);
    }
  }

  lemma LastColon(body: string, effect: string)
    requires effect in EFFECTS
    ensures SplitEffect(body + ":" + effect) == (body, effect)
  {
    var s := body + ":" + effect;
    EffectsAreWords(effect);
    assert s[..|body|] == body && s[|body| + 1..] == effect;
    LastIndexIs(s, ':', |body|);
  }

  lemma FirstEquals(key: string, value: string)
    requires '=' !in key
    ensures SplitValue(key + "=" + value) == (key, value)
  {
    var s := key + "=" + value;
    assert s[..|key|] == key && s[|key| + 1..] == value;
    IndexIs(s, '=', |key|);
  }

  /** Printing a canonical taint and parsing it again gives the taint back. */
  lemma PrintThenParse(t: AvoidTaint)
    requires Canonical(t)
    ensures Parse(Print(t)) == Ok(t)
  {
    var body := if t.value != "" then t.key + "=" + t.value else t.key;
    var s := body + ":" + t.effect;
    EffectsAreWords(t.effect);
    assert Print(t) == s;
    assert s[0] == t.key[0] && s[|s| - 1] == t.effect[|t.effect| - 1];
    assert TrimSpace(s) == s;
    LastColon(body, t.effect);
    if t.value != "" {
      FirstEquals(t.key, t.value);
    } else {
      assert IndexOf(t.key, '=') == -1;
    }
  }

  /** Whatever text is accepted, parsing the printed result gives the same taint. */
  lemma RoundTrip(text: string)
    requires Parse(text).Ok?
    ensures Parse(Print(Parse(text).value)) == Parse(text)
  {
    ParseIsCanonical(text);
    PrintThenParse(Parse(text).value);
  }

  /** The taints that some text parses to are exactly the canonical ones. */
  lemma ParsedIffCanonical(t: AvoidTaint)
    ensures Canonical(t) <==> exists text :: Parse(text) == Ok(t)
  {
    if Canonical(t) {
      PrintThenParse(t);
    }
    if exists text :: Parse(text) == Ok(t) {
      var text :| Parse(text) == Ok(t);
      ParseIsCanonical(text);
    }
  }

  lemma PrintIsInjective(t: AvoidTaint, u: AvoidTaint)
    requires Canonical(t) && Canonical(u) && Print(t) == Print(u)
    ensures t == u
  {
    PrintThenParse(t);
    PrintThenParse(u);
  }

  // ---------------------------------------------------------------------
  // Lists
  // ---------------------------------------------------------------------

  /** All taints of a list, blanks skipped; the first error wins. */
  function ParseAll(ss: seq<string>): Result<seq<AvoidTaint>> {
    if ss == [] then Ok([])
    else
      match ParseAll(ss[..|ss| - 1])
      case Err(e) => Err(e)
      case Ok(ts) =>
        var s := TrimSpace(ss[|ss| - 1]);
        if s == "" then Ok(ts)
        else match Parse(s)
             case Err(e) => Err(e)
             case Ok(t) => Ok(ts + [t])
  }

  function Dedup(ts: seq<AvoidTaint>): seq<AvoidTaint> {
    if ts == [] then []
    else
      var before, last := ts[..|ts| - 1], ts[|ts| - 1];
      if last in before then Dedup(before) else Dedup(before) + [last]
  }

  lemma {:induction false} DedupMembers(ts: seq<AvoidTaint>)
    ensures Distinct(Dedup(ts)) && forall t :: t in Dedup(ts) <==> t in ts
  {
    if ts != [] {
      DedupMembers(ts[..|ts| - 1]);
      assert ts == ts[..|ts| - 1] + [ts[|ts| - 1]];
    }
  }

  /** t occurs in the list before u first does. */
  ghost predicate Precedes(ts: seq<AvoidTaint>, t: AvoidTaint, u: AvoidTaint) {
    exists p :: 0 <= p < |ts| && ts[p] == t && u !in ts[..p]
  }

  lemma PrecedesOn(ts: seq<AvoidTaint>, last: AvoidTaint, t: AvoidTaint, u: AvoidTaint)
    requires Precedes(ts, t, u) || (t in ts && u == last && u !in ts)
    ensures Precedes(ts + [last], t, u)
  {
    var p :| 0 <= p < |ts| && ts[p] == t && u !in ts[..p];
    assert (ts + [last])[..p] == ts[..p] && (ts + [last])[p] == t;
  }

  /** The same taints, each once, in the order of first occurrence. */
  lemma {:induction false} DedupMeaning(ts: seq<AvoidTaint>)
    ensures Distinct(Dedup(ts)) && forall t :: t in Dedup(ts) <==> t in ts
    ensures forall i, j :: 0 <= i < j < |Dedup(ts)| ==> Precedes(ts, Dedup(ts)[i], Dedup(ts)[j])
  {
    DedupMembers(ts);
    if ts != [] {
      var before, last := ts[..|ts| - 1], ts[|ts| - 1];
      DedupMeaning(before);
      assert ts == before + [last];
      var d, e := Dedup(before), Dedup(ts);
      forall i, j | 0 <= i < j < |e| ensures Precedes(ts, e[i], e[j]) {
        assert e[i] == d[i] && d[i] in d;
        if j < |d| {
          assert Precedes(before, d[i], d[j]);
        }
        PrecedesOn(before, last, e[i], e[j]);
      }
    }
  }

  lemma {:induction false} ParseAllCanonical(ss: seq<string>)
    requires ParseAll(ss).Ok?
    ensures forall t :: t in ParseAll(ss).value ==> Canonical(t)
  {
    if ss != [] {
      ParseAllCanonical(ss[..|ss| - 1]);
      var s := TrimSpace(ss[|ss| - 1]);
      if s != "" {
        ParseIsCanonical(s);
      }
    }
  }

  lemma {:induction false} ParseAllFailsOn(ss: seq<string>, k: nat)
    requires k <= |ss| && ParseAll(ss[..k]).Err?
    ensures ParseAll(ss) == ParseAll(ss[..k])
  {
    if k < |ss| {
      assert ss[..|ss| - 1][..k] == ss[..k];
      ParseAllFailsOn(ss[..|ss| - 1], k);
    } else {
      assert ss[..k] == ss;
    }
  }

  /** Parsed so far: the taints of ss are all, out has them once each, seen their printed forms. */
  ghost predicate Parsed(ss: seq<string>, all: seq<AvoidTaint>, out: seq<AvoidTaint>, seen: set<string>) {
    ParseAll(ss) == Ok(all) && out == Dedup(all) && seen == Printed(all)
  }

  lemma ParseAllStep(ss: seq<string>, i: nat, all: seq<AvoidTaint>)
    requires i < |ss| && ParseAll(ss[..i]) == Ok(all)
    ensures ParseAll(ss[..i + 1]) ==
              if TrimSpace(ss[i]) == "" then Ok(all)
              else match Parse(TrimSpace(ss[i])) case Err(e) => Err(e) case Ok(t) => Ok(all + [t])
  {
    assert ss[..i + 1][..i] == ss[..i];
  }

  /** Remembers printed forms, and so keeps exactly the distinct taints in first-occurrence order. */
  method ParseAvoidTaints(ss: seq<string>) returns (r: Result<seq<AvoidTaint>>)
    ensures r == match ParseAll(ss) case Err(e) => Err(e) case Ok(ts) => Ok(Dedup(ts))
  {
    var out: seq<AvoidTaint> := [];
    var seen: set<string> := {};
    ghost var all: seq<AvoidTaint> := [];
    for i := 0 to |ss|
      invariant Parsed(ss[..i], all, out, seen)
    {
      ParseAllStep(ss, i, all);
      var s := TrimSpace(ss[i]);
      if s != "" {
        var p := ParseAvoidTaint(s);
        if p.Err? {
          ParseAllFailsOn(ss, i + 1);
          return Err(p.error);
        }
        out, seen := Keep(ss[..i], all, s, p.value, out, seen);
        all := all + [p.value];
      }
    }
    assert ss[..|ss|] == ss;
    return Ok(out);
  }

  function Printed(ts: seq<AvoidTaint>): set<string> { set t | t in ts :: Print(t) }

  lemma PrintedMore(ts: seq<AvoidTaint>, t: AvoidTaint)
    ensures Printed(ts + [t]) == Printed(ts) + {Print(t)}
  {
  }

  /** Keeps a taint unless its printed form has been seen. */
  method Keep(ghost ss: seq<string>, ghost all: seq<AvoidTaint>, ghost s: string, t: AvoidTaint,
              out0: seq<AvoidTaint>, seen0: set<string>)
    returns (out: seq<AvoidTaint>, seen: set<string>)
    requires ParseAll(ss) == Ok(all) && Parse(s) == Ok(t)
    requires out0 == Dedup(all) && seen0 == Printed(all)
    ensures out == Dedup(all + [t]) && seen == Printed(all + [t])
  {
    SeenMeansIn(ss, all, s, t);
    PrintedMore(all, t);
    assert (all + [t])[..|all|] == all;
    var k := Print(t);
    out, seen := out0, seen0 + {k};
    if k !in seen0 {
      out := out + [t];
    }
  }

  /** A printed form has been seen exactly if its taint has been. */
  lemma SeenMeansIn(ss: seq<string>, all: seq<AvoidTaint>, s: string, t: AvoidTaint)
    requires ParseAll(ss) == Ok(all) && Parse(s) == Ok(t)
    ensures Print(t) in Printed(all) <==> t in all
  {
    ParseAllCanonical(ss);
    ParseIsCanonical(s);
    if Print(t) in Printed(all) {
      var u :| u in all && Print(u) == Print(t);
      PrintIsInjective(t, u);
    }
  }
}
