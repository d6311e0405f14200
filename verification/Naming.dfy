/**
 * Object names kb-RUNID-PREFIX-SEQ-SUFFIX (internal/naming/naming.go), and the run id read back
 * from them (internal/kube/managed_info.go:40-47). Names are ASCII.
 */
module Naming {
  import opened Common
  import Taints

  const ALPHABET := "abcdefghijklmnopqrstuvwxyz0123456789"
  const MAX_LABEL := 63

  datatype NamePrefix = NamePrefix(prefix: string, randomLength: int)

  // ---------------------------------------------------------------------
  // Decimal numbers
  // ---------------------------------------------------------------------

  function Dec(n: nat): (s: string)
    ensures |s| >= 1 && forall c :: c in s ==> '0' <= c <= '9'
  {
    (if n < 10 then "" else Dec(n / 10)) + [(n % 10 + '0' as int) as char]
  }

  function Zeros(k: int): (s: string)
    ensures |s| == Max(k, 0) && forall c :: c in s ==> c == '0'
  {
    if k <= 0 then "" else Zeros(k - 1) + "0"
  }

  /** %05d */
  function Pad(n: nat): (s: string)
    ensures |s| >= 5 && forall c :: c in s ==> '0' <= c <= '9'
  {
    Zeros(5 - |Dec(n)|) + Dec(n)
  }

  function Value(s: string): int {
    if s == "" then 0 else 10 * Value(s[..|s| - 1]) + (s[|s| - 1] as int - '0' as int)
  }

  function Pow10(k: nat): (p: nat)
    ensures p >= 1
  {
    if k == 0 then 1 else 10 * Pow10(k - 1)
  }

  lemma {:induction false} ValueOfDec(n: nat)
    ensures Value(Dec(n)) == n
  {
    if n >= 10 {
      ValueOfDec(n / 10);
      assert Dec(n)[..|Dec(n)| - 1] == Dec(n / 10);
    }
  }

  lemma {:induction false} ValueOfZeros(k: int, s: string)
    ensures Value(Zeros(k) + s) == Value(s)
  {
    var t := Zeros(k) + s;
    if s != "" {
      ValueOfZeros(k, s[..|s| - 1]);
      assert t[..|t| - 1] == Zeros(k) + s[..|s| - 1];
    } else if k > 0 {
      ValueOfZeros(k - 1, "");
      assert t[..|t| - 1] == Zeros(k - 1) && Zeros(k - 1) + "" == Zeros(k - 1);
    }
  }

  /** The number is read back from its padded digits. */
  lemma ValueOfPad(n: nat)
    ensures Value(Pad(n)) == n
  {
    ValueOfZeros(5 - |Dec(n)|, Dec(n));
    ValueOfDec(n);
  }

  lemma PadDiffers(a: nat, b: nat)
    requires a != b
    ensures Pad(a) != Pad(b)
  {
    ValueOfPad(a);
    ValueOfPad(b);
  }

  lemma {:induction false} DecGrows(a: nat, b: nat)
    requires a <= b
    ensures |Dec(a)| <= |Dec(b)|
  {
    if a >= 10 {
      DecGrows(a / 10, b / 10);
    }
  }

  lemma {:induction false} DecIsLeast(n: nat)
    requires n >= 1
    ensures Pow10(|Dec(n)| - 1) <= n
  {
    if n >= 10 {
      DecIsLeast(n / 10);
    }
  }

  lemma {:induction false} DecOfPow(k: nat)
    ensures Dec(Pow10(k)) == "1" + Zeros(k)
  {
    if k > 0 {
      DecOfPow(k - 1);
      assert Pow10(k) >= 10 && Pow10(k) / 10 == Pow10(k - 1) && Pow10(k) % 10 == 0;
      assert Dec(Pow10(k)) == Dec(Pow10(k - 1)) + "0";
      assert "1" + Zeros(k - 1) + "0" == "1" + (Zeros(k - 1) + "0");
    }
  }

  lemma {:induction false} PowGrows(j: nat, k: nat)
    requires j <= k
    ensures Pow10(j) <= Pow10(k)
  {
    if j < k {
      PowGrows(j, k - 1);
    }
  }

  lemma {:induction false} ZerosPrefix(j: nat, k: nat)
    requires j <= k
    ensures Zeros(k)[..j] == Zeros(j)
  {
    if j < k {
      ZerosPrefix(j, k - 1);
    }
  }

  // ---------------------------------------------------------------------
  // Names
  // ---------------------------------------------------------------------

  function LowerCase(c: char): char { if 'A' <= c <= 'Z' then (c as int + 32) as char else c }

  function ToLower(s: string): (r: string)
    ensures |r| == |s| && forall i :: 0 <= i < |s| ==> r[i] == LowerCase(s[i])
  {
    if s == "" then "" else [LowerCase(s[0])] + ToLower(s[1..])
  }

  function SanitizeDNSLabel(s: string): (r: string)
    ensures |r| == Min(|s|, MAX_LABEL) && forall i :: 0 <= i < |r| ==> r[i] == LowerCase(s[i])
  {
    var low := ToLower(s);
    if |low| > MAX_LABEL then low[..MAX_LABEL] else low
  }

  predicate IsRunID(s: string) {
    |s| == 4 && forall c :: c in s ==> '0' <= c <= '9' || 'a' <= c <= 'f'
  }

  predicate IsSuffix(s: string) {
    s != "" && forall c :: c in s ==> '0' <= c <= '9' || 'a' <= c <= 'z'
  }

  function Head(runID: string, prefix: string): string { "kb-" + runID + "-" + prefix + "-" }

  function NameOf(runID: string, prefix: string, number: nat, suffix: string): string {
    Head(runID, prefix) + Pad(number) + "-" + suffix
  }

  function LabelOf(runID: string, prefix: string, number: nat, suffix: string): string {
    SanitizeDNSLabel(NameOf(runID, prefix, number, suffix))
  }

  function WithKindDefault(p: NamePrefix, kind: string): NamePrefix {
    NamePrefix(if p.prefix == "" then kind else p.prefix, if p.randomLength == 0 then 4 else p.randomLength)
  }

  /** Names objects; the random suffix is any text over the alphabet. */
  class Factory {
    const runID: string
    const prefix: map<string, NamePrefix>

    constructor (runID: string, namespace: NamePrefix, service: NamePrefix, route: NamePrefix, deployment: NamePrefix)
      ensures this.runID == runID
      ensures PrefixOf("ns") == WithKindDefault(namespace, "ns").prefix
      ensures PrefixOf("svc") == WithKindDefault(service, "svc").prefix
      ensures PrefixOf("rt") == WithKindDefault(route, "rt").prefix
      ensures PrefixOf("deploy") == WithKindDefault(deployment, "deploy").prefix
      ensures PrefixOf("pair") == "pair"
    {
      this.runID := runID;
      this.prefix := map["ns" := WithKindDefault(namespace, "ns"), "svc" := WithKindDefault(service, "svc"),
                         "rt" := WithKindDefault(route, "rt"), "deploy" := WithKindDefault(deployment, "deploy"),
                         "pair" := NamePrefix("pair", 4)];
    }

    function PrefixOf(kind: string): string {
      if kind in prefix && prefix[kind].prefix != "" then prefix[kind].prefix else kind
    }

    /** How many random characters a kind's names end in. */
    function SuffixLength(kind: string): int {
      var k := if kind in prefix && prefix[kind].prefix != "" then prefix[kind].randomLength else 4;
      if k < 1 then 4 else k
    }

    method Name(kind: string, number: nat) returns (name: string)
      ensures exists suffix :: IsSuffix(suffix) && |suffix| == SuffixLength(kind)
                               && name == NameOf(runID, PrefixOf(kind), number, suffix)
    {
      var p := NamePrefix("", 0);
      if kind in prefix {
        p := prefix[kind];
      }
      if p.prefix == "" {
        p := NamePrefix(kind, 4);
      }
      var suffix := Suffix(p.randomLength);
      name := "kb-" + runID + "-" + p.prefix + "-" + Pad(number) + "-" + suffix;
    }

    method Suffix(n: int) returns (s: string)
      ensures IsSuffix(s) && |s| == if n < 1 then 4 else n
    {
      var k := if n < 1 then 4 else n;
      var b := new char[k];
      for i := 0 to k
        invariant forall j :: 0 <= j < i ==> '0' <= b[j] <= '9' || 'a' <= b[j] <= 'z'
      {
        var draw: nat :| draw < |ALPHABET|;
        b[i] := ALPHABET[draw];
      }
      s := b[..];
    }
  }

  // ---------------------------------------------------------------------
  // Distinct names
  // ---------------------------------------------------------------------

  /** The number's digits, up to the widest of 1..n, lie within the first 63 characters. */
  predicate NumbersVisible(prefix: string, n: nat) {
    9 + |prefix| + |Pad(n)| <= MAX_LABEL
  }

  /** Two strings that differ at a position both have, so neither begins with the other. */
  ghost predicate Diverge(s: string, t: string) {
    exists i :: 0 <= i < |s| && i < |t| && s[i] != t[i]
  }

  lemma NameChars(runID: string, prefix: string, number: nat, suffix: string)
    requires IsRunID(runID)
    ensures var h, p := 9 + |prefix|, Pad(number);
            var name := NameOf(runID, prefix, number, suffix);
            && |Head(runID, prefix)| == h && |name| == h + |p| + 1 + |suffix|
            && name[..h] == Head(runID, prefix) && name[h..h + |p|] == p
            && name[h + |p|] == '-' && name[h + |p| + 1..] == suffix
  {
    var h, p := 9 + |prefix|, Pad(number);
    assert |Head(runID, prefix)| == h;
    assert NameOf(runID, prefix, number, suffix) == Head(runID, prefix) + p + ("-" + suffix);
  }

  /** Where the number's digits and the hyphen after them stand in a label. */
  lemma LabelChars(runID: string, prefix: string, number: nat, suffix: string)
    requires IsRunID(runID)
    ensures var h, p := 9 + |prefix|, Pad(number);
            var l := LabelOf(runID, prefix, number, suffix);
            && |l| == Min(h + |p| + 1 + |suffix|, MAX_LABEL)
            && (forall i :: 0 <= i < |p| && h + i < MAX_LABEL ==> l[h + i] == p[i])
            && (h + |p| < MAX_LABEL ==> l[h + |p|] == '-')
  {
    var h, p := 9 + |prefix|, Pad(number);
    var name := NameOf(runID, prefix, number, suffix);
    NameChars(runID, prefix, number, suffix);
    forall i | 0 <= i < |p| && h + i < MAX_LABEL ensures LowerCase(name[h + i]) == p[i] {
      assert name[h..h + |p|][i] == p[i] && p[i] in p;
    }
  }

  lemma LabelHead(runID: string, prefix: string, number: nat, suffix: string)
    requires IsRunID(runID)
    ensures var l := LabelOf(runID, prefix, number, suffix);
            forall i :: 0 <= i < 9 + |prefix| && i < MAX_LABEL ==> i < |l| && l[i] == LowerCase(Head(runID, prefix)[i])
  {
    NameChars(runID, prefix, number, suffix);
    var name := NameOf(runID, prefix, number, suffix);
    forall i | 0 <= i < 9 + |prefix| ensures name[i] == Head(runID, prefix)[i] {
      assert name[..9 + |prefix|][i] == name[i];
    }
  }

  lemma DigitAt(runID: string, prefix: string, number: nat, suffix: string, i: nat)
    requires IsRunID(runID) && i < |Pad(number)| && 9 + |prefix| + i < MAX_LABEL
    ensures var l := LabelOf(runID, prefix, number, suffix);
            9 + |prefix| + i < |l| && l[9 + |prefix| + i] == Pad(number)[i]
  {
    LabelChars(runID, prefix, number, suffix);
  }

  lemma HyphenAt(runID: string, prefix: string, number: nat, suffix: string)
    requires IsRunID(runID) && 9 + |prefix| + |Pad(number)| < MAX_LABEL
    ensures var l, at := LabelOf(runID, prefix, number, suffix), 9 + |prefix| + |Pad(number)|;
            at < |l| && l[at] == '-'
  {
    LabelChars(runID, prefix, number, suffix);
  }

  lemma DivergeAt(l: string, m: string, i: nat)
    requires i < |l| && i < |m| && l[i] != m[i]
    ensures Diverge(l, m)
  {
  }

  lemma FirstDifference(p: string, q: string) returns (i: nat)
    requires |p| == |q| && p != q
    ensures i < |p| && p[i] != q[i]
  {
    i :| i < |p| && p[i] != q[i];
  }

  lemma SameWidthDiverge(runID: string, prefix: string, a: nat, b: nat, s: string, t: string)
    requires IsRunID(runID) && a != b && |Pad(a)| == |Pad(b)| && 9 + |prefix| + |Pad(b)| <= MAX_LABEL
    ensures Diverge(LabelOf(runID, prefix, a, s), LabelOf(runID, prefix, b, t))
  {
    PadDiffers(a, b);
    var i := FirstDifference(Pad(a), Pad(b));
    DigitAt(runID, prefix, a, s, i);
    DigitAt(runID, prefix, b, t, i);
    DivergeAt(LabelOf(runID, prefix, a, s), LabelOf(runID, prefix, b, t), 9 + |prefix| + i);
  }

  lemma OtherWidthDiverge(runID: string, prefix: string, a: nat, b: nat, s: string, t: string)
    requires IsRunID(runID) && |Pad(a)| < |Pad(b)| && 9 + |prefix| + |Pad(b)| <= MAX_LABEL
    ensures Diverge(LabelOf(runID, prefix, a, s), LabelOf(runID, prefix, b, t))
  {
    var i := |Pad(a)|;
    assert Pad(b)[i] in Pad(b);
    HyphenAt(runID, prefix, a, s);
    DigitAt(runID, prefix, b, t, i);
    DivergeAt(LabelOf(runID, prefix, a, s), LabelOf(runID, prefix, b, t), 9 + |prefix| + i);
  }

  lemma LabelsDiverge(runID: string, prefix: string, a: nat, b: nat, n: nat, s: string, t: string)
    requires IsRunID(runID) && a < b <= n && NumbersVisible(prefix, n)
    ensures Diverge(LabelOf(runID, prefix, a, s), LabelOf(runID, prefix, b, t))
  {
    DecGrows(a, b);
    DecGrows(b, n);
    if |Pad(a)| == |Pad(b)| {
      SameWidthDiverge(runID, prefix, a, b, s, t);
    } else {
      OtherWidthDiverge(runID, prefix, a, b, s, t);
    }
  }

  /** The two numbers whose visible digits agree when some digits are cut off. */
  function Clash(prefix: string): (nat, nat) {
    var v := MAX_LABEL - 9 - |prefix|;
    if v < 5 then (1, 2) else (Pow10(v - 1), Pow10(v))
  }

  lemma ClashInRange(prefix: string, n: nat)
    requires n >= 2 && !NumbersVisible(prefix, n)
    ensures 1 <= Clash(prefix).0 < Clash(prefix).1 <= n
  {
    var v := MAX_LABEL - 9 - |prefix|;
    if v >= 5 {
      DecIsLeast(n);
      PowGrows(v, |Dec(n)| - 1);
    }
  }

  lemma SmallPads()
    ensures Pad(1) == "00001" && Pad(2) == "00002"
  {
    assert Dec(1) == "1" && Dec(2) == "2";
    assert Zeros(1) == "0" && Zeros(2) == "00" && Zeros(3) == "000" && Zeros(4) == "0000";
  }

  lemma ClashDigits(prefix: string, v: int)
    requires v == MAX_LABEL - 9 - |prefix|
    ensures var p, q := Pad(Clash(prefix).0), Pad(Clash(prefix).1);
            |p| >= v && |q| >= v && forall i :: 0 <= i < v ==> p[i] == q[i]
  {
    if v < 5 {
      SmallPads();
    } else {
      DecOfPow(v - 1);
      DecOfPow(v);
      ZerosPrefix(v - 1, v);
      assert Pad(Pow10(v - 1)) == "1" + Zeros(v - 1) && Pad(Pow10(v)) == "1" + Zeros(v);
    }
  }

  lemma LabelsClash(runID: string, prefix: string, s: string, t: string)
    requires IsRunID(runID)
    ensures LabelOf(runID, prefix, Clash(prefix).0, s) == LabelOf(runID, prefix, Clash(prefix).1, t)
  {
    var h := 9 + |prefix|;
    var (a, b) := Clash(prefix);
    ClashDigits(prefix, MAX_LABEL - h);
    LabelChars(runID, prefix, a, s);
    LabelChars(runID, prefix, b, t);
    LabelHead(runID, prefix, a, s);
    LabelHead(runID, prefix, b, t);
    SameLabel(LabelOf(runID, prefix, a, s), LabelOf(runID, prefix, b, t), h, Pad(a), Pad(b));
  }

  lemma SameLabel(l: string, m: string, h: nat, p: string, q: string)
    requires |l| == |m| == MAX_LABEL
    requires forall i :: 0 <= i < h && i < MAX_LABEL ==> l[i] == m[i]
    requires |p| >= MAX_LABEL - h && |q| >= MAX_LABEL - h && forall i :: 0 <= i < MAX_LABEL - h ==> p[i] == q[i]
    requires forall i :: 0 <= i < |p| && h + i < MAX_LABEL ==> l[h + i] == p[i]
    requires forall i :: 0 <= i < |q| && h + i < MAX_LABEL ==> m[h + i] == q[i]
    ensures l == m
  {
    forall i | 0 <= i < MAX_LABEL ensures l[i] == m[i] {
      if i >= h {
        assert l[h + (i - h)] == p[i - h] && m[h + (i - h)] == q[i - h];
      }
    }
  }

  /**
   * Whatever the suffixes, the names numbered 1..n are pairwise different exactly if there are
   * fewer than two or the widest number still fits before the cut.
   */
  lemma NamesDistinctIff(runID: string, prefix: string, suffixes: seq<string>)
    requires IsRunID(runID)
    ensures Distinct(Labels(runID, prefix, suffixes)) <==> |suffixes| < 2 || NumbersVisible(prefix, |suffixes|)
  {
    if |suffixes| >= 2 {
      if NumbersVisible(prefix, |suffixes|) {
        VisibleLabelsDiffer(runID, prefix, suffixes);
      } else {
        SomeLabelsAgree(runID, prefix, suffixes);
      }
    }
  }

  lemma LabelAt(runID: string, prefix: string, suffixes: seq<string>, i: nat)
    requires i < |suffixes|
    ensures |Labels(runID, prefix, suffixes)| == |suffixes|
    ensures Labels(runID, prefix, suffixes)[i] == LabelOf(runID, prefix, i + 1, suffixes[i])
  {
  }

  lemma TwoLabelsDiffer(runID: string, prefix: string, suffixes: seq<string>, i: nat, j: nat)
    requires IsRunID(runID) && NumbersVisible(prefix, |suffixes|) && i < j < |suffixes|
    ensures Labels(runID, prefix, suffixes)[i] != Labels(runID, prefix, suffixes)[j]
  {
    LabelAt(runID, prefix, suffixes, i);
    LabelAt(runID, prefix, suffixes, j);
    LabelsDiverge(runID, prefix, i + 1, j + 1, |suffixes|, suffixes[i], suffixes[j]);
  }

  lemma VisibleLabelsDiffer(runID: string, prefix: string, suffixes: seq<string>)
    requires IsRunID(runID) && NumbersVisible(prefix, |suffixes|)
    ensures Distinct(Labels(runID, prefix, suffixes))
  {
    forall i, j | 0 <= i < j < |Labels(runID, prefix, suffixes)|
      ensures Labels(runID, prefix, suffixes)[i] != Labels(runID, prefix, suffixes)[j]
    {
      TwoLabelsDiffer(runID, prefix, suffixes, i, j);
    }
  }

  lemma TwoLabelsAgree(runID: string, prefix: string, suffixes: seq<string>, a: nat, b: nat)
    requires IsRunID(runID) && (a, b) == Clash(prefix) && 1 <= a < b <= |suffixes|
    ensures Labels(runID, prefix, suffixes)[a - 1] == Labels(runID, prefix, suffixes)[b - 1]
  {
    LabelAt(runID, prefix, suffixes, a - 1);
    LabelAt(runID, prefix, suffixes, b - 1);
    LabelsClash(runID, prefix, suffixes[a - 1], suffixes[b - 1]);
  }

  lemma SomeLabelsAgree(runID: string, prefix: string, suffixes: seq<string>)
    requires IsRunID(runID) && |suffixes| >= 2 && !NumbersVisible(prefix, |suffixes|)
    ensures !Distinct(Labels(runID, prefix, suffixes))
  {
    ClashInRange(prefix, |suffixes|);
    var a, b := Clash(prefix).0, Clash(prefix).1;
    TwoLabelsAgree(runID, prefix, suffixes, a, b);
    NotDistinct(Labels(runID, prefix, suffixes), a - 1, b - 1);
  }

  lemma NotDistinct(ls: seq<string>, i: nat, j: nat)
    requires i < j < |ls| && ls[i] == ls[j]
    ensures !Distinct(ls)
  {
  }

  function Labels(runID: string, prefix: string, suffixes: seq<string>): seq<string> {
    seq(|suffixes|, i requires 0 <= i < |suffixes| => LabelOf(runID, prefix, i + 1, suffixes[i]))
  }

  // ---------------------------------------------------------------------
  // Reading names back
  // ---------------------------------------------------------------------

  /** The text between the last two hyphens, as a number. */
  function NumberOf(name: string): Option<int> {
    var j := Taints.LastIndexOf(name, '-');
    if j < 0 then None
    else
      var i := Taints.LastIndexOf(name[..j], '-');
      if i < 0 then None else Some(Value(name[i + 1..j]))
  }

  lemma UncutLabel(runID: string, prefix: string, number: nat, suffix: string)
    requires IsRunID(runID) && IsSuffix(suffix) && |NameOf(runID, prefix, number, suffix)| <= MAX_LABEL
    ensures var l, j := LabelOf(runID, prefix, number, suffix), 9 + |prefix| + |Pad(number)|;
            && j < |l| && l[j] == '-' && l[j + 1..] == suffix
            && l[..j] == l[..9 + |prefix|] + Pad(number) && l[8 + |prefix|] == '-'
  {
    var h, p := 9 + |prefix|, Pad(number);
    var l, name := LabelOf(runID, prefix, number, suffix), NameOf(runID, prefix, number, suffix);
    NameChars(runID, prefix, number, suffix);
    LabelChars(runID, prefix, number, suffix);
    LabelHead(runID, prefix, number, suffix);
    assert Head(runID, prefix)[h - 1] == '-';
    forall i | 0 <= i < |suffix| ensures l[h + |p| + 1 + i] == suffix[i] {
      assert name[h + |p| + 1..][i] == suffix[i] && suffix[i] in suffix;
    }
  }

  lemma LastHyphen(a: string, tail: string)
    requires '-' !in tail
    ensures Taints.LastIndexOf(a + "-" + tail, '-') == |a|
  {
    assert (a + "-" + tail)[|a| + 1..] == tail;
    Taints.LastIndexIs(a + "-" + tail, '-', |a|);
  }

  lemma CutAt(a: string, b: string)
    ensures (a + "-" + b)[..|a|] == a && (a + "-" + b)[|a| + 1..] == b
  {
  }

  lemma NumberBetween(front: string, digits: string, tail: string)
    requires '-' !in digits && '-' !in tail
    ensures NumberOf(front + "-" + digits + "-" + tail) == Some(Value(digits))
  {
    var before := front + "-" + digits;
    LastHyphen(before, tail);
    LastHyphen(front, digits);
    CutAt(before, tail);
    CutAt(front, digits);
  }

  /** A name that was not cut gives its number back. */
  lemma NumberIsRecovered(runID: string, prefix: string, number: nat, suffix: string)
    requires IsRunID(runID) && IsSuffix(suffix) && |NameOf(runID, prefix, number, suffix)| <= MAX_LABEL
    ensures NumberOf(LabelOf(runID, prefix, number, suffix)) == Some(number)
  {
    var l, j := LabelOf(runID, prefix, number, suffix), 9 + |prefix| + |Pad(number)|;
    UncutLabel(runID, prefix, number, suffix);
    assert l[..9 + |prefix|] == l[..8 + |prefix|] + "-";
    assert l == l[..8 + |prefix|] + "-" + Pad(number) + "-" + suffix;
    NumberBetween(l[..8 + |prefix|], Pad(number), suffix);
    ValueOfPad(number);
  }

  /** strings.Split on a hyphen. */
  function SplitHyphens(s: string): (parts: seq<string>)
    ensures |parts| >= 1
  {
    var i := Taints.IndexOf(s, '-');
    if i < 0 then [s] else [s[..i]] + SplitHyphens(s[i + 1..])
  }

  function RunIDFromName(name: string): string {
    var parts := SplitHyphens(name);
    if |parts| >= 3 && parts[0] == "kb" then parts[1] else ""
  }

  /** The run id is read back from every generated name, cut or not. */
  lemma RunIDIsRecovered(runID: string, prefix: string, number: nat, suffix: string)
    requires IsRunID(runID)
    ensures RunIDFromName(LabelOf(runID, prefix, number, suffix)) == runID
  {
    var l := LabelOf(runID, prefix, number, suffix);
    LabelStart(runID, prefix, number, suffix);
    assert l == "kb" + "-" + (runID + "-" + l[8..]);
    SplitAt("kb", runID + "-" + l[8..]);
    SplitAt(runID, l[8..]);
  }

  lemma LabelStart(runID: string, prefix: string, number: nat, suffix: string)
    requires IsRunID(runID)
    ensures |LabelOf(runID, prefix, number, suffix)| >= 8
    ensures LabelOf(runID, prefix, number, suffix)[..8] == "kb-" + runID + "-"
  {
    var l, head := LabelOf(runID, prefix, number, suffix), Head(runID, prefix);
    LabelHead(runID, prefix, number, suffix);
    forall i | 0 <= i < 8 ensures i < |l| && l[i] == ("kb-" + runID + "-")[i] {
      assert head[i] == ("kb-" + runID + "-")[i];
      assert 3 <= i < 7 ==> head[i] == runID[i - 3] && runID[i - 3] in runID;
    }
  }

  lemma SplitAt(a: string, b: string)
    requires '-' !in a
    ensures SplitHyphens(a + "-" + b) == [a] + SplitHyphens(b)
  {
    var s := a + "-" + b;
    assert s[..|a|] == a && s[|a| + 1..] == b;
    Taints.IndexIs(s, '-', |a|);
  }
}
