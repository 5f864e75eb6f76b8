/** Engine labels: exact parsing of policy steps, and labels of sampled-token intervals. */
module Provenance {
  import opened Common
  import opened Wire

  // ---------------------------------------------------------------- canonical decimals

  const MAX_STEP := TWO_63 - 1

  predicate IsDigit(c: char) { '0' <= c <= '9' }

  function DigitValue(c: char): (d: nat)
    requires IsDigit(c)
    ensures d <= 9
  {
    c as int - '0' as int
  }

  function DigitChar(d: nat): (c: char)
    requires d <= 9
    ensures IsDigit(c) && DigitValue(c) == d
  {
    ('0' as int + d) as char
  }

  ghost predicate Digits(s: string) { forall i | 0 <= i < |s| :: IsDigit(s[i]) }

  /** The label pattern: a lone zero, or digits that start with a nonzero one. */
  ghost predicate Canonical(s: string) { s == "0" || (s != [] && s[0] != '0' && Digits(s)) }

  /** How the publisher writes a step. */
  function Print(n: nat): (s: string)
    ensures s != []
  {
    if n < 10 then [DigitChar(n)] else Print(n / 10) + [DigitChar(n % 10)]
  }

  ghost function Value(s: string): nat
    requires Digits(s)
  {
    if s == [] then 0 else 10 * Value(s[..|s| - 1]) + DigitValue(s[|s| - 1])
  }

  lemma {:induction false} PrintCanonical(n: nat)
    ensures Canonical(Print(n)) && Digits(Print(n)) && Value(Print(n)) == n
    ensures n > 0 ==> Print(n)[0] != '0'
  {
    if n >= 10 {
      PrintCanonical(n / 10);
      assert Print(n)[..|Print(n)| - 1] == Print(n / 10);
    } else {
      assert Print(n)[..0] == [];
    }
  }

  lemma {:induction false} CanonicalPrints(s: string)
    requires Canonical(s)
    ensures Digits(s) && Print(Value(s)) == s
    ensures s != "0" ==> Value(s) > 0
  {
    if |s| == 1 {
      assert s[..0] == [] && Value(s) == DigitValue(s[0]);
      assert s == [s[0]];
    } else {
      var t := s[..|s| - 1];
      CanonicalPrints(t);
      assert s == t + [s[|s| - 1]];
    }
  }

  // ---------------------------------------------------------------- length, then lexicographic

  /** String order on characters, as `>` compares strings. */
  predicate LexAbove(a: string, b: string) {
    if a == [] then false
    else if b == [] then true
    else a[0] > b[0] || (a[0] == b[0] && LexAbove(a[1..], b[1..]))
  }

  /** On equal lengths the last character decides only between equal prefixes. */
  lemma {:induction false} LexLast(a: string, b: string)
    requires |a| == |b| > 0
    ensures var n := |a| - 1;
            LexAbove(a, b) <==> LexAbove(a[..n], b[..n]) || (a[..n] == b[..n] && a[n] > b[n])
  {
    var n := |a| - 1;
    if n > 0 {
      LexLast(a[1..], b[1..]);
      assert a[1..][..n - 1] == a[..n][1..] && b[1..][..n - 1] == b[..n][1..];
      assert a[..n] == b[..n] <==> a[0] == b[0] && a[..n][1..] == b[..n][1..] by {
        assert a[..n] == [a[0]] + a[..n][1..] && b[..n] == [b[0]] + b[..n][1..];
      }
    } else {
      assert a[..n] == [] && b[..n] == [];
    }
  }

  lemma {:induction false} LexIsNumeric(a: string, b: string)
    requires |a| == |b| && Digits(a) && Digits(b)
    ensures LexAbove(a, b) <==> Value(a) > Value(b)
    ensures Value(a) == Value(b) <==> a == b
  {
    if a != [] {
      var n := |a| - 1;
      LexIsNumeric(a[..n], b[..n]);
      LexLast(a, b);
      assert a == a[..n] + [a[n]] && b == b[..n] + [b[n]];
    }
  }

  function Ten(k: nat): nat { if k == 0 then 1 else 10 * Ten(k - 1) }

  lemma {:induction false} ValueBelow(s: string)
    requires Digits(s)
    ensures Value(s) < Ten(|s|)
  {
    if s != [] { ValueBelow(s[..|s| - 1]); }
  }

  lemma {:induction false} ValueAtLeast(s: string)
    requires Digits(s) && s != [] && s[0] != '0'
    ensures Ten(|s| - 1) <= Value(s)
  {
    if |s| > 1 { ValueAtLeast(s[..|s| - 1]); }
  }

  lemma {:induction false} TenGrows(i: nat, j: nat)
    requires i <= j
    ensures Ten(i) <= Ten(j)
  {
    if i < j { TenGrows(i, j - 1); }
  }

  /** Length first, then string order, is numeric order on canonical decimals. */
  lemma {:induction false} CanonicalOrder(a: string, b: string)
    requires Canonical(a) && Canonical(b)
    ensures Digits(a) && Digits(b)
    ensures |a| > |b| || (|a| == |b| && LexAbove(a, b)) <==> Value(a) > Value(b)
  {
    if |a| == |b| {
      LexIsNumeric(a, b);
    } else if |a| > |b| {
      ValueBelow(b);
      ValueAtLeast(a);
      TenGrows(|b|, |a| - 1);
    } else {
      ValueBelow(a);
      ValueAtLeast(b);
      TenGrows(|a|, |b| - 1);
    }
  }

  /** `_policy_step`: unknown unless the label is a canonical decimal no longer than, and of the
      same length not above, the largest step. */
  ghost function PolicyStep(text: string): (v: Int64)
    ensures v >= -1
  {
    var top := Print(MAX_STEP);
    if !Canonical(text) then -1
    else if |text| > |top| || (|text| == |top| && LexAbove(text, top)) then -1
    else
      StepInRange(text);
      Value(text)
  }

  lemma {:induction false} StepInRange(text: string)
    requires Canonical(text)
    ensures Digits(text)
    ensures |text| > |Print(MAX_STEP)| || (|text| == |Print(MAX_STEP)| && LexAbove(text, Print(MAX_STEP))) <==> Value(text) > MAX_STEP
  {
    PrintCanonical(MAX_STEP);
    CanonicalOrder(text, Print(MAX_STEP));
  }

  /** Parsing is exact: the result is a step exactly for that step's own decimal print. */
  lemma {:induction false} PolicyStepExact(text: string, n: nat)
    ensures PolicyStep(text) == n <==> n <= MAX_STEP && text == Print(n)
  {
    if Canonical(text) {
      StepInRange(text);
      CanonicalPrints(text);
    }
    if text == Print(n) {
      PrintCanonical(n);
    }
  }

  /** The digit loop of the conversion, with the pattern and range checks before it. */
  method ParseStep(text: string) returns (step: Int64)
    ensures step == PolicyStep(text)
  {
    var top := Print(MAX_STEP);
    var ok := |text| > 0 && (text == "0" || text[0] != '0');
    var i := 0;
    while ok && i < |text|
      invariant 0 <= i <= |text|
      invariant ok ==> forall j | 0 <= j < i :: IsDigit(text[j])
      invariant !ok ==> !Canonical(text)
      invariant ok ==> |text| > 0 && (text == "0" || text[0] != '0')
    {
      if !IsDigit(text[i]) { ok := false; }
      i := i + 1;
    }
    if !ok { return -1; }
    assert Canonical(text);
    if |text| > |top| || (|text| == |top| && LexAbove(text, top)) { return -1; }
    var n := 0;
    i := 0;
    while i < |text|
      invariant 0 <= i <= |text| && n == Value(text[..i])
    {
      assert text[..i + 1][..i] == text[..i];
      n := 10 * n + DigitValue(text[i]);
      i := i + 1;
    }
    assert text[..|text|] == text;
    StepInRange(text);
    step := n;
  }

  // ---------------------------------------------------------------- labelled intervals of a node

  /** A half-open interval of sampled-token ranks with the engine's label. */
  datatype Label = Label(start: int, end: int, version: string)

  datatype Node = Node(sampled: bool, tokens: seq<nat>, mask: seq<bool>, labels: Option<seq<Label>>)

  /** How many positions before `p` are sampled. */
  function Rank(mask: seq<bool>, p: nat): nat
    requires p <= |mask|
  {
    if p == 0 then 0 else Rank(mask, p - 1) + (if mask[p - 1] then 1 else 0)
  }

  function Count(mask: seq<bool>): nat { Rank(mask, |mask|) }

  lemma {:induction false} RankPrefix(mask: seq<bool>, k: nat, p: nat)
    requires p <= k <= |mask|
    ensures Rank(mask[..k], p) == Rank(mask, p)
  {
    if p > 0 { RankPrefix(mask, k, p - 1); }
  }

  lemma {:induction false} RankGrows(mask: seq<bool>, i: nat, j: nat)
    requires i <= j <= |mask|
    ensures Rank(mask, i) <= Rank(mask, j) <= Rank(mask, i) + (j - i)
    ensures i < j && mask[i] ==> Rank(mask, i) < Rank(mask, j)
  {
    if i < j { RankGrows(mask, i, j - 1); }
  }

  /** Ordered, nonoverlapping intervals of sampled-token ranks. */
  ghost predicate Intervals(labels: seq<Label>, count: int) {
    && (forall i | 0 <= i < |labels| :: 0 <= labels[i].start <= labels[i].end <= count)
    && (forall i, j | 0 <= i < j < |labels| :: labels[i].end <= labels[j].start)
  }

  ghost predicate ValidLabels(node: Node) {
    node.labels.Some? ==>
      && |node.mask| == |node.tokens|
      && (node.sampled || (node.labels.value == [] && true !in node.mask))
      && Intervals(node.labels.value, Count(node.mask))
  }

  method CountSampled(mask: seq<bool>) returns (n: nat)
    ensures n == Count(mask)
  {
    n := 0;
    for i := 0 to |mask|
      invariant n == Rank(mask, i)
    {
      if mask[i] { n := n + 1; }
    }
  }

  method ValidateWeightVersions(node: Node) returns (ok: bool)
    ensures ok <==> ValidLabels(node)
  {
    if node.labels.None? { return true; }
    if |node.mask| != |node.tokens| { return false; }
    if !node.sampled && (node.labels.value != [] || true in node.mask) { return false; }
    var count := CountSampled(node.mask);
    var labels := node.labels.value;
    var previous := 0;
    for i := 0 to |labels|
      invariant 0 <= previous && (i == 0 ==> previous == 0) && (i > 0 ==> previous == labels[i - 1].end)
      invariant Intervals(labels[..i], count)
    {
      assert i > 0 && Intervals(labels, count) ==> labels[i - 1].end <= labels[i].start;
      if !(0 <= previous <= labels[i].start <= labels[i].end <= count) { return false; }
      IntervalsNext(labels, i, count);
      previous := labels[i].end;
    }
    assert labels[..|labels|] == labels;
    return true;
  }

  lemma IntervalsNext(labels: seq<Label>, i: nat, count: int)
    requires i < |labels| && Intervals(labels[..i], count)
    requires 0 <= labels[i].start <= labels[i].end <= count && (i > 0 ==> labels[i - 1].end <= labels[i].start)
    ensures Intervals(labels[..i + 1], count)
  {
    var ls := labels[..i + 1];
    forall a, b | 0 <= a < b < |ls| ensures ls[a].end <= ls[b].start {
      assert labels[..i][a] == ls[a];
      if b < i {
        assert labels[..i][b] == ls[b];
      } else if a < i - 1 {
        assert labels[..i][i - 1] == ls[i - 1];
      }
    }
    forall a | 0 <= a < |ls| ensures 0 <= ls[a].start <= ls[a].end <= count { if a < i { assert labels[..i][a] == ls[a]; } }
  }

  // ---------------------------------------------------------------- per-token versions

  /** The step the labels give to a sampled-token rank; -1 when none covers it. */
  ghost function StepAt(labels: seq<Label>, rank: int): (v: Int64)
    ensures v >= -1
  {
    if labels == [] then -1
    else
      var l := labels[|labels| - 1];
      if l.start <= rank < l.end then PolicyStep(l.version) else StepAt(labels[..|labels| - 1], rank)
  }

  ghost function LabelsOf(node: Node): seq<Label> { if node.labels.Some? then node.labels.value else [] }

  /** Comparable steps at physical positions: context and unknown are -1. */
  ghost function NodeVersions(node: Node): (vs: seq<Int64>)
    requires LabelsOf(node) != [] ==> |node.mask| == |node.tokens|
    ensures |vs| == |node.tokens|
  {
    if LabelsOf(node) == [] then seq(|node.tokens|, _ => -1)
    else seq(|node.tokens|, p requires 0 <= p < |node.tokens| =>
           if node.mask[p] then StepAt(LabelsOf(node), Rank(node.mask, p)) else -1)
  }

  lemma {:induction false} VersionAt(node: Node, p: nat)
    requires |node.mask| == |node.tokens| && p < |node.tokens|
    ensures NodeVersions(node)[p] == if node.mask[p] then StepAt(LabelsOf(node), Rank(node.mask, p)) else -1
  {
  }

  /** Only the interval that contains a rank labels it. */
  lemma {:induction false} StepAtIs(labels: seq<Label>, count: int, rank: int, i: nat)
    requires Intervals(labels, count) && i < |labels| && labels[i].start <= rank < labels[i].end
    ensures StepAt(labels, rank) == PolicyStep(labels[i].version)
  {
    var n := |labels| - 1;
    if i < n {
      assert labels[i].end <= labels[n].start;
      StepAtIs(labels[..n], count, rank, i);
    }
  }

  /** The positions before `p` that are set. */
  ghost function SetBefore(mask: seq<bool>, p: nat): set<nat> { set i: nat | i < p && i < |mask| && mask[i] }

  lemma {:induction false} RankIs(mask: seq<bool>, p: nat)
    requires p <= |mask|
    ensures Rank(mask, p) == |SetBefore(mask, p)|
  {
    if p == 0 {
      assert SetBefore(mask, p) == {};
    } else {
      RankIs(mask, p - 1);
      assert SetBefore(mask, p) == if mask[p - 1] then SetBefore(mask, p - 1) + {p - 1} else SetBefore(mask, p - 1);
    }
  }

  lemma {:induction false} Unlabelled(labels: seq<Label>, rank: int)
    requires forall i | 0 <= i < |labels| :: !(labels[i].start <= rank < labels[i].end)
    ensures StepAt(labels, rank) == -1
  {
    if labels != [] { Unlabelled(labels[..|labels| - 1], rank); }
  }

  /** What a node's versions are: a sampled token has the step of the label whose interval holds the number of sampled
      tokens before it; one that no label holds, and every other token, is unknown. */
  lemma {:induction false} VersionsExact(node: Node, p: nat)
    requires |node.mask| == |node.tokens| && ValidLabels(node) && p < |node.tokens|
    ensures var (v, rank) := (NodeVersions(node)[p], |SetBefore(node.mask, p)|);
            && (!node.mask[p] ==> v == -1)
            && (node.mask[p] ==> forall i | 0 <= i < |LabelsOf(node)| && LabelsOf(node)[i].start <= rank < LabelsOf(node)[i].end ::
                  v == PolicyStep(LabelsOf(node)[i].version))
            && ((forall i | 0 <= i < |LabelsOf(node)| :: !(LabelsOf(node)[i].start <= rank < LabelsOf(node)[i].end)) ==> v == -1)
  {
    var labels, rank := LabelsOf(node), Rank(node.mask, p);
    RankIs(node.mask, p);
    VersionAt(node, p);
    hide NodeVersions, StepAt, PolicyStep, Rank, SetBefore;
    forall i | 0 <= i < |labels| && labels[i].start <= rank < labels[i].end ensures StepAt(labels, rank) == PolicyStep(labels[i].version) {
      StepAtIs(labels, Count(node.mask), rank, i);
    }
    if forall i | 0 <= i < |labels| :: !(labels[i].start <= rank < labels[i].end) { Unlabelled(labels, rank); }
  }

  /** The node's copy of its labels onto a sampled prefix. */
  function ClipLabels(labels: seq<Label>, kept: int): seq<Label> {
    if labels == [] then []
    else
      var l := labels[|labels| - 1];
      ClipLabels(labels[..|labels| - 1], kept)
      + (if l.start < kept then [l.(end := if l.end < kept then l.end else kept)] else [])
  }

  /** Clipping keeps the steps of the kept ranks and forgets the others. */
  lemma {:induction false} ClipStepAt(labels: seq<Label>, kept: int, rank: int)
    ensures StepAt(ClipLabels(labels, kept), rank) == if rank < kept then StepAt(labels, rank) else -1
  {
    if labels != [] {
      var n := |labels| - 1;
      ClipStepAt(labels[..n], kept, rank);
      var front, l := ClipLabels(labels[..n], kept), labels[n];
      if l.start < kept {
        var c := l.(end := if l.end < kept then l.end else kept);
        assert (front + [c])[..|front|] == front;
      } else {
        assert front + [] == front;
      }
    }
  }

  lemma {:induction false} ClipIntervals(labels: seq<Label>, count: int, kept: int)
    requires Intervals(labels, count) && 0 <= kept <= count
    ensures Intervals(ClipLabels(labels, kept), kept)
    ensures forall i | 0 <= i < |ClipLabels(labels, kept)| ::
      exists j | 0 <= j < |labels| :: ClipLabels(labels, kept)[i].end <= labels[j].end
  {
    if labels != [] {
      var n := |labels| - 1;
      ClipIntervals(labels[..n], count, kept);
    }
  }

  method ClipWeightVersions(node: Node, kept: int) returns (labels: Result<Option<seq<Label>>, bool>)
    ensures labels.Ok? <==> ValidLabels(node) && 0 <= kept <= Count(node.mask)
    ensures labels.Ok? ==> labels.value == if node.labels.None? then None else Some(ClipLabels(node.labels.value, kept))
  {
    var ok := ValidateWeightVersions(node);
    if !ok { return Err(false); }
    var count := CountSampled(node.mask);
    if !(0 <= kept <= count) { return Err(true); }
    if node.labels.None? { return Ok(None); }
    var all := node.labels.value;
    var clipped: seq<Label> := [];
    for i := 0 to |all|
      invariant clipped == ClipLabels(all[..i], kept)
    {
      assert all[..i + 1][..i] == all[..i];
      if all[i].start < kept {
        clipped := clipped + [all[i].(end := if all[i].end < kept then all[i].end else kept)];
      }
    }
    assert all[..|all|] == all;
    labels := Ok(Some(clipped));
  }

  // ---------------------------------------------------------------- filling the array

  /** Positions of the set bits, in order: rank `r` sits at position `at[r]`. */
  ghost predicate Positions(mask: seq<bool>, n: nat, at: seq<nat>)
    requires n <= |mask|
  {
    && |at| == Rank(mask, n)
    && (forall r | 0 <= r < |at| :: at[r] < n && mask[at[r]] && Rank(mask, at[r]) == r)
    && (forall p | 0 <= p < n && mask[p] :: Rank(mask, p) < |at| && at[Rank(mask, p)] == p)
  }

  method FlatNonzero(mask: seq<bool>) returns (at: seq<nat>)
    ensures Positions(mask, |mask|, at)
  {
    at := [];
    for p := 0 to |mask|
      invariant Positions(mask, p, at)
    {
      if mask[p] { at := at + [p]; }
    }
  }

  /** What the array holds after the first labels were written. */
  ghost predicate Written(node: Node, labels: seq<Label>, vs: seq<Int64>)
    requires |node.mask| == |node.tokens|
  {
    |vs| == |node.mask| && forall p | 0 <= p < |vs| :: vs[p] == if node.mask[p] then StepAt(labels, Rank(node.mask, p)) else -1
  }

  /** The array with one more label written up to rank `r`. */
  ghost predicate Writing(node: Node, labels: seq<Label>, l: Label, r: int, vs: seq<Int64>)
    requires |node.mask| == |node.tokens|
  {
    |vs| == |node.mask| && forall p | 0 <= p < |vs| ::
      vs[p] == if !node.mask[p] then -1
               else if l.start <= Rank(node.mask, p) < r then PolicyStep(l.version)
               else StepAt(labels, Rank(node.mask, p))
  }

  lemma WriteNext(node: Node, labels: seq<Label>, l: Label, r: nat, at: seq<nat>, vs: seq<Int64>)
    requires |node.mask| == |node.tokens| && Positions(node.mask, |node.mask|, at) && l.start <= r < |at|
    requires Writing(node, labels, l, r, vs)
    ensures at[r] < |vs| && Writing(node, labels, l, r + 1, vs[at[r] := PolicyStep(l.version)])
  {
    RankedAt(node.mask, at, r);
    hide PolicyStep, StepAt, Positions, Rank;
    var next := vs[at[r] := PolicyStep(l.version)];
    forall p | 0 <= p < |next|
      ensures next[p] == if !node.mask[p] then -1
                         else if l.start <= Rank(node.mask, p) < r + 1 then PolicyStep(l.version)
                         else StepAt(labels, Rank(node.mask, p))
    {
      assert node.mask[p] ==> (Rank(node.mask, p) == r <==> p == at[r]);
    }
  }

  lemma {:induction false} RankedAt(mask: seq<bool>, at: seq<nat>, r: nat)
    requires Positions(mask, |mask|, at) && r < |at|
    ensures at[r] < |mask| && mask[at[r]]
    ensures forall p | 0 <= p < |mask| && mask[p] :: Rank(mask, p) == r <==> p == at[r]
  {
    hide Rank;
  }

  lemma WriteDone(node: Node, labels: seq<Label>, l: Label, vs: seq<Int64>)
    requires |node.mask| == |node.tokens| && Writing(node, labels, l, l.end, vs)
    ensures Written(node, labels + [l], vs)
  {
    assert (labels + [l])[..|labels|] == labels;
    hide PolicyStep, Rank;
  }

  lemma WrittenAll(node: Node, labels: seq<Label>, vs: seq<Int64>)
    requires |node.mask| == |node.tokens| && Written(node, labels, vs) && labels == LabelsOf(node)
    ensures vs == NodeVersions(node)
  {
    hide StepAt, NodeVersions;
    forall p | 0 <= p < |vs| ensures vs[p] == NodeVersions(node)[p] { VersionAt(node, p); }
  }

  method WriteLabel(node: Node, before: seq<Label>, l: Label, at: seq<nat>, result: array<Int64>)
    requires |node.mask| == |node.tokens| == result.Length && Positions(node.mask, |node.mask|, at)
    requires 0 <= l.start <= l.end <= |at| && Written(node, before, result[..])
    modifies result
    ensures Written(node, before + [l], result[..])
  {
    hide PolicyStep, StepAt, Positions;
    var step := ParseStep(l.version);
    assert Writing(node, before, l, l.start, result[..]);
    for r := l.start to l.end
      invariant Writing(node, before, l, r, result[..])
    {
      WriteNext(node, before, l, r, at, result[..]);
      ghost var prior := result[..];
      result[at[r]] := step;
      assert result[..] == prior[at[r] := step];
    }
    WriteDone(node, before, l, result[..]);
  }

  /** `node_policy_versions`: refuse malformed labels, otherwise fill an array of unknowns. */
  method NodePolicyVersions(node: Node) returns (vs: Result<seq<Int64>, bool>)
    ensures vs.Ok? <==> ValidLabels(node)
    ensures vs.Ok? ==> (LabelsOf(node) != [] ==> |node.mask| == |node.tokens|) && vs.value == NodeVersions(node)
  {
    var ok := ValidateWeightVersions(node);
    if !ok { return Err(false); }
    if node.labels.None? || node.labels.value == [] { return Ok(seq(|node.tokens|, _ => -1)); }
    var labels := node.labels.value;
    var at := FlatNonzero(node.mask);
    assert forall i | 0 <= i < |labels| :: 0 <= labels[i].start <= labels[i].end <= |at|;
    var filled := FillVersions(node, labels, at);
    vs := Ok(filled);
  }

  method FillVersions(node: Node, labels: seq<Label>, at: seq<nat>) returns (vs: seq<Int64>)
    requires |node.mask| == |node.tokens| && labels == LabelsOf(node) && Positions(node.mask, |node.mask|, at)
    requires forall i | 0 <= i < |labels| :: 0 <= labels[i].start <= labels[i].end <= |at|
    ensures vs == NodeVersions(node)
  {
    hide Positions, StepAt, NodeVersions, Written, Rank;
    var result := new Int64[|node.tokens|](_ => -1);
    Unwritten(node, result[..]);
    for i := 0 to |labels|
      invariant Written(node, labels[..i], result[..])
    {
      WriteLabel(node, labels[..i], labels[i], at, result);
      assert labels[..i + 1] == labels[..i] + [labels[i]];
    }
    assert labels[..|labels|] == labels;
    WrittenAll(node, labels, result[..]);
    vs := result[..];
  }

  lemma Unwritten(node: Node, vs: seq<Int64>)
    requires |node.mask| == |node.tokens| == |vs| && forall p | 0 <= p < |vs| :: vs[p] == -1
    ensures Written(node, [], vs)
  {
  }
}
