/** The materializer: the loops that build masks, samples and span lists, proved to produce the
    declared samples and layout. */
module Materialize {
  import opened Common
  import opened Trajectories
  import opened TrajectoryLayout

  datatype TrainingLayout = TrainingLayout(sampleBranches: seq<nat>, sampleNodes: seq<Branch>, spans: seq<Span>)

  /** Trainable nodes on an earlier branch. */
  ghost predicate IsTrained(nodes: seq<Node>, bs: seq<Branch>, b: nat, trained: set<nat>)
    requires b <= |bs|
  {
    forall n: nat :: n in trained <==> n < |nodes| && Trainable(nodes[n]) && Earlier(bs, b, n)
  }

  /** Midway through branch `b`: the earlier branches' nodes and its own first `k`. */
  ghost predicate TrainedMid(nodes: seq<Node>, bs: seq<Branch>, b: nat, k: nat, trained: set<nat>)
    requires b < |bs| && k <= |bs[b]|
  {
    forall n: nat :: n in trained <==> n < |nodes| && Trainable(nodes[n]) && (Earlier(bs, b, n) || n in bs[b][..k])
  }

  lemma EarlierNext(bs: seq<Branch>, b: nat, n: nat)
    requires b < |bs|
    ensures Earlier(bs, b + 1, n) <==> Earlier(bs, b, n) || n in bs[b]
  {
    if n in bs[b] { assert Earlier(bs, b + 1, n); }
  }

  lemma TrainedEnds(nodes: seq<Node>, bs: seq<Branch>, b: nat, trained: set<nat>)
    requires b < |bs| && TrainedMid(nodes, bs, b, |bs[b]|, trained)
    ensures IsTrained(nodes, bs, b + 1, trained)
  {
    assert bs[b][..|bs[b]|] == bs[b];
    hide Earlier;
    forall n: nat ensures n in trained <==> n < |nodes| && Trainable(nodes[n]) && Earlier(bs, b + 1, n) { EarlierNext(bs, b, n); }
  }

  lemma TrainedAdvance(nodes: seq<Node>, bs: seq<Branch>, b: nat, k: nat, trained: set<nat>)
    requires b < |bs| && k < |bs[b]| && OnNodes(nodes, bs[b]) && TrainedMid(nodes, bs, b, k, trained)
    ensures var n := bs[b][k];
            && (Trainable(nodes[n]) ==> (n in trained <==> Earlier(bs, b, n)))
            && TrainedMid(nodes, bs, b, k + 1, if Trainable(nodes[n]) then trained + {n} else trained)
  {
    var n := bs[b][k];
    assert bs[b][..k + 1] == bs[b][..k] + [n];
    assert n !in bs[b][..k];
  }

  method BranchMask(nodes: seq<Node>, bs: seq<Branch>, b: nat, before: set<nat>) returns (mask: seq<bool>, trained: set<nat>)
    requires b < |bs| && OnNodes(nodes, bs[b]) && IsTrained(nodes, bs, b, before)
    ensures mask == MaskOf(nodes, bs, b) && IsTrained(nodes, bs, b + 1, trained)
  {
    mask, trained := [], before;
    for k := 0 to |bs[b]|
      invariant mask == MaskTo(nodes, bs, b, k) && TrainedMid(nodes, bs, b, k, trained)
    {
      TrainedAdvance(nodes, bs, b, k, trained);
      var n := bs[b][k];
      var trainable := nodes[n].sampled && true in nodes[n].mask;
      if trainable && n in trained {
        mask := mask + Falses(|nodes[n].mask|);
      } else {
        if trainable { trained := trained + {n}; }
        mask := mask + nodes[n].mask;
      }
      assert trained == trained + (if trainable then {n} else {});
    }
    TrainedEnds(nodes, bs, b, trained);
  }

  /** A lone branch is its nodes' masks, concatenated. */
  method SampledMask(nodes: seq<Node>, bs: seq<Branch>) returns (mask: seq<bool>)
    requires |bs| == 1 && OnNodes(nodes, bs[0])
    ensures mask == MaskOf(nodes, bs, 0)
  {
    mask := [];
    for k := 0 to |bs[0]|
      invariant mask == MaskTo(nodes, bs, 0, k)
    {
      mask := mask + nodes[bs[0][k]].mask;
    }
  }

  method LoneBranch(nodes: seq<Node>, bs: seq<Branch>) returns (kept: seq<nat>, masks: seq<seq<bool>>)
    requires |bs| == 1 && Walks(nodes, bs)
    ensures kept == KeptTo(nodes, bs, 1) && |masks| == |kept|
    ensures forall i | 0 <= i < |kept| :: masks[i] == MaskOf(nodes, bs, kept[i])
  {
    kept, masks := [], [];
    var mask := SampledMask(nodes, bs);
    hide MaskOf, OnNodes;
    assert KeptTo(nodes, bs, 0) == [];
    if true in mask { kept, masks := [0], [mask]; }
    assert KeptTo(nodes, bs, 1) == KeptTo(nodes, bs, 0) + kept;
  }

  method TrainableBranches(nodes: seq<Node>, bs: seq<Branch>) returns (kept: seq<nat>, masks: seq<seq<bool>>)
    requires Walks(nodes, bs)
    ensures kept == KeptTo(nodes, bs, |bs|) && |masks| == |kept|
    ensures forall i | 0 <= i < |kept| :: masks[i] == MaskOf(nodes, bs, kept[i])
  {
    if |bs| == 1 {
      kept, masks := LoneBranch(nodes, bs);
    } else {
      kept, masks := ForkedBranches(nodes, bs);
    }
  }

  lemma {:induction false} KeptNone(nodes: seq<Node>, bs: seq<Branch>)
    requires forall c | 0 <= c < |bs| :: OnNodes(nodes, bs[c])
    ensures KeptTo(nodes, bs, 0) == []
  {
  }

  lemma KeptNext(nodes: seq<Node>, bs: seq<Branch>, b: nat)
    requires b < |bs| && forall c | 0 <= c < |bs| :: OnNodes(nodes, bs[c])
    ensures KeptTo(nodes, bs, b + 1) == KeptTo(nodes, bs, b) + (if true in MaskOf(nodes, bs, b) then [b] else [])
  {
    hide OnNodes, MaskOf;
  }

  method ForkedBranches(nodes: seq<Node>, bs: seq<Branch>) returns (kept: seq<nat>, masks: seq<seq<bool>>)
    requires Walks(nodes, bs)
    ensures kept == KeptTo(nodes, bs, |bs|) && |masks| == |kept|
    ensures forall i | 0 <= i < |kept| :: masks[i] == MaskOf(nodes, bs, kept[i])
  {
    assert forall c | 0 <= c < |bs| :: OnNodes(nodes, bs[c]);
    hide MaskOf, OnNodes, Walks, KeptTo;
    KeptNone(nodes, bs);
    kept, masks := [], [];
    var trained: set<nat> := {};
    assert IsTrained(nodes, bs, 0, trained);
    hide IsTrained;
    for b := 0 to |bs|
      invariant IsTrained(nodes, bs, b, trained)
      invariant kept == KeptTo(nodes, bs, b) && |masks| == |kept|
      invariant forall i | 0 <= i < |kept| :: masks[i] == MaskOf(nodes, bs, kept[i])
    {
      KeptNext(nodes, bs, b);
      var mask;
      mask, trained := BranchMask(nodes, bs, b, trained);
      if true in mask { kept, masks := kept + [b], masks + [mask]; }
    }
  }

  method BranchTokens(nodes: seq<Node>, p: Branch) returns (tokens: seq<nat>)
    requires OnNodes(nodes, p)
    ensures tokens == TokensTo(nodes, p, |p|)
  {
    tokens := [];
    for k := 0 to |p|
      invariant tokens == TokensTo(nodes, p, k)
    {
      tokens := tokens + nodes[p[k]].tokens;
    }
  }

  // ---------------------------------------------------------------- spans

  /** The slice of a branch's mask at node `k` is what the node contributes. */
  lemma {:induction false} SliceIs(nodes: seq<Node>, bs: seq<Branch>, b: nat, upto: nat, k: nat)
    requires b < |bs| && k < upto <= |bs[b]| && OnNodes(nodes, bs[b])
    ensures var (at, len, mask) := (Offset(nodes, bs[b], k), |nodes[bs[b][k]].mask|, MaskTo(nodes, bs, b, upto));
            at + len <= |mask| && mask[at..at + len] == Credit(nodes, bs, b, bs[b][k])
  {
    hide Ascending, Offset, Credit;
    var (at, len) := (Offset(nodes, bs[b], k), |nodes[bs[b][k]].mask|);
    var front, last := MaskTo(nodes, bs, b, upto - 1), Credit(nodes, bs, b, bs[b][upto - 1]);
    assert MaskTo(nodes, bs, b, upto) == front + last;
    hide *;
    MaskLength(nodes, bs, b, upto - 1);
    if k < upto - 1 { SliceIs(nodes, bs, b, upto - 1, k); }
    SliceOfConcat(front, last, at, at + len);
  }

  lemma SliceOfConcat(a: seq<bool>, b: seq<bool>, i: nat, j: nat)
    requires i <= j <= |a| + |b|
    ensures j <= |a| ==> (a + b)[i..j] == a[i..j]
    ensures i == |a| && j == |a| + |b| ==> (a + b)[i..j] == b
  {
  }

  lemma {:induction false} SpanAt(mask: seq<bool>, n: nat, sample: nat, offset: nat)
    ensures var (rs, spans) := (Runs(mask), SpansOf(mask, n, sample, offset));
            && |spans| == |rs|
            && forall i | 0 <= i < |rs| :: rs[i].0 < rs[i].1 && spans[i] == Span(n, sample, rs[i].0, offset + rs[i].0, rs[i].1 - rs[i].0)
  {
    RunsAre(mask);
    hide Runs;
  }

  method NodeSpanList(mask: seq<bool>, n: nat, sample: nat, offset: nat) returns (spans: seq<Span>)
    ensures spans == SpansOf(mask, n, sample, offset)
  {
    var rs := TrueRuns(mask);
    SpanAt(mask, n, sample, offset);
    hide *;
    spans := [];
    for j := 0 to |rs|
      invariant |spans| == j
      invariant forall i | 0 <= i < j :: spans[i] == Span(n, sample, rs[i].0, offset + rs[i].0, rs[i].1 - rs[i].0)
    {
      spans := spans + [Span(n, sample, rs[j].0, offset + rs[j].0, rs[j].1 - rs[j].0)];
    }
  }

  ghost predicate Filed(nodes: seq<Node>, bs: seq<Branch>, i: nat, filed: seq<seq<Span>>)
    requires Walks(nodes, bs) && i <= |KeptTo(nodes, bs, |bs|)|
  {
    |filed| == |nodes| && forall n | 0 <= n < |nodes| :: filed[n] == Shares(nodes, bs, n, i)
  }

  /** Node `n`'s spans when sample `i` is filed up to node `k` of its branch. */
  ghost function Midway(nodes: seq<Node>, bs: seq<Branch>, i: nat, k: nat, n: nat): seq<Span>
    requires Walks(nodes, bs) && i < |KeptTo(nodes, bs, |bs|)| && k <= |bs[KeptTo(nodes, bs, |bs|)[i]]| && n < |nodes|
  {
    if n in bs[KeptTo(nodes, bs, |bs|)[i]][..k] then Shares(nodes, bs, n, i) + Share(nodes, bs, n, i) else Shares(nodes, bs, n, i)
  }

  ghost predicate FiledMid(nodes: seq<Node>, bs: seq<Branch>, i: nat, k: nat, filed: seq<seq<Span>>)
    requires Walks(nodes, bs) && i < |KeptTo(nodes, bs, |bs|)| && k <= |bs[KeptTo(nodes, bs, |bs|)[i]]|
  {
    |filed| == |nodes| && forall n | 0 <= n < |nodes| :: filed[n] == Midway(nodes, bs, i, k, n)
  }

  lemma {:induction false} MidwayNext(nodes: seq<Node>, bs: seq<Branch>, i: nat, k: nat, n: nat)
    requires Walks(nodes, bs) && i < |KeptTo(nodes, bs, |bs|)| && k < |bs[KeptTo(nodes, bs, |bs|)[i]]| && n < |nodes|
    ensures var m := bs[KeptTo(nodes, bs, |bs|)[i]][k];
            Midway(nodes, bs, i, k + 1, n) == Midway(nodes, bs, i, k, n) + (if n == m then Share(nodes, bs, n, i) else [])
  {
    var p := bs[KeptTo(nodes, bs, |bs|)[i]];
    assert OnNodes(nodes, p);
    assert p[..k + 1] == p[..k] + [p[k]] && p[k] !in p[..k];
    hide Share, Shares, Walks, KeptTo, OnNodes;
  }

  lemma {:induction false} FileNode(nodes: seq<Node>, bs: seq<Branch>, i: nat, k: nat, filed: seq<seq<Span>>, spans: seq<Span>)
    requires Walks(nodes, bs) && i < |KeptTo(nodes, bs, |bs|)| && k < |bs[KeptTo(nodes, bs, |bs|)[i]]|
    requires FiledMid(nodes, bs, i, k, filed)
    requires var b := KeptTo(nodes, bs, |bs|)[i];
             OnNodes(nodes, bs[b]) && spans == SpansOf(Credit(nodes, bs, b, bs[b][k]), bs[b][k], i, Offset(nodes, bs[b], k))
    ensures |filed| == |nodes|
    ensures var n := bs[KeptTo(nodes, bs, |bs|)[i]][k]; FiledMid(nodes, bs, i, k + 1, filed[n := filed[n] + spans])
  {
    var n := bs[KeptTo(nodes, bs, |bs|)[i]][k];
    ShareAt(nodes, bs, i, k);
    hide Share, Shares, SpansOf, Credit, Offset, OnNodes, KeptTo, Walks, Midway;
    var next := filed[n := filed[n] + spans];
    forall m | 0 <= m < |nodes| ensures next[m] == Midway(nodes, bs, i, k + 1, m) { MidwayNext(nodes, bs, i, k, m); }
  }

  lemma {:induction false} ShareAt(nodes: seq<Node>, bs: seq<Branch>, i: nat, k: nat)
    requires Walks(nodes, bs) && i < |KeptTo(nodes, bs, |bs|)| && k < |bs[KeptTo(nodes, bs, |bs|)[i]]|
    ensures var b := KeptTo(nodes, bs, |bs|)[i];
            && OnNodes(nodes, bs[b])
            && Share(nodes, bs, bs[b][k], i) == SpansOf(Credit(nodes, bs, b, bs[b][k]), bs[b][k], i, Offset(nodes, bs[b], k))
  {
    var b := KeptTo(nodes, bs, |bs|)[i];
    AscendingIndex(bs[b], k);
    hide SpansOf, Credit, Offset, KeptTo;
  }

  lemma {:induction false} FileStart(nodes: seq<Node>, bs: seq<Branch>, i: nat, filed: seq<seq<Span>>)
    requires Walks(nodes, bs) && i < |KeptTo(nodes, bs, |bs|)| && Filed(nodes, bs, i, filed)
    ensures |filed| == |nodes| && FiledMid(nodes, bs, i, 0, filed)
  {
    hide Share, Shares, KeptTo, Walks;
  }

  lemma {:induction false} FileEnd(nodes: seq<Node>, bs: seq<Branch>, i: nat, filed: seq<seq<Span>>)
    requires Walks(nodes, bs) && i < |KeptTo(nodes, bs, |bs|)|
    requires FiledMid(nodes, bs, i, |bs[KeptTo(nodes, bs, |bs|)[i]]|, filed)
    ensures Filed(nodes, bs, i + 1, filed)
  {
    var p := bs[KeptTo(nodes, bs, |bs|)[i]];
    assert p[..|p|] == p;
    forall n | 0 <= n < |nodes| ensures filed[n] == Shares(nodes, bs, n, i + 1) { AbsentShare(nodes, bs, n, i); }
  }

  lemma AbsentShare(nodes: seq<Node>, bs: seq<Branch>, n: nat, i: nat)
    requires Walks(nodes, bs) && i < |KeptTo(nodes, bs, |bs|)| && n < |nodes|
    ensures Shares(nodes, bs, n, i + 1) == Shares(nodes, bs, n, i) + Share(nodes, bs, n, i)
    ensures n !in bs[KeptTo(nodes, bs, |bs|)[i]] ==> Share(nodes, bs, n, i) == []
  {
    hide KeptTo, Walks;
  }

  method FileSample(nodes: seq<Node>, bs: seq<Branch>, kept: seq<nat>, i: nat, mask: seq<bool>, before: seq<seq<Span>>)
    returns (filed: seq<seq<Span>>)
    requires Walks(nodes, bs) && Aligned(nodes) && kept == KeptTo(nodes, bs, |bs|) && i < |kept|
    requires OnNodes(nodes, bs[kept[i]]) && mask == MaskOf(nodes, bs, kept[i]) && Filed(nodes, bs, i, before)
    ensures Filed(nodes, bs, i + 1, filed)
  {
    hide KeptTo, Walks, MaskTo, Share, Shares, SpansOf, Credit, Filed, FiledMid, Ascending;
    var p := bs[kept[i]];
    filed := before;
    FileStart(nodes, bs, i, filed);
    var offset := 0;
    for k := 0 to |p|
      invariant FiledMid(nodes, bs, i, k, filed) && |filed| == |nodes| && offset == Offset(nodes, p, k)
    {
      var n := p[k];
      var length := |nodes[n].tokens|;
      SliceIs(nodes, bs, kept[i], |p|, k);
      var spans := NodeSpanList(mask[offset..offset + length], n, i, offset);
      FileNode(nodes, bs, i, k, filed, spans);
      filed := filed[n := filed[n] + spans];
      offset := offset + length;
    }
    FileEnd(nodes, bs, i, filed);
  }

  method Flatten(nodes: seq<Node>, bs: seq<Branch>, filed: seq<seq<Span>>) returns (spans: seq<Span>)
    requires Walks(nodes, bs) && Filed(nodes, bs, |KeptTo(nodes, bs, |bs|)|, filed)
    ensures spans == Layout(nodes, bs, |nodes|)
  {
    hide Walks, KeptTo, Shares;
    spans := [];
    for m := 0 to |nodes|
      invariant spans == Layout(nodes, bs, m)
    {
      spans := spans + filed[m];
    }
  }

  /** The node lists of the samples' branches. */
  function NodeLists(bs: seq<Branch>, kept: seq<nat>): (r: seq<Branch>)
    requires forall i | 0 <= i < |kept| :: kept[i] < |bs|
    ensures |r| == |kept| && forall i | 0 <= i < |r| :: r[i] == bs[kept[i]]
  {
    seq(|kept|, i requires 0 <= i < |kept| => bs[kept[i]])
  }

  method LayOut(nodes: seq<Node>, bs: seq<Branch>, kept: seq<nat>, masks: seq<seq<bool>>) returns (layout: TrainingLayout)
    requires Walks(nodes, bs) && Aligned(nodes) && kept == KeptTo(nodes, bs, |bs|) && |masks| == |kept|
    requires forall i | 0 <= i < |kept| :: masks[i] == MaskOf(nodes, bs, kept[i])
    ensures layout == TrainingLayout(kept, NodeLists(bs, kept), Layout(nodes, bs, |nodes|))
  {
    hide KeptTo, MaskOf, Shares, Layout, Aligned;
    var filed: seq<seq<Span>> := seq(|nodes|, _ => []);
    assert Filed(nodes, bs, 0, filed) by { FiledNone(nodes, bs, filed); }
    for i := 0 to |kept|
      invariant Filed(nodes, bs, i, filed)
    {
      filed := FileSample(nodes, bs, kept, i, masks[i], filed);
    }
    var spans := Flatten(nodes, bs, filed);
    layout := TrainingLayout(kept, NodeLists(bs, kept), spans);
  }

  lemma FiledNone(nodes: seq<Node>, bs: seq<Branch>, filed: seq<seq<Span>>)
    requires Walks(nodes, bs) && |filed| == |nodes| && forall n | 0 <= n < |nodes| :: filed[n] == []
    ensures Filed(nodes, bs, 0, filed)
  {
  }

  /** `materialize_training_data`: the samples of the branches that credit some token and, when
      the trace forks, the layout of their trainable spans. */
  method MaterializeTrainingData(nodes: seq<Node>, bs: seq<Branch>) returns (samples: seq<Sample>, layout: Option<TrainingLayout>)
    requires Walks(nodes, bs) && Aligned(nodes)
    ensures samples == Samples(nodes, bs)
    ensures layout.Some? <==> |bs| > 1
    ensures layout.Some? ==> var kept := KeptTo(nodes, bs, |bs|);
              layout.value == TrainingLayout(kept, NodeLists(bs, kept), Layout(nodes, bs, |nodes|))
  {
    hide KeptTo, MaskOf, Layout;
    var kept, masks := TrainableBranches(nodes, bs);
    samples := [];
    for i := 0 to |kept|
      invariant |samples| == i && forall j | 0 <= j < i :: samples[j] == SampleAt(nodes, bs, kept[j])
    {
      var tokens := BranchTokens(nodes, bs[kept[i]]);
      samples := samples + [Sample(kept[i], tokens, masks[i])];
    }
    layout := None;
    if |bs| > 1 {
      var laid := LayOut(nodes, bs, kept, masks);
      layout := Some(laid);
    }
  }
}
