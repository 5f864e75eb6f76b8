/** The span layout of materialized samples: for every node, the maximal runs of its trainable
    tokens and where they sit in the one sample that credits the node. */
module TrajectoryLayout {
  import opened Common
  import opened Trajectories

  // ---------------------------------------------------------------- maximal runs

  /** A half-open interval of set bits. */
  type Run = (nat, nat)

  /** The runs of a mask extended by one bit at position `n`. */
  function Grow(rs: seq<Run>, bit: bool, n: nat): seq<Run> {
    if !bit then rs
    else if rs != [] && rs[|rs| - 1].1 == n then rs[..|rs| - 1] + [(rs[|rs| - 1].0, n + 1)]
    else rs + [(n, n + 1)]
  }

  function Runs(mask: seq<bool>): seq<Run> {
    if mask == [] then [] else Grow(Runs(mask[..|mask| - 1]), mask[|mask| - 1], |mask| - 1)
  }

  ghost predicate Within(r: Run, p: nat) { r.0 <= p < r.1 }

  ghost predicate Hit(rs: seq<Run>, p: nat) { exists i :: 0 <= i < |rs| && Within(rs[i], p) }

  /** Nonempty intervals in order that never touch. */
  ghost predicate Separate(rs: seq<Run>, n: nat) {
    && (forall i | 0 <= i < |rs| :: rs[i].0 < rs[i].1 <= n)
    && (forall i, j | 0 <= i < j < |rs| :: rs[i].1 < rs[j].0)
  }

  /** The maximal runs of a mask: separate intervals that hold exactly its set bits. */
  ghost predicate IsRuns(mask: seq<bool>, rs: seq<Run>) {
    Separate(rs, |mask|) && forall p | 0 <= p < |mask| :: mask[p] <==> Hit(rs, p)
  }

  lemma HitSnoc(rs: seq<Run>, r: Run, p: nat)
    ensures Hit(rs + [r], p) <==> Hit(rs, p) || Within(r, p)
  {
    if Hit(rs, p) {
      var i :| 0 <= i < |rs| && Within(rs[i], p);
      assert Within((rs + [r])[i], p);
    }
    if Within(r, p) { assert Within((rs + [r])[|rs|], p); }
  }

  lemma HitBelow(rs: seq<Run>, n: nat, p: nat)
    requires Separate(rs, n) && Hit(rs, p)
    ensures p < n
  {
  }

  lemma GrowHits(rs: seq<Run>, bit: bool, n: nat, p: nat)
    requires Separate(rs, n) && p <= n
    ensures Hit(Grow(rs, bit, n), p) <==> Hit(rs, p) || (bit && p == n)
  {
    var m := |rs| - 1;
    if bit && rs != [] && rs[m].1 == n {
      assert rs == rs[..m] + [rs[m]];
      HitSnoc(rs[..m], rs[m], p);
      HitSnoc(rs[..m], (rs[m].0, n + 1), p);
    } else if bit {
      HitSnoc(rs, (n, n + 1), p);
    }
  }

  lemma GrowSeparate(rs: seq<Run>, bit: bool, n: nat)
    requires Separate(rs, n)
    ensures Separate(Grow(rs, bit, n), n + 1)
  {
  }

  lemma {:induction false} RunsAre(mask: seq<bool>)
    ensures IsRuns(mask, Runs(mask))
  {
    if mask != [] {
      var n := |mask| - 1;
      var rs := Runs(mask[..n]);
      RunsAre(mask[..n]);
      GrowSeparate(rs, mask[n], n);
      hide Grow, Separate, Hit;
      forall p | 0 <= p < |mask| ensures mask[p] <==> Hit(Grow(rs, mask[n], n), p) {
        GrowHits(rs, mask[n], n, p);
        if p < n {
          assert mask[..n][p] == mask[p];
        } else if Hit(rs, n) {
          HitBelow(rs, n, n);
        }
      }
    }
  }

  /** The list with its last bit removed. */
  function Shrink(rs: seq<Run>, n: nat): seq<Run>
    requires rs != []
  {
    var m := |rs| - 1;
    if rs[m].0 == n then rs[..m] else rs[..m] + [(rs[m].0, n)]
  }

  lemma GrowShrink(rs: seq<Run>, n: nat)
    requires rs != [] && Separate(rs, n + 1) && rs[|rs| - 1].1 == n + 1
    ensures Grow(Shrink(rs, n), true, n) == rs
  {
    var m := |rs| - 1;
    assert rs == rs[..m] + [rs[m]];
  }

  /** There is only one such list. */
  lemma {:induction false} RunsUnique(mask: seq<bool>, rs: seq<Run>)
    requires IsRuns(mask, rs)
    ensures rs == Runs(mask)
    decreases |mask|
  {
    if mask == [] {
      assert rs == [];
    } else {
      var n := |mask| - 1;
      assert Separate(rs, n + 1);
      if !mask[n] {
        ShortRuns(mask, rs);
        hide IsRuns;
        RunsUnique(mask[..n], rs);
      } else {
        LastRun(mask, rs);
        CutRuns(mask, rs, Shrink(rs, n));
        hide IsRuns, Shrink, Grow, Separate;
        RunsUnique(mask[..n], Shrink(rs, n));
        GrowShrink(rs, n);
      }
    }
  }

  lemma LastRun(mask: seq<bool>, rs: seq<Run>)
    requires mask != [] && mask[|mask| - 1] && IsRuns(mask, rs)
    ensures rs != [] && rs[|rs| - 1].1 == |mask|
  {
    var n := |mask| - 1;
    assert Hit(rs, n);
    var m := |rs| - 1;
    assert forall a | 0 <= a < m :: rs[a].1 < rs[m].0 <= n;
    var i :| 0 <= i < |rs| && Within(rs[i], n);
    assert i == m;
  }

  lemma ShortRuns(mask: seq<bool>, rs: seq<Run>)
    requires mask != [] && !mask[|mask| - 1] && IsRuns(mask, rs)
    ensures IsRuns(mask[..|mask| - 1], rs)
  {
    var n := |mask| - 1;
    assert !Hit(rs, n);
    forall i | 0 <= i < |rs| ensures rs[i].1 <= n { assert !Within(rs[i], n); }
    assert forall p | 0 <= p < n :: mask[..n][p] == mask[p];
  }

  lemma CutRuns(mask: seq<bool>, rs: seq<Run>, cut: seq<Run>)
    requires mask != [] && IsRuns(mask, rs) && rs != [] && rs[|rs| - 1].1 == |mask|
    requires cut == Shrink(rs, |mask| - 1)
    ensures IsRuns(mask[..|mask| - 1], cut)
  {
    var n, m := |mask| - 1, |rs| - 1;
    assert rs == rs[..m] + [rs[m]];
    forall p | 0 <= p < n ensures mask[..n][p] <==> Hit(cut, p) {
      assert mask[..n][p] == mask[p];
      HitSnoc(rs[..m], rs[m], p);
      if rs[m].0 != n { HitSnoc(rs[..m], (rs[m].0, n), p); }
    }
  }

  lemma {:induction false} NoRuns(mask: seq<bool>)
    requires true !in mask
    ensures Runs(mask) == []
  {
    if mask != [] { NoRuns(mask[..|mask| - 1]); }
  }

  method TrueRuns(mask: seq<bool>) returns (rs: seq<Run>)
    ensures rs == Runs(mask) && IsRuns(mask, rs)
  {
    rs := [];
    var start: Option<nat> := None;
    for i := 0 to |mask|
      invariant start.Some? ==> start.value < i
      invariant Runs(mask[..i]) == if start.Some? then rs + [(start.value, i)] else rs
      invariant start.None? && rs != [] ==> rs[|rs| - 1].1 < i
    {
      assert mask[..i + 1][..i] == mask[..i];
      if mask[i] && start.None? {
        start := Some(i);
      } else if !mask[i] && start.Some? {
        rs := rs + [(start.value, i)];
        start := None;
      }
    }
    assert mask[..|mask|] == mask;
    if start.Some? { rs := rs + [(start.value, |mask|)]; }
    RunsAre(mask);
  }

  // ---------------------------------------------------------------- spans

  ghost predicate Walks(nodes: seq<Node>, bs: seq<Branch>) { forall b | 0 <= b < |bs| :: OnNodes(nodes, bs[b]) }

  function SpanList(rs: seq<Run>, n: nat, sample: nat, offset: nat): (r: seq<Span>)
    requires forall j | 0 <= j < |rs| :: rs[j].0 < rs[j].1
    ensures |r| == |rs|
    ensures forall j | 0 <= j < |rs| :: r[j] == Span(n, sample, rs[j].0, offset + rs[j].0, rs[j].1 - rs[j].0)
  {
    seq(|rs|, j requires 0 <= j < |rs| => Span(n, sample, rs[j].0, offset + rs[j].0, rs[j].1 - rs[j].0))
  }

  /** The spans of a node's mask, placed in a sample. */
  function SpansOf(mask: seq<bool>, n: nat, sample: nat, offset: nat): seq<Span> {
    RunsAre(mask);
    SpanList(Runs(mask), n, sample, offset)
  }

  /** What sample `i` adds to node `n`'s spans, and what the first `i` samples add. */
  function Share(nodes: seq<Node>, bs: seq<Branch>, n: nat, i: nat): seq<Span>
    requires Walks(nodes, bs) && n < |nodes| && i < |KeptTo(nodes, bs, |bs|)|
  {
    var b := KeptTo(nodes, bs, |bs|)[i];
    if n in bs[b] then SpansOf(Credit(nodes, bs, b, n), n, i, Offset(nodes, bs[b], IndexIn(bs[b], n))) else []
  }

  function Shares(nodes: seq<Node>, bs: seq<Branch>, n: nat, i: nat): seq<Span>
    requires Walks(nodes, bs) && n < |nodes| && i <= |KeptTo(nodes, bs, |bs|)|
  {
    if i == 0 then [] else Shares(nodes, bs, n, i - 1) + Share(nodes, bs, n, i - 1)
  }

  /** All spans, node by node in creation order. */
  function Layout(nodes: seq<Node>, bs: seq<Branch>, m: nat): seq<Span>
    requires Walks(nodes, bs) && m <= |nodes|
  {
    if m == 0 then []
    else Layout(nodes, bs, m - 1) + Shares(nodes, bs, m - 1, |KeptTo(nodes, bs, |bs|)|)
  }

  // ---------------------------------------------------------------- one sample per node

  /** The spans of a trainable node, all in the sample of its first branch. */
  ghost function HomeSpans(nodes: seq<Node>, bs: seq<Branch>, n: nat): seq<Span>
    requires Branching(nodes, bs) && Silent(nodes) && n < |nodes|
  {
    if !Trainable(nodes[n]) then []
    else
      HomeCredits(nodes, bs, n, IndexIn(nodes[n].mask, true));
      var b := Home(bs, n);
      SpansOf(nodes[n].mask, n, IndexIn(KeptTo(nodes, bs, |bs|), b), Offset(nodes, bs[b], IndexIn(bs[b], n)))
  }

  lemma NoSpans(mask: seq<bool>, n: nat, sample: nat, offset: nat)
    requires true !in mask
    ensures SpansOf(mask, n, sample, offset) == []
  {
    NoRuns(mask);
  }

  /** Only the sample of its first branch adds to a node's spans. */
  lemma {:induction false} ShareIs(nodes: seq<Node>, bs: seq<Branch>, n: nat, i: nat)
    requires Branching(nodes, bs) && Silent(nodes) && n < |nodes| && i < |KeptTo(nodes, bs, |bs|)|
    ensures Share(nodes, bs, n, i) ==
      if Trainable(nodes[n]) && KeptTo(nodes, bs, |bs|)[i] == Home(bs, n) then HomeSpans(nodes, bs, n) else []
  {
    var b := KeptTo(nodes, bs, |bs|)[i];
    assert Covered(bs, n) && OnNodes(nodes, bs[b]);
    KeptIndex(nodes, bs, i);
    if n in bs[b] {
      if !Trainable(nodes[n]) || Earlier(bs, b, n) {
        assert true !in Credit(nodes, bs, b, n);
        NoSpans(Credit(nodes, bs, b, n), n, i, Offset(nodes, bs[b], IndexIn(bs[b], n)));
        hide SpansOf, Silent, Branching, OnNodes, KeptTo;
        assert Trainable(nodes[n]) ==> b != Home(bs, n);
      } else {
        FirstHome(bs, b, n);
        hide SpansOf, Silent, Branching, OnNodes, KeptTo;
      }
    }
  }

  lemma PrefixMember(p: Branch, i: nat, x: nat)
    requires Ascending(p) && 0 < i <= |p|
    ensures x in p[..i] <==> x in p[..i - 1] || p[i - 1] == x
    ensures !(x in p[..i - 1] && p[i - 1] == x)
  {
    assert p[..i] == p[..i - 1] + [p[i - 1]];
  }

  lemma {:induction false} SharesAre(nodes: seq<Node>, bs: seq<Branch>, n: nat, i: nat)
    requires Branching(nodes, bs) && Silent(nodes) && n < |nodes| && i <= |KeptTo(nodes, bs, |bs|)|
    ensures Shares(nodes, bs, n, i) ==
      if Trainable(nodes[n]) && Home(bs, n) in KeptTo(nodes, bs, |bs|)[..i] then HomeSpans(nodes, bs, n) else []
  {
    hide *;
    BranchingCovers(nodes, bs, n);
    if i == 0 {
      SharesNone(nodes, bs, n);
    } else {
      KeptAscends(nodes, bs, |bs|);
      SharesAre(nodes, bs, n, i - 1);
      SharesNext(nodes, bs, n, i - 1);
    }
  }

  lemma BranchingCovers(nodes: seq<Node>, bs: seq<Branch>, n: nat)
    requires Branching(nodes, bs) && n < |nodes|
    ensures Walks(nodes, bs) && Covered(bs, n) && forall c | 0 <= c < |bs| :: OnNodes(nodes, bs[c])
  {
  }

  lemma {:induction false} SharesNone(nodes: seq<Node>, bs: seq<Branch>, n: nat)
    requires Walks(nodes, bs) && n < |nodes|
    ensures Shares(nodes, bs, n, 0) == [] && KeptTo(nodes, bs, |bs|)[..0] == []
  {
    hide Walks, KeptTo;
  }

  lemma {:induction false} SharesUnfold(nodes: seq<Node>, bs: seq<Branch>, n: nat, i: nat)
    requires Walks(nodes, bs) && n < |nodes| && i < |KeptTo(nodes, bs, |bs|)|
    ensures Shares(nodes, bs, n, i + 1) == Shares(nodes, bs, n, i) + Share(nodes, bs, n, i)
  {
    hide Walks, KeptTo, Share;
  }

  lemma {:induction false} SharesNext(nodes: seq<Node>, bs: seq<Branch>, n: nat, i: nat)
    requires Branching(nodes, bs) && Silent(nodes) && n < |nodes| && i < |KeptTo(nodes, bs, |bs|)| && Covered(bs, n)
    requires Ascending(KeptTo(nodes, bs, |bs|))
    requires Shares(nodes, bs, n, i) ==
      if Trainable(nodes[n]) && Home(bs, n) in KeptTo(nodes, bs, |bs|)[..i] then HomeSpans(nodes, bs, n) else []
    ensures Shares(nodes, bs, n, i + 1) ==
      if Trainable(nodes[n]) && Home(bs, n) in KeptTo(nodes, bs, |bs|)[..i + 1] then HomeSpans(nodes, bs, n) else []
  {
    hide *;
    BranchingCovers(nodes, bs, n);
    SharesUnfold(nodes, bs, n, i);
    var kept, home := KeptTo(nodes, bs, |bs|), Home(bs, n);
    PrefixMember(kept, i + 1, home);
    ShareIs(nodes, bs, n, i);
    OneOf(Shares(nodes, bs, n, i), Share(nodes, bs, n, i), HomeSpans(nodes, bs, n),
          Trainable(nodes[n]) && home in kept[..i], Trainable(nodes[n]) && kept[i] == home);
  }

  lemma OneOf<T>(a: seq<T>, b: seq<T>, x: seq<T>, left: bool, right: bool)
    requires !(left && right) && a == (if left then x else []) && b == (if right then x else [])
    ensures a + b == if left || right then x else []
  {
  }

  lemma {:induction false} NodeSpans(nodes: seq<Node>, bs: seq<Branch>, n: nat)
    requires Branching(nodes, bs) && Silent(nodes) && n < |nodes|
    ensures Shares(nodes, bs, n, |KeptTo(nodes, bs, |bs|)|) == HomeSpans(nodes, bs, n)
  {
    var kept := KeptTo(nodes, bs, |bs|);
    SharesAre(nodes, bs, n, |kept|);
    assert kept[..|kept|] == kept;
    if Trainable(nodes[n]) { HomeCredits(nodes, bs, n, IndexIn(nodes[n].mask, true)); }
  }

  // ---------------------------------------------------------------- the layout is exact

  /** A maximal run of trainable tokens of its node, which `To` sends to the span's place. */
  ghost predicate Faithful(nodes: seq<Node>, bs: seq<Branch>, s: Span)
    requires Branching(nodes, bs) && Silent(nodes)
  {
    && 0 < s.length
    && (forall o | s.nodeStart <= o < s.nodeStart + s.length ::
          NodeHit(nodes, s.node, o) && To(nodes, bs, s.node, o) == (s.sample, s.sampleStart + (o - s.nodeStart)))
    && !NodeHit(nodes, s.node, s.nodeStart + s.length)
    && (s.nodeStart > 0 ==> !NodeHit(nodes, s.node, s.nodeStart - 1))
  }

  /** Earlier node, or same node and not even touching. */
  ghost predicate Before(a: Span, b: Span) {
    a.node < b.node || (a.node == b.node && a.nodeStart + a.length < b.nodeStart)
  }

  ghost predicate Ordered(spans: seq<Span>) { forall i, j | 0 <= i < j < |spans| :: Before(spans[i], spans[j]) }

  ghost predicate Contains(s: Span, n: nat, o: nat) { s.node == n && s.nodeStart <= o < s.nodeStart + s.length }

  ghost predicate Covers(spans: seq<Span>, n: nat, o: nat) { exists i :: 0 <= i < |spans| && Contains(spans[i], n, o) }

  /** Maximality: the bits just outside a run are clear. */
  lemma RunEdges(mask: seq<bool>, rs: seq<Run>, j: nat)
    requires IsRuns(mask, rs) && j < |rs|
    ensures rs[j].0 < rs[j].1 <= |mask|
    ensures forall p | rs[j].0 <= p < rs[j].1 :: mask[p]
    ensures rs[j].1 < |mask| ==> !mask[rs[j].1]
    ensures rs[j].0 > 0 ==> !mask[rs[j].0 - 1]
  {
    forall p | rs[j].0 <= p < rs[j].1 ensures mask[p] { assert Within(rs[j], p) && Hit(rs, p); }
    forall i | 0 <= i < |rs| ensures !Within(rs[i], rs[j].1) && (rs[j].0 > 0 ==> !Within(rs[i], rs[j].0 - 1)) {
      assert i < j || i == j || j < i;
    }
    assert !Hit(rs, rs[j].1) && (rs[j].0 > 0 ==> !Hit(rs, rs[j].0 - 1));
  }

  lemma HomeSpanAt(nodes: seq<Node>, bs: seq<Branch>, n: nat, j: nat, o: nat)
    requires Branching(nodes, bs) && Silent(nodes) && n < |nodes| && j < |HomeSpans(nodes, bs, n)| && NodeHit(nodes, n, o)
    ensures var s := HomeSpans(nodes, bs, n)[j]; s.nodeStart <= o ==> To(nodes, bs, n, o) == (s.sample, s.sampleStart + (o - s.nodeStart))
  {
    hide Branching, Silent, Runs, KeptTo, Home, Offset;
  }

  lemma HomeSpanRun(nodes: seq<Node>, bs: seq<Branch>, n: nat, j: nat)
    requires Branching(nodes, bs) && Silent(nodes) && n < |nodes| && j < |HomeSpans(nodes, bs, n)|
    ensures var s, rs := HomeSpans(nodes, bs, n)[j], Runs(nodes[n].mask);
            && j < |rs| && IsRuns(nodes[n].mask, rs)
            && s.node == n && s.nodeStart == rs[j].0 && s.nodeStart + s.length == rs[j].1
  {
    RunsAre(nodes[n].mask);
    hide Branching, Silent, Runs, KeptTo, Home, Offset;
  }

  lemma HomeSpansFaithful(nodes: seq<Node>, bs: seq<Branch>, n: nat, j: nat)
    requires Branching(nodes, bs) && Silent(nodes) && n < |nodes| && j < |HomeSpans(nodes, bs, n)|
    ensures var s := HomeSpans(nodes, bs, n)[j]; s.node == n && Faithful(nodes, bs, s)
  {
    hide Branching, Silent, Runs, HomeSpans, To, IsRuns;
    HomeSpanRun(nodes, bs, n, j);
    RunEdges(nodes[n].mask, Runs(nodes[n].mask), j);
    var s := HomeSpans(nodes, bs, n)[j];
    forall o | s.nodeStart <= o < s.nodeStart + s.length
      ensures NodeHit(nodes, n, o) && To(nodes, bs, n, o) == (s.sample, s.sampleStart + (o - s.nodeStart))
    {
      HomeSpanAt(nodes, bs, n, j, o);
    }
  }

  lemma HomeSpansOrdered(nodes: seq<Node>, bs: seq<Branch>, n: nat)
    requires Branching(nodes, bs) && Silent(nodes) && n < |nodes|
    ensures Ordered(HomeSpans(nodes, bs, n)) && forall j | 0 <= j < |HomeSpans(nodes, bs, n)| :: HomeSpans(nodes, bs, n)[j].node == n
  {
    RunsAre(nodes[n].mask);
    hide Branching, Silent, Runs, KeptTo, Home, Offset;
  }

  lemma HomeSpansCover(nodes: seq<Node>, bs: seq<Branch>, n: nat, o: nat)
    requires Branching(nodes, bs) && Silent(nodes) && NodeHit(nodes, n, o)
    ensures Covers(HomeSpans(nodes, bs, n), n, o)
  {
    var rs := Runs(nodes[n].mask);
    RunsAre(nodes[n].mask);
    assert nodes[n].mask[o] && Trainable(nodes[n]) && Hit(rs, o);
    var i :| 0 <= i < |rs| && Within(rs[i], o);
    hide Branching, Silent, Runs, KeptTo, Home, Offset;
    assert Contains(HomeSpans(nodes, bs, n)[i], n, o);
  }

  lemma CoversConcat(a: seq<Span>, b: seq<Span>, n: nat, o: nat)
    requires Covers(a, n, o) || Covers(b, n, o)
    ensures Covers(a + b, n, o)
  {
    if Covers(a, n, o) {
      var i :| 0 <= i < |a| && Contains(a[i], n, o);
      assert Contains((a + b)[i], n, o);
    } else {
      var i :| 0 <= i < |b| && Contains(b[i], n, o);
      assert Contains((a + b)[|a| + i], n, o);
    }
  }

  lemma OrderedConcat(a: seq<Span>, b: seq<Span>, m: nat)
    requires Ordered(a) && Ordered(b)
    requires (forall i | 0 <= i < |a| :: a[i].node < m) && forall i | 0 <= i < |b| :: b[i].node == m
    ensures Ordered(a + b) && forall i | 0 <= i < |a + b| :: (a + b)[i].node <= m
  {
  }

  lemma BranchingWalks(nodes: seq<Node>, bs: seq<Branch>)
    requires Branching(nodes, bs)
    ensures Walks(nodes, bs)
  {
    hide OnNodes, Covered;
  }

  lemma LayoutStep(nodes: seq<Node>, bs: seq<Branch>, m: nat)
    requires Walks(nodes, bs) && 0 < m <= |nodes|
    ensures Layout(nodes, bs, m) == Layout(nodes, bs, m - 1) + Shares(nodes, bs, m - 1, |KeptTo(nodes, bs, |bs|)|)
  {
    hide Walks, Shares, KeptTo;
  }

  lemma LayoutUnfolds(nodes: seq<Node>, bs: seq<Branch>, m: nat)
    requires Branching(nodes, bs) && Silent(nodes) && 0 < m <= |nodes|
    ensures Walks(nodes, bs) && Layout(nodes, bs, m) == Layout(nodes, bs, m - 1) + HomeSpans(nodes, bs, m - 1)
  {
    hide *;
    BranchingWalks(nodes, bs);
    LayoutStep(nodes, bs, m);
    NodeSpans(nodes, bs, m - 1);
  }

  lemma {:induction false} LayoutEmpty(nodes: seq<Node>, bs: seq<Branch>)
    requires Branching(nodes, bs)
    ensures Walks(nodes, bs) && Layout(nodes, bs, 0) == [] && Ordered([])
  {
  }

  lemma {:induction false} LayoutOrdered(nodes: seq<Node>, bs: seq<Branch>, m: nat)
    requires Branching(nodes, bs) && Silent(nodes) && m <= |nodes|
    ensures Ordered(Layout(nodes, bs, m)) && forall i | 0 <= i < |Layout(nodes, bs, m)| :: Layout(nodes, bs, m)[i].node < m
  {
    hide *;
    if m == 0 {
      LayoutEmpty(nodes, bs);
    } else {
      LayoutUnfolds(nodes, bs, m);
      LayoutOrdered(nodes, bs, m - 1);
      HomeSpansOrdered(nodes, bs, m - 1);
      OrderedConcat(Layout(nodes, bs, m - 1), HomeSpans(nodes, bs, m - 1), m - 1);
    }
  }

  lemma {:induction false} LayoutFaithful(nodes: seq<Node>, bs: seq<Branch>, m: nat, i: nat)
    requires Branching(nodes, bs) && Silent(nodes) && m <= |nodes| && i < |Layout(nodes, bs, m)|
    ensures Faithful(nodes, bs, Layout(nodes, bs, m)[i])
  {
    hide *;
    if m == 0 {
      LayoutEmpty(nodes, bs);
      assert false;
    } else {
      LayoutUnfolds(nodes, bs, m);
      var before := |Layout(nodes, bs, m - 1)|;
      if i < before {
        LayoutFaithful(nodes, bs, m - 1, i);
      } else {
        HomeSpansFaithful(nodes, bs, m - 1, i - before);
      }
    }
  }

  lemma {:induction false} LayoutCovers(nodes: seq<Node>, bs: seq<Branch>, m: nat, n: nat, o: nat)
    requires Branching(nodes, bs) && Silent(nodes) && m <= |nodes| && n < m && NodeHit(nodes, n, o)
    ensures Covers(Layout(nodes, bs, m), n, o)
  {
    hide *;
    LayoutUnfolds(nodes, bs, m);
    if n < m - 1 {
      LayoutCovers(nodes, bs, m - 1, n, o);
    } else {
      HomeSpansCover(nodes, bs, n, o);
    }
    CoversConcat(Layout(nodes, bs, m - 1), HomeSpans(nodes, bs, m - 1), n, o);
  }

  /** The layout spans are disjoint maximal runs, ordered by node then offset, that cover exactly
      the trainable tokens and point at exactly the positions that credit them. */
  lemma {:induction false} LayoutExact(nodes: seq<Node>, bs: seq<Branch>)
    requires Branching(nodes, bs) && Silent(nodes)
    ensures var spans := Layout(nodes, bs, |nodes|);
            && Ordered(spans)
            && (forall i | 0 <= i < |spans| :: Faithful(nodes, bs, spans[i]))
            && (forall n: nat, o: nat | NodeHit(nodes, n, o) :: Covers(spans, n, o))
  {
    var spans := Layout(nodes, bs, |nodes|);
    LayoutOrdered(nodes, bs, |nodes|);
    hide Branching, Silent, Layout, Faithful, Covers, Walks, Ordered;
    forall i | 0 <= i < |spans| ensures Faithful(nodes, bs, spans[i]) { LayoutFaithful(nodes, bs, |nodes|, i); }
    forall n: nat, o: nat | NodeHit(nodes, n, o) ensures Covers(spans, n, o) { LayoutCovers(nodes, bs, |nodes|, n, o); }
  }
}
