/** From a message forest to training samples: which branch credits which sampled node, and where
    in the sample its tokens land. */
module Trajectories {
  import opened Common

  datatype Node = Node(parent: Option<nat>, sampled: bool, tokens: seq<nat>, mask: seq<bool>)

  /** A branch is the sequence of node indices on a root-to-leaf path. */
  type Branch = seq<nat>

  datatype Sample = Sample(branch: nat, tokens: seq<nat>, mask: seq<bool>)

  datatype Span = Span(node: nat, sample: nat, nodeStart: nat, sampleStart: nat, length: nat)

  // ---------------------------------------------------------------- branches of a forest

  /** Parents are created before their children. */
  ghost predicate Forest(nodes: seq<Node>) {
    forall i | 0 <= i < |nodes| :: nodes[i].parent.Some? ==> nodes[i].parent.value < i
  }

  ghost predicate Aligned(nodes: seq<Node>) {
    forall i | 0 <= i < |nodes| :: |nodes[i].mask| == |nodes[i].tokens|
  }

  /** Nodes the model did not sample carry no trainable token. */
  ghost predicate Silent(nodes: seq<Node>) {
    forall i | 0 <= i < |nodes| && !nodes[i].sampled :: true !in nodes[i].mask
  }

  function Path(nodes: seq<Node>, i: nat): (p: Branch)
    requires Forest(nodes) && i < |nodes|
    ensures p != [] && p[|p| - 1] == i
    decreases i
  {
    if nodes[i].parent.None? then [i] else Path(nodes, nodes[i].parent.value) + [i]
  }

  predicate Leaf(nodes: seq<Node>, i: nat) {
    forall j | 0 <= j < |nodes| :: nodes[j].parent != Some(i)
  }

  /** The root-to-leaf paths of the first `n` nodes' leaves, in leaf order. */
  function BranchesTo(nodes: seq<Node>, n: nat): seq<Branch>
    requires Forest(nodes) && n <= |nodes|
  {
    if n == 0 then []
    else BranchesTo(nodes, n - 1) + (if Leaf(nodes, n - 1) then [Path(nodes, n - 1)] else [])
  }

  function Branches(nodes: seq<Node>): seq<Branch>
    requires Forest(nodes)
  {
    BranchesTo(nodes, |nodes|)
  }

  ghost predicate Ascending(p: Branch) { forall i, j | 0 <= i < j < |p| :: p[i] < p[j] }

  /** Every branch names existing nodes, each once, and every node is on some branch. */
  ghost predicate Branching(nodes: seq<Node>, bs: seq<Branch>) {
    && (forall b | 0 <= b < |bs| :: OnNodes(nodes, bs[b]))
    && (forall n | 0 <= n < |nodes| :: Covered(bs, n))
  }

  ghost predicate Covered(bs: seq<Branch>, n: nat) { exists b :: 0 <= b < |bs| && n in bs[b] }

  ghost predicate OnNodes(nodes: seq<Node>, p: Branch) {
    (forall k | 0 <= k < |p| :: p[k] < |nodes|) && Ascending(p)
  }

  /** A root-to-leaf path: it starts at a root, follows parent links, and ends at a node without children. */
  ghost predicate RootToLeaf(nodes: seq<Node>, p: Branch) {
    && p != [] && (forall k | 0 <= k < |p| :: p[k] < |nodes|)
    && nodes[p[0]].parent.None? && (forall k | 0 < k < |p| :: nodes[p[k]].parent == Some(p[k - 1]))
    && forall j | 0 <= j < |nodes| :: nodes[j].parent != Some(p[|p| - 1])
  }

  lemma {:induction false} PathLinks(nodes: seq<Node>, i: nat)
    requires Forest(nodes) && i < |nodes|
    ensures var p := Path(nodes, i);
            && (forall k | 0 <= k < |p| :: p[k] < |nodes|)
            && nodes[p[0]].parent.None? && (forall k | 0 < k < |p| :: nodes[p[k]].parent == Some(p[k - 1]))
    decreases i
  {
    if nodes[i].parent.Some? { PathLinks(nodes, nodes[i].parent.value); }
  }

  lemma {:induction false} LinksPath(nodes: seq<Node>, p: Branch)
    requires Forest(nodes) && p != [] && forall k | 0 <= k < |p| :: p[k] < |nodes|
    requires nodes[p[0]].parent.None? && (forall k | 0 < k < |p| :: nodes[p[k]].parent == Some(p[k - 1]))
    ensures p == Path(nodes, p[|p| - 1])
    decreases |p|
  {
    if |p| == 1 {
      assert p == [p[0]];
    } else {
      LinksPath(nodes, p[..|p| - 1]);
      assert p == p[..|p| - 1] + [p[|p| - 1]];
    }
  }

  lemma {:induction false} BranchesFrom(nodes: seq<Node>, n: nat)
    requires Forest(nodes) && n <= |nodes|
    ensures forall b | 0 <= b < |BranchesTo(nodes, n)| ::
              BranchesTo(nodes, n)[b] != [] && BranchesTo(nodes, n)[b][|BranchesTo(nodes, n)[b]| - 1] < n
              && RootToLeaf(nodes, BranchesTo(nodes, n)[b])
    ensures forall b, c | 0 <= b < c < |BranchesTo(nodes, n)| :: BranchesTo(nodes, n)[b] != BranchesTo(nodes, n)[c]
  {
    if n > 0 {
      BranchesFrom(nodes, n - 1);
      PathLinks(nodes, n - 1);
    }
  }

  /** The branches are exactly the root-to-leaf paths, each once. */
  lemma BranchesExact(nodes: seq<Node>, p: Branch)
    requires Forest(nodes)
    ensures p in Branches(nodes) <==> RootToLeaf(nodes, p)
    ensures forall b, c | 0 <= b < c < |Branches(nodes)| :: Branches(nodes)[b] != Branches(nodes)[c]
  {
    BranchesFrom(nodes, |nodes|);
    BranchesAre(nodes, |nodes|);
    if RootToLeaf(nodes, p) {
      LinksPath(nodes, p);
      assert Leaf(nodes, p[|p| - 1]);
    }
  }

  lemma {:induction false} PathOnNodes(nodes: seq<Node>, i: nat)
    requires Forest(nodes) && i < |nodes|
    ensures OnNodes(nodes, Path(nodes, i))
    decreases i
  {
    if nodes[i].parent.Some? { PathOnNodes(nodes, nodes[i].parent.value); }
  }

  lemma {:induction false} BranchesAre(nodes: seq<Node>, n: nat)
    requires Forest(nodes) && n <= |nodes|
    ensures forall b | 0 <= b < |BranchesTo(nodes, n)| :: OnNodes(nodes, BranchesTo(nodes, n)[b])
    ensures forall i | 0 <= i < n && Leaf(nodes, i) :: Path(nodes, i) in BranchesTo(nodes, n)
  {
    if n > 0 {
      BranchesAre(nodes, n - 1);
      PathOnNodes(nodes, n - 1);
    }
  }

  /** Every node is an ancestor of some leaf. */
  lemma {:induction false} ReachesLeaf(nodes: seq<Node>, i: nat) returns (leaf: nat)
    requires Forest(nodes) && i < |nodes|
    ensures leaf < |nodes| && Leaf(nodes, leaf) && i in Path(nodes, leaf)
    decreases |nodes| - i
  {
    if Leaf(nodes, i) {
      leaf := i;
    } else {
      var j :| 0 <= j < |nodes| && nodes[j].parent == Some(i);
      leaf := ReachesLeaf(nodes, j);
      AncestorsToo(nodes, leaf, j);
    }
  }

  lemma {:induction false} AncestorsToo(nodes: seq<Node>, leaf: nat, j: nat)
    requires Forest(nodes) && leaf < |nodes| && j in Path(nodes, leaf) && j < |nodes| && nodes[j].parent.Some?
    ensures nodes[j].parent.value in Path(nodes, leaf)
    decreases leaf
  {
    if j != leaf { AncestorsToo(nodes, nodes[leaf].parent.value, j); }
  }

  /** The branches of a forest cover it. */
  lemma ForestBranches(nodes: seq<Node>)
    requires Forest(nodes)
    ensures Branching(nodes, Branches(nodes))
  {
    var bs := Branches(nodes);
    BranchesAre(nodes, |nodes|);
    forall n | 0 <= n < |nodes| ensures Covered(bs, n) {
      var leaf := ReachesLeaf(nodes, n);
      assert Path(nodes, leaf) in bs;
    }
  }

  // ---------------------------------------------------------------- credit

  predicate Trainable(node: Node) { node.sampled && true in node.mask }

  predicate Earlier(bs: seq<Branch>, b: nat, n: nat)
    requires b <= |bs|
  {
    exists c | 0 <= c < b :: n in bs[c]
  }

  function Falses(n: nat): (m: seq<bool>)
    ensures |m| == n && true !in m
  {
    seq(n, _ => false)
  }

  /** The part of branch `b`'s mask that node `n` contributes: a trainable node is credited only in
      the first branch that contains it. */
  function Credit(nodes: seq<Node>, bs: seq<Branch>, b: nat, n: nat): (m: seq<bool>)
    requires n < |nodes| && b <= |bs|
    ensures |m| == |nodes[n].mask|
  {
    if Trainable(nodes[n]) && Earlier(bs, b, n) then Falses(|nodes[n].mask|) else nodes[n].mask
  }

  function Offset(nodes: seq<Node>, p: Branch, k: nat): nat
    requires k <= |p| && OnNodes(nodes, p)
  {
    if k == 0 then 0 else Offset(nodes, p, k - 1) + |nodes[p[k - 1]].mask|
  }

  function MaskTo(nodes: seq<Node>, bs: seq<Branch>, b: nat, k: nat): seq<bool>
    requires b < |bs| && k <= |bs[b]| && OnNodes(nodes, bs[b])
  {
    if k == 0 then [] else MaskTo(nodes, bs, b, k - 1) + Credit(nodes, bs, b, bs[b][k - 1])
  }

  function MaskOf(nodes: seq<Node>, bs: seq<Branch>, b: nat): seq<bool>
    requires b < |bs| && OnNodes(nodes, bs[b])
  {
    MaskTo(nodes, bs, b, |bs[b]|)
  }

  function TokensTo(nodes: seq<Node>, p: Branch, k: nat): seq<nat>
    requires k <= |p| && OnNodes(nodes, p)
  {
    if k == 0 then [] else TokensTo(nodes, p, k - 1) + nodes[p[k - 1]].tokens
  }

  lemma {:induction false} MaskLength(nodes: seq<Node>, bs: seq<Branch>, b: nat, k: nat)
    requires b < |bs| && k <= |bs[b]| && OnNodes(nodes, bs[b])
    ensures |MaskTo(nodes, bs, b, k)| == Offset(nodes, bs[b], k)
  {
    if k > 0 { MaskLength(nodes, bs, b, k - 1); }
  }

  lemma {:induction false} TokensLength(nodes: seq<Node>, p: Branch, k: nat)
    requires k <= |p| && OnNodes(nodes, p) && Aligned(nodes)
    ensures |TokensTo(nodes, p, k)| == Offset(nodes, p, k)
  {
    if k > 0 { TokensLength(nodes, p, k - 1); }
  }

  lemma {:induction false} OffsetGrows(nodes: seq<Node>, p: Branch, i: nat, j: nat)
    requires i <= j <= |p| && OnNodes(nodes, p)
    ensures Offset(nodes, p, i) <= Offset(nodes, p, j)
    ensures i < j ==> Offset(nodes, p, i) + |nodes[p[i]].mask| <= Offset(nodes, p, j)
  {
    if i < j {
      if i + 1 < j { OffsetGrows(nodes, p, i, j - 1); }
      if i + 1 == j { assert Offset(nodes, p, j) == Offset(nodes, p, i) + |nodes[p[i]].mask|; }
    }
  }

  /** Position `Offset + o` of the mask is what node `k` of the branch contributes at `o`. */
  lemma {:induction false} MaskAt(nodes: seq<Node>, bs: seq<Branch>, b: nat, upto: nat, k: nat, o: nat)
    requires b < |bs| && k < upto <= |bs[b]| && OnNodes(nodes, bs[b]) && o < |nodes[bs[b][k]].mask|
    ensures Offset(nodes, bs[b], k) + o < |MaskTo(nodes, bs, b, upto)|
    ensures MaskTo(nodes, bs, b, upto)[Offset(nodes, bs[b], k) + o] == Credit(nodes, bs, b, bs[b][k])[o]
  {
    hide Credit, Ascending;
    MaskLength(nodes, bs, b, upto - 1);
    if k < upto - 1 { MaskAt(nodes, bs, b, upto - 1, k, o); }
  }

  /** Token `o` of node `k` of the branch stands at that node's offset plus `o`. */
  lemma {:induction false} TokenAt(nodes: seq<Node>, p: Branch, upto: nat, k: nat, o: nat)
    requires k < upto <= |p| && OnNodes(nodes, p) && Aligned(nodes) && o < |nodes[p[k]].tokens|
    ensures Offset(nodes, p, k) + o < |TokensTo(nodes, p, upto)|
    ensures TokensTo(nodes, p, upto)[Offset(nodes, p, k) + o] == nodes[p[k]].tokens[o]
  {
    hide Ascending;
    TokensLength(nodes, p, upto - 1);
    if k < upto - 1 { TokenAt(nodes, p, upto - 1, k, o); }
  }

  /** The node position and offset of a sample position. */
  function Locate(nodes: seq<Node>, p: Branch, k: nat, at: nat): (r: (nat, nat))
    requires k <= |p| && OnNodes(nodes, p) && at < Offset(nodes, p, k)
    ensures r.0 < k && r.1 < |nodes[p[r.0]].mask| && Offset(nodes, p, r.0) + r.1 == at
  {
    if Offset(nodes, p, k - 1) <= at then (k - 1, at - Offset(nodes, p, k - 1)) else Locate(nodes, p, k - 1, at)
  }

  lemma {:induction false} LocateUnique(nodes: seq<Node>, p: Branch, k: nat, o: nat, k': nat, o': nat)
    requires k < |p| && k' < |p| && OnNodes(nodes, p) && o < |nodes[p[k]].mask| && o' < |nodes[p[k']].mask|
    requires Offset(nodes, p, k) + o == Offset(nodes, p, k') + o'
    ensures k == k' && o == o'
  {
    if k < k' {
      OffsetGrows(nodes, p, k, k');
    } else if k' < k {
      OffsetGrows(nodes, p, k', k);
    }
  }

  // ---------------------------------------------------------------- samples

  /** The branches with some trainable token left, in branch order. */
  function KeptTo(nodes: seq<Node>, bs: seq<Branch>, b: nat): (r: seq<nat>)
    requires b <= |bs| && forall c | 0 <= c < |bs| :: OnNodes(nodes, bs[c])
    ensures forall i | 0 <= i < |r| :: r[i] < b
  {
    if b == 0 then []
    else KeptTo(nodes, bs, b - 1) + (if true in MaskOf(nodes, bs, b - 1) then [b - 1] else [])
  }

  lemma {:induction false} KeptAscends(nodes: seq<Node>, bs: seq<Branch>, b: nat)
    requires b <= |bs| && forall c | 0 <= c < |bs| :: OnNodes(nodes, bs[c])
    ensures Ascending(KeptTo(nodes, bs, b))
  {
    hide OnNodes, MaskOf;
    if b > 0 { KeptAscends(nodes, bs, b - 1); }
  }

  /** A branch yields a sample exactly when it credits some token. */
  lemma {:induction false} KeptIff(nodes: seq<Node>, bs: seq<Branch>, b: nat, c: nat)
    requires c < b <= |bs| && forall c | 0 <= c < |bs| :: OnNodes(nodes, bs[c])
    ensures c in KeptTo(nodes, bs, b) <==> true in MaskOf(nodes, bs, c)
  {
    hide OnNodes, MaskOf;
    if c < b - 1 { KeptIff(nodes, bs, b - 1, c); }
  }

  function SampleAt(nodes: seq<Node>, bs: seq<Branch>, b: nat): Sample
    requires b < |bs| && OnNodes(nodes, bs[b])
  {
    Sample(b, TokensTo(nodes, bs[b], |bs[b]|), MaskOf(nodes, bs, b))
  }

  function Samples(nodes: seq<Node>, bs: seq<Branch>): (r: seq<Sample>)
    requires forall c | 0 <= c < |bs| :: OnNodes(nodes, bs[c])
    ensures |r| == |KeptTo(nodes, bs, |bs|)|
    ensures forall i | 0 <= i < |r| :: r[i] == SampleAt(nodes, bs, KeptTo(nodes, bs, |bs|)[i])
  {
    var kept := KeptTo(nodes, bs, |bs|);
    seq(|kept|, i requires 0 <= i < |kept| => SampleAt(nodes, bs, kept[i]))
  }

  /** Token `o` of the branch's node `k` stands at that node's offset plus `o`. */
  ghost predicate PlacedAt(nodes: seq<Node>, p: Branch, tokens: seq<nat>, k: nat, o: nat)
    requires OnNodes(nodes, p) && k < |p| && o < |nodes[p[k]].tokens|
  {
    Offset(nodes, p, k) + o < |tokens| && tokens[Offset(nodes, p, k) + o] == nodes[p[k]].tokens[o]
  }

  ghost predicate Placed(nodes: seq<Node>, p: Branch, tokens: seq<nat>)
    requires OnNodes(nodes, p)
  {
    forall k: nat, o: nat | k < |p| && o < |nodes[p[k]].tokens| :: PlacedAt(nodes, p, tokens, k, o)
  }

  lemma {:induction false} TokensPlaced(nodes: seq<Node>, p: Branch)
    requires OnNodes(nodes, p) && Aligned(nodes)
    ensures Placed(nodes, p, TokensTo(nodes, p, |p|))
  {
    hide TokensTo, Aligned;
    forall k: nat, o: nat | k < |p| && o < |nodes[p[k]].tokens| ensures PlacedAt(nodes, p, TokensTo(nodes, p, |p|), k, o) {
      TokenAt(nodes, p, |p|, k, o);
    }
  }

  /** A sample is its branch's nodes laid end to end, each token under its own mask bit: as many tokens as mask
      bits, and at every node's place that node's tokens. */
  lemma {:induction false} SampleTokens(nodes: seq<Node>, bs: seq<Branch>, i: nat)
    requires Branching(nodes, bs) && Aligned(nodes) && i < |Samples(nodes, bs)|
    ensures var s := Samples(nodes, bs)[i];
            && s.branch < |bs| && OnNodes(nodes, bs[s.branch])
            && |s.tokens| == |s.mask| == Offset(nodes, bs[s.branch], |bs[s.branch]|)
            && Placed(nodes, bs[s.branch], s.tokens)
  {
    var s := Samples(nodes, bs)[i];
    var p := bs[s.branch];
    assert OnNodes(nodes, p);
    TokensLength(nodes, p, |p|);
    MaskLength(nodes, bs, s.branch, |p|);
    TokensPlaced(nodes, p);
    hide Placed;
  }

  // ---------------------------------------------------------------- exactly-once credit

  /** The first branch that contains node `n`. */
  function Home(bs: seq<Branch>, n: nat): (b: nat)
    requires Covered(bs, n)
    ensures b < |bs| && n in bs[b] && !Earlier(bs, b, n)
  {
    HomeFrom(bs, n, 0)
  }

  function HomeFrom(bs: seq<Branch>, n: nat, b: nat): (r: nat)
    requires b <= |bs| && !Earlier(bs, b, n) && exists c :: b <= c < |bs| && n in bs[c]
    ensures r < |bs| && n in bs[r] && !Earlier(bs, r, n)
    decreases |bs| - b
  {
    if b < |bs| && n in bs[b] then b else HomeFrom(bs, n, b + 1)
  }

  function IndexIn<T(==)>(xs: seq<T>, x: T): (i: nat)
    requires x in xs
    ensures i < |xs| && xs[i] == x
  {
    if xs[0] == x then 0 else 1 + IndexIn(xs[1..], x)
  }

  /** A trainable (node, offset): the node's mask is set there. */
  ghost predicate NodeHit(nodes: seq<Node>, n: nat, o: nat) {
    n < |nodes| && o < |nodes[n].mask| && nodes[n].mask[o]
  }

  /** A trainable (sample, position). */
  ghost predicate SampleHit(samples: seq<Sample>, i: nat, at: nat) {
    i < |samples| && at < |samples[i].mask| && samples[i].mask[at]
  }

  /** Where a node's trainable token goes. */
  ghost function To(nodes: seq<Node>, bs: seq<Branch>, n: nat, o: nat): (r: (nat, nat))
    requires Branching(nodes, bs) && Silent(nodes) && NodeHit(nodes, n, o)
  {
    HomeCredits(nodes, bs, n, o);
    var b := Home(bs, n);
    (IndexIn(KeptTo(nodes, bs, |bs|), b), Offset(nodes, bs[b], IndexIn(bs[b], n)) + o)
  }

  /** Where a sample's trainable token comes from. */
  ghost function From(nodes: seq<Node>, bs: seq<Branch>, i: nat, at: nat): (r: (nat, nat))
    requires Branching(nodes, bs) && SampleHit(Samples(nodes, bs), i, at)
  {
    var b := KeptTo(nodes, bs, |bs|)[i];
    MaskLength(nodes, bs, b, |bs[b]|);
    var (k, o) := Locate(nodes, bs[b], |bs[b]|, at);
    (bs[b][k], o)
  }

  lemma {:induction false} HomeCredits(nodes: seq<Node>, bs: seq<Branch>, n: nat, o: nat)
    requires Branching(nodes, bs) && Silent(nodes) && NodeHit(nodes, n, o)
    ensures Covered(bs, n)
    ensures var b := Home(bs, n);
            && OnNodes(nodes, bs[b]) && b in KeptTo(nodes, bs, |bs|)
            && var at := Offset(nodes, bs[b], IndexIn(bs[b], n)) + o;
               at < |MaskOf(nodes, bs, b)| && MaskOf(nodes, bs, b)[at]
  {
    assert Covered(bs, n);
    var b := Home(bs, n);
    assert Credit(nodes, bs, b, n) == nodes[n].mask;
    assert forall c | 0 <= c < |bs| :: OnNodes(nodes, bs[c]);
    hide Branching, Silent, OnNodes, Credit, MaskTo, Covered, Earlier, Offset;
    MaskAt(nodes, bs, b, |bs[b]|, IndexIn(bs[b], n), o);
    assert true in MaskOf(nodes, bs, b);
    KeptIff(nodes, bs, |bs|, b);
  }

  lemma {:induction false} AscendingIndex(p: Branch, k: nat)
    requires Ascending(p) && k < |p|
    ensures IndexIn(p, p[k]) == k
  {
    var i := IndexIn(p, p[k]);
    assert p[i] == p[k];
  }

  lemma {:induction false} KeptIndex(nodes: seq<Node>, bs: seq<Branch>, i: nat)
    requires Branching(nodes, bs) && i < |KeptTo(nodes, bs, |bs|)|
    ensures IndexIn(KeptTo(nodes, bs, |bs|), KeptTo(nodes, bs, |bs|)[i]) == i
  {
    KeptAscends(nodes, bs, |bs|);
    AscendingIndex(KeptTo(nodes, bs, |bs|), i);
  }

  /** Every trainable node token is credited, in the first branch that contains the node, and
      comes back from there. */
  lemma CreditForward(nodes: seq<Node>, bs: seq<Branch>, n: nat, o: nat)
    requires Branching(nodes, bs) && Silent(nodes) && NodeHit(nodes, n, o)
    ensures var (i, at) := To(nodes, bs, n, o);
            && SampleHit(Samples(nodes, bs), i, at)
            && Samples(nodes, bs)[i].branch == Home(bs, n)
            && From(nodes, bs, i, at) == (n, o)
  {
    HomeCredits(nodes, bs, n, o);
    var b := Home(bs, n);
    var k := IndexIn(bs[b], n);
    var (i, at) := To(nodes, bs, n, o);
    assert i < |KeptTo(nodes, bs, |bs|)| && KeptTo(nodes, bs, |bs|)[i] == b && at == Offset(nodes, bs[b], k) + o;
    SampleMask(nodes, bs, i);
    hide *;
    MaskLength(nodes, bs, b, |bs[b]|);
    FromIs(nodes, bs, i, at);
    var (k', o') := Locate(nodes, bs[b], |bs[b]|, at);
    LocateUnique(nodes, bs[b], k, o, k', o');
  }

  lemma {:induction false} SampleMask(nodes: seq<Node>, bs: seq<Branch>, i: nat)
    requires Branching(nodes, bs) && i < |KeptTo(nodes, bs, |bs|)|
    ensures var b := KeptTo(nodes, bs, |bs|)[i];
            && i < |Samples(nodes, bs)| && Samples(nodes, bs)[i].branch == b && OnNodes(nodes, bs[b])
            && Samples(nodes, bs)[i].mask == MaskOf(nodes, bs, b)
            && (forall at: nat :: SampleHit(Samples(nodes, bs), i, at) <==> at < |MaskOf(nodes, bs, b)| && MaskOf(nodes, bs, b)[at])
  {
  }

  lemma {:induction false} FromIs(nodes: seq<Node>, bs: seq<Branch>, i: nat, at: nat)
    requires Branching(nodes, bs) && SampleHit(Samples(nodes, bs), i, at)
    ensures i < |KeptTo(nodes, bs, |bs|)|
    ensures var b := KeptTo(nodes, bs, |bs|)[i];
            && OnNodes(nodes, bs[b]) && at < Offset(nodes, bs[b], |bs[b]|)
            && var (k, o) := Locate(nodes, bs[b], |bs[b]|, at);
               From(nodes, bs, i, at) == (bs[b][k], o)
  {
    MaskLength(nodes, bs, KeptTo(nodes, bs, |bs|)[i], |bs[KeptTo(nodes, bs, |bs|)[i]]|);
  }

  lemma FirstHome(bs: seq<Branch>, b: nat, n: nat)
    requires b < |bs| && n in bs[b] && !Earlier(bs, b, n)
    ensures Covered(bs, n) && Home(bs, n) == b
  {
    assert Covered(bs, n);
    assert !(Home(bs, n) < b) && !(b < Home(bs, n));
  }

  /** Every trainable sample token comes from a trainable token of a sampled node, and goes back. */
  lemma CreditBackward(nodes: seq<Node>, bs: seq<Branch>, i: nat, at: nat)
    requires Branching(nodes, bs) && Silent(nodes) && SampleHit(Samples(nodes, bs), i, at)
    ensures var (n, o) := From(nodes, bs, i, at);
            && NodeHit(nodes, n, o) && nodes[n].sampled
            && To(nodes, bs, n, o) == (i, at)
  {
    hide *;
    AllOnNodes(nodes, bs);
    FromIs(nodes, bs, i, at);
    var b := KeptTo(nodes, bs, |bs|)[i];
    var (k, o) := Locate(nodes, bs[b], |bs[b]|, at);
    OnNodesAt(nodes, bs[b], k);
    SampleMask(nodes, bs, i);
    MaskSource(nodes, bs, b, k, o);
    AscendingIndex(bs[b], k);
    KeptIndex(nodes, bs, i);
    ToIs(nodes, bs, bs[b][k], o);
  }

  lemma AllOnNodes(nodes: seq<Node>, bs: seq<Branch>)
    requires Branching(nodes, bs)
    ensures forall c | 0 <= c < |bs| :: OnNodes(nodes, bs[c])
  {
  }

  lemma OnNodesAt(nodes: seq<Node>, p: Branch, k: nat)
    requires OnNodes(nodes, p) && k < |p|
    ensures p[k] < |nodes| && Ascending(p)
  {
  }

  lemma {:induction false} MaskSource(nodes: seq<Node>, bs: seq<Branch>, b: nat, k: nat, o: nat)
    requires b < |bs| && k < |bs[b]| && OnNodes(nodes, bs[b]) && o < |nodes[bs[b][k]].mask| && Silent(nodes)
    ensures Offset(nodes, bs[b], k) + o < |MaskOf(nodes, bs, b)|
    ensures MaskOf(nodes, bs, b)[Offset(nodes, bs[b], k) + o] ==>
      var n := bs[b][k]; NodeHit(nodes, n, o) && nodes[n].sampled && Covered(bs, n) && Home(bs, n) == b
  {
    OnNodesAt(nodes, bs[b], k);
    hide OnNodes, Silent, MaskTo, Offset, Credit;
    MaskAt(nodes, bs, b, |bs[b]|, k, o);
    if Credit(nodes, bs, b, bs[b][k])[o] { CreditedHome(nodes, bs, b, bs[b][k], o); }
  }

  lemma {:induction false} ToIs(nodes: seq<Node>, bs: seq<Branch>, n: nat, o: nat)
    requires Branching(nodes, bs) && Silent(nodes) && NodeHit(nodes, n, o)
    ensures Covered(bs, n)
    ensures var b := Home(bs, n);
            && b in KeptTo(nodes, bs, |bs|) && OnNodes(nodes, bs[b])
            && To(nodes, bs, n, o) == (IndexIn(KeptTo(nodes, bs, |bs|), b), Offset(nodes, bs[b], IndexIn(bs[b], n)) + o)
  {
    HomeCredits(nodes, bs, n, o);
  }

  /** A set bit of a branch's credit is a set bit of a sampled node at home in that branch. */
  lemma CreditedHome(nodes: seq<Node>, bs: seq<Branch>, b: nat, n: nat, o: nat)
    requires n < |nodes| && Silent(nodes) && b < |bs| && n in bs[b] && o < |nodes[n].mask| && Credit(nodes, bs, b, n)[o]
    ensures NodeHit(nodes, n, o) && nodes[n].sampled && Covered(bs, n) && Home(bs, n) == b
  {
    assert nodes[n].mask[o] && true in nodes[n].mask;
    FirstHome(bs, b, n);
  }

  /** A credited position of a sample holds the token of the node it comes from. */
  lemma CreditedToken(nodes: seq<Node>, bs: seq<Branch>, i: nat, at: nat)
    requires Branching(nodes, bs) && Aligned(nodes) && SampleHit(Samples(nodes, bs), i, at)
    ensures var (n, o) := From(nodes, bs, i, at);
            && at < |Samples(nodes, bs)[i].tokens| && n < |nodes| && o < |nodes[n].tokens|
            && Samples(nodes, bs)[i].tokens[at] == nodes[n].tokens[o]
  {
    SampleTokens(nodes, bs, i);
    FromIs(nodes, bs, i, at);
    SampleMask(nodes, bs, i);
    var b := KeptTo(nodes, bs, |bs|)[i];
    var (k, o) := Locate(nodes, bs[b], |bs[b]|, at);
    OnNodesAt(nodes, bs[b], k);
    assert |nodes[bs[b][k]].mask| == |nodes[bs[b][k]].tokens|;
    assert PlacedAt(nodes, bs[b], Samples(nodes, bs)[i].tokens, k, o);
    hide *;
  }

  /** Exactly-once credit over a whole forest: `To` and `From` are inverse bijections between the
      trainable tokens of sampled nodes and the trainable positions of the samples, and the two hold the
      same token. */
  lemma ForestCredit(nodes: seq<Node>)
    requires Forest(nodes) && Silent(nodes)
    ensures var bs := Branches(nodes);
            && Branching(nodes, bs)
            && (forall n: nat, o: nat | NodeHit(nodes, n, o) ::
                  SampleHit(Samples(nodes, bs), To(nodes, bs, n, o).0, To(nodes, bs, n, o).1)
                  && From(nodes, bs, To(nodes, bs, n, o).0, To(nodes, bs, n, o).1) == (n, o))
            && (forall i: nat, at: nat | SampleHit(Samples(nodes, bs), i, at) ::
                  NodeHit(nodes, From(nodes, bs, i, at).0, From(nodes, bs, i, at).1) && nodes[From(nodes, bs, i, at).0].sampled
                  && To(nodes, bs, From(nodes, bs, i, at).0, From(nodes, bs, i, at).1) == (i, at))
            && (Aligned(nodes) ==> forall i: nat, at: nat | SampleHit(Samples(nodes, bs), i, at) ::
                  && at < |Samples(nodes, bs)[i].tokens| && From(nodes, bs, i, at).0 < |nodes|
                  && From(nodes, bs, i, at).1 < |nodes[From(nodes, bs, i, at).0].tokens|
                  && Samples(nodes, bs)[i].tokens[at] == nodes[From(nodes, bs, i, at).0].tokens[From(nodes, bs, i, at).1])
  {
    ForestBranches(nodes);
    var bs := Branches(nodes);
    hide Forest, Silent, Branching, Branches, Samples, To, From, NodeHit, SampleHit, Home;
    forall n: nat, o: nat | NodeHit(nodes, n, o)
      ensures SampleHit(Samples(nodes, bs), To(nodes, bs, n, o).0, To(nodes, bs, n, o).1)
           && From(nodes, bs, To(nodes, bs, n, o).0, To(nodes, bs, n, o).1) == (n, o)
    {
      CreditForward(nodes, bs, n, o);
    }
    forall i: nat, at: nat | SampleHit(Samples(nodes, bs), i, at)
      ensures NodeHit(nodes, From(nodes, bs, i, at).0, From(nodes, bs, i, at).1) && nodes[From(nodes, bs, i, at).0].sampled
           && To(nodes, bs, From(nodes, bs, i, at).0, From(nodes, bs, i, at).1) == (i, at)
    {
      CreditBackward(nodes, bs, i, at);
    }
    if Aligned(nodes) { TokensCredited(nodes, bs); }
  }

  lemma TokensCredited(nodes: seq<Node>, bs: seq<Branch>)
    requires Branching(nodes, bs) && Aligned(nodes)
    ensures forall i: nat, at: nat | SampleHit(Samples(nodes, bs), i, at) ::
              && at < |Samples(nodes, bs)[i].tokens| && From(nodes, bs, i, at).0 < |nodes|
              && From(nodes, bs, i, at).1 < |nodes[From(nodes, bs, i, at).0].tokens|
              && Samples(nodes, bs)[i].tokens[at] == nodes[From(nodes, bs, i, at).0].tokens[From(nodes, bs, i, at).1]
  {
    AllOnNodes(nodes, bs);
    hide Aligned, Branching, Samples, From;
    forall i: nat, at: nat | SampleHit(Samples(nodes, bs), i, at)
      ensures at < |Samples(nodes, bs)[i].tokens| && From(nodes, bs, i, at).0 < |nodes|
           && From(nodes, bs, i, at).1 < |nodes[From(nodes, bs, i, at).0].tokens|
           && Samples(nodes, bs)[i].tokens[at] == nodes[From(nodes, bs, i, at).0].tokens[From(nodes, bs, i, at).1]
    {
      CreditedToken(nodes, bs, i, at);
    }
  }

  /** Branch `b` credits the trainable token `o` of node `n`. */
  ghost predicate Credits(nodes: seq<Node>, bs: seq<Branch>, b: nat, n: nat, o: nat)
    requires Branching(nodes, bs) && n < |nodes|
  {
    b < |bs| && n in bs[b] && var at := Offset(nodes, bs[b], IndexIn(bs[b], n)) + o; at < |MaskOf(nodes, bs, b)| && MaskOf(nodes, bs, b)[at]
  }

  lemma {:induction false} CreditsIs(nodes: seq<Node>, bs: seq<Branch>, b: nat, n: nat, o: nat)
    requires Branching(nodes, bs) && NodeHit(nodes, n, o) && b < |bs| && n in bs[b]
    ensures Credits(nodes, bs, b, n, o) <==> Credit(nodes, bs, b, n)[o]
  {
    assert OnNodes(nodes, bs[b]);
    hide Branching, OnNodes, Credit, MaskTo, Covered, Earlier, Offset;
    MaskAt(nodes, bs, b, |bs[b]|, IndexIn(bs[b], n), o);
  }

  /** A masked token of an unsampled node is credited in every branch that contains the node. */
  lemma {:induction false} UnsampledCreditedTwice(nodes: seq<Node>, bs: seq<Branch>, n: nat, o: nat, b: nat)
    requires Branching(nodes, bs) && NodeHit(nodes, n, o) && !nodes[n].sampled && b < |bs| && n in bs[b]
    ensures OnNodes(nodes, bs[b]) && var at := Offset(nodes, bs[b], IndexIn(bs[b], n)) + o;
            at < |MaskOf(nodes, bs, b)| && MaskOf(nodes, bs, b)[at]
  {
    CreditsIs(nodes, bs, b, n, o);
  }

  /** Exactly when a masked token is credited once: its first branch always credits it, and no
      other branch does if and only if the node is sampled or lies on one branch only. */
  lemma {:induction false} CreditedOnceIff(nodes: seq<Node>, bs: seq<Branch>, n: nat, o: nat)
    requires Branching(nodes, bs) && NodeHit(nodes, n, o)
    ensures Covered(bs, n) && Credits(nodes, bs, Home(bs, n), n, o)
    ensures (forall b: nat | Credits(nodes, bs, b, n, o) :: b == Home(bs, n))
            <==> nodes[n].sampled || forall b: nat | b < |bs| && n in bs[b] :: b == Home(bs, n)
  {
    assert Covered(bs, n);
    var home := Home(bs, n);
    CreditsIs(nodes, bs, home, n, o);
    hide Branching, Covered, MaskOf, Offset, Home;
    forall b: nat | b < |bs| && n in bs[b]
      ensures Credits(nodes, bs, b, n, o) <==> (b == home || !nodes[n].sampled)
    {
      CreditsIs(nodes, bs, b, n, o);
      FirstOnly(bs, b, n);
    }
  }

  /** Every branch but the first to contain a node comes after one that does. */
  lemma FirstOnly(bs: seq<Branch>, b: nat, n: nat)
    requires Covered(bs, n) && b < |bs| && n in bs[b]
    ensures Earlier(bs, b, n) <==> b != Home(bs, n)
  {
    if !Earlier(bs, b, n) { FirstHome(bs, b, n); }
  }
}
