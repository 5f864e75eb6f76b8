/** What a leave-one-out prompt depends on: never on the rollout's own response or reward, and on
    its peers only as a multiset. */
module LeaveOneOut {
  import opened Common
  import opened JsonText
  import opened JsonValue
  import opened JsonUnique
  import opened JsonEscape
  import opened JsonSafe
  import opened ValueContext
  import opened ValueContextSafety

  // ---------------------------------------------------------------- records look backwards only

  /** The same first `n` nodes, with the same finish reasons. */
  ghost predicate SamePrefix(r: Rollout, s: Rollout, n: nat) {
    && n <= |r.nodes| && n <= |s.nodes| && r.nodes[..n] == s.nodes[..n]
    && forall i | 0 <= i < n :: FinishOf(r.calls, i) == FinishOf(s.calls, i)
  }

  lemma PrefixNode(a: seq<Node>, b: seq<Node>, n: nat, i: nat)
    requires n <= |a| && n <= |b| && a[..n] == b[..n] && i < n
    ensures a[i] == b[i]
  {
    assert a[..n][i] == b[..n][i];
  }

  lemma {:induction false} SameMatches(a: seq<Node>, b: seq<Node>, n: nat, i: nat, id: string)
    requires n <= |a| && n <= |b| && a[..n] == b[..n] && i < n
    ensures AncestorMatches(a, i, id) == AncestorMatches(b, i, id)
    decreases i
  {
    PrefixNode(a, b, n, i);
    var p := a[i].parent;
    if p.Some? && 0 <= p.value < i {
      PrefixNode(a, b, n, p.value);
      SameMatches(a, b, n, p.value, id);
    }
  }

  /** A node's record is a function of the nodes up to it. */
  lemma SameRecord(r: Rollout, s: Rollout, n: nat, i: nat)
    requires SamePrefix(r, s, n) && i < n
    ensures RecordAt(r, i) == RecordAt(s, i)
  {
    PrefixNode(r.nodes, s.nodes, n, i);
    SameMatches(r.nodes, s.nodes, n, i, r.nodes[i].message.toolCallId);
    hide AncestorMatches, ContentRecord, CallRecords, Reference, FinishOf;
  }

  // ---------------------------------------------------------------- non-interference

  /** The groups differ only in rollout `i`, whose first sampled node is `f` in both, with the same
      prompt before it.  Rewards, responses and everything after are unconstrained. */
  ghost predicate DifferOnlyIn(g: seq<Rollout>, h: seq<Rollout>, i: nat, f: nat) {
    && |g| == |h| && i < |g| && (forall k | 0 <= k < |g| && k != i :: g[k] == h[k])
    && f < |g[i].nodes| && f < |h[i].nodes| && g[i].nodes[f].sampled && h[i].nodes[f].sampled
    && SamePrefix(g[i], h[i], f)
  }

  lemma SameStops(g: seq<Rollout>, h: seq<Rollout>, i: nat, f: nat, n: nat)
    requires DifferOnlyIn(g, h, i, f) && n < f
    ensures SomeStops(g, n) == SomeStops(h, n)
  {
    PrefixNode(g[i].nodes, h[i].nodes, f, n);
    forall k | 0 <= k < |g| ensures Stops(g[k], n) == Stops(h[k], n) {}
  }

  /** Record by record, the two groups agree at node `n`. */
  ghost predicate AgreeAt(g: seq<Rollout>, h: seq<Rollout>, n: nat)
    requires !SomeStops(g, n) && !SomeStops(h, n)
  {
    |g| == |h| && forall k | 0 <= k < |g| :: !Stops(g[k], n) && !Stops(h[k], n) && RecordAt(g[k], n) == RecordAt(h[k], n)
  }

  lemma AgreeOn(g: seq<Rollout>, h: seq<Rollout>, i: nat, f: nat, n: nat)
    requires DifferOnlyIn(g, h, i, f) && n < f && !SomeStops(g, n) && !SomeStops(h, n)
    ensures AgreeAt(g, h, n)
  {
    SameRecord(g[i], h[i], f, n);
    hide RecordAt, SamePrefix, Stops;
    forall k | 0 <= k < |g| ensures !Stops(g[k], n) && !Stops(h[k], n) {}
  }

  lemma SameDiffer(g: seq<Rollout>, h: seq<Rollout>, n: nat)
    requires !SomeStops(g, n) && !SomeStops(h, n) && AgreeAt(g, h, n) && SomeDiffer(g, n)
    ensures SomeDiffer(h, n)
  {
    hide RecordAt, SomeStops;
    var j, k :| 0 <= j < |g| && 0 <= k < |g| && RecordAt(g[j], n) != RecordAt(g[k], n);
    assert RecordAt(h[j], n) != RecordAt(h[k], n);
  }

  lemma SameFails(g: seq<Rollout>, h: seq<Rollout>, n: nat)
    requires !SomeStops(g, n) && !SomeStops(h, n) && AgreeAt(g, h, n) && SomeFails(g, n)
    ensures SomeFails(h, n)
  {
    hide RecordAt, SomeStops;
    var k :| 0 <= k < |g| && RecordAt(g[k], n).Err?;
    assert RecordAt(h[k], n).Err?;
  }

  lemma AgreeSymmetric(g: seq<Rollout>, h: seq<Rollout>, n: nat)
    requires !SomeStops(g, n) && !SomeStops(h, n) && AgreeAt(g, h, n)
    ensures AgreeAt(h, g, n)
  {
    hide RecordAt, Stops, SomeStops;
  }

  lemma SameRecords(g: seq<Rollout>, h: seq<Rollout>, i: nat, f: nat, n: nat)
    requires DifferOnlyIn(g, h, i, f) && n < f && !SomeStops(g, n) && !SomeStops(h, n)
    ensures SomeFails(g, n) == SomeFails(h, n) && SomeDiffer(g, n) == SomeDiffer(h, n)
  {
    hide *;
    AgreeOn(g, h, i, f, n);
    AgreeSymmetric(g, h, n);
    if SomeDiffer(g, n) { SameDiffer(g, h, n); }
    if SomeDiffer(h, n) { SameDiffer(h, g, n); }
    if SomeFails(g, n) { SameFails(g, h, n); }
    if SomeFails(h, n) { SameFails(h, g, n); }
  }

  lemma SampledStops(g: seq<Rollout>, h: seq<Rollout>, i: nat, f: nat)
    requires DifferOnlyIn(g, h, i, f)
    ensures SomeStops(g, f) && SomeStops(h, f)
  {
    assert Stops(g[i], f) && Stops(h[i], f);
  }

  /** Both groups share the same prompt prefix, which ends before the first sampled node. */
  lemma {:induction false} SameShared(g: seq<Rollout>, h: seq<Rollout>, i: nat, f: nat, n: nat)
    requires DifferOnlyIn(g, h, i, f) && n <= f
    ensures g != [] && h != [] && Shared(g, n) == Shared(h, n)
    decreases f - n
  {
    hide *;
    Sizes(g, h, i, f);
    SampledStops(g, h, i, f);
    if n == f {
      SharedStops(g, n);
      SharedStops(h, n);
    } else {
      SameStops(g, h, i, f, n);
      if SomeStops(g, n) {
        SharedStops(g, n);
        SharedStops(h, n);
      } else {
        SameRecords(g, h, i, f, n);
        SharedGoes(g, n);
        SharedGoes(h, n);
        SameShared(g, h, i, f, n + 1);
      }
    }
  }

  lemma Sizes(g: seq<Rollout>, h: seq<Rollout>, i: nat, f: nat)
    requires DifferOnlyIn(g, h, i, f)
    ensures |g| == |h| && g != [] && h != []
  {
  }

  lemma {:induction false} SharedStops(g: seq<Rollout>, n: nat)
    requires g != [] && SomeStops(g, n)
    ensures Shared(g, n) == Ok(n)
  {
    hide SomeStops;
  }

  lemma SharedGoes(g: seq<Rollout>, n: nat)
    requires g != [] && !SomeStops(g, n)
    ensures Shared(g, n) == if SomeFails(g, n) then Err(ToolReference) else if SomeDiffer(g, n) then Ok(n) else Shared(g, n + 1)
  {
    hide SomeStops, SomeFails, SomeDiffer;
  }

  lemma PeersSame(g: seq<Rollout>, h: seq<Rollout>, i: nat, n: nat)
    requires |g| == |h| && i < |g| && forall k | 0 <= k < |g| && k != i :: g[k] == h[k]
    requires forall k | 0 <= k < |g| :: PeerRecord(g[k], n).Ok? && PeerRecord(h[k], n).Ok?
    ensures Peers(g, n, i) == Peers(h, n, i)
  {
    hide PeerRecord;
    var a, b := Records(g, n), Records(h, n);
    forall k | 0 <= k < |g| && k != i ensures a[k] == b[k] { assert g[k] == h[k]; }
    assert a[..i] == b[..i] && a[i + 1..] == b[i + 1..];
  }

  /** What acceptance gives, with the peers spelled out. */
  lemma {:induction false} AcceptedPeers(g: seq<Rollout>, k: nat)
    requires Accepted(g) && k < |g|
    ensures Shared(g, 0).Ok? && forall j | 0 <= j < |g| :: PeerRecord(g[j], Shared(g, 0).value).Ok?
    ensures PeersOf(g, k) == Peers(g, Shared(g, 0).value, k)
  {
    hide PeerRecord, Shared, Peers, Records;
  }

  lemma SamePeers(g: seq<Rollout>, h: seq<Rollout>, i: nat, f: nat)
    requires DifferOnlyIn(g, h, i, f) && Accepted(g) && Accepted(h)
    ensures PeersOf(g, i) == PeersOf(h, i)
  {
    assert |g| == |h| && i < |g| && forall k | 0 <= k < |g| && k != i :: g[k] == h[k];
    hide *;
    SameShared(g, h, i, f, 0);
    AcceptedPeers(g, i);
    AcceptedPeers(h, i);
    PeersSame(g, h, i, Shared(g, 0).value);
  }

  /** Leave-one-out non-interference: rollout `i`'s prompt is the same whatever its own reward and
      its own nodes from its first sampled one on. */
  lemma NonInterference(g: seq<Rollout>, h: seq<Rollout>, i: nat, f: nat, special: seq<string>)
    requires DifferOnlyIn(g, h, i, f) && Accepted(g) && Accepted(h)
    ensures PromptOf(g, i, special) == PromptOf(h, i, special)
  {
    SamePeers(g, h, i, f);
    assert |g| == |h|;
    hide DifferOnlyIn, Accepted, PeersOf, Payload, Document;
  }

  // ---------------------------------------------------------------- string order

  lemma {:induction false} LeqTotal(a: string, b: string)
    ensures Leq(a, b) || Leq(b, a)
    ensures Leq(a, b) && Leq(b, a) ==> a == b
  {
    if a != [] && b != [] {
      LeqTotal(a[1..], b[1..]);
      assert a == [a[0]] + a[1..] && b == [b[0]] + b[1..];
    }
  }

  lemma {:induction false} LeqTransitive(a: string, b: string, c: string)
    requires Leq(a, b) && Leq(b, c)
    ensures Leq(a, c)
  {
    if a != [] && a[0] == b[0] && b[0] == c[0] { LeqTransitive(a[1..], b[1..], c[1..]); }
  }

  ghost predicate Sorted(xs: seq<Json>) { forall i, j | 0 <= i < j < |xs| :: Leq(Print(xs[i]), Print(xs[j])) }

  /** `x` prints before everything in `xs`. */
  ghost predicate Below(x: Json, xs: seq<Json>) { forall j | 0 <= j < |xs| :: Leq(Print(x), Print(xs[j])) }

  lemma SortedTail(xs: seq<Json>)
    requires Sorted(xs) && xs != []
    ensures Sorted(xs[1..]) && Below(xs[0], xs[1..])
  {
    hide Print, Leq;
  }

  lemma SortedCons(x: Json, xs: seq<Json>)
    requires Sorted(xs) && Below(x, xs)
    ensures Sorted([x] + xs)
  {
    hide Print, Leq;
  }

  lemma BelowMembers(x: Json, xs: seq<Json>, ys: seq<Json>)
    requires multiset(xs) == multiset(ys) && Below(x, xs)
    ensures Below(x, ys)
  {
    hide Print, Leq;
    forall j | 0 <= j < |ys| ensures Leq(Print(x), Print(ys[j])) {
      assert ys[j] in multiset(ys);
      assert ys[j] in multiset(xs);
      var i :| 0 <= i < |xs| && xs[i] == ys[j];
    }
  }

  lemma {:induction false} InsertSorted(x: Json, xs: seq<Json>)
    requires Sorted(xs)
    ensures Sorted(Insert(x, xs))
  {
    if xs == [] {
    } else if Leq(Print(x), Print(xs[0])) {
      SortedTail(xs);
      forall j | 0 <= j < |xs| ensures Leq(Print(x), Print(xs[j])) {
        if j > 0 {
          assert xs[1..][j - 1] == xs[j];
          LeqTransitive(Print(x), Print(xs[0]), Print(xs[j]));
        }
      }
      hide Print, Leq;
      SortedCons(x, xs);
    } else {
      SortedTail(xs);
      InsertSorted(x, xs[1..]);
      LeqTotal(Print(x), Print(xs[0]));
      InsertMembers(x, xs[1..]);
      var rest := Insert(x, xs[1..]);
      BelowBoth(xs[0], x, xs[1..]);
      assert multiset([x] + xs[1..]) == multiset(rest);
      BelowMembers(xs[0], [x] + xs[1..], rest);
      hide Print, Leq, Insert;
      SortedCons(xs[0], rest);
    }
  }

  lemma {:induction false} BelowBoth(a: Json, x: Json, xs: seq<Json>)
    requires Leq(Print(a), Print(x)) && Below(a, xs)
    ensures Below(a, [x] + xs)
  {
    hide Print, Leq;
  }

  /** The sort sorts by canonical print. */
  lemma {:induction false} SortSorted(xs: seq<Json>)
    ensures Sorted(Sort(xs))
  {
    if xs != [] {
      SortSorted(xs[1..]);
      hide Sorted, Insert;
      InsertSorted(xs[0], Sort(xs[1..]));
    }
  }

  lemma TailMembers(xs: seq<Json>)
    requires xs != []
    ensures xs == [xs[0]] + xs[1..] && multiset(xs[1..]) == multiset(xs) - multiset{xs[0]}
  {
    assert xs == [xs[0]] + xs[1..];
  }

  /** A multiset of records has only one sorted order. */
  lemma {:induction false} SortedUnique(xs: seq<Json>, ys: seq<Json>)
    requires Sorted(xs) && Sorted(ys) && multiset(xs) == multiset(ys) && forall i | 0 <= i < |xs| :: Valid(xs[i])
    ensures xs == ys
    decreases |xs|
  {
    assert |multiset(xs)| == |xs| && |multiset(ys)| == |ys|;
    if xs != [] {
      hide Sorted, Valid, Below;
      SameFirst(xs, ys);
      SortedTail(xs);
      SortedTail(ys);
      TailMembers(xs);
      TailMembers(ys);
      SortedUnique(xs[1..], ys[1..]);
    }
  }

  lemma SameFirst(xs: seq<Json>, ys: seq<Json>)
    requires Sorted(xs) && Sorted(ys) && multiset(xs) == multiset(ys) && xs != [] && ys != []
    requires forall i | 0 <= i < |xs| :: Valid(xs[i])
    ensures xs[0] == ys[0]
  {
    var x, y := xs[0], ys[0];
    assert x in multiset(xs) && y in multiset(ys);
    assert x in multiset(ys) && y in multiset(xs);
    var i :| 0 <= i < |ys| && ys[i] == x;
    var j :| 0 <= j < |xs| && xs[j] == y;
    LeqTotal(Print(x), Print(x));
    LeqTotal(Print(y), Print(y));
    assert Leq(Print(x), Print(y)) && Leq(Print(y), Print(x));
    LeqTotal(Print(x), Print(y));
    hide Print, Leq, Valid;
    PrintInjective(x, y);
  }

  lemma {:induction false} SortOfMultiset(xs: seq<Json>, ys: seq<Json>)
    requires multiset(xs) == multiset(ys) && forall i | 0 <= i < |xs| :: Valid(xs[i])
    ensures Sort(xs) == Sort(ys)
  {
    SortMembers(xs);
    SortMembers(ys);
    SortSorted(xs);
    SortSorted(ys);
    SortedValid(xs);
    hide Sort, Sorted, Valid;
    SortedUnique(Sort(xs), Sort(ys));
  }

  // ---------------------------------------------------------------- permuting the group

  lemma Carried(g: seq<Rollout>, h: seq<Rollout>, k: nat) returns (j: nat)
    requires multiset(g) == multiset(h) && k < |g|
    ensures j < |h| && h[j] == g[k]
  {
    assert g[k] in multiset(g);
    assert g[k] in multiset(h);
    j :| 0 <= j < |h| && h[j] == g[k];
  }

  lemma StopsPermute(g: seq<Rollout>, h: seq<Rollout>, n: nat)
    requires multiset(g) == multiset(h) && SomeStops(g, n)
    ensures SomeStops(h, n)
  {
    var k :| 0 <= k < |g| && Stops(g[k], n);
    var j := Carried(g, h, k);
  }

  lemma FailsPermute(g: seq<Rollout>, h: seq<Rollout>, n: nat)
    requires multiset(g) == multiset(h) && !SomeStops(g, n) && !SomeStops(h, n) && SomeFails(g, n)
    ensures SomeFails(h, n)
  {
    hide RecordAt;
    var k :| 0 <= k < |g| && RecordAt(g[k], n).Err?;
    var j := Carried(g, h, k);
  }

  lemma DifferPermute(g: seq<Rollout>, h: seq<Rollout>, n: nat)
    requires multiset(g) == multiset(h) && !SomeStops(g, n) && !SomeStops(h, n) && SomeDiffer(g, n)
    ensures SomeDiffer(h, n)
  {
    hide RecordAt;
    var i, k :| 0 <= i < |g| && 0 <= k < |g| && RecordAt(g[i], n) != RecordAt(g[k], n);
    var a := Carried(g, h, i);
    var b := Carried(g, h, k);
    assert RecordAt(h[a], n) != RecordAt(h[b], n);
  }

  lemma {:induction false} SharedPermute(g: seq<Rollout>, h: seq<Rollout>, n: nat)
    requires multiset(g) == multiset(h) && g != [] && h != []
    ensures Shared(g, n) == Shared(h, n)
    decreases |g[0].nodes| - n
  {
    if SomeStops(g, n) {
      StopsPermute(g, h, n);
    } else if SomeStops(h, n) {
      StopsPermute(h, g, n);
      assert false;
    } else {
      assert !Stops(g[0], n);
      hide SomeStops, SomeFails, SomeDiffer, Stops;
      if SomeFails(g, n) { FailsPermute(g, h, n); }
      if SomeFails(h, n) { FailsPermute(h, g, n); }
      if SomeDiffer(g, n) { DifferPermute(g, h, n); }
      if SomeDiffer(h, n) { DifferPermute(h, g, n); }
      if !SomeFails(g, n) && !SomeDiffer(g, n) { SharedPermute(g, h, n + 1); }
    }
  }

  lemma IdsPermute(g: seq<Rollout>, h: seq<Rollout>)
    requires multiset(g) == multiset(h)
    ensures Ids(g) == Ids(h) && |g| == |h|
  {
    assert |multiset(g)| == |g| && |multiset(h)| == |h|;
    forall r ensures r in g <==> r in h { assert r in multiset(g) <==> r in multiset(h); }
  }

  /** Acceptance does not depend on the order of the group. */
  lemma {:induction false} AcceptedPermutes(g: seq<Rollout>, h: seq<Rollout>)
    requires multiset(g) == multiset(h) && Accepted(g)
    ensures Accepted(h) && Shared(h, 0) == Shared(g, 0)
  {
    IdsPermute(g, h);
    SharedPermute(g, h, 0);
    hide Shared, PeerRecord, Ids;
    forall k | 0 <= k < |h| ensures PeerRecord(h[k], Shared(h, 0).value).Ok? { var j := Carried(h, g, k); }
  }

  function Without<T>(xs: seq<T>, k: nat): seq<T>
    requires k < |xs|
  {
    xs[..k] + xs[k + 1..]
  }

  lemma WithoutMembers<T>(xs: seq<T>, k: nat)
    requires k < |xs|
    ensures multiset(Without(xs, k)) == multiset(xs) - multiset{xs[k]}
    ensures multiset(xs) == multiset(Without(xs, k)) + multiset{xs[k]}
  {
    assert xs == xs[..k] + [xs[k]] + xs[k + 1..];
    MultisetMiddle(xs[..k], xs[k], xs[k + 1..]);
  }

  lemma RecordsWithout(g: seq<Rollout>, n: nat, k: nat)
    requires k < |g| && forall j | 0 <= j < |g| :: PeerRecord(g[j], n).Ok?
    ensures multiset(Peers(g, n, k)) == multiset(Records(g, n)) - multiset{PeerRecord(g[k], n).value}
    ensures multiset(Records(g, n)) == multiset(Peers(g, n, k)) + multiset{PeerRecord(g[k], n).value}
    ensures (forall j | 0 <= j < |Without(g, k)| :: PeerRecord(Without(g, k)[j], n).Ok?) && Peers(g, n, k) == Records(Without(g, k), n)
  {
    hide PeerRecord;
    PeersWithout(g, n, k);
    var all := Records(g, n);
    hide *;
    WithoutMembers(all, k);
  }

  lemma PeersWithout(g: seq<Rollout>, n: nat, k: nat)
    requires k < |g| && forall j | 0 <= j < |g| :: PeerRecord(g[j], n).Ok?
    ensures |Records(g, n)| == |g| && Records(g, n)[k] == PeerRecord(g[k], n).value && Peers(g, n, k) == Without(Records(g, n), k)
    ensures (forall j | 0 <= j < |Without(g, k)| :: PeerRecord(Without(g, k)[j], n).Ok?) && Peers(g, n, k) == Records(Without(g, k), n)
  {
    hide PeerRecord;
  }

  /** Equal multisets of rollouts have equal multisets of records. */
  lemma {:induction false} RecordsPermute(g: seq<Rollout>, h: seq<Rollout>, n: nat)
    requires multiset(g) == multiset(h)
    requires (forall j | 0 <= j < |g| :: PeerRecord(g[j], n).Ok?) && forall j | 0 <= j < |h| :: PeerRecord(h[j], n).Ok?
    ensures multiset(Records(g, n)) == multiset(Records(h, n))
    decreases |g|
  {
    IdsPermute(g, h);
    hide PeerRecord, Records, Peers, Ids;
    if g == [] {
      assert g == h;
    } else {
      var j := Carried(g, h, 0);
      WithoutMembers(g, 0);
      WithoutMembers(h, j);
      RecordsWithout(g, n, 0);
      RecordsWithout(h, n, j);
      RecordsPermute(Without(g, 0), Without(h, j), n);
    }
  }

  /** Permuting the group permutes the prompts: equal rollouts of reordered groups get equal
      prompts. */
  lemma PermutationEquivariant(g: seq<Rollout>, h: seq<Rollout>, k: nat, j: nat, special: seq<string>)
    requires multiset(g) == multiset(h) && Accepted(g) && (forall i | 0 <= i < |g| :: PrintsReward(g[i]))
    requires k < |g| && j < |h| && g[k] == h[j]
    ensures Accepted(h) && PromptOf(g, k, special) == PromptOf(h, j, special)
  {
    AcceptedPermutes(g, h);
    IdsPermute(g, h);
    PeersPermute(g, h, k, j);
    hide *;
    DocumentsPermute(g, h, k, j);
    SamePrompt(g, h, k, j, special);
  }

  lemma {:induction false} PeersPermute(g: seq<Rollout>, h: seq<Rollout>, k: nat, j: nat)
    requires multiset(g) == multiset(h) && Accepted(g) && Accepted(h) && Shared(h, 0) == Shared(g, 0)
    requires k < |g| && j < |h| && g[k] == h[j]
    ensures multiset(PeersOf(g, k)) == multiset(PeersOf(h, j))
  {
    hide *;
    AcceptedPeers(g, k);
    AcceptedPeers(h, j);
    var n := Shared(g, 0).value;
    RecordsPermute(g, h, n);
    RecordsWithout(g, n, k);
    RecordsWithout(h, n, j);
  }

  lemma DocumentsPermute(g: seq<Rollout>, h: seq<Rollout>, k: nat, j: nat)
    requires Accepted(g) && Accepted(h) && k < |g| && j < |h| && |g| == |h| && (forall i | 0 <= i < |g| :: PrintsReward(g[i]))
    requires multiset(PeersOf(g, k)) == multiset(PeersOf(h, j))
    ensures DocumentOf(g, k) == DocumentOf(h, j)
  {
    AcceptedPeers(g, k);
    hide PrintsReward, PeerRecord, Valid, PeersOf, Peers, Accepted, Shared;
    PeersValid(g, Shared(g, 0).value, k);
    SortOfMultiset(PeersOf(g, k), PeersOf(h, j));
  }

  lemma SamePrompt(g: seq<Rollout>, h: seq<Rollout>, k: nat, j: nat, special: seq<string>)
    requires Accepted(g) && Accepted(h) && k < |g| && j < |h| && |g| == |h| && DocumentOf(g, k) == DocumentOf(h, j)
    ensures PromptOf(g, k, special) == PromptOf(h, j, special)
  {
    hide Accepted, PeersOf, Payload, DocumentOf;
  }
}
