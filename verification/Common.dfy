/** Small value types and a fact about multisets shared by the modules. */
module Common {

  datatype Option<+T> = None | Some(value: T)

  datatype Result<+T, +E> = Ok(value: T) | Err(error: E)

  /** One element more or less in the middle of a sequence. */
  lemma MultisetMiddle<T>(a: seq<T>, x: T, b: seq<T>)
    ensures multiset(a + [x] + b) == multiset(a + b) + multiset{x}
    ensures multiset(a + b) == multiset(a + [x] + b) - multiset{x}
  {
    assert multiset(a + [x] + b) == multiset(a + [x]) + multiset(b);
    assert multiset(a + [x]) == multiset(a) + multiset{x};
    assert multiset(a + b) == multiset(a) + multiset(b);
  }

  /** `ys` is what stands in `xs` at the ascending places `at`. */
  ghost predicate Picks<T>(xs: seq<T>, at: seq<nat>, ys: seq<T>) {
    && |at| == |ys|
    && (forall i, j | 0 <= i < j < |at| :: at[i] < at[j])
    && (forall i | 0 <= i < |at| :: at[i] < |xs| && ys[i] == xs[at[i]])
  }

  /** One more element of the list, picked or not. */
  lemma PicksNext<T>(xs: seq<T>, at: seq<nat>, ys: seq<T>, x: T)
    requires Picks(xs, at, ys)
    ensures Picks(xs + [x], at, ys) && Picks(xs + [x], at + [|xs|], ys + [x]) && |xs| !in at
  {
  }

  /** Picking from what was picked. */
  lemma PicksTwice<T>(xs: seq<T>, at: seq<nat>, ys: seq<T>, again: seq<nat>, zs: seq<T>) returns (both: seq<nat>)
    requires Picks(xs, at, ys) && Picks(ys, again, zs)
    ensures Picks(xs, both, zs)
    ensures forall i: nat :: i in both <==> exists k: nat :: k in again && k < |at| && at[k] == i
  {
    both := seq(|again|, k requires 0 <= k < |again| => at[again[k]]);
    forall i: nat | i in both ensures exists k: nat :: k in again && k < |at| && at[k] == i {
      var k :| 0 <= k < |both| && both[k] == i;
      assert again[k] in again;
    }
    forall i: nat, k: nat | k in again && k < |at| && at[k] == i ensures i in both {
      var j :| 0 <= j < |again| && again[j] == k;
      assert both[j] == i;
    }
  }

  ghost function PlaceSet(at: seq<nat>): set<nat> { set i | i in at }

  /** Distinct places are as many as they look. */
  lemma {:induction false} PlacesCount(at: seq<nat>)
    requires forall i, j | 0 <= i < j < |at| :: at[i] != at[j]
    ensures |PlaceSet(at)| == |at|
  {
    if at == [] {
      assert PlaceSet(at) == {};
    } else {
      var n := |at| - 1;
      PlacesCount(at[..n]);
      assert at == at[..n] + [at[n]];
      assert PlaceSet(at) == PlaceSet(at[..n]) + {at[n]};
      assert at[n] !in PlaceSet(at[..n]);
    }
  }

  /** Part `i` stands in the whole between two cuts. */
  ghost predicate Piece<T>(whole: seq<T>, parts: seq<seq<T>>, cuts: seq<nat>, i: nat)
    requires |cuts| == |parts| + 1 && i < |parts|
  {
    cuts[i] <= cuts[i + 1] <= |whole| && whole[cuts[i]..cuts[i + 1]] == parts[i]
  }

  /** The parts follow one another in the whole, without gaps. */
  ghost predicate Joined<T>(whole: seq<T>, parts: seq<seq<T>>, cuts: seq<nat>) {
    && |cuts| == |parts| + 1 && cuts[0] == 0 && cuts[|parts|] == |whole|
    && forall i: nat | i < |parts| :: Piece(whole, parts, cuts, i)
  }

  lemma JoinedNext<T>(whole: seq<T>, parts: seq<seq<T>>, cuts: seq<nat>, part: seq<T>)
    requires Joined(whole, parts, cuts)
    ensures Joined(whole + part, parts + [part], cuts + [|whole| + |part|])
  {
    var (w, ps, cs) := (whole + part, parts + [part], cuts + [|whole| + |part|]);
    forall i: nat | i < |ps| ensures Piece(w, ps, cs, i) {
      if i < |parts| {
        assert Piece(whole, parts, cuts, i);
        assert w[cs[i]..cs[i + 1]] == whole[cuts[i]..cuts[i + 1]];
      }
    }
  }

  /** Something is in the whole exactly when it is in some part. */
  lemma {:induction false} JoinedMembers<T>(whole: seq<T>, parts: seq<seq<T>>, cuts: seq<nat>, x: T)
    requires Joined(whole, parts, cuts)
    ensures x in whole <==> exists i: nat :: i < |parts| && x in parts[i]
  {
    if x in whole {
      var k :| 0 <= k < |whole| && whole[k] == x;
      var i := PieceAt(whole, parts, cuts, k, |parts|);
      assert parts[i][k - cuts[i]] == x;
    }
    forall i: nat | i < |parts| && x in parts[i] ensures x in whole { assert Piece(whole, parts, cuts, i); }
  }

  lemma {:induction false} PieceAt<T>(whole: seq<T>, parts: seq<seq<T>>, cuts: seq<nat>, k: nat, n: nat) returns (i: nat)
    requires Joined(whole, parts, cuts) && n <= |parts| && k < cuts[n]
    ensures i < |parts| && Piece(whole, parts, cuts, i) && cuts[i] <= k < cuts[i + 1]
    decreases n
  {
    if cuts[n - 1] <= k {
      i := n - 1;
      assert Piece(whole, parts, cuts, i);
    } else {
      i := PieceAt(whole, parts, cuts, k, n - 1);
    }
  }
}
