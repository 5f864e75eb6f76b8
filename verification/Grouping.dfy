/** Lists whose elements carry a group number: the members of a group in order of arrival, the part of
    a group that a sink still holds, and the n-th arrival of a group. */
module Grouping {
  import Dispatch

  function Gids<T>(xs: seq<T>, gid: T -> nat): (gs: seq<nat>)
    ensures |gs| == |xs| && forall i | 0 <= i < |xs| :: gs[i] == gid(xs[i])
  {
    seq(|xs|, i requires 0 <= i < |xs| => gid(xs[i]))
  }

  function Members<T>(xs: seq<T>, gid: T -> nat, g: nat): (r: seq<T>)
    ensures forall x | x in r :: x in xs && gid(x) == g
  {
    if xs == [] then []
    else Members(xs[..|xs| - 1], gid, g) + (if gid(xs[|xs| - 1]) == g then [xs[|xs| - 1]] else [])
  }

  lemma {:induction false} MembersSnoc<T>(xs: seq<T>, x: T, gid: T -> nat, g: nat)
    ensures Members(xs + [x], gid, g) == Members(xs, gid, g) + (if gid(x) == g then [x] else [])
  {
    assert (xs + [x])[..|xs|] == xs;
  }

  function GroupAt<T>(groups: map<nat, seq<T>>, g: nat): seq<T> { if g in groups then groups[g] else [] }

  /** The members a sink still holds of a group: all that arrived, until the last one arrives. */
  function OpenPart<T>(store: seq<Dispatch.Group>, xs: seq<T>, gid: T -> nat, g: nat): seq<T>
    requires g < |store|
  {
    var members := Members(xs, gid, g);
    if |members| < store[g].target then members else []
  }

  ghost predicate GroupsAgree<T>(store: seq<Dispatch.Group>, xs: seq<T>, gid: T -> nat, groups: map<nat, seq<T>>) {
    forall g: nat | g < |store| :: GroupAt(groups, g) == OpenPart(store, xs, gid, g)
  }

  // ---------------------------------------------------------------- the n-th arrival of a group

  function CountGid(gs: seq<nat>, g: nat): nat {
    if gs == [] then 0 else CountGid(gs[..|gs| - 1], g) + (if gs[|gs| - 1] == g then 1 else 0)
  }

  lemma {:induction false} MembersCount<T>(xs: seq<T>, gid: T -> nat, g: nat)
    ensures |Members(xs, gid, g)| == CountGid(Gids(xs, gid), g)
  {
    if xs != [] {
      assert Gids(xs, gid)[..|xs| - 1] == Gids(xs[..|xs| - 1], gid);
      MembersCount(xs[..|xs| - 1], gid, g);
    }
  }

  lemma {:induction false} CountGidMono(gs: seq<nat>, g: nat, i: nat)
    requires i <= |gs|
    ensures CountGid(gs[..i], g) <= CountGid(gs, g)
    decreases |gs|
  {
    if i == |gs| {
      assert gs[..i] == gs;
    } else {
      assert gs[..|gs| - 1][..i] == gs[..i];
      CountGidMono(gs[..|gs| - 1], g, i);
    }
  }

  /** Arrival `i` is the `n`-th of its group. */
  predicate Nth(gs: seq<nat>, i: nat, n: nat)
    requires i < |gs|
  {
    CountGid(gs[..i + 1], gs[i]) == n
  }

  lemma NthUnique(gs: seq<nat>, i: nat, j: nat, n: nat)
    requires i < j < |gs| && Nth(gs, i, n) && Nth(gs, j, n)
    ensures gs[i] != gs[j]
  {
    assert gs[..j + 1][..j] == gs[..j];
    assert gs[..j][..i + 1] == gs[..i + 1];
    CountGidMono(gs[..j], gs[i], i + 1);
  }

  lemma {:induction false} NthExists(gs: seq<nat>, g: nat, n: nat) returns (i: nat)
    requires 1 <= n <= CountGid(gs, g)
    ensures i < |gs| && gs[i] == g && Nth(gs, i, n)
    decreases |gs|
  {
    var m := |gs| - 1;
    if CountGid(gs[..m], g) >= n {
      i := NthExists(gs[..m], g, n);
      assert gs[..m][..i + 1] == gs[..i + 1];
    } else {
      i := m;
      assert gs[..m + 1] == gs;
    }
  }

  /** Once all of a group's members have arrived, later arrivals add none. */
  lemma {:induction false} MembersAll<T>(xs: seq<T>, gid: T -> nat, g: nat, i: nat)
    requires i <= |xs| && |Members(xs, gid, g)| == |Members(xs[..i], gid, g)|
    ensures Members(xs[..i], gid, g) == Members(xs, gid, g)
    decreases |xs|
  {
    if i == |xs| {
      assert xs[..i] == xs;
    } else {
      var n := |xs| - 1;
      assert xs[..n][..i] == xs[..i] && Gids(xs[..n], gid)[..i] == Gids(xs[..i], gid);
      MembersCount(xs[..n], gid, g);
      MembersCount(xs[..i], gid, g);
      CountGidMono(Gids(xs[..n], gid), g, i);
      MembersAll(xs[..n], gid, g, i);
    }
  }
}
