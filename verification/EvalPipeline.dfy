/** From the dispatcher's queue through the eval sink: every group is finalized exactly once and
    every epoch yields at most one batch, of exactly its size. */
module EvalPipeline {
  import opened Common
  import opened Dispatch
  import opened DispatchInvariant
  import opened EvalSinkSpec
  import opened Grouping

  // ---------------------------------------------------------------- what arrived

  function GidOf(r: Rollout): Gid { r.gid }

  lemma {:induction false} MembersAre(rs: seq<Rollout>, g: Gid)
    ensures |Members(rs, GidOf, g)| == CountOf(rs, g)
  {
    if rs != [] { MembersAre(rs[..|rs| - 1], g); }
  }

  function GroupKey(g: Group): Key { Key(g.env, g.evalStep) }

  ghost predicate Capped(store: seq<Group>, rs: seq<Rollout>) {
    forall g: Gid | g < |store| :: CountOf(rs, g) <= store[g].target
  }

  /** What the sink may rely on: arrivals carry their group's captured fields, no group exceeds
      its size, and no epoch has more groups than examples. */
  ghost predicate Context(sc: SinkConfig, store: seq<Group>, rs: seq<Rollout>) {
    && RolloutsOk(store, rs) && Capped(store, rs)
    && (forall i | 0 <= i < |rs| :: rs[i].kind.Eval?)
    && Known(sc, store)
    && forall k: Key | sc.Knows(k.env) :: Groups(store, k, |store|) <= sc.examples[k.env]
  }

  ghost predicate Known(sc: SinkConfig, store: seq<Group>) {
    forall g: Gid | g < |store| && store[g].kind.Eval? ::
      sc.Knows(store[g].env) && store[g].target == sc.groupSize[store[g].env] && 1 <= store[g].target
  }

  predicate InEpoch(g: Group, k: Key) { g.kind.Eval? && GroupKey(g) == k }

  /** How many of the first `n` groups belong to epoch `k`. */
  function Groups(store: seq<Group>, k: Key, n: nat): nat
    requires n <= |store|
  {
    if n == 0 then 0 else Groups(store, k, n - 1) + (if InEpoch(store[n - 1], k) then 1 else 0)
  }

  /** Rollouts of epoch `k` in complete groups, and all that arrived. */
  function Closed(store: seq<Group>, rs: seq<Rollout>, k: Key, n: nat): nat
    requires n <= |store|
  {
    if n == 0 then 0
    else
      var g := n - 1;
      Closed(store, rs, k, g) + (if InEpoch(store[g], k) && CountOf(rs, g) >= store[g].target then store[g].target else 0)
  }

  function Arrived(store: seq<Group>, rs: seq<Rollout>, k: Key, n: nat): nat
    requires n <= |store|
  {
    if n == 0 then 0 else Arrived(store, rs, k, n - 1) + (if InEpoch(store[n - 1], k) then CountOf(rs, n - 1) else 0)
  }

  function Capacity(store: seq<Group>, k: Key, n: nat): nat
    requires n <= |store|
  {
    if n == 0 then 0 else Capacity(store, k, n - 1) + (if InEpoch(store[n - 1], k) then store[n - 1].target else 0)
  }

  /** Arrivals of epoch `k`. */
  function CountKey(rs: seq<Rollout>, k: Key): nat {
    if rs == [] then 0 else CountKey(rs[..|rs| - 1], k) + (if KeyOf(rs[|rs| - 1]) == k then 1 else 0)
  }

  // ---------------------------------------------------------------- sums over the groups

  lemma {:induction false} CountSnoc(rs: seq<Rollout>, r: Rollout, g: Gid)
    ensures CountOf(rs + [r], g) == CountOf(rs, g) + (if r.gid == g then 1 else 0)
    ensures Members(rs + [r], GidOf, g) == Members(rs, GidOf, g) + (if r.gid == g then [r] else [])
    ensures |Members(rs, GidOf, g)| == CountOf(rs, g)
  {
    MembersSnoc(rs, r, GidOf, g);
    MembersAre(rs, g);
    assert (rs + [r])[..|rs|] == rs;
  }

  lemma {:induction false} ClosedStep(store: seq<Group>, rs: seq<Rollout>, r: Rollout, k: Key, n: nat)
    requires n <= |store| && r.gid < |store| && CountOf(rs, r.gid) < store[r.gid].target
    ensures Closed(store, rs + [r], k, n) == Closed(store, rs, k, n)
            + (if r.gid < n && InEpoch(store[r.gid], k) && CountOf(rs, r.gid) + 1 == store[r.gid].target then store[r.gid].target else 0)
  {
    hide CountOf, Members;
    if n > 0 {
      ClosedStep(store, rs, r, k, n - 1);
      CountSnoc(rs, r, n - 1);
    }
  }

  lemma {:induction false} ArrivedStep(store: seq<Group>, rs: seq<Rollout>, r: Rollout, k: Key, n: nat)
    requires n <= |store|
    ensures Arrived(store, rs + [r], k, n) == Arrived(store, rs, k, n) + (if r.gid < n && InEpoch(store[r.gid], k) then 1 else 0)
  {
    hide CountOf, Members;
    if n > 0 {
      ArrivedStep(store, rs, r, k, n - 1);
      CountSnoc(rs, r, n - 1);
    }
  }

  lemma {:induction false} ArrivedNone(store: seq<Group>, k: Key, n: nat)
    requires n <= |store|
    ensures Arrived(store, [], k, n) == 0
    ensures (forall g: Gid | g < n :: 1 <= store[g].target) ==> Closed(store, [], k, n) == 0
  {
    if n > 0 { ArrivedNone(store, k, n - 1); }
  }

  lemma {:induction false} ArrivedCounts(store: seq<Group>, rs: seq<Rollout>, k: Key)
    requires RolloutsOk(store, rs) && forall i | 0 <= i < |rs| :: rs[i].kind.Eval?
    ensures Arrived(store, rs, k, |store|) == CountKey(rs, k)
  {
    if rs == [] {
      ArrivedNone(store, k, |store|);
    } else {
      var n := |rs| - 1;
      ArrivedCounts(store, rs[..n], k);
      ArrivedStep(store, rs[..n], rs[n], k, |store|);
      assert rs == rs[..n] + [rs[n]];
      assert RolloutOk(store, rs[n]);
    }
  }

  /** Complete groups hold at most what arrived, which is at most what the groups can hold; an
      epoch whose arrivals fill its groups consists of complete groups. */
  lemma {:induction false} ClosedBounds(store: seq<Group>, rs: seq<Rollout>, k: Key, n: nat)
    requires n <= |store| && Capped(store, rs)
    ensures Closed(store, rs, k, n) <= Arrived(store, rs, k, n) <= Capacity(store, k, n)
    ensures Arrived(store, rs, k, n) == Capacity(store, k, n) ==> Closed(store, rs, k, n) == Capacity(store, k, n)
  {
    if n > 0 { ClosedBounds(store, rs, k, n - 1); }
  }

  lemma {:induction false} CapacityIs(sc: SinkConfig, store: seq<Group>, k: Key, n: nat)
    requires n <= |store| && Known(sc, store) && sc.Knows(k.env)
    ensures Capacity(store, k, n) == Groups(store, k, n) * sc.groupSize[k.env]
  {
    if n > 0 { CapacityIs(sc, store, k, n - 1); }
  }

  lemma {:induction false} EpochHasGroup(store: seq<Group>, k: Key, g: Gid, n: nat)
    requires g < n <= |store| && InEpoch(store[g], k)
    ensures 1 <= Groups(store, k, n)
  {
    if g < n - 1 { EpochHasGroup(store, k, g, n - 1); }
  }

  lemma MulMono(a: nat, b: nat, c: nat)
    requires a <= b
    ensures a * c <= b * c
  {
  }

  /** An epoch never holds more than its batch size; one with a group has a positive size. */
  lemma {:induction false} EpochBound(sc: SinkConfig, store: seq<Group>, rs: seq<Rollout>, k: Key)
    requires Context(sc, store, rs) && sc.Knows(k.env)
    ensures Closed(store, rs, k, |store|) <= Arrived(store, rs, k, |store|) <= sc.BatchSize(k.env)
    ensures Closed(store, rs, k, |store|) == sc.BatchSize(k.env) <==> Arrived(store, rs, k, |store|) == sc.BatchSize(k.env)
  {
    ClosedBounds(store, rs, k, |store|);
    CapacityIs(sc, store, k, |store|);
    MulMono(Groups(store, k, |store|), sc.examples[k.env], sc.groupSize[k.env]);
  }

  lemma PositiveSize(sc: SinkConfig, store: seq<Group>, rs: seq<Rollout>, r: Rollout)
    requires Context(sc, store, rs) && r in rs
    ensures sc.Knows(r.env) && 1 <= sc.BatchSize(r.env)
  {
    var i :| 0 <= i < |rs| && rs[i] == r;
    assert RolloutOk(store, rs[i]);
    EpochHasGroup(store, KeyOf(r), r.gid, |store|);
    assert InEpoch(store[r.gid], KeyOf(r));
    assert Groups(store, KeyOf(r), |store|) <= sc.examples[r.env];
    MulMono(1, sc.examples[r.env], sc.groupSize[r.env]);
  }

  // ---------------------------------------------------------------- the sink's invariant

  ghost predicate KnownGroups(store: seq<Group>, groups: map<Gid, seq<Rollout>>) { forall g: Gid | g in groups :: g < |store| }

  function BatchLoad(batches: seq<EvalBatch>, k: Key): nat {
    if batches == [] then 0
    else BatchLoad(batches[..|batches| - 1], k) + (if batches[|batches| - 1].key == k then |batches[|batches| - 1].rollouts| else 0)
  }

  /** Every rollout of a complete group is in its epoch's bucket or in a returned batch. */
  ghost predicate BucketsAgree(store: seq<Group>, rs: seq<Rollout>, buckets: map<Key, seq<Rollout>>, batches: seq<EvalBatch>) {
    forall k: Key :: |Bucket(buckets, k)| + BatchLoad(batches, k) == Closed(store, rs, k, |store|)
  }

  ghost predicate Uniform(rs: seq<Rollout>, k: Key) { forall i | 0 <= i < |rs| :: KeyOf(rs[i]) == k }

  ghost predicate BucketsUniform(buckets: map<Key, seq<Rollout>>) {
    forall k | k in buckets :: Uniform(buckets[k], k)
  }

  ghost predicate BatchOk(sc: SinkConfig, b: EvalBatch) {
    sc.Knows(b.key.env) && 1 <= sc.BatchSize(b.key.env) == |b.rollouts| && Uniform(b.rollouts, b.key)
  }

  ghost predicate BatchesOk(sc: SinkConfig, batches: seq<EvalBatch>) {
    && (forall i | 0 <= i < |batches| :: BatchOk(sc, batches[i]))
    && (forall i, j | 0 <= i < j < |batches| :: batches[i].key != batches[j].key)
  }

  /** No known epoch's bucket is left full. */
  ghost predicate NoneFull(sc: SinkConfig, buckets: map<Key, seq<Rollout>>) {
    forall k | k in buckets :: sc.Knows(k.env) && |buckets[k]| < sc.BatchSize(k.env)
  }

  ghost predicate SinkInv(sc: SinkConfig, store: seq<Group>, rs: seq<Rollout>, s: SinkState) {
    && KnownGroups(store, s.pendingGroups) && GroupsAgree(store, rs, GidOf, s.pendingGroups)
    && BucketsAgree(store, rs, s.pendingBatches, s.batches)
    && BucketsUniform(s.pendingBatches)
    && BatchesOk(sc, s.batches)
    && NoneFull(sc, s.pendingBatches)
  }

  // ---------------------------------------------------------------- one arrival

  lemma JoinedAt(sc: SinkConfig, s: SinkState, r: Rollout, g: Gid)
    requires sc.Knows(r.env)
    ensures var held := GroupAt(s.pendingGroups, r.gid);
            GroupAt(Join(sc, s, r).pendingGroups, g) ==
              if g != r.gid then GroupAt(s.pendingGroups, g) else if |held| + 1 < sc.groupSize[r.env] then held + [r] else []
  {
  }

  lemma {:induction false} JoinGroupAt(sc: SinkConfig, store: seq<Group>, rs: seq<Rollout>, r: Rollout, s: SinkState, g: Gid)
    requires GroupsAgree(store, rs, GidOf, s.pendingGroups) && r.gid < |store| && sc.Knows(r.env) && g < |store|
    requires CountOf(rs, r.gid) < store[r.gid].target == sc.groupSize[r.env]
    ensures GroupAt(Join(sc, s, r).pendingGroups, g) == OpenPart(store, rs + [r], GidOf, g)
  {
    CountSnoc(rs, r, g);
    CountSnoc(rs, r, r.gid);
    assert GroupAt(s.pendingGroups, g) == OpenPart(store, rs, GidOf, g);
    assert GroupAt(s.pendingGroups, r.gid) == OpenPart(store, rs, GidOf, r.gid);
    JoinedAt(sc, s, r, g);
    hide GroupsAgree, Members, CountOf, Join, GroupAt;
    if g != r.gid { assert Members(rs, GidOf, g) + [] == Members(rs, GidOf, g); }
  }

  lemma JoinDomain(sc: SinkConfig, s: SinkState, r: Rollout, n: nat)
    requires sc.Knows(r.env) && r.gid < n && forall g: Gid | g in s.pendingGroups :: g < n
    ensures forall g: Gid | g in Join(sc, s, r).pendingGroups :: g < n
  {
  }

  /** What the arrival completes its group to is everything of that group that has arrived. */
  lemma {:induction false} Gathered(store: seq<Group>, rs: seq<Rollout>, r: Rollout, groups: map<Gid, seq<Rollout>>)
    requires GroupsAgree(store, rs, GidOf, groups) && r.gid < |store| && CountOf(rs, r.gid) < store[r.gid].target
    ensures GroupAt(groups, r.gid) + [r] == Members(rs + [r], GidOf, r.gid)
  {
    CountSnoc(rs, r, r.gid);
    assert GroupAt(groups, r.gid) == OpenPart(store, rs, GidOf, r.gid);
  }

  lemma {:induction false} JoinGroups(sc: SinkConfig, store: seq<Group>, rs: seq<Rollout>, r: Rollout, s: SinkState)
    requires KnownGroups(store, s.pendingGroups) && GroupsAgree(store, rs, GidOf, s.pendingGroups)
    requires r.gid < |store| && sc.Knows(r.env) && CountOf(rs, r.gid) < store[r.gid].target == sc.groupSize[r.env]
    ensures var t := Join(sc, s, r);
            KnownGroups(store, t.pendingGroups) && GroupsAgree(store, rs + [r], GidOf, t.pendingGroups)
  {
    JoinDomain(sc, s, r, |store|);
    hide Members, CountOf, OpenPart, Join, GroupAt;
    forall g: Gid | g < |store| ensures GroupAt(Join(sc, s, r).pendingGroups, g) == OpenPart(store, rs + [r], GidOf, g) {
      JoinGroupAt(sc, store, rs, r, s, g);
    }
  }

  lemma {:induction false} GroupUniform(store: seq<Group>, rs: seq<Rollout>, g: Gid)
    requires RolloutsOk(store, rs) && g < |store|
    ensures Uniform(Members(rs, GidOf, g), GroupKey(store[g]))
  {
    var ms := Members(rs, GidOf, g);
    forall i | 0 <= i < |ms| ensures KeyOf(ms[i]) == GroupKey(store[g]) {
      assert ms[i] in ms;
      var j :| 0 <= j < |rs| && rs[j] == ms[i];
      assert RolloutOk(store, rs[j]);
    }
  }

  /** The buckets after an arrival: unchanged, or its whole group added to its epoch. */
  function Moved(store: seq<Group>, rs: seq<Rollout>, r: Rollout, buckets: map<Key, seq<Rollout>>): map<Key, seq<Rollout>>
    requires r.gid < |store|
  {
    if CountOf(rs, r.gid) + 1 < store[r.gid].target then buckets
    else buckets[KeyOf(r) := Bucket(buckets, KeyOf(r)) + Members(rs + [r], GidOf, r.gid)]
  }

  lemma {:induction false} MovedAgrees(store: seq<Group>, rs: seq<Rollout>, r: Rollout, buckets: map<Key, seq<Rollout>>, batches: seq<EvalBatch>)
    requires BucketsAgree(store, rs, buckets, batches) && RolloutOk(store, r) && r.kind.Eval?
    requires CountOf(rs, r.gid) < store[r.gid].target
    ensures BucketsAgree(store, rs + [r], Moved(store, rs, r, buckets), batches)
  {
    CountSnoc(rs, r, r.gid);
    hide CountOf, Members, Closed, BatchLoad;
    var moved := Moved(store, rs, r, buckets);
    forall k: Key ensures |Bucket(moved, k)| + BatchLoad(batches, k) == Closed(store, rs + [r], k, |store|) {
      ClosedStep(store, rs, r, k, |store|);
      assert |Bucket(buckets, k)| + BatchLoad(batches, k) == Closed(store, rs, k, |store|);
    }
  }

  lemma MovedUniform(store: seq<Group>, rs: seq<Rollout>, r: Rollout, buckets: map<Key, seq<Rollout>>)
    requires BucketsUniform(buckets) && RolloutsOk(store, rs + [r]) && RolloutOk(store, r)
    ensures BucketsUniform(Moved(store, rs, r, buckets))
  {
    GroupUniform(store, rs + [r], r.gid);
    hide CountOf, Members, RolloutsOk;
  }

  lemma {:induction false} FirstKey(store: seq<Group>, rs: seq<Rollout>, r: Rollout)
    requires RolloutsOk(store, rs + [r]) && RolloutOk(store, r)
    ensures var group := Members(rs + [r], GidOf, r.gid);
            group != [] && KeyOf(group[0]) == KeyOf(r) && |group| == CountOf(rs, r.gid) + 1
  {
    CountSnoc(rs, r, r.gid);
    GroupUniform(store, rs + [r], r.gid);
  }

  lemma {:induction false} JoinBuckets(sc: SinkConfig, store: seq<Group>, rs: seq<Rollout>, r: Rollout, s: SinkState)
    requires BucketsAgree(store, rs, s.pendingBatches, s.batches) && BucketsUniform(s.pendingBatches)
    requires RolloutsOk(store, rs + [r]) && RolloutOk(store, r) && r.kind.Eval? && sc.Knows(r.env)
    requires CountOf(rs, r.gid) < store[r.gid].target == sc.groupSize[r.env]
    requires GroupAt(s.pendingGroups, r.gid) + [r] == Members(rs + [r], GidOf, r.gid)
    ensures var t := Join(sc, s, r);
            && BucketsAgree(store, rs + [r], t.pendingBatches, t.batches) && BucketsUniform(t.pendingBatches) && t.batches == s.batches
            && t.pendingBatches == Moved(store, rs, r, s.pendingBatches)
  {
    hide CountOf, Members, RolloutsOk, BucketsAgree, BucketsUniform, RolloutOk;
    FirstKey(store, rs, r);
    MovedAgrees(store, rs, r, s.pendingBatches, s.batches);
    MovedUniform(store, rs, r, s.pendingBatches);
  }

  lemma {:induction false} LoadSnoc(batches: seq<EvalBatch>, b: EvalBatch, k: Key)
    ensures BatchLoad(batches + [b], k) == BatchLoad(batches, k) + (if b.key == k then |b.rollouts| else 0)
  {
    assert (batches + [b])[..|batches|] == batches;
  }

  lemma {:induction false} LoadZero(sc: SinkConfig, batches: seq<EvalBatch>, k: Key)
    requires forall i | 0 <= i < |batches| :: BatchOk(sc, batches[i])
    ensures BatchLoad(batches, k) == 0 <==> forall i | 0 <= i < |batches| :: batches[i].key != k
    ensures BatchLoad(batches, k) > 0 ==> sc.Knows(k.env) && BatchLoad(batches, k) >= sc.BatchSize(k.env)
  {
    if batches != [] {
      var n := |batches| - 1;
      LoadZero(sc, batches[..n], k);
      assert BatchOk(sc, batches[n]);
      assert (forall i | 0 <= i < n :: batches[i].key != k) == (forall i | 0 <= i < n :: batches[..n][i].key != k);
    }
  }

  lemma {:induction false} SettleKeeps(sc: SinkConfig, store: seq<Group>, rs: seq<Rollout>, s: SinkState, k: Key)
    requires sc.Knows(k.env) && 1 <= sc.BatchSize(k.env) && Closed(store, rs, k, |store|) <= sc.BatchSize(k.env)
    requires BucketsAgree(store, rs, s.pendingBatches, s.batches) && BucketsUniform(s.pendingBatches) && BatchesOk(sc, s.batches)
    requires forall j | j in s.pendingBatches && j != k :: sc.Knows(j.env) && |s.pendingBatches[j]| < sc.BatchSize(j.env)
    ensures var t := Settle(sc, s, k).0;
            && BucketsAgree(store, rs, t.pendingBatches, t.batches) && BucketsUniform(t.pendingBatches)
            && BatchesOk(sc, t.batches) && NoneFull(sc, t.pendingBatches) && t.pendingGroups == s.pendingGroups
  {
    SettleBuckets(sc, store, rs, s, k);
    assert |Bucket(s.pendingBatches, k)| + BatchLoad(s.batches, k) == Closed(store, rs, k, |store|);
    hide BucketsAgree, Closed;
    SettleFull(sc, s, k);
  }

  lemma {:induction false} SettleFull(sc: SinkConfig, s: SinkState, k: Key)
    requires sc.Knows(k.env) && 1 <= sc.BatchSize(k.env) && |Bucket(s.pendingBatches, k)| + BatchLoad(s.batches, k) <= sc.BatchSize(k.env)
    requires BucketsUniform(s.pendingBatches) && BatchesOk(sc, s.batches)
    requires forall j | j in s.pendingBatches && j != k :: sc.Knows(j.env) && |s.pendingBatches[j]| < sc.BatchSize(j.env)
    ensures var t := Settle(sc, s, k).0;
            && BucketsUniform(t.pendingBatches) && BatchesOk(sc, t.batches) && NoneFull(sc, t.pendingBatches)
            && t.pendingGroups == s.pendingGroups
  {
    var bucket := Bucket(s.pendingBatches, k);
    if |bucket| >= sc.BatchSize(k.env) {
      LoadZero(sc, s.batches, k);
      assert Uniform(bucket, k) && BatchOk(sc, EvalBatch(k, bucket));
      hide BatchLoad, BatchOk, Uniform;
    } else {
      assert Uniform(bucket, k);
      hide BatchLoad, BatchOk, BatchesOk, Uniform;
    }
  }

  lemma SettleBuckets(sc: SinkConfig, store: seq<Group>, rs: seq<Rollout>, s: SinkState, k: Key)
    requires sc.Knows(k.env) && BucketsAgree(store, rs, s.pendingBatches, s.batches)
    ensures var t := Settle(sc, s, k).0; BucketsAgree(store, rs, t.pendingBatches, t.batches)
  {
    hide Closed, Settle, BatchLoad, Bucket;
    var t := Settle(sc, s, k).0;
    forall j: Key ensures |Bucket(t.pendingBatches, j)| + BatchLoad(t.batches, j) == Closed(store, rs, j, |store|) {
      assert |Bucket(s.pendingBatches, j)| + BatchLoad(s.batches, j) == Closed(store, rs, j, |store|);
      SettleLoad(sc, s, k, j);
    }
  }

  /** Settling moves rollouts from a bucket to a batch, if anywhere. */
  lemma {:induction false} SettleLoad(sc: SinkConfig, s: SinkState, k: Key, j: Key)
    requires sc.Knows(k.env)
    ensures var t := Settle(sc, s, k).0;
            |Bucket(t.pendingBatches, j)| + BatchLoad(t.batches, j) == |Bucket(s.pendingBatches, j)| + BatchLoad(s.batches, j)
  {
    LoadSnoc(s.batches, EvalBatch(k, Bucket(s.pendingBatches, k)), j);
    hide BatchLoad;
  }

  lemma AddKeeps(sc: SinkConfig, store: seq<Group>, rs: seq<Rollout>, r: Rollout, s: SinkState)
    requires Context(sc, store, rs + [r]) && SinkInv(sc, store, rs, s)
    ensures sc.Knows(r.env) && SinkInv(sc, store, rs + [r], Add(sc, s, r).0)
  {
    var all := rs + [r];
    assert r in all && all[|rs|] == r && RolloutOk(store, all[|rs|]) && all[|rs|].kind.Eval?;
    PositiveSize(sc, store, all, r);
    CountSnoc(rs, r, r.gid);
    assert CountOf(all, r.gid) <= store[r.gid].target;
    EpochBound(sc, store, all, KeyOf(r));
    assert RolloutsOk(store, all);
    assert sc.Knows(store[r.gid].env) && store[r.gid].target == sc.groupSize[r.env];
    hide Context, Closed, Arrived, GroupsAgree, BucketsAgree, RolloutsOk, BucketsUniform, BatchesOk, Join, Settle, Members, CountOf;
    JoinGroups(sc, store, rs, r, s);
    Gathered(store, rs, r, s.pendingGroups);
    JoinBuckets(sc, store, rs, r, s);
    SettleKeeps(sc, store, all, Join(sc, s, r), KeyOf(r));
  }

  lemma ContextPrefix(sc: SinkConfig, store: seq<Group>, rs: seq<Rollout>)
    requires Context(sc, store, rs) && rs != []
    ensures Context(sc, store, rs[..|rs| - 1])
  {
    var ps := rs[..|rs| - 1];
    forall i | 0 <= i < |ps| ensures RolloutOk(store, ps[i]) && ps[i].kind.Eval? { assert ps[i] == rs[i] && RolloutOk(store, rs[i]); }
    forall g: Gid | g < |store| ensures CountOf(ps, g) <= store[g].target { assert CountOf(rs, g) <= store[g].target; }
  }

  lemma ContextKnows(sc: SinkConfig, store: seq<Group>, rs: seq<Rollout>)
    requires Context(sc, store, rs)
    ensures forall i | 0 <= i < |rs| :: sc.Knows(rs[i].env)
  {
    forall i | 0 <= i < |rs| ensures sc.Knows(rs[i].env) { assert RolloutOk(store, rs[i]); }
  }

  lemma EmptyInv(sc: SinkConfig, store: seq<Group>)
    requires Context(sc, store, [])
    ensures SinkInv(sc, store, [], EMPTY)
  {
    forall k: Key ensures |Bucket(EMPTY.pendingBatches, k)| + BatchLoad(EMPTY.batches, k) == Closed(store, [], k, |store|) {
      EmptyClosed(sc, store, k, |store|);
    }
  }

  lemma {:induction false} EmptyClosed(sc: SinkConfig, store: seq<Group>, k: Key, n: nat)
    requires n <= |store| && Known(sc, store)
    ensures Closed(store, [], k, n) == 0
  {
    if n > 0 { EmptyClosed(sc, store, k, n - 1); }
  }

  /** The sink's invariant over every legal sequence of arrivals. */
  lemma {:induction false} FeedKeeps(sc: SinkConfig, store: seq<Group>, rs: seq<Rollout>)
    requires Context(sc, store, rs)
    ensures forall i | 0 <= i < |rs| :: sc.Knows(rs[i].env)
    ensures SinkInv(sc, store, rs, Feed(sc, rs))
    decreases |rs|
  {
    ContextKnows(sc, store, rs);
    if rs == [] {
      EmptyInv(sc, store);
    } else {
      var n := |rs| - 1;
      ContextPrefix(sc, store, rs);
      assert rs == rs[..n] + [rs[n]];
      hide Context, SinkInv, Add;
      FeedKeeps(sc, store, rs[..n]);
      AddKeeps(sc, store, rs[..n], rs[n], Feed(sc, rs[..n]));
    }
  }

  /** Epoch `k` has a batch exactly when every one of its rollouts has arrived. */
  lemma {:induction false} BatchIff(sc: SinkConfig, store: seq<Group>, rs: seq<Rollout>, k: Key)
    requires Context(sc, store, rs) && sc.Knows(k.env) && 1 <= sc.BatchSize(k.env)
    requires forall i | 0 <= i < |rs| :: sc.Knows(rs[i].env)
    ensures (exists i | 0 <= i < |Feed(sc, rs).batches| :: Feed(sc, rs).batches[i].key == k) <==> CountKey(rs, k) == sc.BatchSize(k.env)
  {
    FeedKeeps(sc, store, rs);
    EpochBound(sc, store, rs, k);
    ArrivedCounts(store, rs, k);
    var s := Feed(sc, rs);
    assert |Bucket(s.pendingBatches, k)| + BatchLoad(s.batches, k) == Closed(store, rs, k, |store|);
    LoadZero(sc, s.batches, k);
  }
}
