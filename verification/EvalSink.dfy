/** The eval sink: arrivals fill groups, complete groups fill their epoch's bucket, a full bucket
    becomes an eval batch. */
module EvalSinkSpec {
  import opened Common
  import opened Dispatch
  import opened Grouping

  /** An eval epoch. */
  datatype Key = Key(env: Env, evalStep: Option<int>)

  datatype EvalBatch = EvalBatch(key: Key, rollouts: seq<Rollout>)

  /** `examples` is the number of examples of each eval environment. */
  datatype SinkConfig = SinkConfig(groupSize: map<Env, nat>, examples: map<Env, nat>) {
    predicate Knows(env: Env) { env in groupSize && env in examples }

    function BatchSize(env: Env): nat
      requires Knows(env)
    {
      examples[env] * groupSize[env]
    }
  }

  datatype SinkState = SinkState(
    pendingGroups: map<Gid, seq<Rollout>>,
    pendingBatches: map<Key, seq<Rollout>>,
    batches: seq<EvalBatch>)                // history: everything add returned

  const EMPTY := SinkState(map[], map[], [])

  function KeyOf(r: Rollout): Key { Key(r.env, r.evalStep) }

  function Bucket(buckets: map<Key, seq<Rollout>>, k: Key): seq<Rollout> { if k in buckets then buckets[k] else [] }

  /** The arrival joins its group; the last one moves the whole group into the epoch its first
      member names. */
  function Join(sc: SinkConfig, s: SinkState, r: Rollout): SinkState
    requires sc.Knows(r.env)
  {
    var group := GroupAt(s.pendingGroups, r.gid) + [r];
    if |group| < sc.groupSize[r.env] then s.(pendingGroups := s.pendingGroups[r.gid := group])
    else
      var k := KeyOf(group[0]);
      s.(pendingGroups := s.pendingGroups - {r.gid},
         pendingBatches := s.pendingBatches[k := Bucket(s.pendingBatches, k) + group])
  }

  /** Look the arrival's epoch up (which creates its bucket) and pop it when it is full. */
  function Settle(sc: SinkConfig, s: SinkState, k: Key): (SinkState, Option<EvalBatch>)
    requires sc.Knows(k.env)
  {
    var bucket := Bucket(s.pendingBatches, k);
    if |bucket| < sc.BatchSize(k.env) then (s.(pendingBatches := s.pendingBatches[k := bucket]), None)
    else
      var b := EvalBatch(k, bucket);
      (s.(pendingBatches := s.pendingBatches - {k}, batches := s.batches + [b]), Some(b))
  }

  function Add(sc: SinkConfig, s: SinkState, r: Rollout): (SinkState, Option<EvalBatch>)
    requires sc.Knows(r.env)
  {
    Settle(sc, Join(sc, s, r), KeyOf(r))
  }

  function Feed(sc: SinkConfig, rs: seq<Rollout>): SinkState
    requires forall i | 0 <= i < |rs| :: sc.Knows(rs[i].env)
  {
    if rs == [] then EMPTY else Add(sc, Feed(sc, rs[..|rs| - 1]), rs[|rs| - 1]).0
  }
}

/** The eval sink object. */
module EvalSinkImpl {
  import opened Common
  import opened Dispatch
  import opened Grouping
  import opened EvalSinkSpec

  class EvalSink {
    const sc: SinkConfig
    var pendingGroups: map<Gid, seq<Rollout>>
    var pendingBatches: map<Key, seq<Rollout>>
    ghost var batches: seq<EvalBatch>

    ghost function Snapshot(): SinkState
      reads this
    {
      SinkState(pendingGroups, pendingBatches, batches)
    }

    constructor (sc: SinkConfig)
      ensures this.sc == sc && Snapshot() == EMPTY
    {
      this.sc, pendingGroups, pendingBatches, batches := sc, map[], map[], [];
    }

    method ProcessGroup(g: Gid)
      requires g in pendingGroups && pendingGroups[g] != []
      modifies this`pendingGroups, this`pendingBatches
      ensures var group := old(pendingGroups)[g];
              && pendingGroups == old(pendingGroups) - {g}
              && pendingBatches == old(pendingBatches)[KeyOf(group[0]) := Bucket(old(pendingBatches), KeyOf(group[0])) + group]
    {
      var group := pendingGroups[g];
      pendingGroups := pendingGroups - {g};
      var k := KeyOf(group[0]);
      var bucket := if k in pendingBatches then pendingBatches[k] else [];
      pendingBatches := pendingBatches[k := bucket + group];
    }

    method ProcessBatch(k: Key) returns (b: EvalBatch)
      requires k in pendingBatches
      modifies this`pendingBatches, this`batches
      ensures b == EvalBatch(k, old(pendingBatches)[k])
      ensures pendingBatches == old(pendingBatches) - {k} && batches == old(batches) + [b]
    {
      b := EvalBatch(k, pendingBatches[k]);
      pendingBatches := pendingBatches - {k};
      batches := batches + [b];
    }

    method JoinGroup(r: Rollout)
      requires sc.Knows(r.env)
      modifies this`pendingGroups, this`pendingBatches
      ensures Snapshot() == Join(sc, old(Snapshot()), r)
    {
      var before := if r.gid in pendingGroups then pendingGroups[r.gid] else [];
      pendingGroups := pendingGroups[r.gid := before + [r]];
      if |pendingGroups[r.gid]| >= sc.groupSize[r.env] { ProcessGroup(r.gid); }
      assert pendingGroups == Join(sc, old(Snapshot()), r).pendingGroups;
    }

    method SettleEpoch(k: Key) returns (b: Option<EvalBatch>)
      requires sc.Knows(k.env)
      modifies this`pendingBatches, this`batches
      ensures Snapshot() == Settle(sc, old(Snapshot()), k).0 && b == Settle(sc, old(Snapshot()), k).1
    {
      if k !in pendingBatches { pendingBatches := pendingBatches[k := []]; }
      assert pendingBatches == old(pendingBatches)[k := Bucket(old(pendingBatches), k)];
      if |pendingBatches[k]| >= sc.examples[k.env] * sc.groupSize[k.env] {
        var batch := ProcessBatch(k);
        assert pendingBatches == old(pendingBatches) - {k};
        b := Some(batch);
      } else {
        b := None;
      }
    }

    method AddRollout(r: Rollout) returns (b: Option<EvalBatch>)
      requires sc.Knows(r.env)
      modifies this
      ensures Snapshot() == Add(sc, old(Snapshot()), r).0 && b == Add(sc, old(Snapshot()), r).1
    {
      JoinGroup(r);
      b := SettleEpoch(KeyOf(r));
    }
  }
}
