/** The train sink object, updated in place by each arrival and proved to take the step the
    specification names. */
module TrainSinkImpl {
  import opened Common
  import opened TrainSinkSpec
  import Runs = TrainSinkRuns

  class TrainSink {
    const cfg: Config
    var pendingRollouts: seq<Rollout>
    var pendingGroups: map<nat, seq<Rollout>>
    var pendingBatch: seq<Rollout>
    var pendingTokens: int
    var lastEmpty: int
    ghost var arrived: seq<Rollout>
    ghost var accepted: seq<Rollout>
    ghost var cohorts: seq<Rollout>
    ghost var windows: seq<Rollout>

    ghost function Snapshot(): State
      reads this
    {
      State(pendingRollouts, pendingGroups, pendingBatch, pendingTokens, lastEmpty, arrived, accepted, cohorts, windows)
    }

    /** The invariant every `add` keeps: see the theorems about whole runs. */
    ghost predicate Valid()
      reads this
    {
      cfg.Valid() && Runs.Inv(cfg, Snapshot()) && Runs.Bounded(cfg, Snapshot())
    }

    constructor (cfg: Config)
      requires cfg.Valid()
      ensures this.cfg == cfg && Snapshot() == EMPTY && Valid()
    {
      this.cfg := cfg;
      pendingRollouts, pendingGroups, pendingBatch, pendingTokens, lastEmpty := [], map[], [], 0, 0;
      arrived, accepted, cohorts, windows := [], [], [], [];
      new;
      assert Settled(EMPTY) == [];
    }

    // -------------------------------------------------------------- list loops

    static method KeepWhere(rs: seq<Rollout>, p: Rollout -> bool) returns (kept: seq<Rollout>, left: seq<Rollout>)
      ensures kept == Keep(rs, p) && left == Drop(rs, p)
    {
      kept, left := [], [];
      var i := 0;
      while i < |rs|
        invariant i <= |rs| && kept == Keep(rs[..i], p) && left == Drop(rs[..i], p)
      {
        assert rs[..i + 1][..i] == rs[..i];
        if p(rs[i]) { kept := kept + [rs[i]]; } else { left := left + [rs[i]]; }
        i := i + 1;
      }
      assert rs[..i] == rs;
    }

    static method SplitIds(rs: seq<Rollout>, ids: set<nat>) returns (inside: seq<Rollout>, outside: seq<Rollout>)
      ensures inside == Inside(rs, ids) && outside == Outside(rs, ids)
    {
      inside, outside := [], [];
      var i := 0;
      while i < |rs|
        invariant i <= |rs| && inside == Inside(rs[..i], ids) && outside == Outside(rs[..i], ids)
      {
        assert rs[..i + 1][..i] == rs[..i];
        if rs[i].id in ids { inside := inside + [rs[i]]; } else { outside := outside + [rs[i]]; }
        i := i + 1;
      }
      assert rs[..i] == rs;
    }

    /** The running-sum loop of `process_batch` in token mode. */
    static method TokenCut(rs: seq<Rollout>, target: nat) returns (cut: nat, running: nat)
      ensures cut == CutFrom(rs, target, 0) && running == TokenSum(rs[..cut])
    {
      cut, running := 0, 0;
      while cut < |rs|
        invariant cut <= |rs| && running == TokenSum(rs[..cut])
        invariant CutFrom(rs, target, 0) == CutFrom(rs, target, cut)
      {
        if 0 < cut && running >= target { return; }
        assert rs[..cut + 1][..cut] == rs[..cut];
        running := running + rs[cut].tokens;
        cut := cut + 1;
      }
    }

    /** Concatenate the shipped rollouts' samples and take the least value version among them. */
    static method Assemble(rs: seq<Rollout>) returns (samples: seq<nat>, least: Option<int>)
      ensures samples == SamplesOf(rs) && least == VersionMin(rs)
    {
      samples, least := [], None;
      var i := 0;
      while i < |rs|
        invariant i <= |rs| && samples == SamplesOf(rs[..i]) && least == VersionMin(rs[..i])
      {
        assert rs[..i + 1][..i] == rs[..i];
        samples := samples + rs[i].samples;
        least := Min(least, rs[i].valueVersion);
        i := i + 1;
      }
      assert rs[..i] == rs;
    }

    // -------------------------------------------------------------- the three levels

    /** What a complete group contributes to the queue. */
    method Survivors(spec: EnvSpec, group: seq<Rollout>) returns (queued: seq<Rollout>)
      ensures queued == Accept(cfg, spec, group)
    {
      var survivors, _ := KeepWhere(group, Usable);
      if |survivors| < |group| && spec.groupScoring { return []; }
      if survivors == [] { return []; }
      if spec.privileged && |survivors| != spec.groupSize { return []; }
      if |survivors| < spec.minimumGroup { return []; }
      var _, rest := KeepWhere(survivors, cfg.pre);
      queued := rest;
    }

    /** Record the arrival, and process its group when it is complete. */
    method Receive(r: Rollout) returns (completed: bool)
      requires r.env in cfg.envs && GroupWith(Snapshot(), r)[0].env in cfg.envs
      modifies this
      ensures Snapshot() == Arrive(cfg, old(Snapshot()), r) && completed == Completes(cfg, old(Snapshot()), r)
    {
      hide Accept, TokenSum;
      var group := (if r.gid in pendingGroups then pendingGroups[r.gid] else []) + [r];
      pendingRollouts := pendingRollouts + [r];
      arrived := arrived + [r];
      completed := |group| >= cfg.envs[r.env].groupSize;
      if !completed {
        pendingGroups := pendingGroups[r.gid := group];
      } else {
        pendingGroups := pendingGroups - {r.gid};
        var queued := Survivors(cfg.envs[group[0].env], group);
        pendingBatch := pendingBatch + queued;
        if cfg.target.Tokens? { pendingTokens := pendingTokens + TokenSum(queued); }
        accepted := accepted + queued;
      }
    }

    method TakeSettled(minimum: nat) returns (settled: seq<Rollout>)
      modifies this`pendingRollouts, this`windows
      ensures (Snapshot(), settled) == PopSettled(old(Snapshot()), minimum)
    {
      hide Inside, Outside;
      var ids := (set r | r in pendingBatch :: r.id) + (set g, r | g in pendingGroups && r in pendingGroups[g] :: r.id);
      var inside, outside := SplitIds(pendingRollouts, ids);
      assert ids == RetainedIds(Snapshot());
      if |outside| < minimum { return []; }
      pendingRollouts := inside;
      windows := windows + outside;
      settled := outside;
    }

    method TakeCohort() returns (cohort: seq<Rollout>)
      modifies this`pendingBatch, this`pendingTokens, this`cohorts
      ensures cohort == old(pendingBatch[..Cut(cfg, pendingBatch)]) && Snapshot() == PopCohort(cfg, old(Snapshot()))
    {
      hide CutFrom, TokenSum;
      var cut := 0;
      match cfg.target {
        case Rollouts(n) => cut := if n < |pendingBatch| then n else |pendingBatch|;
        case Tokens(n) =>
          var running;
          cut, running := TokenCut(pendingBatch, n);
          pendingTokens := pendingTokens - running;
      }
      cohort := pendingBatch[..cut];
      cohorts := cohorts + cohort;
      pendingBatch := pendingBatch[cut..];
    }

    /** `process_batch`. */
    method TakeBatch() returns (b: Batch)
      modifies this
      ensures (Snapshot(), b) == ProcessBatch(cfg, old(Snapshot()))
    {
      hide PopCohort, PopSettled, SamplesOf, VersionMin, Drop, Cut;
      var cohort := TakeCohort();
      var _, shipped := KeepWhere(cohort, cfg.post);
      var samples, least := Assemble(shipped);
      var progress := if cfg.target.Rollouts? then |pendingBatch| else pendingTokens;
      var window;
      if samples != [] {
        window := pendingRollouts;
        windows := windows + pendingRollouts;
        pendingRollouts := [];
      } else {
        window := TakeSettled(1);
      }
      lastEmpty := progress;
      b := Batch(window, samples, least, false, cohort);
    }

    method TakeFlush() returns (b: Option<Batch>)
      requires 1 <= cfg.limit
      modifies this
      ensures (Snapshot(), b) == Flush(cfg, old(Snapshot()))
    {
      hide Settled, Unsettled;
      var settled := TakeSettled(cfg.limit);
      b := None;
      if settled != [] {
        var progress := if cfg.target.Rollouts? then |pendingBatch| else pendingTokens;
        b := Some(Batch(settled, [], None, progress > lastEmpty, []));
        lastEmpty := progress;
      }
    }

    /** `TrainSink.add`. */
    method AddRollout(r: Rollout) returns (b: Option<Batch>)
      requires Valid() && Runs.Legal(cfg, Snapshot(), r)
      modifies this
      ensures Valid() && r.env in cfg.envs && old(GroupWith(Snapshot(), r)[0].env in cfg.envs)
      ensures (Snapshot(), b) == Add(cfg, old(Snapshot()), r)
    {
      hide Runs.Inv, Runs.Bounded, Arrive, ProcessBatch, Flush, Completes, GroupWith;
      Runs.AddKeeps(cfg, Snapshot(), r);
      var completed := Receive(r);
      var progress := if cfg.target.Rollouts? then |pendingBatch| else pendingTokens;
      b := None;
      if progress >= cfg.target.n {
        var batch := TakeBatch();
        b := Some(batch);
      } else if completed {
        b := TakeFlush();
      }
    }
  }
}
