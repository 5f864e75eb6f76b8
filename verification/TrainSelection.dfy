/** Which arrivals the train sink queues, batches and returns, stated on the arrivals themselves. */
module TrainSelection {
  import opened Common
  import Dispatch
  import opened Grouping
  import opened TrainSinkSpec
  import opened TrainSinkRuns
  import opened TrainPipeline
  import opened OrchestratorSpec
  import opened TrainingLoop

  // ---------------------------------------------------------------- lists

  lemma {:induction false} KeepPicks(rs: seq<Rollout>, p: Rollout -> bool) returns (at: seq<nat>)
    ensures Picks(rs, at, Keep(rs, p)) && forall i: nat | i < |rs| :: i in at <==> p(rs[i])
  {
    if rs == [] {
      at := [];
    } else {
      var n := |rs| - 1;
      at := KeepPicks(rs[..n], p);
      PicksNext(rs[..n], at, Keep(rs[..n], p), rs[n]);
      assert rs == rs[..n] + [rs[n]];
      if p(rs[n]) { at := at + [n]; }
    }
  }

  lemma {:induction false} DropPicks(rs: seq<Rollout>, p: Rollout -> bool) returns (at: seq<nat>)
    ensures Picks(rs, at, Drop(rs, p)) && forall i: nat | i < |rs| :: i in at <==> !p(rs[i])
  {
    if rs == [] {
      at := [];
    } else {
      var n := |rs| - 1;
      at := DropPicks(rs[..n], p);
      PicksNext(rs[..n], at, Drop(rs[..n], p), rs[n]);
      assert rs == rs[..n] + [rs[n]];
      if !p(rs[n]) { at := at + [n]; }
    }
  }

  // ---------------------------------------------------------------- which members of a group are queued

  /** A member that did not fail and has samples. */
  ghost predicate Good(r: Rollout) { !r.hasError && r.samples != [] }

  ghost function GoodPlaces(group: seq<Rollout>): set<nat> { set i: nat | i < |group| && Good(group[i]) }

  /** A group-scored group needs every member, a privileged one as many as its size, and any group the
      algorithm's minimum. */
  ghost predicate Admits(spec: EnvSpec, group: seq<Rollout>) {
    && (spec.groupScoring ==> forall i | 0 <= i < |group| :: Good(group[i]))
    && (spec.privileged ==> |GoodPlaces(group)| == spec.groupSize)
    && |GoodPlaces(group)| >= spec.minimumGroup
  }

  /** `share` is what a complete group queues: its good, unfiltered members in order, if it is admitted. */
  ghost predicate Shares(cfg: Config, spec: EnvSpec, group: seq<Rollout>, share: seq<Rollout>) {
    exists at: seq<nat> :: Picks(group, at, share) && Chosen(cfg, spec, group, at)
  }

  ghost predicate Chosen(cfg: Config, spec: EnvSpec, group: seq<Rollout>, at: seq<nat>) {
    forall i: nat | i < |group| :: i in at <==> Admits(spec, group) && Good(group[i]) && !cfg.pre(group[i])
  }

  lemma SurvivorCount(group: seq<Rollout>, at: seq<nat>, survivors: seq<Rollout>)
    requires Picks(group, at, survivors) && forall i: nat | i < |group| :: i in at <==> Good(group[i])
    ensures |survivors| == |GoodPlaces(group)|
  {
    PlacesCount(at);
    assert forall i | i in at :: i < |group|;
    assert GoodPlaces(group) == PlaceSet(at);
  }

  lemma {:induction false} AllSurvive(group: seq<Rollout>)
    ensures |Keep(group, Usable)| == |group| <==> forall i | 0 <= i < |group| :: Good(group[i])
  {
    if group != [] {
      var n := |group| - 1;
      AllSurvive(group[..n]);
      assert group == group[..n] + [group[n]];
    }
  }

  /** The places of the good, unfiltered members. */
  lemma SurvivorPlaces(cfg: Config, group: seq<Rollout>) returns (at: seq<nat>)
    ensures Picks(group, at, Drop(Keep(group, Usable), cfg.pre))
    ensures forall i: nat | i < |group| :: i in at <==> Good(group[i]) && !cfg.pre(group[i])
    ensures |Keep(group, Usable)| == |GoodPlaces(group)|
  {
    var good := KeepPicks(group, Usable);
    var survivors := Keep(group, Usable);
    SurvivorCount(group, good, survivors);
    var kept := DropPicks(survivors, cfg.pre);
    at := PicksTwice(group, good, survivors, kept, Drop(survivors, cfg.pre));
    hide Keep, Drop, GoodPlaces;
    forall i: nat | i < |group| ensures i in at <==> Good(group[i]) && !cfg.pre(group[i]) {
      if i in good {
        var k :| 0 <= k < |good| && good[k] == i;
        assert survivors[k] == group[i];
        forall j: nat | j < |good| && good[j] == i ensures j == k {}
      }
    }
  }

  lemma {:induction false} AdmitsIff(cfg: Config, spec: EnvSpec, group: seq<Rollout>)
    requires |Keep(group, Usable)| == |GoodPlaces(group)|
    ensures Accept(cfg, spec, group) == if Admits(spec, group) then Drop(Keep(group, Usable), cfg.pre) else []
  {
    AllSurvive(group);
    hide Good, GoodPlaces, Usable;
    var survivors := Keep(group, Usable);
    if survivors == [] { assert Drop(survivors, cfg.pre) == []; }
    hide Keep, Drop;
  }

  lemma NoneChosen(cfg: Config, spec: EnvSpec, group: seq<Rollout>)
    requires !Admits(spec, group)
    ensures Picks(group, [], []) && Chosen(cfg, spec, group, [])
  {
  }

  /** What `process_group` queues of a complete group: exactly its share. */
  lemma AcceptExact(cfg: Config, spec: EnvSpec, group: seq<Rollout>)
    ensures Shares(cfg, spec, group, Accept(cfg, spec, group))
  {
    var at := SurvivorPlaces(cfg, group);
    AdmitsIff(cfg, spec, group);
    hide Accept, Keep, Drop, Admits, Good;
    if Admits(spec, group) {
      assert Chosen(cfg, spec, group, at);
    } else {
      NoneChosen(cfg, spec, group);
    }
  }

  // ---------------------------------------------------------------- over whole runs

  lemma AddAccepts(cfg: Config, s: State, r: Rollout)
    requires r.env in cfg.envs && GroupWith(s, r)[0].env in cfg.envs
    ensures Add(cfg, s, r).0.accepted
         == s.accepted + (if Completes(cfg, s, r) then Accept(cfg, cfg.envs[GroupWith(s, r)[0].env], GroupWith(s, r)) else [])
  {
    assert s.accepted + [] == s.accepted;
    hide Accept, Settled, SamplesOf, VersionMin, Drop, Cut, GroupWith;
  }

  /** The share of arrival `i`: its whole group's, when the arrival brings the group to its size. */
  ghost predicate ShareOf(tc: Config, store: seq<Dispatch.Group>, ts: seq<Rollout>, i: nat, share: seq<Rollout>)
    requires i < |ts|
  {
    var g := ts[i].gid;
    g < |store| && ts[i].env in tc.envs &&
    if CountGid(Gids(ts, GidOf)[..i + 1], g) == store[g].target then Shares(tc, tc.envs[ts[i].env], Members(ts, GidOf, g), share)
    else share == []
  }

  lemma {:induction false} AfterUnfold(tc: Config, rs: seq<Rollout>)
    requires tc.Valid() && Arrivals(tc, rs) && rs != []
    ensures var n := |rs| - 1;
            && Arrivals(tc, rs[..n]) && rs[n].env in tc.envs
            && var s := TrainSinkRuns.After(tc, rs[..n]);
               && TrainSinkRuns.Inv(tc, s) && Legal(tc, s, rs[n]) && GroupWith(s, rs[n])[0].env in tc.envs
               && TrainSinkRuns.After(tc, rs) == Add(tc, s, rs[n]).0
  {
    ArrivalsPrefix(tc, rs);
    var n := |rs| - 1;
    AddKeeps(tc, TrainSinkRuns.After(tc, rs[..n]), rs[n]);
    hide TrainSinkRuns.Inv, Bounded, Add, GroupWith;
  }

  /** Arrival `i`, taken by the sink; what it gathers comes from its own environment. */
  lemma {:induction false} TakesArrival(tc: Config, ts: seq<Rollout>, i: nat)
    requires tc.Valid() && Arrivals(tc, ts) && i < |ts|
    ensures Arrivals(tc, ts[..i]) && Arrivals(tc, ts[..i + 1]) && ts[i].env in tc.envs
    ensures var s := TrainSinkRuns.After(tc, ts[..i]);
            && TrainSinkRuns.Inv(tc, s) && GroupWith(s, ts[i])[0].env == ts[i].env
            && TrainSinkRuns.After(tc, ts[..i + 1]) == Add(tc, s, ts[i]).0
  {
    var front := ts[..i + 1];
    assert front != [] && front[..|front| - 1] == ts[..i] && front[|front| - 1] == ts[i];
    hide *;
    ArrivalsTake(tc, ts, i);
    ArrivalsTake(tc, ts, i + 1);
    AfterUnfold(tc, front);
    GatheredEnv(tc, TrainSinkRuns.After(tc, ts[..i]), ts[i]);
  }

  /** The members gathered come from the arrival's own environment. */
  lemma GatheredEnv(tc: Config, s: State, r: Rollout)
    requires tc.Valid() && TrainSinkRuns.Inv(tc, s) && Legal(tc, s, r)
    ensures GroupWith(s, r)[0].env == r.env
  {
    GroupWithOk(tc, s, r);
  }

  lemma {:induction false} ArrivalShare(tc: Config, store: seq<Dispatch.Group>, ts: seq<Rollout>, i: nat) returns (share: seq<Rollout>)
    requires tc.Valid() && Fits(tc, store, ts) && i < |ts|
    ensures Arrivals(tc, ts[..i]) && Arrivals(tc, ts[..i + 1])
    ensures TrainSinkRuns.After(tc, ts[..i + 1]).accepted == TrainSinkRuns.After(tc, ts[..i]).accepted + share
    ensures ShareOf(tc, store, ts, i, share)
  {
    assert Arrivals(tc, ts);
    hide *;
    TakesArrival(tc, ts, i);
    FinalizesAt(tc, store, ts, i);
    var s := TrainSinkRuns.After(tc, ts[..i]);
    AddAccepts(tc, s, ts[i]);
    AcceptExact(tc, tc.envs[ts[i].env], GroupWith(s, ts[i]));
    share := if Completes(tc, s, ts[i]) then Accept(tc, tc.envs[ts[i].env], GroupWith(s, ts[i])) else [];
    FinalizesIs(tc, ts, i);
    ShareIs(tc, store, ts, i, share);
  }

  lemma {:induction false} FinalizesIs(tc: Config, ts: seq<Rollout>, i: nat)
    requires tc.Valid() && i < |ts| && Arrivals(tc, ts[..i]) && ts[i].env in tc.envs
    ensures Finalizes(tc, ts, i) == Completes(tc, TrainSinkRuns.After(tc, ts[..i]), ts[i])
    ensures Gathers(tc, ts, i) == GroupWith(TrainSinkRuns.After(tc, ts[..i]), ts[i])
  {
    hide TrainSinkRuns.After, Completes, GroupWith;
  }

  lemma {:induction false} ShareIs(tc: Config, store: seq<Dispatch.Group>, ts: seq<Rollout>, i: nat, share: seq<Rollout>)
    requires i < |ts| && ts[i].gid < |store| && ts[i].env in tc.envs
    requires if Nth(Gids(ts, GidOf), i, store[ts[i].gid].target) then Shares(tc, tc.envs[ts[i].env], Members(ts, GidOf, ts[i].gid), share)
             else share == []
    ensures ShareOf(tc, store, ts, i, share)
  {
    hide Shares, Members, CountGid;
  }

  /** The acceptance sequence of a run is fixed by the arrivals: each complete group contributes its share, where
      its last member arrives, and nothing else is ever queued. */
  lemma {:induction false} AcceptedShares(tc: Config, store: seq<Dispatch.Group>, ts: seq<Rollout>, n: nat)
    returns (shares: seq<seq<Rollout>>, cuts: seq<nat>)
    requires tc.Valid() && Fits(tc, store, ts) && n <= |ts|
    ensures Arrivals(tc, ts[..n]) && |shares| == n && Joined(TrainSinkRuns.After(tc, ts[..n]).accepted, shares, cuts)
    ensures AllShares(tc, store, ts, shares)
  {
    hide *;
    FitsArrives(tc, store, ts);
    if n == 0 {
      NoneAccepted(tc, ts);
      shares, cuts := [], [0];
    } else {
      shares, cuts := AcceptedShares(tc, store, ts, n - 1);
      var share := ArrivalShare(tc, store, ts, n - 1);
      var a := TrainSinkRuns.After(tc, ts[..n - 1]).accepted;
      JoinedNext(a, shares, cuts, share);
      SharesNext(tc, store, ts, shares, share);
      shares, cuts := shares + [share], cuts + [|a| + |share|];
    }
  }

  ghost predicate AllShares(tc: Config, store: seq<Dispatch.Group>, ts: seq<Rollout>, shares: seq<seq<Rollout>>) {
    |shares| <= |ts| && forall i: nat | i < |shares| :: ShareOf(tc, store, ts, i, shares[i])
  }

  lemma SharesNext(tc: Config, store: seq<Dispatch.Group>, ts: seq<Rollout>, shares: seq<seq<Rollout>>, share: seq<Rollout>)
    requires AllShares(tc, store, ts, shares) && |shares| < |ts| && ShareOf(tc, store, ts, |shares|, share)
    ensures AllShares(tc, store, ts, shares + [share])
  {
    hide ShareOf;
  }

  lemma FitsArrives(tc: Config, store: seq<Dispatch.Group>, ts: seq<Rollout>)
    requires Fits(tc, store, ts)
    ensures Arrivals(tc, ts)
  {
  }

  lemma {:induction false} NoneAccepted(tc: Config, ts: seq<Rollout>)
    requires tc.Valid() && Arrivals(tc, ts)
    ensures Arrivals(tc, ts[..0]) && TrainSinkRuns.After(tc, ts[..0]).accepted == [] && Joined<Rollout>([], [], [0])
    ensures forall store :: AllShares(tc, store, ts, [])
  {
    ArrivalsTake(tc, ts, 0);
    assert ts[..0] == [];
  }

  lemma ShareMember(tc: Config, spec: EnvSpec, group: seq<Rollout>, share: seq<Rollout>, x: Rollout)
    requires Shares(tc, spec, group, share)
    ensures x in share <==> x in group && Admits(spec, group) && Good(x) && !tc.pre(x)
  {
    var at: seq<nat> :| Picks(group, at, share) && Chosen(tc, spec, group, at);
    hide Admits, Good;
    if x in share {
      var k :| 0 <= k < |share| && share[k] == x;
      assert at[k] in at;
    }
    if x in group && Admits(spec, group) && Good(x) && !tc.pre(x) {
      var i :| 0 <= i < |group| && group[i] == x;
      var k :| 0 <= k < |at| && at[k] == i;
    }
  }

  /** Which arrivals are ever queued for training: exactly the good, unfiltered members of complete groups that
      are admitted. */
  ghost predicate Deserves(tc: Config, store: seq<Dispatch.Group>, ts: seq<Rollout>, x: Rollout) {
    && x.gid < |store| && x.env in tc.envs && CountGid(Gids(ts, GidOf), x.gid) == store[x.gid].target
    && Admits(tc.envs[x.env], Members(ts, GidOf, x.gid)) && Good(x) && !tc.pre(x)
  }

  lemma ShareDeserves(tc: Config, store: seq<Dispatch.Group>, ts: seq<Rollout>, i: nat, share: seq<Rollout>, x: Rollout)
    requires Fits(tc, store, ts) && i < |ts| && ShareOf(tc, store, ts, i, share) && x in share
    ensures Deserves(tc, store, ts, x)
  {
    var g := ts[i].gid;
    assert SameEnv(ts) && ts[i] in ts;
    ShareMember(tc, tc.envs[ts[i].env], Members(ts, GidOf, g), share, x);
    CountGidMono(Gids(ts, GidOf), g, i + 1);
    assert CountGid(Gids(ts, GidOf), g) <= store[g].target;
    hide Admits, Good, Shares, Members, Gids, CountGid;
  }

  lemma {:induction false} MembersHave(ts: seq<Rollout>, x: Rollout)
    requires x in ts
    ensures x in Members(ts, GidOf, x.gid)
  {
    if ts[|ts| - 1] != x {
      assert x in ts[..|ts| - 1];
      MembersHave(ts[..|ts| - 1], x);
    }
  }

  lemma DeservesShare(tc: Config, store: seq<Dispatch.Group>, ts: seq<Rollout>, shares: seq<seq<Rollout>>, x: Rollout) returns (i: nat)
    requires Fits(tc, store, ts) && x in ts && Deserves(tc, store, ts, x)
    requires |shares| == |ts| && AllShares(tc, store, ts, shares)
    ensures i < |shares| && x in shares[i]
  {
    var g := x.gid;
    MembersHave(ts, x);
    assert SameEnv(ts) && 1 <= store[g].target;
    i := NthExists(Gids(ts, GidOf), g, store[g].target);
    assert ts[i] in ts && ts[i].gid == g && ShareOf(tc, store, ts, i, shares[i]);
    hide Admits, Good, Shares, Members, Gids, CountGid;
    ShareMember(tc, tc.envs[x.env], Members(ts, GidOf, g), shares[i], x);
  }

  lemma {:induction false} QueuedIff(tc: Config, store: seq<Dispatch.Group>, ts: seq<Rollout>, x: Rollout)
    requires tc.Valid() && Fits(tc, store, ts) && x in ts
    ensures Arrivals(tc, ts) && (x in TrainSinkRuns.After(tc, ts).accepted <==> Deserves(tc, store, ts, x))
  {
    hide *;
    FitsArrives(tc, store, ts);
    var shares, cuts := AcceptedShares(tc, store, ts, |ts|);
    WholeTake(ts);
    JoinedMembers(TrainSinkRuns.After(tc, ts).accepted, shares, cuts, x);
    if x in TrainSinkRuns.After(tc, ts).accepted {
      var i: nat :| i < |shares| && x in shares[i];
      ShareIn(tc, store, ts, shares, i);
      ShareDeserves(tc, store, ts, i, shares[i], x);
    }
    if Deserves(tc, store, ts, x) { var i := DeservesShare(tc, store, ts, shares, x); }
  }

  lemma WholeTake<T>(xs: seq<T>)
    ensures xs[..|xs|] == xs
  {
  }

  lemma ShareIn(tc: Config, store: seq<Dispatch.Group>, ts: seq<Rollout>, shares: seq<seq<Rollout>>, i: nat)
    requires AllShares(tc, store, ts, shares) && i < |shares|
    ensures i < |ts| && ShareOf(tc, store, ts, i, shares[i])
  {
  }

  // ---------------------------------------------------------------- what an arrival returns

  /** Still eligible for a future batch: queued, or in a group that is filling. */
  ghost predicate Held(s: State, x: Rollout) {
    || (exists y :: y in s.pendingBatch && y.id == x.id)
    || (exists g, y :: g in s.pendingGroups && y in s.pendingGroups[g] && y.id == x.id)
  }

  /** A window is parted in order: what is held stays, the rest is returned. */
  ghost predicate Parted(s: State, window: seq<Rollout>, settled: seq<Rollout>, rest: seq<Rollout>) {
    && (exists at: seq<nat> :: Picks(window, at, settled) && forall i: nat | i < |window| :: i in at <==> !Held(s, window[i]))
    && (exists at: seq<nat> :: Picks(window, at, rest) && forall i: nat | i < |window| :: i in at <==> Held(s, window[i]))
  }

  lemma RetainedIff(s: State, x: Rollout)
    ensures x.id in RetainedIds(s) <==> Held(s, x)
  {
  }

  lemma {:induction false} OutsidePicks(rs: seq<Rollout>, ids: set<nat>) returns (at: seq<nat>)
    ensures Picks(rs, at, Outside(rs, ids)) && forall i: nat | i < |rs| :: i in at <==> rs[i].id !in ids
  {
    if rs == [] {
      at := [];
    } else {
      var n := |rs| - 1;
      at := OutsidePicks(rs[..n], ids);
      PicksNext(rs[..n], at, Outside(rs[..n], ids), rs[n]);
      assert rs == rs[..n] + [rs[n]];
      if rs[n].id !in ids { at := at + [n]; }
    }
  }

  lemma {:induction false} InsidePicks(rs: seq<Rollout>, ids: set<nat>) returns (at: seq<nat>)
    ensures Picks(rs, at, Inside(rs, ids)) && forall i: nat | i < |rs| :: i in at <==> rs[i].id in ids
  {
    if rs == [] {
      at := [];
    } else {
      var n := |rs| - 1;
      at := InsidePicks(rs[..n], ids);
      PicksNext(rs[..n], at, Inside(rs[..n], ids), rs[n]);
      assert rs == rs[..n] + [rs[n]];
      if rs[n].id in ids { at := at + [n]; }
    }
  }

  lemma SettledParts(s: State)
    ensures Parted(s, s.pendingRollouts, Settled(s), Unsettled(s))
  {
    var a := OutsidePicks(s.pendingRollouts, RetainedIds(s));
    var b := InsidePicks(s.pendingRollouts, RetainedIds(s));
    hide Outside, Inside, RetainedIds, Held;
    forall i: nat | i < |s.pendingRollouts| ensures s.pendingRollouts[i].id in RetainedIds(s) <==> Held(s, s.pendingRollouts[i]) {
      RetainedIff(s, s.pendingRollouts[i]);
    }
    assert Picks(s.pendingRollouts, a, Settled(s)) && Picks(s.pendingRollouts, b, Unsettled(s));
  }

  lemma {:induction false} NoneOutside(rs: seq<Rollout>, ids: set<nat>)
    requires Outside(rs, ids) == []
    ensures Inside(rs, ids) == rs
  {
    if rs != [] { NoneOutside(rs[..|rs| - 1], ids); }
  }

  /** The part of a window that is no longer eligible for a batch. */
  ghost function Loose(s: State, window: seq<Rollout>): set<nat> { set i: nat | i < |window| && !Held(s, window[i]) }

  lemma LooseCount(s: State)
    ensures |Settled(s)| == |Loose(s, s.pendingRollouts)|
  {
    var at := OutsidePicks(s.pendingRollouts, RetainedIds(s));
    hide Outside, RetainedIds, Held;
    forall i: nat | i < |s.pendingRollouts| ensures s.pendingRollouts[i].id in RetainedIds(s) <==> Held(s, s.pendingRollouts[i]) {
      RetainedIff(s, s.pendingRollouts[i]);
    }
    PlacesCount(at);
    assert forall i | i in at :: i < |s.pendingRollouts|;
    assert Loose(s, s.pendingRollouts) == PlaceSet(at);
  }

  /** Popping what is settled parts the window, or leaves it when too little of it is settled. */
  lemma PopParts(s: State, minimum: nat)
    ensures var (t, settled) := PopSettled(s, minimum);
            && t == s.(pendingRollouts := t.pendingRollouts, windows := t.windows)
            && (if |Loose(s, s.pendingRollouts)| >= minimum then Parted(s, s.pendingRollouts, settled, t.pendingRollouts)
                                                               && |settled| == |Loose(s, s.pendingRollouts)|
                else settled == [] && t.pendingRollouts == s.pendingRollouts)
            && (minimum <= 1 ==> Parted(s, s.pendingRollouts, settled, t.pendingRollouts))
  {
    LooseCount(s);
    SettledParts(s);
    if Settled(s) == [] { NoneOutside(s.pendingRollouts, RetainedIds(s)); }
    hide Parted, Loose, Outside, Inside, RetainedIds;
  }

  /** Whether a rollout is held looks at the queue and the groups only. */
  lemma HeldFields(s: State, t: State, window: seq<Rollout>, settled: seq<Rollout>, rest: seq<Rollout>)
    requires s.pendingBatch == t.pendingBatch && s.pendingGroups == t.pendingGroups
    ensures Parted(s, window, settled, rest) ==> Parted(t, window, settled, rest)
    ensures Loose(s, window) == Loose(t, window)
  {
    forall x ensures Held(s, x) == Held(t, x) {}
    hide Held;
  }

  /** A batch that ships takes the whole window; one without samples takes what is settled. */
  ghost predicate Windows(u: State, b: Batch, window: seq<Rollout>) {
    if b.samples != [] then b.rollouts == window && u.pendingRollouts == []
    else Parted(u, window, b.rollouts, u.pendingRollouts)
  }

  lemma ReadyOutcome(cfg: Config, s: State)
    ensures var (u, b) := ProcessBatch(cfg, s);
            && b.cohort + u.pendingBatch == s.pendingBatch && u.accepted == s.accepted && u.pendingGroups == s.pendingGroups
            && Windows(u, b, s.pendingRollouts)
  {
    hide *;
    var (u, b) := ProcessBatch(cfg, s);
    var t := PopCohort(cfg, s);
    PopParts(t, 1);
    ReadyCases(cfg, s);
    HeldFields(t, u, s.pendingRollouts, b.rollouts, u.pendingRollouts);
    WindowsCases(u, b, s.pendingRollouts);
  }

  lemma ReadyCases(cfg: Config, s: State)
    ensures var ((u, b), t) := (ProcessBatch(cfg, s), PopCohort(cfg, s));
            && b.cohort + u.pendingBatch == s.pendingBatch && u.accepted == s.accepted && t.pendingRollouts == s.pendingRollouts
            && u.pendingGroups == t.pendingGroups == s.pendingGroups && u.pendingBatch == t.pendingBatch
            && (if b.samples != [] then b.rollouts == s.pendingRollouts && u.pendingRollouts == []
                else b.rollouts == PopSettled(t, 1).1 && u.pendingRollouts == PopSettled(t, 1).0.pendingRollouts)
  {
    hide TokenSum, SamplesOf, VersionMin, Drop, Settled, Unsettled, Cut;
  }

  lemma WindowsCases(u: State, b: Batch, window: seq<Rollout>)
    requires if b.samples != [] then b.rollouts == window && u.pendingRollouts == [] else Parted(u, window, b.rollouts, u.pendingRollouts)
    ensures Windows(u, b, window)
  {
    hide Parted;
  }

  lemma FlushOutcome(cfg: Config, s: State)
    requires cfg.Valid()
    ensures var (u, b) := Flush(cfg, s);
            && u.pendingBatch == s.pendingBatch && u.accepted == s.accepted && u.pendingGroups == s.pendingGroups
            && (b.Some? <==> |Loose(u, s.pendingRollouts)| >= cfg.limit)
            && (b.Some? ==> b.value.samples == [] && b.value.cohort == [] && Windows(u, b.value, s.pendingRollouts)
                            && b.value.madeProgress == (Queued(cfg, s) > s.lastEmpty))
            && (b.None? ==> u.pendingRollouts == s.pendingRollouts)
  {
    var (u, b) := Flush(cfg, s);
    PopParts(s, cfg.limit);
    HeldFields(s, u, s.pendingRollouts, if b.Some? then b.value.rollouts else [], u.pendingRollouts);
    hide Parted, Loose, Settled, Unsettled;
  }

  /** What the queue holds once an arrival's group, if it completes, has been queued. */
  ghost function Load(cfg: Config, s: State, share: seq<Rollout>): int {
    if cfg.target.Rollouts? then |s.pendingBatch + share| else s.pendingTokens + TokenSum(share)
  }

  /** When an arrival returns a batch, and what becomes of the queue and the window: a cohort leaves exactly when the
      queue reaches the target; short of that, settled arrivals are flushed exactly when the arrival completes its
      group and they reach the limit. */
  lemma AddOutcome(cfg: Config, s: State, r: Rollout)
    requires cfg.Valid() && r.env in cfg.envs && GroupWith(s, r)[0].env in cfg.envs
    ensures var (u, b) := Add(cfg, s, r);
            var window := s.pendingRollouts + [r];
            && |s.accepted| <= |u.accepted| && u.accepted[..|s.accepted|] == s.accepted
            && var share := u.accepted[|s.accepted|..];
               if Load(cfg, s, share) >= cfg.target.n then
                 b.Some? && b.value.cohort + u.pendingBatch == s.pendingBatch + share && Windows(u, b.value, window)
                 && ShipsAll(cfg, b.value)
               else
                 && u.pendingBatch == s.pendingBatch + share
                 && (b.Some? <==> |GroupAt(s.pendingGroups, r.gid)| + 1 >= cfg.envs[r.env].groupSize
                                  && |Loose(u, window)| >= cfg.limit)
                 && (b.Some? ==> b.value.cohort == [] && b.value.samples == [] && Windows(u, b.value, window))
                 && (b.None? ==> u.pendingRollouts == window)
  {
    var t := Arrive(cfg, s, r);
    Arrived(cfg, s, r);
    hide *;
    if Ready(cfg, t) { ReadyOutcome(cfg, t); CutBatch(cfg, t); } else if Completes(cfg, s, r) { FlushOutcome(cfg, t); }
    AddCases(cfg, s, r);
  }

  lemma Arrived(cfg: Config, s: State, r: Rollout)
    requires r.env in cfg.envs && GroupWith(s, r)[0].env in cfg.envs
    ensures var t := Arrive(cfg, s, r);
            && |s.accepted| <= |t.accepted| && t.accepted[..|s.accepted|] == s.accepted
            && var share := t.accepted[|s.accepted|..];
               t.pendingBatch == s.pendingBatch + share && t.pendingRollouts == s.pendingRollouts + [r]
               && (Ready(cfg, t) <==> Load(cfg, s, share) >= cfg.target.n)
    ensures Completes(cfg, s, r) <==> |GroupAt(s.pendingGroups, r.gid)| + 1 >= cfg.envs[r.env].groupSize
  {
    var t := Arrive(cfg, s, r);
    assert s.pendingBatch + [] == s.pendingBatch && TokenSum([]) == 0;
    hide Accept, TokenSum;
  }

  lemma AddCases(cfg: Config, s: State, r: Rollout)
    requires r.env in cfg.envs && GroupWith(s, r)[0].env in cfg.envs
    ensures var t := Arrive(cfg, s, r);
            Add(cfg, s, r) == if Ready(cfg, t) then (ProcessBatch(cfg, t).0, Some(ProcessBatch(cfg, t).1))
                              else if Completes(cfg, s, r) then Flush(cfg, t) else (t, None)
  {
    hide Arrive, ProcessBatch, Flush, Ready, Completes, GroupWith;
  }

  /** Whether a sample-free batch made progress: the queue holds more than when the last batch was returned, which
      is what the sink remembers. */
  lemma ProgressExact(cfg: Config, s: State, r: Rollout)
    requires cfg.Valid() && r.env in cfg.envs && GroupWith(s, r)[0].env in cfg.envs
    ensures var (u, b) := Add(cfg, s, r);
            && |s.accepted| <= |u.accepted|
            && var load := Load(cfg, s, u.accepted[|s.accepted|..]);
               && (b.None? ==> u.lastEmpty == s.lastEmpty)
               && (b.Some? ==> u.lastEmpty == Load(cfg, u, []))
               && (b.Some? ==> (b.value.madeProgress <==> load < cfg.target.n && load > s.lastEmpty))
  {
    var t := Arrive(cfg, s, r);
    Arrived(cfg, s, r);
    ArriveLoad(cfg, s, r);
    hide *;
    if Ready(cfg, t) { ReadyProgress(cfg, t); } else if Completes(cfg, s, r) { FlushProgress(cfg, t); }
    AddCases(cfg, s, r);
  }

  lemma ArriveLoad(cfg: Config, s: State, r: Rollout)
    requires r.env in cfg.envs && GroupWith(s, r)[0].env in cfg.envs
    ensures var t := Arrive(cfg, s, r);
            |s.accepted| <= |t.accepted| && Queued(cfg, t) == Load(cfg, s, t.accepted[|s.accepted|..]) && t.lastEmpty == s.lastEmpty
  {
    assert s.pendingBatch + [] == s.pendingBatch && TokenSum([]) == 0;
    hide Accept, TokenSum;
  }

  lemma QueuedLoad(cfg: Config, u: State)
    ensures Queued(cfg, u) == Load(cfg, u, [])
  {
    assert u.pendingBatch + [] == u.pendingBatch;
  }

  lemma ReadyProgress(cfg: Config, s: State)
    ensures var (u, b) := ProcessBatch(cfg, s); u.lastEmpty == Load(cfg, u, []) && !b.madeProgress && u.accepted == s.accepted
  {
    QueuedLoad(cfg, ProcessBatch(cfg, s).0);
    hide TokenSum, SamplesOf, VersionMin, Drop, Settled, Unsettled, Cut, Load;
  }

  lemma FlushProgress(cfg: Config, s: State)
    ensures var (u, b) := Flush(cfg, s);
            && u.accepted == s.accepted && (b.None? ==> u.lastEmpty == s.lastEmpty)
            && (b.Some? ==> u.lastEmpty == Load(cfg, u, []) && (b.value.madeProgress <==> Queued(cfg, s) > s.lastEmpty))
  {
    QueuedLoad(cfg, Flush(cfg, s).0);
    hide Settled, Unsettled, Load;
  }

  // ---------------------------------------------------------------- what ships

  /** The samples of a list, one rollout after the other. */
  lemma {:induction false} SamplesJoin(rs: seq<Rollout>) returns (parts: seq<seq<nat>>, cuts: seq<nat>)
    ensures |parts| == |rs| && (forall i | 0 <= i < |rs| :: parts[i] == rs[i].samples) && Joined(SamplesOf(rs), parts, cuts)
  {
    if rs == [] {
      parts, cuts := [], [0];
    } else {
      var n := |rs| - 1;
      parts, cuts := SamplesJoin(rs[..n]);
      JoinedNext(SamplesOf(rs[..n]), parts, cuts, rs[n].samples);
      parts, cuts := parts + [rs[n].samples], cuts + [|SamplesOf(rs[..n])| + |rs[n].samples|];
    }
  }

  /** The least value version of a list, none when no member carries one. */
  ghost predicate Least(rs: seq<Rollout>, v: Option<int>) {
    if v.None? then forall r | r in rs :: r.valueVersion.None?
    else (exists r :: r in rs && r.valueVersion == v) && forall r | r in rs && r.valueVersion.Some? :: v.value <= r.valueVersion.value
  }

  lemma {:induction false} VersionLeast(rs: seq<Rollout>)
    ensures Least(rs, VersionMin(rs))
  {
    if rs != [] {
      var n := |rs| - 1;
      VersionLeast(rs[..n]);
      assert rs == rs[..n] + [rs[n]] && rs[n] in rs;
      var v := VersionMin(rs[..n]);
      if v.Some? {
        var r :| r in rs[..n] && r.valueVersion == v;
        assert r in rs;
      }
    }
  }

  /** A batch's samples are those of its cohort's unfiltered members, all of them, in order, and its value version is
      the least among those. */
  ghost predicate ShipsAll(sc: Config, b: Batch) {
    exists at: seq<nat>, shipped: seq<Rollout>, parts: seq<seq<nat>>, cuts: seq<nat> ::
      && Picks(b.cohort, at, shipped) && (forall i: nat | i < |b.cohort| :: i in at <==> !sc.post(b.cohort[i]))
      && |parts| == |shipped| && (forall i | 0 <= i < |parts| :: parts[i] == shipped[i].samples)
      && Joined(b.samples, parts, cuts) && Least(shipped, b.versionMin)
  }

  lemma CutShipsAll(sc: Config, b: Batch)
    requires b.samples == SamplesOf(Drop(b.cohort, sc.post)) && b.versionMin == VersionMin(Drop(b.cohort, sc.post))
    ensures ShipsAll(sc, b)
  {
    var at := DropPicks(b.cohort, sc.post);
    var parts, cuts := SamplesJoin(Drop(b.cohort, sc.post));
    VersionLeast(Drop(b.cohort, sc.post));
    hide Drop, SamplesOf, Joined, Picks, VersionMin, Least;
  }

  lemma CleanShipsAll(sc: Config, oc: Settings, b: Batch)
    requires CleanBatch(sc, oc, b)
    ensures ShipsAll(sc, b)
  {
    CutShipsAll(sc, b);
    hide ShipsAll, Drop, SamplesOf, VersionMin;
  }

  /** So does every batch cut from the queue, shipped later or not. */
  lemma CutBatch(sc: Config, s: State)
    ensures ShipsAll(sc, ProcessBatch(sc, s).1)
  {
    hide Drop, SamplesOf, VersionMin, ShipsAll, Settled, Unsettled, Cut, TokenSum;
    CutShipsAll(sc, ProcessBatch(sc, s).1);
  }

  /** Over every run, each shipped batch ships every sample of every unfiltered member of its cohort, in order. */
  lemma {:induction false} ShippedSamples(sc: Config, oc: Settings, start: int, rs: seq<Rollout>, live: seq<int>)
    requires sc.Valid() && Arrivals(sc, rs) && |live| == |rs|
    ensures var sent := Drive(sc, oc, start, rs, live).orch.sent; forall k | 0 <= k < |sent| :: ShipsAll(sc, sent[k].batch)
  {
    SentClean(sc, oc, start, rs, live);
    var sent := Drive(sc, oc, start, rs, live).orch.sent;
    hide Drive, Arrivals, CleanBatch, ShipsAll;
    forall k | 0 <= k < |sent| ensures ShipsAll(sc, sent[k].batch) { CleanShipsAll(sc, oc, sent[k].batch); }
  }
}
