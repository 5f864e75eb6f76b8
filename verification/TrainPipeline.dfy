/** From the dispatcher's queue through the train sink's group barrier. */
module TrainPipeline {
  import opened Common
  import Dispatch
  import Invariant = DispatchInvariant
  import Runs = DispatchRuns
  import EvalPipeline
  import opened Grouping
  import opened Pipeline
  import opened TrainSinkSpec
  import opened TrainSinkRuns

  type Gid = Dispatch.Gid

  /** What scoring and materialization made of an arrival. */
  datatype Work = Work(hasError: bool, samples: seq<nat>, tokens: nat, valueVersion: Option<int>)

  /** The train arrivals as the sink sees them: numbered, with their group and environment. */
  function Dressed(rs: seq<Dispatch.Rollout>, ws: seq<Work>): (ts: seq<Rollout>)
    requires |rs| == |ws|
    ensures |ts| == |rs|
    ensures forall i | 0 <= i < |rs| ::
      ts[i] == Rollout(i, rs[i].gid, rs[i].env, ws[i].hasError, ws[i].samples, ws[i].tokens, ws[i].valueVersion)
  {
    seq(|rs|, i requires 0 <= i < |rs| =>
      Rollout(i, rs[i].gid, rs[i].env, ws[i].hasError, ws[i].samples, ws[i].tokens, ws[i].valueVersion))
  }

  /** The sink's environments are the dispatcher's train environments, with the same group sizes. */
  ghost predicate SameEnvs(cfg: Dispatch.Config, tc: Config) {
    forall e | e in cfg.train :: e in tc.envs && tc.envs[e].groupSize == cfg.train[e].groupSize
  }

  // ---------------------------------------------------------------- one group's arrivals

  function GidOf(t: Rollout): Gid { t.gid }

  // ---------------------------------------------------------------- what the sink may rely on

  ghost predicate Fits(tc: Config, store: seq<Dispatch.Group>, ts: seq<Rollout>) {
    && Arrivals(tc, ts)
    && (forall i | 0 <= i < |ts| :: ts[i].gid < |store| && store[ts[i].gid].target == tc.envs[ts[i].env].groupSize)
    && (forall g: Gid | g < |store| :: 1 <= store[g].target && CountGid(Gids(ts, GidOf), g) <= store[g].target)
  }

  lemma FitsPrefix(tc: Config, store: seq<Dispatch.Group>, ts: seq<Rollout>)
    requires Fits(tc, store, ts) && ts != []
    ensures Fits(tc, store, ts[..|ts| - 1])
  {
    var n := |ts| - 1;
    ArrivalsPrefix(tc, ts);
    forall g: Gid | g < |store| ensures CountGid(Gids(ts[..n], GidOf), g) <= store[g].target {
      assert Gids(ts, GidOf)[..n] == Gids(ts[..n], GidOf);
      CountGidMono(Gids(ts, GidOf), g, n);
    }
  }

  lemma {:induction false} FitsTake(tc: Config, store: seq<Dispatch.Group>, ts: seq<Rollout>, i: nat)
    requires Fits(tc, store, ts) && i <= |ts|
    ensures Fits(tc, store, ts[..i])
    decreases |ts|
  {
    hide Fits;
    if i == |ts| {
      assert ts[..i] == ts;
    } else {
      FitsPrefix(tc, store, ts);
      assert ts[..|ts| - 1][..i] == ts[..i];
      FitsTake(tc, store, ts[..|ts| - 1], i);
    }
  }

  lemma {:induction false} SnocCounts(ts: seq<Rollout>, t: Rollout, g: Gid)
    ensures CountGid(Gids(ts + [t], GidOf), g) == CountGid(Gids(ts, GidOf), g) + (if t.gid == g then 1 else 0)
    ensures Members(ts + [t], GidOf, g) == Members(ts, GidOf, g) + (if t.gid == g then [t] else [])
  {
    MembersSnoc(ts, t, GidOf, g);
    assert Gids(ts + [t], GidOf)[..|ts|] == Gids(ts, GidOf);
  }

  /** Cutting or flushing a batch leaves the filling groups alone. */
  lemma AddGroups(tc: Config, s: State, t: Rollout)
    requires t.env in tc.envs && GroupWith(s, t)[0].env in tc.envs
    ensures Add(tc, s, t).0.pendingGroups ==
      if Completes(tc, s, t) then s.pendingGroups - {t.gid} else s.pendingGroups[t.gid := GroupWith(s, t)]
  {
    hide Accept, Settled, SamplesOf, VersionMin, Drop, Cut, GroupWith;
  }

  lemma JoinAgrees(tc: Config, store: seq<Dispatch.Group>, ts: seq<Rollout>, t: Rollout, s: State, g: Gid)
    requires GroupsAgree(store, ts, GidOf, s.pendingGroups) && t.gid < |store| && g < |store| && t.env in tc.envs
    requires store[t.gid].target == tc.envs[t.env].groupSize && CountGid(Gids(ts, GidOf), t.gid) < store[t.gid].target
    requires GroupWith(s, t)[0].env in tc.envs
    ensures GroupAt(Add(tc, s, t).0.pendingGroups, g) == OpenPart(store, ts + [t], GidOf, g)
  {
    assert GroupAt(s.pendingGroups, g) == OpenPart(store, ts, GidOf, g);
    assert GroupAt(s.pendingGroups, t.gid) == OpenPart(store, ts, GidOf, t.gid);
    hide *;
    AddGroups(tc, s, t);
    SnocCounts(ts, t, g);
    MembersCount(ts, GidOf, t.gid);
    OpenPartIs(store, ts, g);
    OpenPartIs(store, ts, t.gid);
    OpenPartIs(store, ts + [t], g);
    JoinedGroup(tc, s, t, g);
  }

  lemma {:induction false} OpenPartIs(store: seq<Dispatch.Group>, ts: seq<Rollout>, g: Gid)
    requires g < |store|
    ensures OpenPart(store, ts, GidOf, g) == if CountGid(Gids(ts, GidOf), g) < store[g].target then Members(ts, GidOf, g) else []
  {
    MembersCount(ts, GidOf, g);
  }

  lemma JoinedGroup(tc: Config, s: State, t: Rollout, g: Gid)
    requires t.env in tc.envs
    ensures var groups := if Completes(tc, s, t) then s.pendingGroups - {t.gid} else s.pendingGroups[t.gid := GroupWith(s, t)];
            GroupAt(groups, g) == if g != t.gid then GroupAt(s.pendingGroups, g) else if Completes(tc, s, t) then [] else GroupWith(s, t)
    ensures GroupWith(s, t) == GroupAt(s.pendingGroups, t.gid) + [t]
    ensures Completes(tc, s, t) <==> |GroupWith(s, t)| >= tc.envs[t.env].groupSize
  {
  }

  /** The filling groups hold exactly what arrived of them. */
  lemma {:induction false} FeedAgrees(tc: Config, store: seq<Dispatch.Group>, ts: seq<Rollout>)
    requires tc.Valid() && Fits(tc, store, ts)
    ensures GroupsAgree(store, ts, GidOf, TrainSinkRuns.After(tc, ts).pendingGroups)
    decreases |ts|
  {
    if ts == [] {
      assert forall g: Gid :: CountGid([], g) == 0;
    } else {
      var n := |ts| - 1;
      FitsPrefix(tc, store, ts);
      ArrivalsPrefix(tc, ts);
      var s := TrainSinkRuns.After(tc, ts[..n]);
      AddKeeps(tc, s, ts[n]);
      assert TrainSinkRuns.After(tc, ts) == Add(tc, s, ts[n]).0;
      SnocCounts(ts[..n], ts[n], ts[n].gid);
      assert ts == ts[..n] + [ts[n]];
      hide Fits, Arrivals, TrainSinkRuns.Inv, Bounded, Add, TrainSinkRuns.After, Members, CountGid, Gids, GroupWith, OpenPart;
      FeedAgrees(tc, store, ts[..n]);
      forall g: Gid | g < |store| ensures GroupAt(Add(tc, s, ts[n]).0.pendingGroups, g) == OpenPart(store, ts, GidOf, g) {
        JoinAgrees(tc, store, ts[..n], ts[n], s, g);
      }
    }
  }

  // ---------------------------------------------------------------- finalized groups

  /** What the sink gathers when arrival `i` joins its group. */
  ghost function Gathers(tc: Config, ts: seq<Rollout>, i: nat): seq<Rollout>
    requires tc.Valid() && i < |ts| && Arrivals(tc, ts[..i])
  {
    GroupWith(TrainSinkRuns.After(tc, ts[..i]), ts[i])
  }

  ghost predicate Finalizes(tc: Config, ts: seq<Rollout>, i: nat)
    requires tc.Valid() && i < |ts| && Arrivals(tc, ts[..i]) && ts[i].env in tc.envs
  {
    Completes(tc, TrainSinkRuns.After(tc, ts[..i]), ts[i])
  }

  /** Before arrival `i` its group was still filling. */
  lemma FitsAt(tc: Config, store: seq<Dispatch.Group>, ts: seq<Rollout>, i: nat)
    requires tc.Valid() && Fits(tc, store, ts) && i < |ts|
    ensures Arrivals(tc, ts[..i]) && ts[i].env in tc.envs && ts[i].gid < |store|
    ensures store[ts[i].gid].target == tc.envs[ts[i].env].groupSize
    ensures CountGid(Gids(ts, GidOf), ts[i].gid) <= store[ts[i].gid].target
    ensures Fits(tc, store, ts[..i]) && CountGid(Gids(ts[..i], GidOf), ts[i].gid) < store[ts[i].gid].target
    ensures ts[..i + 1] == ts[..i] + [ts[i]]
  {
    FitsTake(tc, store, ts, i);
    FitsTake(tc, store, ts, i + 1);
    assert ts[..i + 1] == ts[..i] + [ts[i]];
    SnocCounts(ts[..i], ts[i], ts[i].gid);
    assert ts[i] in ts;
    assert CountGid(Gids(ts[..i + 1], GidOf), ts[i].gid) <= store[ts[i].gid].target;
    hide Members, CountGid, Gids, TrainSinkRuns.Inv, Bounded;
  }

  lemma GathersIs(tc: Config, store: seq<Dispatch.Group>, ts: seq<Rollout>, i: nat)
    requires tc.Valid() && Fits(tc, store, ts) && i < |ts|
    ensures Arrivals(tc, ts[..i]) && ts[i].env in tc.envs && ts[i].gid < |store|
    ensures store[ts[i].gid].target == tc.envs[ts[i].env].groupSize
    ensures CountGid(Gids(ts, GidOf), ts[i].gid) <= store[ts[i].gid].target
    ensures Gathers(tc, ts, i) == Members(ts[..i + 1], GidOf, ts[i].gid)
  {
    FitsAt(tc, store, ts, i);
    FeedAgrees(tc, store, ts[..i]);
    var groups := TrainSinkRuns.After(tc, ts[..i]).pendingGroups;
    assert GroupAt(groups, ts[i].gid) == OpenPart(store, ts[..i], GidOf, ts[i].gid);
    hide Fits, OpenPart, Members, CountGid, Gids, TrainSinkRuns.After, TrainSinkRuns.Inv, Bounded, GroupsAgree, Arrivals;
    SnocCounts(ts[..i], ts[i], ts[i].gid);
    OpenPartIs(store, ts[..i], ts[i].gid);
  }

  lemma GidsTake(ts: seq<Rollout>, i: nat)
    requires i <= |ts|
    ensures Gids(ts, GidOf)[..i] == Gids(ts[..i], GidOf)
  {
  }

  lemma {:induction false} FinalizesAt(tc: Config, store: seq<Dispatch.Group>, ts: seq<Rollout>, i: nat)
    requires tc.Valid() && Fits(tc, store, ts) && i < |ts|
    ensures Arrivals(tc, ts[..i]) && ts[i].env in tc.envs && ts[i].gid < |store|
    ensures Finalizes(tc, ts, i) <==> Nth(Gids(ts, GidOf), i, store[ts[i].gid].target)
    ensures Finalizes(tc, ts, i) ==>
              Gathers(tc, ts, i) == Members(ts, GidOf, ts[i].gid) && CountGid(Gids(ts, GidOf), ts[i].gid) == store[ts[i].gid].target
  {
    hide Fits, Arrivals, TrainSinkRuns.After, TrainSinkRuns.Inv, Bounded, GroupWith, CountGid, Members, Gids, Config.Valid;
    var g := ts[i].gid;
    GathersIs(tc, store, ts, i);
    MembersCount(ts[..i + 1], GidOf, g);
    MembersCount(ts, GidOf, g);
    GidsTake(ts, i + 1);
    CountGidMono(Gids(ts, GidOf), g, i + 1);
    assert |Gathers(tc, ts, i)| == CountGid(Gids(ts, GidOf)[..i + 1], g);
    if Finalizes(tc, ts, i) { MembersAll(ts, GidOf, g, i + 1); }
  }

  /** Every group reaches `process_group` at most once, with all of its members, and it does so
      exactly when all of them have arrived. */
  ghost predicate GroupsOnce(tc: Config, store: seq<Dispatch.Group>, ts: seq<Rollout>)
    requires tc.Valid()
  {
    && (forall i | 0 <= i < |ts| :: Arrivals(tc, ts[..i]) && ts[i].env in tc.envs && ts[i].gid < |store|)
    && (forall i | 0 <= i < |ts| && Finalizes(tc, ts, i) ::
          |Gathers(tc, ts, i)| == store[ts[i].gid].target && Gathers(tc, ts, i) == Members(ts, GidOf, ts[i].gid))
    && (forall i, j | 0 <= i < j < |ts| && Finalizes(tc, ts, i) && Finalizes(tc, ts, j) :: ts[i].gid != ts[j].gid)
    && (forall g: Gid | g < |store| ::
          CountGid(Gids(ts, GidOf), g) == store[g].target <==> exists i | 0 <= i < |ts| :: ts[i].gid == g && Finalizes(tc, ts, i))
  }

  lemma FitsItem(tc: Config, store: seq<Dispatch.Group>, ts: seq<Rollout>, i: nat)
    requires tc.Valid() && Fits(tc, store, ts) && i < |ts|
    ensures Arrivals(tc, ts[..i]) && ts[i].env in tc.envs && ts[i].gid < |store|
  {
    FitsTake(tc, store, ts, i);
    assert ts[i] in ts;
  }

  lemma {:induction false} FinalizedIff(tc: Config, store: seq<Dispatch.Group>, ts: seq<Rollout>, g: Gid)
    requires tc.Valid() && Fits(tc, store, ts) && g < |store|
    requires forall i | 0 <= i < |ts| :: Arrivals(tc, ts[..i]) && ts[i].env in tc.envs && ts[i].gid < |store|
    ensures CountGid(Gids(ts, GidOf), g) == store[g].target <==> exists i | 0 <= i < |ts| :: ts[i].gid == g && Finalizes(tc, ts, i)
  {
    assert 1 <= store[g].target;
    hide Fits, Finalizes, Gathers, Nth, Arrivals, CountGid, Members, TrainSinkRuns.After, TrainSinkRuns.Inv, Bounded;
    if CountGid(Gids(ts, GidOf), g) == store[g].target {
      var i := NthExists(Gids(ts, GidOf), g, store[g].target);
      FinalizesAt(tc, store, ts, i);
    } else {
      forall i | 0 <= i < |ts| && ts[i].gid == g ensures !Finalizes(tc, ts, i) { FinalizesAt(tc, store, ts, i); }
    }
  }

  lemma FinalizedApart(tc: Config, store: seq<Dispatch.Group>, ts: seq<Rollout>, i: nat, j: nat)
    requires tc.Valid() && Fits(tc, store, ts) && i < j < |ts|
    requires Arrivals(tc, ts[..i]) && ts[i].env in tc.envs && Arrivals(tc, ts[..j]) && ts[j].env in tc.envs
    requires Finalizes(tc, ts, i) && Finalizes(tc, ts, j)
    ensures ts[i].gid != ts[j].gid
  {
    hide Fits, Finalizes, Gathers, Nth, Arrivals, CountGid, Members, TrainSinkRuns.After, TrainSinkRuns.Inv, Bounded;
    FinalizesAt(tc, store, ts, i);
    FinalizesAt(tc, store, ts, j);
    if ts[i].gid == ts[j].gid { NthUnique(Gids(ts, GidOf), i, j, store[ts[i].gid].target); }
  }

  lemma SinkGroupsOnce(tc: Config, store: seq<Dispatch.Group>, ts: seq<Rollout>)
    requires tc.Valid() && Fits(tc, store, ts)
    ensures GroupsOnce(tc, store, ts)
  {
    hide Fits, Finalizes, Gathers, Arrivals, CountGid, Members, Gids, TrainSinkRuns.After, TrainSinkRuns.Inv, Bounded;
    forall i | 0 <= i < |ts| ensures Arrivals(tc, ts[..i]) && ts[i].env in tc.envs && ts[i].gid < |store| { FitsItem(tc, store, ts, i); }
    forall i | 0 <= i < |ts| && Finalizes(tc, ts, i)
      ensures |Gathers(tc, ts, i)| == store[ts[i].gid].target && Gathers(tc, ts, i) == Members(ts, GidOf, ts[i].gid)
    {
      FinalizesAt(tc, store, ts, i);
      MembersCount(ts, GidOf, ts[i].gid);
    }
    forall i, j | 0 <= i < j < |ts| && Finalizes(tc, ts, i) && Finalizes(tc, ts, j) ensures ts[i].gid != ts[j].gid {
      FinalizedApart(tc, store, ts, i, j);
    }
    forall g: Gid | g < |store|
      ensures CountGid(Gids(ts, GidOf), g) == store[g].target <==> exists i | 0 <= i < |ts| :: ts[i].gid == g && Finalizes(tc, ts, i)
    {
      FinalizedIff(tc, store, ts, g);
    }
  }

  // ---------------------------------------------------------------- end to end

  lemma {:induction false} DressedCounts(rs: seq<Dispatch.Rollout>, ws: seq<Work>, g: Gid)
    requires |rs| == |ws|
    ensures CountGid(Gids(Dressed(rs, ws), GidOf), g) == Dispatch.CountOf(rs, g)
  {
    assert Gids(Dressed(rs, ws), GidOf) == Gids(rs, EvalPipeline.GidOf);
    GidCounts(rs, g);
  }

  lemma DressedFits(cfg: Dispatch.Config, tc: Config, store: seq<Dispatch.Group>, rs: seq<Dispatch.Rollout>, ws: seq<Work>)
    requires cfg.Valid() && SameEnvs(cfg, tc) && |rs| == |ws|
    requires Invariant.StoreOk(cfg, store) && Invariant.RolloutsOk(store, rs) && EvalPipeline.Capped(store, rs)
    requires forall i | 0 <= i < |rs| :: rs[i].kind.Train?
    ensures Fits(tc, store, Dressed(rs, ws))
  {
    var ts := Dressed(rs, ws);
    forall i | 0 <= i < |rs|
      ensures ts[i].gid < |store| && ts[i].env in tc.envs && store[ts[i].gid].target == tc.envs[ts[i].env].groupSize
           && ts[i].env == store[ts[i].gid].env
    {
      assert Invariant.RolloutOk(store, rs[i]);
    }
    forall g: Gid | g < |store| ensures 1 <= store[g].target && CountGid(Gids(ts, GidOf), g) <= store[g].target {
      DressedCounts(rs, ws, g);
    }
  }

  /** The train rollouts a run has consumed are what the sink may rely on. */
  lemma {:induction false} RunFits(cfg: Dispatch.Config, v: int, es: seq<Dispatch.Event>, tc: Config, ws: seq<Work>)
    requires cfg.Valid() && SameEnvs(cfg, tc) && Runs.Runs(cfg, Dispatch.Init(v), es)
    requires |ws| == |Part(Runs.After(cfg, v, es).consumed, Dispatch.Train)|
    ensures var s := Runs.After(cfg, v, es);
            var rs := Part(s.consumed, Dispatch.Train);
            && Invariant.RolloutsOk(s.store, rs) && (forall i | 0 <= i < |rs| :: rs[i].kind.Train?)
            && Fits(tc, s.store, Dressed(rs, ws))
  {
    ConsumedCapped(cfg, v, es);
    hide Runs.After, Runs.Runs, Fits, Invariant.StoreOk, Part, Invariant.RolloutsOk, EvalPipeline.Capped;
    var s := Runs.After(cfg, v, es);
    var rs := Part(s.consumed, Dispatch.Train);
    OkPart(s.store, s.consumed, Dispatch.Train);
    PartCapped(s.store, s.consumed, Dispatch.Train);
    forall i | 0 <= i < |rs| ensures rs[i].kind.Train? { assert rs[i] in rs; }
    DressedFits(cfg, tc, s.store, rs, ws);
  }

  /** Every train group the dispatcher opened reaches the train sink's group processing at most
      once, with exactly its size of members, each carrying the kind, environment and version the
      group captured; and it has reached it exactly when the dispatcher owes nothing of it, none of
      it is queued and no event of the run lost any of it. */
  lemma {:induction false} TrainGroupsOnce(cfg: Dispatch.Config, v: int, es: seq<Dispatch.Event>, tc: Config, ws: seq<Work>)
    requires cfg.Valid() && tc.Valid() && SameEnvs(cfg, tc) && Runs.Runs(cfg, Dispatch.Init(v), es)
    requires |ws| == |Part(Runs.After(cfg, v, es).consumed, Dispatch.Train)|
    ensures var s := Runs.After(cfg, v, es);
            var ts := Dressed(Part(s.consumed, Dispatch.Train), ws);
            && Invariant.RolloutsOk(s.store, Part(s.consumed, Dispatch.Train))
            && GroupsOnce(tc, s.store, ts)
            && forall g: Gid | g < |s.store| && s.store[g].kind.Train? ::
                 (exists i | 0 <= i < |ts| :: ts[i].gid == g && Finalizes(tc, ts, i))
                 <==> Runs.OwingIn(s, g) == 0 && Dispatch.CountOf(s.queue, g) == 0 && !Runs.RunLoses(cfg, Dispatch.Init(v), es, g)
  {
    RunFits(cfg, v, es, tc, ws);
    ConsumedCapped(cfg, v, es);
    hide Runs.After, Runs.Runs, Invariant.Inv, Fits, Invariant.StoreOk, Finalizes, Gathers, Arrivals, CountGid, Members, Gids,
         Runs.RunLoses, Runs.OwingIn, Dispatch.CountOf, Part, Invariant.RolloutsOk, EvalPipeline.Capped;
    var s := Runs.After(cfg, v, es);
    var rs := Part(s.consumed, Dispatch.Train);
    SinkGroupsOnce(tc, s.store, Dressed(rs, ws));
    forall g: Gid | g < |s.store| && s.store[g].kind.Train?
      ensures CountGid(Gids(Dressed(rs, ws), GidOf), g) == s.store[g].target
              <==> Runs.OwingIn(s, g) == 0 && Dispatch.CountOf(s.queue, g) == 0 && !Runs.RunLoses(cfg, Dispatch.Init(v), es, g)
    {
      ConsumedAll(cfg, v, es, g);
      PartCounts(s.store, s.consumed, Dispatch.Train, g);
      DressedCounts(rs, ws, g);
    }
  }
}
