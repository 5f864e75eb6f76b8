/** From the dispatcher's queue to shipped batches: the train side end to end. */
module TrainShipments {
  import opened Common
  import Dispatch
  import Invariant = DispatchInvariant
  import Runs = DispatchRuns
  import opened Pipeline
  import opened TrainPipeline
  import opened TrainSinkSpec
  import opened TrainSinkRuns
  import opened OrchestratorSpec
  import opened TrainingLoop

  // ---------------------------------------------------------------- shipped rollouts arrived

  lemma {:induction false} SnocMembers(sent: seq<Sent>, x: Sent)
    ensures ShippedCohorts(sent + [x]) == ShippedCohorts(sent) + x.batch.cohort
  {
    assert (sent + [x])[..|sent|] == sent;
  }

  lemma {:induction false} TurnMembers(sc: Config, oc: Settings, y: System, r: Rollout, live: int)
    requires r.env in sc.envs && GroupWith(y.sink, r)[0].env in sc.envs && CleanSent(sc, oc, y.orch.sent)
    requires forall x | x in ShippedCohorts(y.orch.sent) :: x in y.sink.cohorts
    ensures var z := Turn(sc, oc, y, r, live); forall x | x in ShippedCohorts(z.orch.sent) :: x in z.sink.cohorts
  {
    hide Add, CleanSent, OnBatch, ShippedCohorts;
    TurnShips(sc, oc, y, r, live);
    AddRecords(sc, y.sink, r);
    var b := Add(sc, y.sink, r).1;
    if b.Some? { SnocMembers(y.orch.sent, Sent(y.orch.step, b.value)); }
  }

  /** Every shipped rollout is one of those the sink popped for a batch. */
  lemma {:induction false} ShippedMembers(sc: Config, oc: Settings, start: int, rs: seq<Rollout>, live: seq<int>)
    requires sc.Valid() && Arrivals(sc, rs) && |live| == |rs|
    ensures var y := Drive(sc, oc, start, rs, live); forall x | x in ShippedCohorts(y.orch.sent) :: x in y.sink.cohorts
    decreases |rs|
  {
    assert ShippedCohorts([]) == [];
    hide Drive, Turn, CleanSent, Arrivals, TrainSinkRuns.Inv, Bounded, Legal, Add, GroupWith, ShippedCohorts;
    if rs == [] {
      DriveEmpty(sc, oc, start, rs, live);
    } else {
      DriveUnfold(sc, oc, start, rs, live);
      var n := |rs| - 1;
      ShippedMembers(sc, oc, start, rs[..n], live[..n]);
      SentClean(sc, oc, start, rs[..n], live[..n]);
      TurnMembers(sc, oc, Drive(sc, oc, start, rs[..n], live[..n]), rs[n], live[n]);
    }
  }

  // ---------------------------------------------------------------- end to end

  /** Shipped batches are clean, no arrival is in two shipped cohorts, and everything in one is an arrival
      that did not fail and carries what its group captured when it opened. */
  ghost predicate ShippedFaithfully(tc: Config, oc: Settings, store: seq<Dispatch.Group>, rs: seq<Dispatch.Rollout>,
                                    ts: seq<Rollout>, sent: seq<Sent>)
    requires |ts| == |rs|
  {
    && CleanSent(tc, oc, sent)
    && (forall i: nat | i < |rs| :: CountId(ShippedCohorts(sent), i) <= 1)
    && (forall x | x in ShippedCohorts(sent) ::
          && x.id < |rs| && x == ts[x.id] && Usable(x) && !tc.pre(x)
          && Invariant.RolloutOk(store, rs[x.id]) && rs[x.id].kind.Train? && rs[x.id].gid == x.gid)
  }

  lemma {:induction false} FromArrivals(tc: Config, oc: Settings, start: int, ts: seq<Rollout>, live: seq<int>, x: Rollout)
    requires tc.Valid() && Arrivals(tc, ts) && |live| == |ts|
    requires x in ShippedCohorts(Drive(tc, oc, start, ts, live).orch.sent)
    ensures x in ts && Usable(x) && !tc.pre(x)
  {
    ShippedMembers(tc, oc, start, ts, live);
    FifoBatching(tc, ts);
    hide Drive, Arrivals, TrainSinkRuns.After, CountId, ShippedCohorts, Small, TokenSum, Usable;
    var s := TrainSinkRuns.After(tc, ts);
    assert x in s.cohorts && x in s.accepted;
  }

  lemma {:induction false} ShippedOne(tc: Config, oc: Settings, store: seq<Dispatch.Group>, rs: seq<Dispatch.Rollout>, ws: seq<Work>, start: int,
                   live: seq<int>, x: Rollout)
    requires |ws| == |rs| == |live| && tc.Valid() && Fits(tc, store, Dressed(rs, ws)) && Invariant.RolloutsOk(store, rs)
    requires x in ShippedCohorts(Drive(tc, oc, start, Dressed(rs, ws), live).orch.sent)
    ensures x.id < |rs| && x == Dressed(rs, ws)[x.id] && Usable(x) && !tc.pre(x)
    ensures Invariant.RolloutOk(store, rs[x.id]) && rs[x.id].gid == x.gid
  {
    hide *;
    FitsArrivals(tc, store, Dressed(rs, ws));
    FromArrivals(tc, oc, start, Dressed(rs, ws), live, x);
    AtPlace(store, rs, ws, x);
  }

  /** A dressed arrival is found again at the place its identity names. */
  lemma AtPlace(store: seq<Dispatch.Group>, rs: seq<Dispatch.Rollout>, ws: seq<Work>, x: Rollout)
    requires |ws| == |rs| && x in Dressed(rs, ws) && Invariant.RolloutsOk(store, rs)
    ensures x.id < |rs| && x == Dressed(rs, ws)[x.id] && Invariant.RolloutOk(store, rs[x.id]) && rs[x.id].gid == x.gid
  {
    hide Invariant.RolloutOk;
    var ts := Dressed(rs, ws);
    var i :| 0 <= i < |ts| && ts[i] == x;
    assert x.id == i;
  }

  lemma {:induction false} ShippedAll(tc: Config, oc: Settings, store: seq<Dispatch.Group>, rs: seq<Dispatch.Rollout>, ws: seq<Work>, start: int,
                   live: seq<int>)
    requires |ws| == |rs| == |live| && tc.Valid() && Fits(tc, store, Dressed(rs, ws)) && Invariant.RolloutsOk(store, rs)
    requires forall i | 0 <= i < |rs| :: rs[i].kind.Train?
    ensures var ts := Dressed(rs, ws);
            Arrivals(tc, ts) && ShippedFaithfully(tc, oc, store, rs, ts, Drive(tc, oc, start, ts, live).orch.sent)
  {
    var ts := Dressed(rs, ws);
    FitsArrivals(tc, store, ts);
    ShippedOnceAndScored(tc, oc, start, ts, live);
    hide Drive, Arrivals, CountId, ShippedCohorts, CleanSent, Usable, Fits, Invariant.RolloutOk, Invariant.RolloutsOk, Dressed;
    forall x | x in ShippedCohorts(Drive(tc, oc, start, ts, live).orch.sent)
      ensures x.id < |rs| && x == ts[x.id] && Usable(x) && !tc.pre(x)
      ensures Invariant.RolloutOk(store, rs[x.id]) && rs[x.id].kind.Train? && rs[x.id].gid == x.gid
    {
      ShippedOne(tc, oc, store, rs, ws, start, live, x);
    }
    EachOnce(rs, ws, ShippedCohorts(Drive(tc, oc, start, ts, live).orch.sent));
  }

  lemma EachOnce(rs: seq<Dispatch.Rollout>, ws: seq<Work>, shipped: seq<Rollout>)
    requires |ws| == |rs| && forall r | r in Dressed(rs, ws) :: CountId(shipped, r.id) <= 1
    ensures forall i: nat | i < |rs| :: CountId(shipped, i) <= 1
  {
    var ts := Dressed(rs, ws);
    hide CountId;
    forall i: nat | i < |rs| ensures CountId(shipped, i) <= 1 { assert ts[i].id == i && ts[i] in ts; }
  }

  lemma FitsArrivals(tc: Config, store: seq<Dispatch.Group>, ts: seq<Rollout>)
    requires Fits(tc, store, ts)
    ensures Arrivals(tc, ts)
  {
  }

  /** Over every run of the dispatcher, whatever the sink and the orchestrator make of its train rollouts:
      none is shipped twice, and each shipped one carries its group's captured version, in a clean batch. */
  lemma {:induction false} ShippedOnceAsCaptured(cfg: Dispatch.Config, v: int, es: seq<Dispatch.Event>, tc: Config, ws: seq<Work>,
                                                 oc: Settings, live: seq<int>)
    requires cfg.Valid() && tc.Valid() && SameEnvs(cfg, tc) && Runs.Runs(cfg, Dispatch.Init(v), es)
    requires |ws| == |Part(Runs.After(cfg, v, es).consumed, Dispatch.Train)| == |live|
    ensures var s := Runs.After(cfg, v, es);
            var rs := Part(s.consumed, Dispatch.Train);
            var ts := Dressed(rs, ws);
            && Arrivals(tc, ts)
            && ShippedFaithfully(tc, oc, s.store, rs, ts, Drive(tc, oc, v + 1, ts, live).orch.sent)
  {
    RunFits(cfg, v, es, tc, ws);
    hide *;
    var s := Runs.After(cfg, v, es);
    ShippedAll(tc, oc, s.store, Part(s.consumed, Dispatch.Train), ws, v + 1, live);
  }
}
