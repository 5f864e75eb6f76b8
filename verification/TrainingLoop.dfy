/** Arrivals through the train sink into the orchestrator, over whole runs. */
module TrainingLoop {
  import opened Common
  import opened TrainSinkSpec
  import opened TrainSinkRuns
  import opened OrchestratorSpec

  datatype System = System(sink: State, orch: Orch)

  /** One arrival: the sink takes it and a returned batch goes to the orchestrator. */
  function Turn(sc: Config, oc: Settings, y: System, r: Rollout, live: int): System
    requires r.env in sc.envs && GroupWith(y.sink, r)[0].env in sc.envs
  {
    var (t, b) := Add(sc, y.sink, r);
    System(t, if b.Some? then OnBatch(oc, y.orch, b.value, live) else y.orch)
  }

  /** The system after a sequence of arrivals; `live[i]` is what the evaluator would report then. */
  ghost function Drive(sc: Config, oc: Settings, start: int, rs: seq<Rollout>, live: seq<int>): (y: System)
    requires sc.Valid() && Arrivals(sc, rs) && |live| == |rs|
    ensures y.sink == After(sc, rs)
    decreases |rs|
  {
    if rs == [] then System(EMPTY, Start(start))
    else
      ArrivalsPrefix(sc, rs);
      var y := Drive(sc, oc, start, rs[..|rs| - 1], live[..|rs| - 1]);
      AddKeeps(sc, y.sink, rs[|rs| - 1]);
      Turn(sc, oc, y, rs[|rs| - 1], live[|rs| - 1])
  }

  lemma {:induction false} DriveUnfold(sc: Config, oc: Settings, start: int, rs: seq<Rollout>, live: seq<int>)
    requires sc.Valid() && Arrivals(sc, rs) && |live| == |rs| && rs != []
    ensures var n := |rs| - 1;
            && Arrivals(sc, rs[..n]) && rs[n].env in sc.envs
            && var y := Drive(sc, oc, start, rs[..n], live[..n]);
               && TrainSinkRuns.Inv(sc, y.sink) && Bounded(sc, y.sink) && Legal(sc, y.sink, rs[n])
               && GroupWith(y.sink, rs[n])[0].env in sc.envs
               && Drive(sc, oc, start, rs, live) == Turn(sc, oc, y, rs[n], live[n])
  {
    ArrivalsPrefix(sc, rs);
    var n := |rs| - 1;
    var y := Drive(sc, oc, start, rs[..n], live[..n]);
    AddKeeps(sc, y.sink, rs[n]);
    hide TrainSinkRuns.Inv, Bounded, Add, GroupWith, Turn;
  }

  lemma {:induction false} DriveEmpty(sc: Config, oc: Settings, start: int, rs: seq<Rollout>, live: seq<int>)
    requires sc.Valid() && Arrivals(sc, rs) && |live| == |rs| && rs == []
    ensures Drive(sc, oc, start, rs, live) == System(EMPTY, Start(start))
  {
  }

  // ---------------------------------------------------------------- what ships

  /** The cohorts of the shipped batches, in shipping order. */
  function ShippedCohorts(sent: seq<Sent>): seq<Rollout> {
    if sent == [] then [] else ShippedCohorts(sent[..|sent| - 1]) + sent[|sent| - 1].batch.cohort
  }

  /** A shipped batch carries exactly the samples of its cohort's unfiltered rollouts, all of them
      scored at or past the warmup threshold. */
  ghost predicate CleanBatch(sc: Config, oc: Settings, b: Batch) {
    var shipped := Drop(b.cohort, sc.post);
    && b.samples == SamplesOf(shipped) && b.versionMin == VersionMin(shipped)
    && (oc.warmup.Some? ==> forall r | r in shipped && r.valueVersion.Some? :: r.valueVersion.value >= oc.warmup.value)
  }

  ghost predicate CleanSent(sc: Config, oc: Settings, sent: seq<Sent>) {
    forall k | 0 <= k < |sent| :: CleanBatch(sc, oc, sent[k].batch)
  }

  lemma AddBatch(sc: Config, s: State, r: Rollout)
    requires r.env in sc.envs && GroupWith(s, r)[0].env in sc.envs
    ensures var b := Add(sc, s, r).1;
            b.Some? && b.value.samples != [] ==>
              && b.value.samples == SamplesOf(Drop(b.value.cohort, sc.post))
              && b.value.versionMin == VersionMin(Drop(b.value.cohort, sc.post))
  {
    hide Accept, Settled, SamplesOf, VersionMin, Drop, Cut, Arrive;
  }

  /** The orchestrator sends a batch or leaves the history alone. */
  lemma BatchSent(oc: Settings, o: Orch, b: Batch, live: int)
    ensures var p := OnBatch(oc, o, b, live);
            p.sent == o.sent ||
              (p.sent == o.sent + [Sent(o.step, b)] && b.samples != [] && (oc.warmup.Some? ==> GateVersion(b, live) >= oc.warmup.value))
  {
  }

  lemma CutClean(sc: Config, oc: Settings, b: Batch, live: int)
    requires b.samples == SamplesOf(Drop(b.cohort, sc.post)) && b.versionMin == VersionMin(Drop(b.cohort, sc.post))
    requires oc.warmup.Some? ==> GateVersion(b, live) >= oc.warmup.value
    ensures CleanBatch(sc, oc, b)
  {
    LeastVersion(Drop(b.cohort, sc.post));
  }

  lemma CleanExtends(sc: Config, oc: Settings, sent: seq<Sent>, x: Sent)
    requires CleanSent(sc, oc, sent) && CleanBatch(sc, oc, x.batch)
    ensures CleanSent(sc, oc, sent + [x])
  {
    hide CleanBatch;
  }

  lemma TurnShips(sc: Config, oc: Settings, y: System, r: Rollout, live: int)
    requires r.env in sc.envs && GroupWith(y.sink, r)[0].env in sc.envs && CleanSent(sc, oc, y.orch.sent)
    ensures var z := Turn(sc, oc, y, r, live);
            CleanSent(sc, oc, z.orch.sent) && (z.orch.sent == y.orch.sent ||
              (Add(sc, y.sink, r).1.Some? && z.orch.sent == y.orch.sent + [Sent(y.orch.step, Add(sc, y.sink, r).1.value)]))
  {
    hide Add, SamplesOf, VersionMin, Drop, CleanSent, OnBatch, CleanBatch;
    AddBatch(sc, y.sink, r);
    var b := Add(sc, y.sink, r).1;
    if b.Some? {
      BatchSent(oc, y.orch, b.value, live);
      if OnBatch(oc, y.orch, b.value, live).sent != y.orch.sent {
        CutClean(sc, oc, b.value, live);
        CleanExtends(sc, oc, y.orch.sent, Sent(y.orch.step, b.value));
      }
    }
  }

  /** Over every run: shipped batches are clean, and no rollout is in two shipped cohorts. */
  lemma {:induction false} ShippedOnceAndScored(sc: Config, oc: Settings, start: int, rs: seq<Rollout>, live: seq<int>)
    requires sc.Valid() && Arrivals(sc, rs) && |live| == |rs|
    ensures CleanSent(sc, oc, Drive(sc, oc, start, rs, live).orch.sent)
    ensures forall r | r in rs :: CountId(ShippedCohorts(Drive(sc, oc, start, rs, live).orch.sent), r.id) <= 1
  {
    hide Drive, CleanSent, TrainSinkRuns.Inv, Bounded, Arrivals, CountId, ShippedCohorts;
    SentClean(sc, oc, start, rs, live);
    FifoBatching(sc, rs);
    forall r | r in rs ensures CountId(ShippedCohorts(Drive(sc, oc, start, rs, live).orch.sent), r.id) <= 1 {
      ShippedWithin(sc, oc, start, rs, live, r.id);
    }
  }

  lemma {:induction false} SentClean(sc: Config, oc: Settings, start: int, rs: seq<Rollout>, live: seq<int>)
    requires sc.Valid() && Arrivals(sc, rs) && |live| == |rs|
    ensures CleanSent(sc, oc, Drive(sc, oc, start, rs, live).orch.sent)
    decreases |rs|
  {
    assert CleanSent(sc, oc, []);
    hide Drive, Turn, CleanSent, Arrivals, TrainSinkRuns.Inv, Bounded, Legal, Add, GroupWith;
    if rs == [] {
      DriveEmpty(sc, oc, start, rs, live);
    } else {
      DriveUnfold(sc, oc, start, rs, live);
      var n := |rs| - 1;
      SentClean(sc, oc, start, rs[..n], live[..n]);
      TurnShips(sc, oc, Drive(sc, oc, start, rs[..n], live[..n]), rs[n], live[n]);
    }
  }

  /** The shipped cohorts are among the cohorts the sink popped. */
  lemma {:induction false} ShippedWithin(sc: Config, oc: Settings, start: int, rs: seq<Rollout>, live: seq<int>, id: nat)
    requires sc.Valid() && Arrivals(sc, rs) && |live| == |rs|
    ensures var y := Drive(sc, oc, start, rs, live); CountId(ShippedCohorts(y.orch.sent), id) <= CountId(y.sink.cohorts, id)
    decreases |rs|
  {
    assert ShippedCohorts([]) == [] && CountId([], id) == 0;
    hide Drive, Turn, CleanSent, Arrivals, TrainSinkRuns.Inv, Bounded, Legal, Add, GroupWith, CountId, ShippedCohorts;
    if rs == [] {
      DriveEmpty(sc, oc, start, rs, live);
    } else {
      DriveUnfold(sc, oc, start, rs, live);
      var n := |rs| - 1;
      ShippedWithin(sc, oc, start, rs[..n], live[..n], id);
      SentClean(sc, oc, start, rs[..n], live[..n]);
      TurnCounts(sc, oc, Drive(sc, oc, start, rs[..n], live[..n]), rs[n], live[n], id);
    }
  }

  lemma {:induction false} TurnCounts(sc: Config, oc: Settings, y: System, r: Rollout, live: int, id: nat)
    requires r.env in sc.envs && GroupWith(y.sink, r)[0].env in sc.envs && CleanSent(sc, oc, y.orch.sent)
    requires CountId(ShippedCohorts(y.orch.sent), id) <= CountId(y.sink.cohorts, id)
    ensures var z := Turn(sc, oc, y, r, live); CountId(ShippedCohorts(z.orch.sent), id) <= CountId(z.sink.cohorts, id)
  {
    hide Add, CleanSent, OnBatch;
    var z := Turn(sc, oc, y, r, live);
    TurnShips(sc, oc, y, r, live);
    AddRecords(sc, y.sink, r);
    var b := Add(sc, y.sink, r).1;
    assert z.sink == Add(sc, y.sink, r).0;
    hide Turn;
    if b.Some? {
      CountIdConcat(y.sink.cohorts, b.value.cohort, id);
      CountIdConcat(ShippedCohorts(y.orch.sent), b.value.cohort, id);
      if z.orch.sent != y.orch.sent {
        assert z.orch.sent[..|z.orch.sent| - 1] == y.orch.sent;
      }
    } else {
      assert y.sink.cohorts + [] == y.sink.cohorts;
    }
  }

  // ---------------------------------------------------------------- bounded empty batches

  /** A popped cohort that the post-batch filters drop whole. */
  ghost predicate Filtered(sc: Config, b: Option<Batch>) {
    b.Some? && b.value.cohort != [] && forall r | r in b.value.cohort :: sc.post(r)
  }

  ghost predicate SampleFree(b: Option<Batch>) { b.Some? ==> b.value.samples == [] }

  /** Still collecting: neither draining nor aborted, below the limits. */
  predicate Collecting(oc: Settings, o: Orch) {
    && !o.draining && !o.aborted && o.consecutive < MAX_CONSECUTIVE_EMPTY_BATCHES
    && (oc.maxSteps.Some? ==> o.step <= oc.maxSteps.value)
  }

  /** Sample-free batches left before the run must abort, ship or see a cohort filtered whole. */
  function Budget(sc: Config, y: System): int {
    if y.sink.lastEmpty >= sc.target.n then 0
    else
      MAX_CONSECUTIVE_EMPTY_BATCHES * (sc.target.n - 1 - y.sink.lastEmpty) + (MAX_CONSECUTIVE_EMPTY_BATCHES - 1 - y.orch.consecutive)
  }

  /** What a whole filtered cohort adds to the budget. */
  function Refill(sc: Config): int { MAX_CONSECUTIVE_EMPTY_BATCHES * sc.target.n }

  lemma {:induction false} DropMember(rs: seq<Rollout>, p: Rollout -> bool, r: Rollout)
    requires r in rs && !p(r)
    ensures r in Drop(rs, p)
  {
    if rs[|rs| - 1] != r {
      assert r in rs[..|rs| - 1];
      DropMember(rs[..|rs| - 1], p, r);
    }
  }

  lemma {:induction false} SamplesNonempty(rs: seq<Rollout>, r: Rollout)
    requires r in rs && r.samples != []
    ensures SamplesOf(rs) != []
  {
    if rs[|rs| - 1] != r {
      assert r in rs[..|rs| - 1];
      SamplesNonempty(rs[..|rs| - 1], r);
    }
  }

  /** A ready sink whose cohort is not entirely post-filtered ships samples. */
  lemma ReadyShips(sc: Config, t: State)
    requires sc.Valid() && TrainSinkRuns.Inv(sc, t) && Ready(sc, t)
    requires exists r | r in ProcessBatch(sc, t).1.cohort :: !sc.post(r)
    ensures ProcessBatch(sc, t).1.samples != []
  {
    var cohort := t.pendingBatch[..Cut(sc, t.pendingBatch)];
    var r :| r in cohort && !sc.post(r);
    DropMember(cohort, sc.post, r);
    assert r in t.pendingBatch && r in t.cohorts + t.pendingBatch;
    SamplesNonempty(Drop(cohort, sc.post), r);
  }

  /** A sample-free batch spends budget unless its cohort was filtered whole, and then it refills at
      most ten times the target; an arrival without a batch costs nothing. */
  lemma EmptyTurn(sc: Config, oc: Settings, y: System, r: Rollout, live: int)
    requires sc.Valid() && TrainSinkRuns.Inv(sc, y.sink) && Bounded(sc, y.sink) && Legal(sc, y.sink, r)
    requires GroupWith(y.sink, r)[0].env in sc.envs && SampleFree(Add(sc, y.sink, r).1) && Collecting(oc, y.orch)
    ensures var z, b := Turn(sc, oc, y, r, live), Add(sc, y.sink, r).1;
            && !z.orch.draining && z.orch.step == y.orch.step
            && Budget(sc, z) + (if b.Some? then 1 else 0) <= Budget(sc, y) + (if Filtered(sc, b) then Refill(sc) else 0)
  {
    ArriveKeeps(sc, y.sink, r);
    var t := Arrive(sc, y.sink, r);
    var b := Add(sc, y.sink, r).1;
    assert t.lastEmpty == y.sink.lastEmpty;
    if Ready(sc, t) {
      CutExact(sc, t);
      if !Filtered(sc, b) { ReadyShips(sc, t); }
      var u := ProcessBatch(sc, t).0;
      ProcessKeeps(sc, t);
      assert b == Some(ProcessBatch(sc, t).1) && 0 <= u.lastEmpty;
      hide Arrive, ProcessBatch, Settled, TrainSinkRuns.Inv, Bounded, Legal;
      RefillTurn(sc, oc, y, b.value, Turn(sc, oc, y, r, live));
    } else {
      FlushKeeps(sc, t);
      hide Arrive, ProcessBatch, Settled, TrainSinkRuns.Inv, Bounded, Legal;
      TurnBudget(sc, oc, y, t, b, Turn(sc, oc, y, r, live));
    }
  }

  lemma RefillTurn(sc: Config, oc: Settings, y: System, b: Batch, z: System)
    requires sc.Valid() && Collecting(oc, y.orch) && b.samples == [] && z.orch == Finalize(oc, y.orch, b) && 0 <= z.sink.lastEmpty
    ensures !z.orch.draining && z.orch.step == y.orch.step && Budget(sc, z) + 1 <= Refill(sc) <= Budget(sc, y) + Refill(sc)
  {
  }

  lemma TurnBudget(sc: Config, oc: Settings, y: System, t: State, b: Option<Batch>, z: System)
    requires 0 <= t.lastEmpty <= Queued(sc, t) < sc.target.n && t.lastEmpty == y.sink.lastEmpty
    requires b.Some? ==> b.value.samples == [] && b.value.cohort == [] && z.sink.lastEmpty == Queued(sc, t)
                         && b.value.madeProgress == (Queued(sc, t) > t.lastEmpty)
    requires b.None? ==> z.sink.lastEmpty == t.lastEmpty && z.orch == y.orch
    requires b.Some? ==> z.orch == Finalize(oc, y.orch, b.value)
    requires Collecting(oc, y.orch)
    ensures !z.orch.draining && z.orch.step == y.orch.step && !Filtered(sc, b)
    ensures Budget(sc, z) + (if b.Some? then 1 else 0) <= Budget(sc, y)
  {
  }

  /** What the sink returned for the last arrival. */
  ghost function BatchAt(sc: Config, rs: seq<Rollout>): Option<Batch>
    requires sc.Valid() && Arrivals(sc, rs) && rs != []
  {
    ArrivalsPrefix(sc, rs);
    var s := TrainSinkRuns.After(sc, rs[..|rs| - 1]);
    AddKeeps(sc, s, rs[|rs| - 1]);
    Add(sc, s, rs[|rs| - 1]).1
  }

  lemma ArrivalsTake(sc: Config, rs: seq<Rollout>, m: nat)
    requires m <= |rs| && Arrivals(sc, rs)
    ensures Arrivals(sc, rs[..m])
  {
    assert forall r | r in rs[..m] :: r in rs;
  }

  /** The system after the first `m` arrivals. */
  ghost function At(sc: Config, oc: Settings, start: int, rs: seq<Rollout>, live: seq<int>, m: nat): System
    requires sc.Valid() && Arrivals(sc, rs) && |live| == |rs| && m <= |rs|
  {
    ArrivalsTake(sc, rs, m);
    Drive(sc, oc, start, rs[..m], live[..m])
  }

  /** The batch the sink returned for arrival `m`. */
  ghost function Returned(sc: Config, rs: seq<Rollout>, m: nat): Option<Batch>
    requires sc.Valid() && Arrivals(sc, rs) && m < |rs|
  {
    ArrivalsTake(sc, rs, m + 1);
    BatchAt(sc, rs[..m + 1])
  }

  /** How many batches the sink returned for arrivals `k` to `m`. */
  ghost function Batches(sc: Config, rs: seq<Rollout>, k: nat, m: nat): nat
    requires sc.Valid() && Arrivals(sc, rs) && k <= m <= |rs|
    decreases m - k
  {
    if k == m then 0 else Batches(sc, rs, k, m - 1) + (if Returned(sc, rs, m - 1).Some? then 1 else 0)
  }

  /** How many cohorts were filtered whole among the batches for arrivals `k` to `m`. */
  ghost function Filters(sc: Config, rs: seq<Rollout>, k: nat, m: nat): nat
    requires sc.Valid() && Arrivals(sc, rs) && k <= m <= |rs|
    decreases m - k
  {
    if k == m then 0 else Filters(sc, rs, k, m - 1) + (if Filtered(sc, Returned(sc, rs, m - 1)) then 1 else 0)
  }

  /** Arrivals `k` to `m` bring no samples. */
  ghost predicate Barren(sc: Config, rs: seq<Rollout>, k: nat, m: nat)
    requires sc.Valid() && Arrivals(sc, rs) && m <= |rs|
  {
    forall i | k <= i < m :: SampleFree(Returned(sc, rs, i))
  }

  lemma CollectingBack(oc: Settings, o: Orch, b: Batch, live: int)
    requires b.samples == [] && (!o.aborted ==> o.consecutive < MAX_CONSECUTIVE_EMPTY_BATCHES)
    ensures Collecting(oc, OnBatch(oc, o, b, live)) ==> Collecting(oc, o)
  {
  }

  lemma CounterKept(oc: Settings, o: Orch, b: Batch, live: int)
    requires !o.aborted ==> o.consecutive < MAX_CONSECUTIVE_EMPTY_BATCHES
    ensures var p := OnBatch(oc, o, b, live); !p.aborted ==> p.consecutive < MAX_CONSECUTIVE_EMPTY_BATCHES
  {
  }

  /** Short of aborting, the counter of consecutive empties stays below its limit. */
  lemma {:induction false} CounterBelow(sc: Config, oc: Settings, start: int, rs: seq<Rollout>, live: seq<int>)
    requires sc.Valid() && Arrivals(sc, rs) && |live| == |rs|
    ensures var o := Drive(sc, oc, start, rs, live).orch; !o.aborted ==> o.consecutive < MAX_CONSECUTIVE_EMPTY_BATCHES
    decreases |rs|
  {
    hide Drive, Arrivals, TrainSinkRuns.Inv, Bounded, Legal, Add, GroupWith, OnBatch;
    if rs == [] {
      DriveEmpty(sc, oc, start, rs, live);
    } else {
      DriveUnfold(sc, oc, start, rs, live);
      var n := |rs| - 1;
      CounterBelow(sc, oc, start, rs[..n], live[..n]);
      var y := Drive(sc, oc, start, rs[..n], live[..n]);
      var b := Add(sc, y.sink, rs[n]).1;
      if b.Some? { CounterKept(oc, y.orch, b.value, live[n]); }
    }
  }

  lemma {:induction false} BarrenTurn(sc: Config, oc: Settings, start: int, rs: seq<Rollout>, live: seq<int>)
    requires sc.Valid() && Arrivals(sc, rs) && rs != [] && |live| == |rs|
    requires SampleFree(BatchAt(sc, rs)) && Collecting(oc, Drive(sc, oc, start, rs, live).orch)
    ensures Arrivals(sc, rs[..|rs| - 1])
    ensures var y := Drive(sc, oc, start, rs[..|rs| - 1], live[..|rs| - 1]);
            var z := Drive(sc, oc, start, rs, live);
            var b := BatchAt(sc, rs);
            && Collecting(oc, y.orch)
            && Budget(sc, z) + (if b.Some? then 1 else 0) <= Budget(sc, y) + (if Filtered(sc, b) then Refill(sc) else 0)
  {
    DriveUnfold(sc, oc, start, rs, live);
    var n := |rs| - 1;
    CounterBelow(sc, oc, start, rs[..n], live[..n]);
    var y := Drive(sc, oc, start, rs[..n], live[..n]);
    assert BatchAt(sc, rs) == Add(sc, y.sink, rs[n]).1;
    hide Drive, Arrivals, TrainSinkRuns.Inv, Bounded, Legal, Add, GroupWith, BatchAt, Filtered, OnBatch, Collecting, Budget, Refill;
    var b := Add(sc, y.sink, rs[n]).1;
    if b.Some? { CollectingBack(oc, y.orch, b.value, live[n]); }
    EmptyTurn(sc, oc, y, rs[n], live[n]);
  }

  lemma {:induction false} BarrenAt(sc: Config, oc: Settings, start: int, rs: seq<Rollout>, live: seq<int>, m: nat)
    requires sc.Valid() && Arrivals(sc, rs) && |live| == |rs| && m < |rs|
    requires SampleFree(Returned(sc, rs, m)) && Collecting(oc, At(sc, oc, start, rs, live, m + 1).orch)
    ensures var (y, z) := (At(sc, oc, start, rs, live, m), At(sc, oc, start, rs, live, m + 1));
            var b := Returned(sc, rs, m);
            && Collecting(oc, y.orch)
            && Budget(sc, z) + (if b.Some? then 1 else 0) <= Budget(sc, y) + (if Filtered(sc, b) then Refill(sc) else 0)
  {
    hide Drive, Arrivals, BatchAt, Filtered, SampleFree, Collecting, Budget, Refill, TrainSinkRuns.Inv, Bounded, TrainSinkRuns.After;
    ArrivalsTake(sc, rs, m + 1);
    assert rs[..m + 1][..m] == rs[..m] && live[..m + 1][..m] == live[..m];
    BarrenTurn(sc, oc, start, rs[..m + 1], live[..m + 1]);
  }

  /** A stretch that never ships spends budget for every batch it returns, and only whole filtered
      cohorts refill it. */
  lemma {:induction false} StretchSpends(sc: Config, oc: Settings, start: int, rs: seq<Rollout>, live: seq<int>, k: nat, m: nat)
    requires sc.Valid() && Arrivals(sc, rs) && |live| == |rs| && k <= m <= |rs|
    requires Collecting(oc, At(sc, oc, start, rs, live, m).orch) && Barren(sc, rs, k, m)
    ensures Collecting(oc, At(sc, oc, start, rs, live, k).orch)
    ensures Filters(sc, rs, k, m) <= Batches(sc, rs, k, m)
    ensures Budget(sc, At(sc, oc, start, rs, live, m)) + Batches(sc, rs, k, m)
            <= Budget(sc, At(sc, oc, start, rs, live, k)) + Filters(sc, rs, k, m) * Refill(sc)
    decreases m - k
  {
    hide At, Arrivals, Collecting, Budget, Refill, Returned, SampleFree;
    if k < m {
      BarrenAt(sc, oc, start, rs, live, m - 1);
      StretchSpends(sc, oc, start, rs, live, k, m - 1);
      MulNext(Filters(sc, rs, k, m - 1), Refill(sc));
    }
  }

  lemma MulNext(a: int, b: int)
    ensures (a + 1) * b == a * b + b
  {
  }

  lemma BudgetRange(sc: Config, oc: Settings, y: System)
    requires sc.Valid() && Collecting(oc, y.orch) && 0 <= y.sink.lastEmpty
    ensures 0 <= Budget(sc, y) < Refill(sc)
  {
  }

  lemma LastEmptyAt(sc: Config, oc: Settings, start: int, rs: seq<Rollout>, live: seq<int>, m: nat)
    requires sc.Valid() && Arrivals(sc, rs) && |live| == |rs| && m <= |rs|
    ensures 0 <= At(sc, oc, start, rs, live, m).sink.lastEmpty
  {
    ArrivalsTake(sc, rs, m);
    hide Drive, Bounded, Arrivals;
    assert TrainSinkRuns.Inv(sc, Drive(sc, oc, start, rs[..m], live[..m]).sink);
  }

  /** How many batches a run returns without shipping or aborting is fixed by how many cohorts the
      post-batch filters drop whole: at least that many, and fewer than ten times the target for
      each of them and once more. */
  lemma {:induction false} EmptyBatchesBounded(sc: Config, oc: Settings, start: int, rs: seq<Rollout>, live: seq<int>, k: nat, m: nat)
    requires sc.Valid() && Arrivals(sc, rs) && |live| == |rs| && k <= m <= |rs|
    requires Collecting(oc, At(sc, oc, start, rs, live, m).orch) && Barren(sc, rs, k, m)
    ensures Filters(sc, rs, k, m) <= Batches(sc, rs, k, m)
            < MAX_CONSECUTIVE_EMPTY_BATCHES * sc.target.n * (1 + Filters(sc, rs, k, m))
  {
    hide At, Arrivals, Collecting, Budget, Returned, SampleFree;
    StretchSpends(sc, oc, start, rs, live, k, m);
    LastEmptyAt(sc, oc, start, rs, live, k);
    LastEmptyAt(sc, oc, start, rs, live, m);
    BudgetRange(sc, oc, At(sc, oc, start, rs, live, k));
    BudgetRange(sc, oc, At(sc, oc, start, rs, live, m));
    MulNext(Filters(sc, rs, k, m), Refill(sc));
  }

  /** While some rollout of every popped cohort survives, the limit stops the run. */
  lemma {:induction false} UnfilteredBounded(sc: Config, oc: Settings, start: int, rs: seq<Rollout>, live: seq<int>, k: nat, m: nat)
    requires sc.Valid() && Arrivals(sc, rs) && |live| == |rs| && k <= m <= |rs|
    requires Collecting(oc, At(sc, oc, start, rs, live, m).orch) && Barren(sc, rs, k, m)
    requires forall i | k <= i < m :: !Filtered(sc, Returned(sc, rs, i))
    ensures Batches(sc, rs, k, m) < MAX_CONSECUTIVE_EMPTY_BATCHES * sc.target.n
  {
    hide At, Arrivals, Collecting, Returned, Filtered, Barren;
    EmptyBatchesBounded(sc, oc, start, rs, live, k, m);
    NoFilters(sc, rs, k, m);
  }

  lemma {:induction false} NoFilters(sc: Config, rs: seq<Rollout>, k: nat, m: nat)
    requires sc.Valid() && Arrivals(sc, rs) && k <= m <= |rs|
    requires forall i | k <= i < m :: !Filtered(sc, Returned(sc, rs, i))
    ensures Filters(sc, rs, k, m) == 0
    decreases m - k
  {
    hide Arrivals, Returned, Filtered;
    if k < m { NoFilters(sc, rs, k, m - 1); }
  }

  // ---------------------------------------------------------------- why the filter condition is needed

  const FILTERED_TARGET := 2

  /** Count batches of two, an accounting limit of one, and a post-batch filter that drops everything. */
  function FilterAll(): Config {
    Config(Rollouts(FILTERED_TARGET), 1, map["env" := EnvSpec(1, false, 1, false)], (r: Rollout) => false, (r: Rollout) => true)
  }

  /** Arrivals that repeat: trainable, errored, trainable. */
  function Cycle(i: nat): Rollout {
    if i % 3 == 1 then Rollout(i, i, "env", true, [], 0, None) else Rollout(i, i, "env", false, [i], 1, None)
  }

  function Cycles(n: nat): (rs: seq<Rollout>)
    ensures |rs| == 3 * n && forall i | 0 <= i < |rs| :: rs[i] == Cycle(i)
  {
    seq(3 * n, i requires 0 <= i => Cycle(i))
  }

  /** The sink between two cycles, after the first and after the second arrival of one. */
  ghost predicate AtRest(y: System) {
    && y.sink.pendingRollouts == [] && y.sink.pendingGroups == map[] && y.sink.pendingBatch == [] && y.sink.lastEmpty == 0
    && y.orch.consecutive <= 1 && !y.orch.aborted && !y.orch.draining && y.orch.sent == []
  }

  ghost predicate HoldsOne(y: System, x: Rollout, counted: int) {
    && y.sink.pendingRollouts == [x] && y.sink.pendingGroups == map[] && y.sink.pendingBatch == [x] && y.sink.lastEmpty == counted
    && y.orch.consecutive <= 1 - counted && !y.orch.aborted && !y.orch.draining && y.orch.sent == []
  }

  /** An arrival completes its own group, and is queued when it is trainable. */
  lemma {:induction false} SingleArrives(s: State, x: Rollout)
    requires s.pendingGroups == map[] && x.env == "env"
    ensures var t := Arrive(FilterAll(), s, x);
            t == s.(pendingRollouts := s.pendingRollouts + [x], pendingGroups := map[],
                    pendingBatch := s.pendingBatch + (if Usable(x) then [x] else []),
                    pendingTokens := t.pendingTokens, arrived := t.arrived, accepted := t.accepted)
  {
    var sc := FilterAll();
    assert GroupWith(s, x) == [x] && Completes(sc, s, x);
    SingleAccepted(x);
    hide Accept, GroupWith, Completes, Usable;
  }

  lemma {:induction false} SingleAccepted(x: Rollout)
    ensures Accept(FilterAll(), EnvSpec(1, false, 1, false), [x]) == if Usable(x) then [x] else []
  {
    var sc := FilterAll();
    assert [x][..0] == [] && Keep([], Usable) == [] && Drop([], sc.pre) == [];
    assert Keep([x], Usable) == (if Usable(x) then [x] else []) && Drop([x], sc.pre) == [x];
  }

  /** A sink that holds one queued rollout has nothing settled; with an errored one behind it, that
      one is. */
  lemma OneQueued(t: State, x: Rollout)
    requires t.pendingBatch == [x] && t.pendingRollouts == [x] && t.pendingGroups == map[]
    ensures Settled(t) == []
  {
    assert x in t.pendingBatch && x.id in RetainedIds(t);
    assert Outside([x][..0], RetainedIds(t)) == [];
    assert Outside([x], RetainedIds(t)) == [];
  }

  lemma OneSettled(t: State, x: Rollout, e: Rollout)
    requires t.pendingBatch == [x] && t.pendingRollouts == [x, e] && t.pendingGroups == map[] && x.id != e.id
    ensures Settled(t) == [e] && Unsettled(t) == [x]
  {
    var ids := RetainedIds(t);
    assert x in t.pendingBatch && ids == {x.id};
    assert [x, e][..1] == [x] && [x][..0] == [];
    assert Outside([], ids) == [] && Inside([], ids) == [];
    assert Outside([x], ids) == [] && Inside([x], ids) == [x];
  }

  lemma {:induction false} FirstQueued(s: State, i: nat)
    requires s.pendingRollouts == [] && s.pendingGroups == map[] && s.pendingBatch == [] && i % 3 == 0
    ensures var t := Arrive(FilterAll(), s, Cycle(i));
            && t.pendingBatch == [Cycle(i)] && t.pendingRollouts == [Cycle(i)] && t.pendingGroups == map[]
            && t.lastEmpty == s.lastEmpty
  {
    SingleArrives(s, Cycle(i));
    hide Arrive, Cycle;
  }

  lemma FirstOfCycle(oc: Settings, y: System, i: nat, live: int)
    requires oc.maxSteps.None? && oc.warmup.None? && AtRest(y) && i % 3 == 0
    ensures HoldsOne(Turn(FilterAll(), oc, y, Cycle(i), live), Cycle(i), 0) && Add(FilterAll(), y.sink, Cycle(i)).1.None?
  {
    FirstQueued(y.sink, i);
    hide Arrive, Settled, Unsettled;
    OneQueued(Arrive(FilterAll(), y.sink, Cycle(i)), Cycle(i));
  }

  lemma SecondOfCycle(oc: Settings, y: System, x: Rollout, i: nat, live: int)
    requires oc.maxSteps.None? && oc.warmup.None? && HoldsOne(y, x, 0) && i % 3 == 1 && x.id != i
    ensures HoldsOne(Turn(FilterAll(), oc, y, Cycle(i), live), x, 1)
    ensures var b := Add(FilterAll(), y.sink, Cycle(i)).1; b.Some? && b.value.samples == []
  {
    SingleArrives(y.sink, Cycle(i));
    assert [x] + [Cycle(i)] == [x, Cycle(i)] && [x] + [] == [x];
    hide Arrive, Settled, Unsettled;
    OneSettled(Arrive(FilterAll(), y.sink, Cycle(i)), x, Cycle(i));
  }

  lemma {:induction false} PairDropped(x: Rollout, g: Rollout)
    ensures SamplesOf(Drop([x, g], FilterAll().post)) == [] && Cut(FilterAll(), [x, g]) == 2
  {
    var sc := FilterAll();
    assert [x, g][..1] == [x] && [x][..0] == [] && Drop([], sc.post) == [];
    assert Drop([x], sc.post) == [];
  }

  lemma {:induction false} AllSettled(u: State, x: Rollout, g: Rollout)
    requires u.pendingBatch == [] && u.pendingRollouts == [x, g] && u.pendingGroups == map[]
    ensures Settled(u) == [x, g] && Unsettled(u) == []
  {
    assert RetainedIds(u) == {};
    assert [x, g][..1] == [x] && [x][..0] == [] && Outside([], {}) == [] && Inside([], {}) == [];
    assert Outside([x], {}) == [x] && Inside([x], {}) == [];
    assert Outside([x, g], {}) == [x, g] && Inside([x, g], {}) == [];
  }

  lemma {:induction false} FilteredPair(t: State, x: Rollout, g: Rollout)
    requires t.pendingBatch == [x, g] && t.pendingRollouts == [x, g] && t.pendingGroups == map[]
    ensures var (u, b) := ProcessBatch(FilterAll(), t);
            && u.pendingRollouts == [] && u.pendingGroups == map[] && u.pendingBatch == [] && u.lastEmpty == 0
            && b.samples == [] && !b.madeProgress
  {
    PairDropped(x, g);
    assert [x, g][..2] == [x, g] && [x, g][2..] == [];
    hide Cut, Drop, SamplesOf, Settled, Unsettled;
    AllSettled(PopCohort(FilterAll(), t), x, g);
  }

  lemma {:induction false} PairQueued(s: State, x: Rollout, i: nat)
    requires s.pendingRollouts == [x] && s.pendingGroups == map[] && s.pendingBatch == [x] && i % 3 == 2
    ensures var t := Arrive(FilterAll(), s, Cycle(i));
            t.pendingBatch == [x, Cycle(i)] && t.pendingRollouts == [x, Cycle(i)] && t.pendingGroups == map[]
  {
    SingleArrives(s, Cycle(i));
    hide Arrive;
    assert [x] + [Cycle(i)] == [x, Cycle(i)];
  }

  lemma ThirdOfCycle(oc: Settings, y: System, x: Rollout, i: nat, live: int)
    requires oc.maxSteps.None? && oc.warmup.None? && HoldsOne(y, x, 1) && i % 3 == 2
    ensures AtRest(Turn(FilterAll(), oc, y, Cycle(i), live))
    ensures var b := Add(FilterAll(), y.sink, Cycle(i)).1; b.Some? && b.value.samples == []
  {
    hide Arrive, ProcessBatch, Flush, Keep, Drop;
    PairQueued(y.sink, x, i);
    FilteredPair(Arrive(FilterAll(), y.sink, Cycle(i)), x, Cycle(i));
  }

  lemma CyclesArrive(n: nat)
    ensures FilterAll().Valid() && Arrivals(FilterAll(), Cycles(n))
  {
  }

  lemma AtZero(sc: Config, oc: Settings, start: int, rs: seq<Rollout>, live: seq<int>)
    requires sc.Valid() && Arrivals(sc, rs) && |live| == |rs|
    ensures At(sc, oc, start, rs, live, 0) == System(EMPTY, Start(start))
  {
    ArrivalsTake(sc, rs, 0);
    assert rs[..0] == [];
    DriveEmpty(sc, oc, start, rs[..0], live[..0]);
  }

  lemma AtNext(sc: Config, oc: Settings, start: int, rs: seq<Rollout>, live: seq<int>, m: nat)
    requires sc.Valid() && Arrivals(sc, rs) && |live| == |rs| && m < |rs|
    ensures var y := At(sc, oc, start, rs, live, m);
            && rs[m].env in sc.envs && GroupWith(y.sink, rs[m])[0].env in sc.envs
            && At(sc, oc, start, rs, live, m + 1) == Turn(sc, oc, y, rs[m], live[m])
            && Returned(sc, rs, m) == Add(sc, y.sink, rs[m]).1
  {
    ArrivalsTake(sc, rs, m + 1);
    ArrivalsTake(sc, rs, m);
    assert rs[..m + 1][..m] == rs[..m] && live[..m + 1][..m] == live[..m];
    hide TrainSinkRuns.Inv, Bounded, Drive, Add, Turn, GroupWith, Legal, Arrivals;
    DriveUnfold(sc, oc, start, rs[..m + 1], live[..m + 1]);
  }

  /** When every cohort is post-filtered the counter never reaches its limit: each cycle returns
      two sample-free batches, the first of which counts as progress.  However many cycles have
      passed, the run has neither shipped nor aborted. */
  lemma {:induction false} EndlessFiltering(n: nat, k: nat, live: seq<int>)
    requires |live| == 3 * n && k <= n
    ensures FilterAll().Valid() && Arrivals(FilterAll(), Cycles(n))
    ensures AtRest(At(FilterAll(), Settings(None, None), 1, Cycles(n), live, 3 * k))
    ensures Batches(FilterAll(), Cycles(n), 0, 3 * k) == 2 * k
  {
    CyclesArrive(n);
    var sc, oc, rs := FilterAll(), Settings(None, None), Cycles(n);
    hide FilterAll, At, Arrivals, Cycles, Returned, AtRest, HoldsOne, Turn, Add, Cycle;
    if k == 0 {
      AtZero(sc, oc, 1, rs, live);
      assert AtRest(System(EMPTY, Start(1))) by { RestAtStart(); }
    } else {
      EndlessFiltering(n, k - 1, live);
      CycleReturns(n, k - 1, live);
      var i := 3 * (k - 1);
      assert Batches(sc, rs, 0, i + 3) == Batches(sc, rs, 0, i + 2) + 1;
      assert Batches(sc, rs, 0, i + 2) == Batches(sc, rs, 0, i + 1) + 1;
      assert Batches(sc, rs, 0, i + 1) == Batches(sc, rs, 0, i);
    }
  }

  lemma RestAtStart()
    ensures AtRest(System(EMPTY, Start(1)))
  {
  }

  lemma CycleReturns(n: nat, k: nat, live: seq<int>)
    requires |live| == 3 * n && k < n && FilterAll().Valid() && Arrivals(FilterAll(), Cycles(n))
    requires AtRest(At(FilterAll(), Settings(None, None), 1, Cycles(n), live, 3 * k))
    ensures Returned(FilterAll(), Cycles(n), 3 * k).None?
    ensures Returned(FilterAll(), Cycles(n), 3 * k + 1).Some? && Returned(FilterAll(), Cycles(n), 3 * k + 2).Some?
    ensures AtRest(At(FilterAll(), Settings(None, None), 1, Cycles(n), live, 3 * k + 3))
  {
    hide FilterAll, At, Arrivals, Cycles, Returned, AtRest, HoldsOne, Turn, Add, GroupWith;
    var sc, oc, rs, i := FilterAll(), Settings(None, None), Cycles(n), 3 * k;
    assert Cycle(i).id != i + 1;
    hide Cycle;
    AtNext(sc, oc, 1, rs, live, i);
    FirstOfCycle(oc, At(sc, oc, 1, rs, live, i), i, live[i]);
    AtNext(sc, oc, 1, rs, live, i + 1);
    SecondOfCycle(oc, At(sc, oc, 1, rs, live, i + 1), Cycle(i), i + 1, live[i + 1]);
    AtNext(sc, oc, 1, rs, live, i + 2);
    ThirdOfCycle(oc, At(sc, oc, 1, rs, live, i + 2), Cycle(i), i + 2, live[i + 2]);
  }
}
