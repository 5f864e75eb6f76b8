/** The pipeline end to end: dispatcher, queue, and both sinks, over every run. */
module Pipeline {
  import opened Common
  import opened Dispatch
  import opened DispatchInvariant
  import opened DispatchRuns
  import opened EvalSinkSpec
  import opened EvalPipeline
  import opened Grouping
  import Source = EvalSourceSpec

  // ---------------------------------------------------------------- what the sinks consume

  function Part(rs: seq<Rollout>, kind: Kind): (r: seq<Rollout>)
    ensures forall x | x in r :: x in rs && x.kind == kind
  {
    if rs == [] then []
    else Part(rs[..|rs| - 1], kind) + (if rs[|rs| - 1].kind == kind then [rs[|rs| - 1]] else [])
  }

  lemma {:induction false} PartSnoc(rs: seq<Rollout>, r: Rollout, kind: Kind)
    ensures Part(rs + [r], kind) == Part(rs, kind) + (if r.kind == kind then [r] else [])
  {
    assert (rs + [r])[..|rs|] == rs;
  }

  lemma {:induction false} PartCounts(store: seq<Group>, rs: seq<Rollout>, kind: Kind, g: Gid)
    requires RolloutsOk(store, rs) && g < |store|
    ensures CountOf(Part(rs, kind), g) == if store[g].kind == kind then CountOf(rs, g) else 0
  {
    if rs == [] {
      assert Part(rs, kind) == [];
    } else {
      var n := |rs| - 1;
      var front, r := rs[..n], rs[n];
      assert rs == front + [r] && RolloutOk(store, r);
      PartCounts(store, front, kind, g);
      hide Part, CountOf, RolloutsOk;
      PartStep(store, front, r, kind, g);
    }
  }

  lemma {:induction false} PartStep(store: seq<Group>, rs: seq<Rollout>, r: Rollout, kind: Kind, g: Gid)
    requires RolloutOk(store, r) && g < |store|
    requires CountOf(Part(rs, kind), g) == if store[g].kind == kind then CountOf(rs, g) else 0
    ensures CountOf(Part(rs + [r], kind), g) == if store[g].kind == kind then CountOf(rs + [r], g) else 0
  {
    PartSnoc(rs, r, kind);
    hide Part, CountOf;
    CountOne(rs, r, g);
    if r.kind == kind {
      CountOne(Part(rs, kind), r, g);
    } else {
      assert Part(rs, kind) + [] == Part(rs, kind);
    }
  }

  lemma {:induction false} CountOfConcat(a: seq<Rollout>, b: seq<Rollout>, g: Gid)
    ensures CountOf(a + b, g) == CountOf(a, g) + CountOf(b, g)
  {
    if b == [] {
      assert a + b == a;
    } else {
      assert (a + b)[..|a + b| - 1] == a + b[..|b| - 1];
      CountOfConcat(a, b[..|b| - 1], g);
    }
  }

  lemma OkPrefix(store: seq<Group>, a: seq<Rollout>, b: seq<Rollout>)
    requires RolloutsOk(store, a + b)
    ensures RolloutsOk(store, a)
  {
    forall i | 0 <= i < |a| ensures RolloutOk(store, a[i]) { assert (a + b)[i] == a[i] && RolloutOk(store, (a + b)[i]); }
  }

  lemma {:induction false} OkPart(store: seq<Group>, rs: seq<Rollout>, kind: Kind)
    requires RolloutsOk(store, rs)
    ensures RolloutsOk(store, Part(rs, kind))
  {
    var ps := Part(rs, kind);
    forall i | 0 <= i < |ps| ensures RolloutOk(store, ps[i]) {
      assert ps[i] in ps;
      var j :| 0 <= j < |rs| && rs[j] == ps[i];
      assert RolloutOk(store, rs[j]);
    }
  }

  /** No run consumes more of a group than its size, and every consumed rollout carries what its
      group captured. */
  lemma {:induction false} ConsumedCapped(cfg: Config, v: int, es: seq<Event>)
    requires cfg.Valid() && Runs(cfg, Init(v), es)
    ensures var s := After(cfg, v, es); RolloutsOk(s.store, s.consumed) && Capped(s.store, s.consumed) && StoreOk(cfg, s.store)
  {
    Reached(cfg, v, es);
    var s := After(cfg, v, es);
    assert Ledger(s.store, s.groups, s.inflight, s.loop, s.watcher, s.log, s.lost);
    assert RolloutsOk(s.store, s.log) && s.consumed + s.queue == s.log;
    OkPrefix(s.store, s.consumed, s.queue);
    hide Shape, Agree, Live, Permits, Staleness, Gate, Rows, RolloutsOk, Owing, StoreOk;
    forall g: Gid | g < |s.store| ensures CountOf(s.consumed, g) <= s.store[g].target {
      CountOfConcat(s.consumed, s.queue, g);
    }
  }

  /** All of a group has been consumed exactly when nothing of it is still owed, none of it waits in
      the queue and no event of the run lost any of it. */
  lemma {:induction false} ConsumedAll(cfg: Config, v: int, es: seq<Event>, g: Gid)
    requires cfg.Valid() && Runs(cfg, Init(v), es) && g < |After(cfg, v, es).store|
    ensures var s := After(cfg, v, es);
            CountOf(s.consumed, g) == s.store[g].target
            <==> OwingIn(s, g) == 0 && CountOf(s.queue, g) == 0 && !RunLoses(cfg, Init(v), es, g)
  {
    Reached(cfg, v, es);
    LostIff(cfg, v, es, g);
    var s := After(cfg, v, es);
    assert Ledger(s.store, s.groups, s.inflight, s.loop, s.watcher, s.log, s.lost) && s.consumed + s.queue == s.log;
    hide Inv, After, Runs, RunLoses, CountOf, Owing;
    CountOfConcat(s.consumed, s.queue, g);
  }

  lemma {:induction false} PartCapped(store: seq<Group>, rs: seq<Rollout>, kind: Kind)
    requires RolloutsOk(store, rs) && Capped(store, rs)
    ensures Capped(store, Part(rs, kind))
  {
    hide RolloutsOk, CountOf, Part;
    forall g: Gid | g < |store| ensures CountOf(Part(rs, kind), g) <= store[g].target { PartCounts(store, rs, kind, g); }
  }

  // ---------------------------------------------------------------- epochs and rows

  function CountRow(rows: seq<Row>, row: Row): nat {
    if rows == [] then 0 else CountRow(rows[..|rows| - 1], row) + (if rows[|rows| - 1] == row then 1 else 0)
  }

  lemma {:induction false} CountRowConcat(a: seq<Row>, b: seq<Row>, row: Row)
    ensures CountRow(a + b, row) == CountRow(a, row) + CountRow(b, row)
  {
    if b == [] {
      assert a + b == a;
    } else {
      assert (a + b)[..|a + b| - 1] == a + b[..|b| - 1];
      CountRowConcat(a, b[..|b| - 1], row);
    }
  }

  /** The dispatcher's view of the source's rows. */
  function Erased(rows: seq<Source.EvalRow>): seq<Row> {
    if rows == [] then []
    else Erased(rows[..|rows| - 1]) + [Row(rows[|rows| - 1].env, rows[|rows| - 1].evalStep)]
  }

  lemma {:induction false} ErasedCounts(rows: seq<Source.EvalRow>, env: string, step: int)
    ensures CountRow(Erased(rows), Row(env, step)) == Source.CountEnv(rows, env, step)
  {
    if rows != [] {
      var n := |rows| - 1;
      ErasedCounts(rows[..n], env, step);
      CountRowConcat(Erased(rows[..n]), [Row(rows[n].env, rows[n].evalStep)], Row(env, step));
    }
  }

  /** The groups of an epoch are its opened rows. */
  lemma {:induction false} GroupsAreRows(cfg: Config, store: seq<Group>, k: Key, n: nat)
    requires n <= |store| && StoreOk(cfg, store)
    ensures Groups(store, k, n) == if k.evalStep.Some? then CountRow(OpenedRows(store[..n]), Row(k.env, k.evalStep.value)) else 0
  {
    if n > 0 {
      GroupsAreRows(cfg, store, k, n - 1);
      var g := store[n - 1];
      assert store[..n][..n - 1] == store[..n - 1];
      if k.evalStep.Some? {
        CountRowConcat(OpenedRows(store[..n - 1]), if g.kind.Eval? && g.evalStep.Some? then [Row(g.env, g.evalStep.value)] else [],
                       Row(k.env, k.evalStep.value));
      }
    }
  }

  /** The sink of a configuration, its batch sizes taken from the source's examples. */
  function SinkFor(cfg: Config, envs: seq<Source.EvalEnv>): SinkConfig {
    SinkConfig(map e | e in cfg.eval :: cfg.eval[e].groupSize, map e | e in cfg.eval :: Source.ExamplesOf(envs, e))
  }

  /** The rows queued so far are those of source triggers at increasing steps. */
  ghost predicate FromSource(triggered: seq<Row>, envs: seq<Source.EvalEnv>, first: bool, skipFirst: bool, steps: seq<int>)
    requires Source.ValidEnvs(envs)
  {
    Source.Increasing(steps) && triggered == Erased(Source.Queued(envs, first, skipFirst, steps))
  }

  /** A trigger that fires no environment leaves the dispatcher alone. */
  predicate Silent(envs: seq<Source.EvalEnv>, first: bool, skipFirst: bool, step: int)
    requires forall i | 0 <= i < |envs| :: 1 <= envs[i].interval
  {
    (first && skipFirst) || Source.Fired(envs, first, step) == []
  }

  /** The orchestrator pokes the source once at the start and once after each shipment, at the step
      it then collects; `due` says that the poke at `step` is still to come.  The eval rows of a run
      come from these pokes alone. */
  ghost predicate Pokes(es: seq<Event>, envs: seq<Source.EvalEnv>, first: bool, skipFirst: bool, step: int, due: bool)
    requires Source.ValidEnvs(envs)
    decreases |es|
  {
    es == [] ||
    match es[0]
    case Ship => (due ==> Silent(envs, first, skipFirst, step)) && Pokes(es[1..], envs, first && !due, skipFirst, step + 1, true)
    case TriggerEval(rows) =>
      && due && !Silent(envs, first, skipFirst, step)
      && rows == Erased(Source.Epoch(envs, first, skipFirst, step))
      && Pokes(es[1..], envs, false, skipFirst, step, false)
    case _ => Pokes(es[1..], envs, first, skipFirst, step, due)
  }

  lemma {:induction false} ErasedConcat(a: seq<Source.EvalRow>, b: seq<Source.EvalRow>)
    ensures Erased(a + b) == Erased(a) + Erased(b)
  {
    if b == [] {
      assert a + b == a;
    } else {
      assert (a + b)[..|a + b| - 1] == a + b[..|b| - 1];
      ErasedConcat(a, b[..|b| - 1]);
    }
  }

  lemma SourceGrows(triggered: seq<Row>, envs: seq<Source.EvalEnv>, first: bool, skipFirst: bool, steps: seq<int>, step: int)
    requires Source.ValidEnvs(envs) && FromSource(triggered, envs, first, skipFirst, steps)
    requires forall i | 0 <= i < |steps| :: steps[i] < step
    ensures var rows := Erased(Source.Epoch(envs, first && steps == [], skipFirst, step));
            && FromSource(triggered + rows, envs, first, skipFirst, steps + [step])
            && (Silent(envs, first && steps == [], skipFirst, step) ==> rows == [])
  {
    hide Erased;
    assert (steps + [step])[..|steps|] == steps;
    ErasedConcat(Source.Queued(envs, first, skipFirst, steps), Source.Epoch(envs, first && steps == [], skipFirst, step));
    ErasedNone();
  }

  lemma ErasedNone()
    ensures Erased([]) == []
  {
  }

  lemma StepTriggers(cfg: Config, s: State, e: Event)
    requires cfg.Valid() && Shape(cfg, s) && Enabled(cfg, s, e)
    ensures var t := Step(cfg, s, e);
            && t.step == s.step + (if e.Ship? then 1 else 0)
            && t.triggered == s.triggered + (if e.TriggerEval? then e.rows else [])
  {
    StepFrame(cfg, s, e);
    assert s.triggered + [] == s.triggered;
    hide Shape, Enabled, FillStep, SelectedStep, LimiterStep, CompleteStep, LoopEmitStep, LoopPutStep, PendingStep, DropStep, DropEmitStep,
         DropPutStep, SweepStep, DrainStep, SameIds;
  }

  /** Every trigger of the run happens at a later step than the one before it. */
  lemma {:induction false} RunTriggers(cfg: Config, s: State, es: seq<Event>, envs: seq<Source.EvalEnv>, first: bool, skipFirst: bool,
                                       before: seq<int>, due: bool) returns (steps: seq<int>)
    requires cfg.Valid() && Runs(cfg, s, es) && Source.ValidEnvs(envs)
    requires Pokes(es, envs, first && before == [], skipFirst, s.step, due)
    requires FromSource(s.triggered, envs, first, skipFirst, before)
    requires (forall i | 0 <= i < |before| :: before[i] <= s.step) && (due ==> forall i | 0 <= i < |before| :: before[i] < s.step)
    requires !due ==> before != []
    ensures FromSource(Run(cfg, s, es).triggered, envs, first, skipFirst, steps)
    ensures s.step <= Run(cfg, s, es).step && before <= steps
    ensures forall at: int | s.step <= at < Run(cfg, s, es).step && (due || s.step < at) :: at in steps
    ensures forall at: int | at in steps && at !in before :: s.step <= at <= Run(cfg, s, es).step
    decreases |es|
  {
    hide FromSource, Source.Epoch, Erased, Silent, Source.ValidEnvs, Source.Fired, Step, Enabled, Shape;
    if es == [] {
      steps := before;
    } else {
      StepTriggers(cfg, s, es[0]);
      var e, t := es[0], Step(cfg, s, es[0]);
      var now := if due && (e.Ship? || e.TriggerEval?) then before + [s.step] else before;
      if now != before {
        SourceGrows(s.triggered, envs, first, skipFirst, before, s.step);
      }
      assert s.triggered + [] == s.triggered;
      steps := RunTriggers(cfg, t, es[1..], envs, first, skipFirst, now, if e.Ship? then true else if e.TriggerEval? then false else due);
      if now != before { assert now[|before|] == steps[|before|] == s.step; }
    }
  }

  /** Which epochs a run queues, row by row: at each step it has left behind, every example of exactly the
      environments that are due there; at the step it collects, those or (before the poke) none; at no other. */
  lemma {:induction false} RunEpochs(cfg: Config, v: int, es: seq<Event>, envs: seq<Source.EvalEnv>, first: bool, skipFirst: bool, j: nat, at: int)
    requires cfg.Valid() && Runs(cfg, Init(v), es) && j < |envs|
    requires Source.ValidEnvs(envs) && Pokes(es, envs, first, skipFirst, v + 1, true)
    ensures var s := After(cfg, v, es);
            var queued := CountRow(s.triggered, Row(envs[j].name, at));
            var whole := if Source.Due(envs[j], first && at == v + 1, skipFirst, at) then |envs[j].examples| else 0;
            && (v + 1 <= at < s.step ==> queued == whole)
            && (at == s.step ==> queued == whole || queued == 0)
            && (at < v + 1 || at > s.step ==> queued == 0)
  {
    assert FromSource(Init(v).triggered, envs, first, skipFirst, []);
    var steps := RunTriggers(cfg, Init(v), es, envs, first, skipFirst, [], true);
    var s := After(cfg, v, es);
    hide Pokes, Runs, Run, After, Source.Due, Source.ValidEnvs, Source.Queued, CountRow, Erased;
    ErasedCounts(Source.Queued(envs, first, skipFirst, steps), envs[j].name, at);
    if at in steps {
      var k :| 0 <= k < |steps| && steps[k] == at;
      if k > 0 { assert steps[0] in steps && steps[0] < at; }
      if at > v + 1 { assert v + 1 in steps; }
      Source.QueuedExact(envs, first, skipFirst, steps, k, j);
    } else {
      Source.LaterSteps(envs, first, skipFirst, steps, envs[j].name, at);
    }
  }

  lemma {:induction false} EpochGroups(cfg: Config, s: State, envs: seq<Source.EvalEnv>, first: bool, skipFirst: bool, steps: seq<int>, k: Key)
    requires Source.ValidEnvs(envs) && FromSource(s.triggered, envs, first, skipFirst, steps)
    requires StoreOk(cfg, s.store) && Rows(s.store, s.evalQueue, s.triggered)
    ensures Groups(s.store, k, |s.store|) <= Source.ExamplesOf(envs, k.env)
  {
    GroupsAreRows(cfg, s.store, k, |s.store|);
    if k.evalStep.Some? {
      var row := Row(k.env, k.evalStep.value);
      assert s.store[..|s.store|] == s.store;
      CountRowConcat(OpenedRows(s.store), s.evalQueue, row);
      ErasedCounts(Source.Queued(envs, first, skipFirst, steps), row.env, row.evalStep);
      Source.EpochsOnce(envs, first, skipFirst, steps, row.env, row.evalStep);
    }
  }

  /** Everything the eval sink relies on holds of what a run feeds it. */
  lemma RunContext(cfg: Config, v: int, es: seq<Event>, envs: seq<Source.EvalEnv>, first: bool, skipFirst: bool)
    requires cfg.Valid() && Runs(cfg, Init(v), es)
    requires Source.ValidEnvs(envs) && Pokes(es, envs, first, skipFirst, v + 1, true)
    ensures var s := After(cfg, v, es); Context(SinkFor(cfg, envs), s.store, Part(s.consumed, Eval))
  {
    ConsumedCapped(cfg, v, es);
    QueueIsFifo(cfg, v, es);
    var s, sc := After(cfg, v, es), SinkFor(cfg, envs);
    assert FromSource(Init(v).triggered, envs, first, skipFirst, []);
    var steps := RunTriggers(cfg, Init(v), es, envs, first, skipFirst, [], true);
    hide After, Inv, Runs, FromSource, Pokes;
    OkPart(s.store, s.consumed, Eval);
    PartCapped(s.store, s.consumed, Eval);
    KnownStore(cfg, envs, s.store);
    forall k: Key | sc.Knows(k.env) ensures Groups(s.store, k, |s.store|) <= sc.examples[k.env] {
      EpochGroups(cfg, s, envs, first, skipFirst, steps, k);
    }
    var ps := Part(s.consumed, Eval);
    forall i | 0 <= i < |ps| ensures ps[i].kind.Eval? { assert ps[i] in ps; }
  }

  lemma KnownStore(cfg: Config, envs: seq<Source.EvalEnv>, store: seq<Group>)
    requires cfg.Valid() && StoreOk(cfg, store)
    ensures Known(SinkFor(cfg, envs), store)
  {
  }

  /** A batch of exactly examples times group size rollouts, all stamped with its environment and step. */
  ghost predicate ExactBatch(cfg: Config, envs: seq<Source.EvalEnv>, b: EvalBatch) {
    && b.key.env in cfg.eval
    && |b.rollouts| == Source.ExamplesOf(envs, b.key.env) * cfg.eval[b.key.env].groupSize
    && forall j | 0 <= j < |b.rollouts| :: b.rollouts[j].env == b.key.env && b.rollouts[j].evalStep == b.key.evalStep
  }

  /** Batches are exact, no epoch has two, and an epoch with examples has one exactly when all of
      its rollouts are among the arrivals. */
  ghost predicate EpochsExact(cfg: Config, envs: seq<Source.EvalEnv>, rs: seq<Rollout>, bs: seq<EvalBatch>) {
    && (forall i | 0 <= i < |bs| :: ExactBatch(cfg, envs, bs[i]))
    && (forall i, j | 0 <= i < j < |bs| :: bs[i].key != bs[j].key)
    && (forall k: Key | k.env in cfg.eval && 1 <= Source.ExamplesOf(envs, k.env) ::
          (exists i | 0 <= i < |bs| :: bs[i].key == k)
          <==> CountKey(rs, k) == Source.ExamplesOf(envs, k.env) * cfg.eval[k.env].groupSize)
  }

  lemma BatchFields(cfg: Config, envs: seq<Source.EvalEnv>, b: EvalBatch)
    requires BatchOk(SinkFor(cfg, envs), b)
    ensures ExactBatch(cfg, envs, b)
  {
    forall j | 0 <= j < |b.rollouts| ensures b.rollouts[j].env == b.key.env && b.rollouts[j].evalStep == b.key.evalStep {
      assert KeyOf(b.rollouts[j]) == b.key;
    }
  }

  lemma {:induction false} SinkEpochs(cfg: Config, envs: seq<Source.EvalEnv>, store: seq<Group>, rs: seq<Rollout>)
    requires cfg.Valid() && Context(SinkFor(cfg, envs), store, rs)
    ensures var sc := SinkFor(cfg, envs);
            (forall i | 0 <= i < |rs| :: sc.Knows(rs[i].env)) && EpochsExact(cfg, envs, rs, Feed(sc, rs).batches)
  {
    var sc := SinkFor(cfg, envs);
    FeedKeeps(sc, store, rs);
    var bs := Feed(sc, rs).batches;
    assert BatchesOk(sc, bs);
    hide Context, SinkInv, Feed, ExactBatch, CountKey;
    forall i | 0 <= i < |bs| ensures ExactBatch(cfg, envs, bs[i]) { BatchFields(cfg, envs, bs[i]); }
    forall k: Key | k.env in cfg.eval && 1 <= Source.ExamplesOf(envs, k.env)
      ensures (exists i | 0 <= i < |bs| :: bs[i].key == k) <==> CountKey(rs, k) == Source.ExamplesOf(envs, k.env) * cfg.eval[k.env].groupSize
    {
      MulMono(1, Source.ExamplesOf(envs, k.env), cfg.eval[k.env].groupSize);
      BatchIff(sc, store, rs, k);
    }
  }

  /** Each (environment, step) epoch yields at most one batch; a batch holds exactly examples times
      group size rollouts, all stamped with that environment and step; and the batch has been
      returned exactly when that many rollouts of the epoch have been consumed. */
  lemma EvalEpochs(cfg: Config, v: int, es: seq<Event>, envs: seq<Source.EvalEnv>, first: bool, skipFirst: bool)
    requires cfg.Valid() && Runs(cfg, Init(v), es)
    requires Source.ValidEnvs(envs) && Pokes(es, envs, first, skipFirst, v + 1, true)
    ensures var rs, sc := Part(After(cfg, v, es).consumed, Eval), SinkFor(cfg, envs);
            (forall i | 0 <= i < |rs| :: sc.Knows(rs[i].env)) && EpochsExact(cfg, envs, rs, Feed(sc, rs).batches)
  {
    RunContext(cfg, v, es, envs, first, skipFirst);
    hide After, Inv, Runs, Pokes, Context, Feed, EpochsExact;
    SinkEpochs(cfg, envs, After(cfg, v, es).store, Part(After(cfg, v, es).consumed, Eval));
  }

  // ---------------------------------------------------------------- drained epochs

  lemma {:induction false} CountedRow(rows: seq<Row>, row: Row)
    ensures CountRow(rows, row) >= 1 <==> row in rows
  {
    if rows != [] {
      var n := |rows| - 1;
      CountedRow(rows[..n], row);
      assert rows == rows[..n] + [rows[n]];
    }
  }

  lemma {:induction false} RowGroup(store: seq<Group>, row: Row) returns (g: Gid)
    requires row in OpenedRows(store)
    ensures g < |store| && store[g].kind.Eval? && GroupKey(store[g]) == Key(row.env, Some(row.evalStep))
  {
    var n := |store| - 1;
    if row in OpenedRows(store[..n]) { g := RowGroup(store[..n], row); } else { g := n; }
  }

  lemma {:induction false} GroupRow(store: seq<Group>, g: Gid)
    requires g < |store| && store[g].kind.Eval? && store[g].evalStep.Some?
    ensures Row(store[g].env, store[g].evalStep.value) in OpenedRows(store)
  {
    if g < |store| - 1 { GroupRow(store[..|store| - 1], g); }
  }

  /** An epoch's groups are all whole exactly when it holds all it can hold. */
  lemma {:induction false} WholeIff(store: seq<Group>, rs: seq<Rollout>, k: Key, n: nat)
    requires n <= |store| && Capped(store, rs)
    ensures Arrived(store, rs, k, n) == Capacity(store, k, n)
            <==> forall g: Gid | g < n && InEpoch(store[g], k) :: CountOf(rs, g) == store[g].target
  {
    hide CountOf;
    if n > 0 {
      WholeIff(store, rs, k, n - 1);
      ClosedBounds(store, rs, k, n - 1);
    }
  }

  /** The epoch of a queued row has been returned as a batch. */
  ghost predicate Returned(bs: seq<EvalBatch>, row: Row) {
    exists i | 0 <= i < |bs| :: bs[i].key == Key(row.env, Some(row.evalStep))
  }

  /** Every group of a queued row's epoch is whole. */
  ghost predicate Whole(store: seq<Group>, rs: seq<Rollout>, row: Row) {
    forall g: Gid | g < |store| && InEpoch(store[g], Key(row.env, Some(row.evalStep))) :: CountOf(rs, g) == store[g].target
  }

  /** A queued epoch has as many groups as its environment has examples. */
  lemma {:induction false} QueuedGroups(cfg: Config, s: State, envs: seq<Source.EvalEnv>, first: bool, skipFirst: bool, steps: seq<int>, row: Row)
    requires Source.ValidEnvs(envs) && FromSource(s.triggered, envs, first, skipFirst, steps)
    requires StoreOk(cfg, s.store) && OpenedRows(s.store) == s.triggered && row in s.triggered
    ensures 1 <= Groups(s.store, Key(row.env, Some(row.evalStep)), |s.store|) == Source.ExamplesOf(envs, row.env)
  {
    hide Groups, CountRow, OpenedRows, Erased, StoreOk;
    assert s.store[..|s.store|] == s.store;
    GroupsAreRows(cfg, s.store, Key(row.env, Some(row.evalStep)), |s.store|);
    CountedRow(s.triggered, row);
    ErasedCounts(Source.Queued(envs, first, skipFirst, steps), row.env, row.evalStep);
    Source.EpochsOnce(envs, first, skipFirst, steps, row.env, row.evalStep);
  }

  lemma {:induction false} RowKnown(sc: SinkConfig, store: seq<Group>, rs: seq<Rollout>, row: Row)
    requires Context(sc, store, rs) && row in OpenedRows(store)
    ensures sc.Knows(row.env) && Capped(store, rs) && Known(sc, store)
  {
    var g := RowGroup(store, row);
    assert GroupKey(store[g]).env == row.env;
  }

  /** A queued epoch with all its groups has its batch exactly when each of them is whole. */
  lemma {:induction false} EpochWhole(sc: SinkConfig, store: seq<Group>, rs: seq<Rollout>, row: Row)
    requires Context(sc, store, rs) && (forall i | 0 <= i < |rs| :: sc.Knows(rs[i].env)) && row in OpenedRows(store)
    requires sc.Knows(row.env) && 1 <= sc.examples[row.env] == Groups(store, Key(row.env, Some(row.evalStep)), |store|)
    ensures Returned(Feed(sc, rs).batches, row) <==> Whole(store, rs, row)
  {
    var k := Key(row.env, Some(row.evalStep));
    RowKnown(sc, store, rs, row);
    var g := RowGroup(store, row);
    assert 1 <= sc.groupSize[row.env] by { assert GroupKey(store[g]).env == row.env; }
    assert RolloutsOk(store, rs) && forall i | 0 <= i < |rs| :: rs[i].kind.Eval?;
    hide Context, Feed, CountOf, Arrived, Capacity, Groups, CountKey, Capped, Known, RolloutsOk, OpenedRows;
    ArrivedCounts(store, rs, k);
    CapacityIs(sc, store, k, |store|);
    WholeIff(store, rs, k, |store|);
    MulMono(1, sc.examples[k.env], sc.groupSize[k.env]);
    BatchIff(sc, store, rs, k);
  }

  /** Every eval epoch that fired has been returned. */
  ghost predicate AllReturned(triggered: seq<Row>, bs: seq<EvalBatch>) {
    forall row | row in triggered :: Returned(bs, row)
  }

  lemma {:induction false} IdleReturned(cfg: Config, s: State, envs: seq<Source.EvalEnv>, first: bool, skipFirst: bool, steps: seq<int>, rs: seq<Rollout>)
    requires cfg.Valid() && Source.ValidEnvs(envs) && FromSource(s.triggered, envs, first, skipFirst, steps)
    requires StoreOk(cfg, s.store) && OpenedRows(s.store) == s.triggered
    requires Context(SinkFor(cfg, envs), s.store, rs) && forall i | 0 <= i < |rs| :: SinkFor(cfg, envs).Knows(rs[i].env)
    ensures AllReturned(s.triggered, Feed(SinkFor(cfg, envs), rs).batches)
            <==> forall g: Gid | g < |s.store| && s.store[g].kind.Eval? :: CountOf(rs, g) == s.store[g].target
  {
    var sc := SinkFor(cfg, envs);
    var bs := Feed(sc, rs).batches;
    hide Context, Feed, FromSource, Returned, Whole, Groups, OpenedRows, StoreOk, CountOf;
    forall row | row in s.triggered ensures Returned(bs, row) <==> Whole(s.store, rs, row) {
      QueuedGroups(cfg, s, envs, first, skipFirst, steps, row);
      RowKnown(sc, s.store, rs, row);
      EpochWhole(sc, s.store, rs, row);
    }
    WholeRows(cfg, s.store, rs);
  }

  lemma WholeRows(cfg: Config, store: seq<Group>, rs: seq<Rollout>)
    requires StoreOk(cfg, store)
    ensures (forall row | row in OpenedRows(store) :: Whole(store, rs, row))
            <==> forall g: Gid | g < |store| && store[g].kind.Eval? :: CountOf(rs, g) == store[g].target
  {
    hide CountOf, OpenedRows;
    forall g: Gid | g < |store| && store[g].kind.Eval?
      ensures store[g].evalStep.Some? && Row(store[g].env, store[g].evalStep.value) in OpenedRows(store)
    {
      GroupRow(store, g);
    }
    if forall row | row in OpenedRows(store) :: Whole(store, rs, row) {
      forall g: Gid | g < |store| && store[g].kind.Eval? ensures CountOf(rs, g) == store[g].target {
        assert Whole(store, rs, Row(store[g].env, store[g].evalStep.value));
      }
    }
  }

  /** What an idle dispatcher has delivered: every eval epoch that fired, also one fired just before
      training drained, has been returned as a batch if and only if no scheduler or handler is
      suspended with one of its rollouts and no event of the run lost any. */
  lemma IdleEpochs(cfg: Config, v: int, es: seq<Event>, envs: seq<Source.EvalEnv>, first: bool, skipFirst: bool)
    requires cfg.Valid() && Runs(cfg, Init(v), es) && Shape(cfg, After(cfg, v, es)) && IsIdle(After(cfg, v, es))
    requires Source.ValidEnvs(envs) && Pokes(es, envs, first, skipFirst, v + 1, true)
    ensures var s, sc := After(cfg, v, es), SinkFor(cfg, envs);
            var rs := Part(s.consumed, Eval);
            && (forall i | 0 <= i < |rs| :: sc.Knows(rs[i].env))
            && (AllReturned(s.triggered, Feed(sc, rs).batches)
                <==> EvalSettled(s) && forall g: Gid | g < |s.store| && s.store[g].kind.Eval? :: !RunLoses(cfg, Init(v), es, g))
  {
    RunContext(cfg, v, es, envs, first, skipFirst);
    ContextKnows(SinkFor(cfg, envs), After(cfg, v, es).store, Part(After(cfg, v, es).consumed, Eval));
    ConsumedCapped(cfg, v, es);
    QueueIsFifo(cfg, v, es);
    IdleMeansDrained(cfg, v, es);
    var s := After(cfg, v, es);
    assert s.evalQueue == [] && OpenedRows(s.store) + [] == OpenedRows(s.store);
    assert FromSource(Init(v).triggered, envs, first, skipFirst, []);
    var steps := RunTriggers(cfg, Init(v), es, envs, first, skipFirst, [], true);
    hide After, Inv, Runs, Pokes, Context, Feed, CountOf, EpochsExact, FromSource, OpenedRows, RunLoses, EvalSettled, IsIdle, Shape, Part, StoreOk, RolloutsOk;
    forall g: Gid | g < |s.store| && s.store[g].kind.Eval? ensures CountOf(Part(s.consumed, Eval), g) == CountOf(s.consumed, g) {
      PartCounts(s.store, s.consumed, Eval, g);
    }
    IdleReturned(cfg, s, envs, first, skipFirst, steps, Part(s.consumed, Eval));
  }

  // ---------------------------------------------------------------- finalized groups: eval

  lemma {:induction false} GidCounts(rs: seq<Rollout>, g: Gid)
    ensures CountGid(Gids(rs, GidOf), g) == CountOf(rs, g)
  {
    MembersCount(rs, GidOf, g);
    MembersAre(rs, g);
  }

  lemma {:induction false} GidsPrefix(rs: seq<Rollout>, i: nat)
    requires i <= |rs|
    ensures Gids(rs[..i], GidOf) == Gids(rs, GidOf)[..i]
  {
  }

  lemma {:induction false} ContextTake(sc: SinkConfig, store: seq<Group>, rs: seq<Rollout>, i: nat)
    requires Context(sc, store, rs) && i <= |rs|
    ensures Context(sc, store, rs[..i])
    decreases |rs|
  {
    hide Context;
    if i == |rs| {
      assert rs[..i] == rs;
    } else {
      ContextPrefix(sc, store, rs);
      assert rs[..|rs| - 1][..i] == rs[..i];
      ContextTake(sc, store, rs[..|rs| - 1], i);
    }
  }

  /** What the eval sink gathers when arrival `i` joins its group. */
  ghost function EvalGathers(sc: SinkConfig, rs: seq<Rollout>, i: nat): seq<Rollout>
    requires i < |rs| && forall j | 0 <= j < |rs| :: sc.Knows(rs[j].env)
  {
    GroupAt(Feed(sc, rs[..i]).pendingGroups, rs[i].gid) + [rs[i]]
  }

  ghost predicate EvalFinalizes(sc: SinkConfig, rs: seq<Rollout>, i: nat)
    requires i < |rs| && forall j | 0 <= j < |rs| :: sc.Knows(rs[j].env)
  {
    |EvalGathers(sc, rs, i)| >= sc.groupSize[rs[i].env]
  }

  lemma {:induction false} ContextAt(sc: SinkConfig, store: seq<Group>, rs: seq<Rollout>, i: nat)
    requires Context(sc, store, rs) && i < |rs|
    ensures rs[..i + 1] == rs[..i] + [rs[i]] && rs[i].gid < |store| && sc.Knows(rs[i].env)
    ensures CountOf(rs[..i], rs[i].gid) < store[rs[i].gid].target == sc.groupSize[rs[i].env]
    ensures CountOf(rs, rs[i].gid) <= store[rs[i].gid].target
  {
    hide *;
    var front, r := rs[..i + 1], rs[i];
    ContextGroup(sc, store, rs, i);
    ContextTake(sc, store, rs, i + 1);
    assert front[i] == r && front == rs[..i] + [r];
    CountOne(rs[..i], r, r.gid);
    ContextGroup(sc, store, front, i);
  }

  lemma {:induction false} ContextGroup(sc: SinkConfig, store: seq<Group>, rs: seq<Rollout>, i: nat)
    requires Context(sc, store, rs) && i < |rs|
    ensures var r := rs[i];
            r.gid < |store| && sc.Knows(r.env) && CountOf(rs, r.gid) <= store[r.gid].target == sc.groupSize[r.env]
  {
    hide CountOf, Groups;
    assert RolloutOk(store, rs[i]) && rs[i].kind.Eval? && sc.Knows(store[rs[i].gid].env);
  }

  /** What an arrival gathers is all that has arrived of its group. */
  lemma {:induction false} GathersMembers(sc: SinkConfig, store: seq<Group>, rs: seq<Rollout>, i: nat)
    requires Context(sc, store, rs) && i < |rs|
    ensures forall j | 0 <= j < |rs| :: sc.Knows(rs[j].env)
    ensures EvalGathers(sc, rs, i) == Members(rs[..i + 1], GidOf, rs[i].gid)
  {
    var ps := rs[..i];
    ContextKnows(sc, store, rs);
    ContextAt(sc, store, rs, i);
    ContextTake(sc, store, rs, i);
    hide Context, CountOf, Members;
    FeedKeeps(sc, store, ps);
    assert GroupsAgree(store, ps, GidOf, Feed(sc, ps).pendingGroups);
    hide SinkInv, Feed, GroupsAgree;
    Gathered(store, ps, rs[i], Feed(sc, ps).pendingGroups);
  }

  /** The sink finalizes a group at exactly the arrival that brings it to its size, and what it
      finalizes is every rollout of that group that ever arrives. */
  lemma {:induction false} EvalFinalizesAt(sc: SinkConfig, store: seq<Group>, rs: seq<Rollout>, i: nat)
    requires Context(sc, store, rs) && i < |rs|
    ensures forall j | 0 <= j < |rs| :: sc.Knows(rs[j].env)
    ensures rs[i].gid < |store|
    ensures EvalFinalizes(sc, rs, i) <==> Nth(Gids(rs, GidOf), i, store[rs[i].gid].target)
    ensures EvalFinalizes(sc, rs, i) ==>
              EvalGathers(sc, rs, i) == Members(rs, GidOf, rs[i].gid) && CountOf(rs, rs[i].gid) == store[rs[i].gid].target
  {
    var g := rs[i].gid;
    ContextAt(sc, store, rs, i);
    GathersMembers(sc, store, rs, i);
    hide Context, CountOf, Members, CountGid, Gids, EvalGathers;
    MembersCount(rs[..i + 1], GidOf, g);
    GidsPrefix(rs, i + 1);
    GidCounts(rs, g);
    MembersAre(rs, g);
    CountGidMono(Gids(rs, GidOf), g, i + 1);
    if EvalFinalizes(sc, rs, i) { MembersAll(rs, GidOf, g, i + 1); }
  }

  /** One policy version, one environment, one kind and one eval step per finalized group. */
  ghost predicate OneGroup(store: seq<Group>, g: Gid, members: seq<Rollout>) {
    g < |store| && |members| == store[g].target && forall i | 0 <= i < |members| :: members[i].gid == g && RolloutOk(store, members[i])
  }

  lemma {:induction false} MembersOneGroup(store: seq<Group>, rs: seq<Rollout>, g: Gid)
    requires RolloutsOk(store, rs) && g < |store| && CountOf(rs, g) == store[g].target
    ensures OneGroup(store, g, Members(rs, GidOf, g))
  {
    MembersAre(rs, g);
    var ms := Members(rs, GidOf, g);
    forall i | 0 <= i < |ms| ensures ms[i].gid == g && RolloutOk(store, ms[i]) {
      assert ms[i] in ms;
      var j :| 0 <= j < |rs| && rs[j] == ms[i];
      assert RolloutOk(store, rs[j]);
    }
  }

  /** Every finalized eval group has exactly its size and its captured fields, no group is
      finalized twice, and a group is finalized exactly when all of it has arrived. */
  ghost predicate EvalOnce(sc: SinkConfig, store: seq<Group>, rs: seq<Rollout>) {
    && (forall j | 0 <= j < |rs| :: sc.Knows(rs[j].env))
    && (forall i | 0 <= i < |rs| && EvalFinalizes(sc, rs, i) :: OneGroup(store, rs[i].gid, EvalGathers(sc, rs, i)))
    && (forall i, j | 0 <= i < j < |rs| && EvalFinalizes(sc, rs, i) && EvalFinalizes(sc, rs, j) :: rs[i].gid != rs[j].gid)
    && (forall g: Gid | g < |store| && store[g].kind.Eval? ::
          CountOf(rs, g) == store[g].target <==> exists i | 0 <= i < |rs| :: rs[i].gid == g && EvalFinalizes(sc, rs, i))
  }

  lemma {:induction false} EvalIff(sc: SinkConfig, store: seq<Group>, rs: seq<Rollout>, g: Gid)
    requires Context(sc, store, rs) && g < |store| && store[g].kind.Eval?
    requires forall j | 0 <= j < |rs| :: sc.Knows(rs[j].env)
    ensures CountOf(rs, g) == store[g].target <==> exists i | 0 <= i < |rs| :: rs[i].gid == g && EvalFinalizes(sc, rs, i)
  {
    assert Known(sc, store) && 1 <= store[g].target;
    hide Context, EvalFinalizes, EvalGathers, Nth, CountOf, Members;
    GidCounts(rs, g);
    if CountOf(rs, g) == store[g].target {
      var i := NthExists(Gids(rs, GidOf), g, store[g].target);
      EvalFinalizesAt(sc, store, rs, i);
    } else {
      forall i | 0 <= i < |rs| && rs[i].gid == g ensures !EvalFinalizes(sc, rs, i) { EvalFinalizesAt(sc, store, rs, i); }
    }
  }

  lemma SinkEvalOnce(sc: SinkConfig, store: seq<Group>, rs: seq<Rollout>)
    requires Context(sc, store, rs)
    ensures EvalOnce(sc, store, rs)
  {
    ContextKnows(sc, store, rs);
    assert RolloutsOk(store, rs);
    hide Context, EvalFinalizes, EvalGathers, RolloutsOk, Nth, CountOf, Members, OneGroup;
    forall i | 0 <= i < |rs| && EvalFinalizes(sc, rs, i) ensures OneGroup(store, rs[i].gid, EvalGathers(sc, rs, i)) {
      EvalFinalizesAt(sc, store, rs, i);
      MembersOneGroup(store, rs, rs[i].gid);
    }
    forall i, j | 0 <= i < j < |rs| && EvalFinalizes(sc, rs, i) && EvalFinalizes(sc, rs, j) ensures rs[i].gid != rs[j].gid {
      EvalFinalizesAt(sc, store, rs, i);
      EvalFinalizesAt(sc, store, rs, j);
      if rs[i].gid == rs[j].gid { NthUnique(Gids(rs, GidOf), i, j, store[rs[i].gid].target); }
    }
    forall g: Gid | g < |store| && store[g].kind.Eval?
      ensures CountOf(rs, g) == store[g].target <==> exists i | 0 <= i < |rs| :: rs[i].gid == g && EvalFinalizes(sc, rs, i)
    {
      EvalIff(sc, store, rs, g);
    }
  }

  /** Over every run, the eval sink finalizes an opened group at most once and then whole; it has
      finalized it exactly when the dispatcher owes nothing of it, none of it is queued and no
      event of the run lost any of it. */
  lemma EvalGroupsOnce(cfg: Config, v: int, es: seq<Event>, envs: seq<Source.EvalEnv>, first: bool, skipFirst: bool)
    requires cfg.Valid() && Runs(cfg, Init(v), es)
    requires Source.ValidEnvs(envs) && Pokes(es, envs, first, skipFirst, v + 1, true)
    ensures var s, sc := After(cfg, v, es), SinkFor(cfg, envs);
            var rs := Part(s.consumed, Eval);
            && EvalOnce(sc, s.store, rs)
            && forall g: Gid | g < |s.store| && s.store[g].kind.Eval? ::
                 (exists i | 0 <= i < |rs| :: rs[i].gid == g && EvalFinalizes(sc, rs, i))
                 <==> OwingIn(s, g) == 0 && CountOf(s.queue, g) == 0 && !RunLoses(cfg, Init(v), es, g)
  {
    RunContext(cfg, v, es, envs, first, skipFirst);
    ConsumedCapped(cfg, v, es);
    var s, sc := After(cfg, v, es), SinkFor(cfg, envs);
    hide After, Inv, Runs, Pokes, Context, EvalFinalizes, EvalGathers, OneGroup, RunLoses, CountOf, OwingIn, RolloutsOk, Part, Capped;
    SinkEvalOnce(sc, s.store, Part(s.consumed, Eval));
    forall g: Gid | g < |s.store| && s.store[g].kind.Eval?
      ensures CountOf(Part(s.consumed, Eval), g) == s.store[g].target
              <==> OwingIn(s, g) == 0 && CountOf(s.queue, g) == 0 && !RunLoses(cfg, Init(v), es, g)
    {
      ConsumedAll(cfg, v, es, g);
      PartCounts(s.store, s.consumed, Eval, g);
    }
  }
}
