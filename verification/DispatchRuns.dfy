/** Theorems about whole runs of the dispatcher: any interleaving of the three coroutines. */
module DispatchRuns {
  import opened Common
  import opened Dispatch
  import opened DispatchInvariant
  import opened DispatchSafety
  import opened DispatchDrop

  predicate OfLoop(e: Event) {
    e.Fill? || e.ClientSelected? || e.LimiterPassed? || e.Complete? || e.LoopEmit? || e.LoopPut?
  }

  predicate OfWatcher(e: Event) {
    e.VersionPending? || e.DropGroup? || e.DropEmit? || e.DropPut? || e.SweepUnscheduled? || e.DropDone? || e.Adopt?
  }

  lemma LoopStepKeeps(cfg: Config, s: State, e: Event)
    requires cfg.Valid() && Shape(cfg, s) && Inv(cfg, s) && Enabled(cfg, s, e) && OfLoop(e)
    ensures Inv(cfg, Step(cfg, s, e))
  {
    hide Inv, FillStep, SelectedStep, LimiterStep, CompleteStep, LoopEmitStep, LoopPutStep;
    match e
    case Fill(pick) => FillKeeps(cfg, s, pick);
    case ClientSelected => SelectedKeeps(cfg, s);
    case LimiterPassed => LimiterKeeps(cfg, s, LimiterStep(s));
    case Complete(task, outcome) => CompleteKeeps(cfg, s, task, outcome);
    case LoopEmit => LoopEmitKeeps(cfg, s);
    case LoopPut => LoopPutKeeps(cfg, s, LoopPutStep(s));
    case _ => assert false;
  }

  lemma WatcherStepKeeps(cfg: Config, s: State, e: Event)
    requires cfg.Valid() && Shape(cfg, s) && Inv(cfg, s) && Enabled(cfg, s, e) && OfWatcher(e)
    ensures Inv(cfg, Step(cfg, s, e))
  {
    hide Inv, PendingStep, DropStep, DropEmitStep, DropPutStep, SweepStep, AdoptStep;
    match e
    case VersionPending(next) => PendingKeeps(cfg, s, PendingStep(cfg, s, next), next);
    case DropGroup(gid) => DropKeeps(cfg, s, DropStep(s, gid), gid);
    case DropEmit => DropEmitKeeps(cfg, s);
    case DropPut => DropPutKeeps(cfg, s);
    case SweepUnscheduled => SweepKeeps(cfg, s, SweepStep(s));
    case DropDone => DoneKeeps(cfg, s, s.(watcher := Dropping(s.watcher.next, s.watcher.stale)));
    case Adopt => AdoptKeeps(cfg, s, AdoptStep(s));
    case _ => assert false;
  }

  lemma StepKeeps(cfg: Config, s: State, e: Event)
    requires cfg.Valid() && Shape(cfg, s) && Inv(cfg, s) && Enabled(cfg, s, e)
    ensures Inv(cfg, Step(cfg, s, e))
  {
    hide Inv, ShipStep, DrainStep, Shape;
    if OfLoop(e) {
      LoopStepKeeps(cfg, s, e);
    } else if OfWatcher(e) {
      WatcherStepKeeps(cfg, s, e);
    } else {
      match e
      case Ship => ShipKeeps(cfg, s, ShipStep(s));
      case TriggerEval(rows) => TriggerKeeps(cfg, s, Step(cfg, s, e), rows);
      case Consume => ConsumeKeeps(cfg, s, Step(cfg, s, e));
      case DrainTraining => DrainKeeps(cfg, s, Step(cfg, s, e));
      case _ => assert false;
    }
  }

  /** The events can happen one after the other from `s`. */
  ghost predicate Runs(cfg: Config, s: State, es: seq<Event>)
    requires cfg.Valid()
    decreases |es|
  {
    es == [] || (Shape(cfg, s) && Enabled(cfg, s, es[0]) && Runs(cfg, Step(cfg, s, es[0]), es[1..]))
  }

  ghost function Run(cfg: Config, s: State, es: seq<Event>): State
    requires cfg.Valid() && Runs(cfg, s, es)
    decreases |es|
  {
    if es == [] then s else Run(cfg, Step(cfg, s, es[0]), es[1..])
  }

  /** The events lead from `s` to `t`. */
  ghost predicate Leads(cfg: Config, s: State, es: seq<Event>, t: State) {
    cfg.Valid() && Runs(cfg, s, es) && Run(cfg, s, es) == t
  }

  lemma {:induction false} RunKeeps(cfg: Config, s: State, es: seq<Event>)
    requires cfg.Valid() && Inv(cfg, s) && Runs(cfg, s, es)
    ensures Inv(cfg, Run(cfg, s, es))
    decreases |es|
  {
    hide Inv, Step, Enabled;
    if es != [] {
      StepKeeps(cfg, s, es[0]);
      RunKeeps(cfg, Step(cfg, s, es[0]), es[1..]);
    }
  }

  lemma InitInv(cfg: Config, v: int)
    requires cfg.Valid()
    ensures Inv(cfg, Init(v))
  {
  }

  /** The state after a run from a fresh or resumed start. */
  ghost function After(cfg: Config, v: int, es: seq<Event>): State
    requires cfg.Valid() && Runs(cfg, Init(v), es)
  {
    Run(cfg, Init(v), es)
  }

  /** Every reachable state satisfies the invariant. */
  lemma {:induction false} Reached(cfg: Config, v: int, es: seq<Event>)
    requires cfg.Valid() && Runs(cfg, Init(v), es)
    ensures Inv(cfg, After(cfg, v, es))
  {
    hide Inv, Runs, Run;
    InitInv(cfg, v);
    RunKeeps(cfg, Init(v), es);
  }

  ghost function OwingIn(s: State, g: Gid): nat
    requires g < |s.store|
  {
    Owing(s.store, s.groups, s.inflight, s.loop, s.watcher, g)
  }

  // ---------------------------------------------------------------- exactly-once emission

  /** The guard of the branches that discard rollouts of group `g`: its task ends in a fatal episode
      or was cancelled from outside, or training drains while it has a registered train task. */
  predicate Loses(s: State, e: Event, g: Gid) {
    match e
    case Complete(task, outcome) =>
      && (outcome.Unsupported? || outcome.TaskCancelled?)
      && IndexOf(s.inflight, task) < |s.inflight|
      && s.inflight[IndexOf(s.inflight, task)].gid == g
    case DrainTraining => exists i | 0 <= i < |s.inflight| :: s.inflight[i].kind.Train? && s.inflight[i].gid == g
    case _ => false
  }

  predicate MayLose(e: Event) { e.DrainTraining? || (e.Complete? && (e.outcome.Unsupported? || e.outcome.TaskCancelled?)) }

  function LostAt(lost: seq<nat>, g: Gid): nat { if g < |lost| then lost[g] else 0 }

  ghost predicate SameLost(a: seq<nat>, b: seq<nat>) { forall g: Gid :: LostAt(a, g) == LostAt(b, g) }

  /** What an event may do to the group objects' captured fields, the counters and the losses. */
  ghost predicate Frame(s: State, t: State, e: Event) {
    && SameIds(s.store, t.store)
    && (e.Adopt? || t.version == s.version)
    && t.step == s.step + (if e.Ship? then 1 else 0)
    && (!MayLose(e) ==> SameLost(s.lost, t.lost))
    && (!e.TriggerEval? ==> t.triggered == s.triggered)
  }

  ghost predicate Still(s: State, t: State) {
    SameIds(s.store, t.store) && t.version == s.version && t.step == s.step && SameLost(s.lost, t.lost) && t.triggered == s.triggered
  }

  lemma BeginStill(cfg: Config, s: State, gid: Gid)
    requires gid < |s.store| && s.store[gid].env in cfg.Envs(s.store[gid].kind) && 0 < s.store[gid].toSchedule
    ensures Still(s, BeginSchedule(cfg, s, gid))
  {
  }

  lemma FreshStill(cfg: Config, s: State, kind: Kind, env: Env, evalStep: Option<int>)
    requires cfg.Valid() && Shape(cfg, s) && env in cfg.Envs(kind)
    ensures var t := OpenGroup(cfg, s, kind, env, evalStep);
            t.store[|s.store|].toSchedule > 0 && Still(s, t) && Still(s, BeginSchedule(cfg, t, |s.store|))
  {
    BeginStill(cfg, OpenGroup(cfg, s, kind, env, evalStep), |s.store|);
  }

  lemma TryStill(cfg: Config, s: State, kind: Kind, pick: Env)
    requires cfg.Valid() && Shape(cfg, s) && pick in cfg.train
    ensures Still(s, TrySchedule(cfg, s, kind, pick))
  {
    hide BeginSchedule, OpenGroup;
    var i := FirstEligible(cfg, s, kind, 0);
    if i < |s.groups| {
      BeginStill(cfg, s, s.groups[i]);
    } else if kind.Train? {
      FreshStill(cfg, s, Train, pick, None);
    } else if s.evalQueue != [] {
      var u := s.(evalQueue := s.evalQueue[1..]);
      FreshStill(cfg, u, Eval, s.evalQueue[0].env, Some(s.evalQueue[0].evalStep));
    }
  }

  lemma FillFrame(cfg: Config, s: State, pick: Env)
    requires cfg.Valid() && Shape(cfg, s) && pick in cfg.train
    ensures Frame(s, FillStep(cfg, s, pick), Fill(pick))
  {
    hide TrySchedule;
    TryStill(cfg, s, Eval, pick);
    TryStill(cfg, s, Train, pick);
  }

  lemma CompleteFrame(s: State, task: nat, outcome: Outcome)
    requires |s.lost| == |s.store| && (forall i | 0 <= i < |s.inflight| :: s.inflight[i].gid < |s.store|)
    ensures Frame(s, CompleteStep(s, task, outcome), Complete(task, outcome))
  {
  }

  lemma SelectedStill(cfg: Config, s: State)
    requires Shape(cfg, s) && s.loop.Selecting?
    ensures Still(s, SelectedStep(cfg, s))
  {
  }

  lemma EmitStill(s: State)
    requires s.loop.Emitting? && s.loop.pending.None? && s.loop.todo != [] && s.loop.meta.gid < |s.store|
    ensures Still(s, LoopEmitStep(s))
  {
  }

  lemma LoopFrame(cfg: Config, s: State, e: Event)
    requires cfg.Valid() && Shape(cfg, s) && Enabled(cfg, s, e) && OfLoop(e)
    ensures Frame(s, Step(cfg, s, e), e)
  {
    hide FillStep, CompleteStep, SelectedStep, LoopEmitStep, SameIds;
    if e.Fill? {
      FillFrame(cfg, s, e.pick);
    } else if e.Complete? {
      CompleteFrame(s, e.task, e.outcome);
    } else if e.ClientSelected? {
      SelectedStill(cfg, s);
    } else if e.LoopEmit? {
      EmitStill(s);
    } else {
      IdsReflexive(s.store);
    }
  }

  lemma IdsReflexive(store: seq<Group>)
    ensures SameIds(store, store)
  {
  }

  lemma MarkerStill(s: State)
    requires s.watcher.DropEmitting? && s.watcher.pending.None? && s.watcher.todo != []
    requires s.watcher.todo[0].gid == s.watcher.gid < |s.store|
    ensures Still(s, DropEmitStep(s))
  {
  }

  lemma WatcherFrame(cfg: Config, s: State, e: Event)
    requires cfg.Valid() && Shape(cfg, s) && Enabled(cfg, s, e) && OfWatcher(e)
    ensures Frame(s, Step(cfg, s, e), e)
  {
    hide DropEmitStep, SameIds;
    IdsReflexive(s.store);
    if e.DropEmit? { MarkerStill(s); }
  }

  lemma StepFrame(cfg: Config, s: State, e: Event)
    requires cfg.Valid() && Shape(cfg, s) && Enabled(cfg, s, e)
    ensures Frame(s, Step(cfg, s, e), e)
  {
    if OfLoop(e) {
      hide Frame;
      LoopFrame(cfg, s, e);
    } else if OfWatcher(e) {
      hide Frame;
      WatcherFrame(cfg, s, e);
    } else {
      hide Shape;
    }
  }

  // ---------------------------------------------------------------- when rollouts are lost

  /** Some event of the run loses rollouts of group `g`. */
  ghost predicate RunLoses(cfg: Config, s: State, es: seq<Event>, g: Gid)
    requires cfg.Valid() && Runs(cfg, s, es)
    decreases |es|
  {
    es != [] && (Loses(s, es[0], g) || RunLoses(cfg, Step(cfg, s, es[0]), es[1..], g))
  }

  lemma CompleteLoses(cfg: Config, s: State, task: nat, outcome: Outcome, g: Gid)
    requires Shape(cfg, s) && MetasOk(s.store, s.inflight)
    ensures var t := CompleteStep(s, task, outcome);
            && LostAt(s.lost, g) <= LostAt(t.lost, g)
            && (LostAt(s.lost, g) < LostAt(t.lost, g) <==> Loses(s, Complete(task, outcome), g))
  {
    hide IndexOf, Without;
    var i := IndexOf(s.inflight, task);
    if i < |s.inflight| { assert MetaOk(s.store, s.inflight[i]); }
  }

  lemma {:induction false} CutHolds(ms: seq<Meta>, g: Gid)
    requires forall i | 0 <= i < |ms| :: 1 <= ms[i].count
    ensures LoadOf(OfKind(ms, Train), g) > 0 <==> exists i | 0 <= i < |ms| :: ms[i].kind.Train? && ms[i].gid == g
  {
    if ms != [] {
      var n := |ms| - 1;
      var a := ms[..n];
      CutHolds(a, g);
      assert ms == a + [ms[n]];
      if ms[n].kind.Train? {
        LoadOne(OfKind(a, Train), ms[n], g);
      } else {
        assert OfKind(ms, Train) == OfKind(a, Train) + [] == OfKind(a, Train);
      }
      hide OfKind, LoadOf;
      if i :| 0 <= i < |ms| && ms[i].kind.Train? && ms[i].gid == g {
        assert i == n || (i < n && a[i] == ms[i]);
      }
      if i :| 0 <= i < n && a[i].kind.Train? && a[i].gid == g { assert ms[i] == a[i]; }
    }
  }

  lemma {:induction false} DeadHolds(ms: seq<Meta>, g: Gid)
    requires g in GidsOf(OfKind(ms, Train))
    ensures exists i | 0 <= i < |ms| :: ms[i].kind.Train? && ms[i].gid == g
  {
    KindMembers(ms, Train);
    var m :| m in OfKind(ms, Train) && m.gid == g;
    assert m in ms;
    var i :| 0 <= i < |ms| && ms[i] == m;
  }

  lemma DrainLoses(cfg: Config, s: State, g: Gid)
    requires Shape(cfg, s) && MetasOk(s.store, s.inflight)
    ensures var t := DrainStep(s);
            && LostAt(s.lost, g) <= LostAt(t.lost, g)
            && (LostAt(s.lost, g) < LostAt(t.lost, g) <==> Loses(s, DrainTraining, g))
  {
    forall i | 0 <= i < |s.inflight| ensures 1 <= s.inflight[i].count && s.inflight[i].gid < |s.store| { assert MetaOk(s.store, s.inflight[i]); }
    CutHolds(s.inflight, g);
    if g in GidsOf(OfKind(s.inflight, Train)) { DeadHolds(s.inflight, g); }
    DrainLost(s, g);
    hide *;
    DrainGuard(s, g);
  }

  /** What a drain books as lost of one group. */
  lemma {:induction false} DrainLost(s: State, g: Gid)
    requires |s.lost| == |s.store| && forall i | 0 <= i < |s.groups| :: s.groups[i] < |s.store|
    ensures var cut := OfKind(s.inflight, Train);
            LostAt(DrainStep(s).lost, g) == LostAt(s.lost, g) + (if g >= |s.store| then 0
              else LoadOf(cut, g) + (if g in GidsOf(cut) && g in s.groups then s.store[g].toSchedule else 0))
  {
    hide OfKind, LoadOf, GidsOf, RemoveAll, Load;
  }

  lemma DrainGuard(s: State, g: Gid)
    ensures Loses(s, DrainTraining, g) <==> exists i | 0 <= i < |s.inflight| :: s.inflight[i].kind.Train? && s.inflight[i].gid == g
  {
  }

  /** An event adds to what a group has lost exactly when it loses some of it. */
  lemma StepLoses(cfg: Config, s: State, e: Event, g: Gid)
    requires cfg.Valid() && Inv(cfg, s) && Shape(cfg, s) && Enabled(cfg, s, e)
    ensures var t := Step(cfg, s, e);
            && LostAt(s.lost, g) <= LostAt(t.lost, g)
            && (LostAt(s.lost, g) < LostAt(t.lost, g) <==> Loses(s, e, g))
  {
    assert MetasOk(s.store, s.inflight);
    hide Inv, Shape, CompleteStep, DrainStep, Loses, MetasOk, LostAt;
    if e.Complete? {
      CompleteLoses(cfg, s, e.task, e.outcome, g);
    } else if e.DrainTraining? {
      DrainLoses(cfg, s, g);
    } else {
      StepFrame(cfg, s, e);
      NeverLoses(s, e, g);
      assert LostAt(s.lost, g) == LostAt(Step(cfg, s, e).lost, g);
    }
  }

  lemma NeverLoses(s: State, e: Event, g: Gid)
    requires !MayLose(e)
    ensures !Loses(s, e, g)
  {
  }

  lemma {:induction false} RunLosesIff(cfg: Config, s: State, es: seq<Event>, g: Gid)
    requires cfg.Valid() && Inv(cfg, s) && Runs(cfg, s, es)
    ensures LostAt(s.lost, g) <= LostAt(Run(cfg, s, es).lost, g)
    ensures LostAt(s.lost, g) < LostAt(Run(cfg, s, es).lost, g) <==> RunLoses(cfg, s, es, g)
    decreases |es|
  {
    hide Inv, Step, Enabled, Loses, LostAt, Shape;
    if es != [] {
      StepKeeps(cfg, s, es[0]);
      StepLoses(cfg, s, es[0], g);
      RunLosesIff(cfg, Step(cfg, s, es[0]), es[1..], g);
    }
  }

  /** What a group has lost is nothing exactly when no event of the run lost any of it. */
  lemma {:induction false} LostIff(cfg: Config, v: int, es: seq<Event>, g: Gid)
    requires cfg.Valid() && Runs(cfg, Init(v), es)
    ensures LostAt(After(cfg, v, es).lost, g) == 0 <==> !RunLoses(cfg, Init(v), es, g)
  {
    hide Inv, Runs, Run, RunLoses;
    InitInv(cfg, v);
    RunLosesIff(cfg, Init(v), es, g);
  }

  /** Every interleaving balances, group by group: what the group opened with is what is still
      owed somewhere, plus what reached the queue, plus what was discarded. */
  lemma {:induction false} EmissionLedger(cfg: Config, v: int, es: seq<Event>, g: Gid)
    requires cfg.Valid() && Runs(cfg, Init(v), es) && g < |After(cfg, v, es).store|
    ensures var s := After(cfg, v, es);
            && s.store[g].env in cfg.Envs(s.store[g].kind)
            && |s.lost| == |s.store|
            && cfg.Envs(s.store[g].kind)[s.store[g].env].groupSize == OwingIn(s, g) + CountOf(s.log, g) + s.lost[g]
  {
    Reached(cfg, v, es);
    var s := After(cfg, v, es);
    assert StoreOk(cfg, s.store);
  }

  /** Exactly when a group is emitted exactly once: it never emits more than its size, what it
      emitted plus what it is still owed is its size if and only if no event of the run lost any
      of it, and so, once nothing of it is outstanding, it has emitted its size if and only if
      nothing of it was lost. */
  lemma {:induction false} ExactlyOnce(cfg: Config, v: int, es: seq<Event>, g: Gid)
    requires cfg.Valid() && Runs(cfg, Init(v), es) && g < |After(cfg, v, es).store|
    ensures var s := After(cfg, v, es);
            && s.store[g].env in cfg.Envs(s.store[g].kind)
            && var size := cfg.Envs(s.store[g].kind)[s.store[g].env].groupSize;
               && CountOf(s.log, g) <= size
               && (OwingIn(s, g) + CountOf(s.log, g) == size <==> !RunLoses(cfg, Init(v), es, g))
               && (OwingIn(s, g) == 0 ==> (CountOf(s.log, g) == size <==> !RunLoses(cfg, Init(v), es, g)))
               && (!RunLoses(cfg, Init(v), es, g) ==> (OwingIn(s, g) == 0 <==> CountOf(s.log, g) == size))
  {
    EmissionLedger(cfg, v, es, g);
    LostIff(cfg, v, es, g);
    hide Runs, After, RunLoses, OwingIn, CountOf;
  }

  lemma SparesEval(cfg: Config, s: State, e: Event, g: Gid, store: seq<Group>)
    requires Inv(cfg, s) && SameIds(s.store, store) && g < |store| && store[g].kind.Eval?
    requires e.Complete? ==> !e.outcome.Unsupported? && !e.outcome.TaskCancelled?
    ensures !Loses(s, e, g)
  {
    hide Shape, Ledger, Live, Permits, Staleness, Gate, Rows, Fifo;
    assert forall i | 0 <= i < |s.inflight| :: MetaOk(s.store, s.inflight[i]);
  }

  /** A drain spares every eval group: only a fatal or cancelled task can lose eval rollouts. */
  lemma {:induction false} EvalLoses(cfg: Config, s: State, es: seq<Event>, g: Gid)
    requires cfg.Valid() && Inv(cfg, s) && Runs(cfg, s, es)
    requires g < |Run(cfg, s, es).store| && Run(cfg, s, es).store[g].kind.Eval?
    requires forall i | 0 <= i < |es| :: es[i].Complete? ==> !es[i].outcome.Unsupported? && !es[i].outcome.TaskCancelled?
    ensures !RunLoses(cfg, s, es, g)
    decreases |es|
  {
    if es != [] {
      hide Inv, Step, Enabled, Loses, Shape, SameIds;
      StepKeeps(cfg, s, es[0]);
      CapturedForever(cfg, s, es);
      SparesEval(cfg, s, es[0], g, Run(cfg, s, es).store);
      EvalLoses(cfg, Step(cfg, s, es[0]), es[1..], g);
    }
  }

  // ---------------------------------------------------------------- permits

  lemma {:induction false} PermitSafety(cfg: Config, v: int, es: seq<Event>)
    requires cfg.Valid() && Runs(cfg, Init(v), es)
    ensures var s := After(cfg, v, es);
            && 0 <= s.permits <= cfg.maxInflight
            && s.permits == Load(s.inflight) + (if s.loop.Acquiring? then s.loop.taken else 0)
  {
    Reached(cfg, v, es);
    hide Agree, Ledger, Live, Staleness, Gate, Rows, Fifo;
    var s := After(cfg, v, es);
    assert Permits(cfg, s.permits, s.inflight, s.loop, s.store);
  }

  // ---------------------------------------------------------------- staleness

  lemma {:induction false} StalenessBound(cfg: Config, v: int, es: seq<Event>)
    requires cfg.Valid() && Runs(cfg, Init(v), es)
    ensures var s := After(cfg, v, es);
            && (s.watcher.Quiet? ==> forall i | 0 <= i < |s.inflight| :: s.inflight[i].offPolicy <= cfg.maxOffPolicy)
            && (forall i | 0 <= i < |s.inflight| :: s.inflight[i].offPolicy <= cfg.maxOffPolicy + 1)
            && (forall i | 0 <= i < |s.log| :: s.log[i].offPolicy <= cfg.maxOffPolicy + 1)
            && (forall i | 0 <= i < |s.log| ::
                  !(s.log[i].kind.Train? && s.log[i].env in cfg.train && cfg.train[s.log[i].env].live) ==> s.log[i].offPolicy == 0)
  {
    Reached(cfg, v, es);
    hide Shape, Agree, Ledger, Live, Permits, Gate, Rows, Fifo;
    var s := After(cfg, v, es);
    forall i | 0 <= i < |s.inflight| ensures MetaAge(cfg, s.inflight[i]) {}
    forall i | 0 <= i < |s.log| ensures RolloutAge(cfg, s.log[i]) {}
  }

  // ---------------------------------------------------------------- what a rollout carries

  /** Every rollout that reached the queue carries the environment, kind, eval step and policy
      version its group captured when it opened. */
  lemma {:induction false} StampedAtOpen(cfg: Config, v: int, es: seq<Event>)
    requires cfg.Valid() && Runs(cfg, Init(v), es)
    ensures var s := After(cfg, v, es);
            forall i | 0 <= i < |s.log| ::
              && s.log[i].gid < |s.store|
              && s.log[i].kind == s.store[s.log[i].gid].kind && s.log[i].env == s.store[s.log[i].gid].env
              && s.log[i].version == s.store[s.log[i].gid].version
              && s.log[i].evalStep == s.store[s.log[i].gid].evalStep
              && (s.log[i].kind.Eval? <==> s.log[i].evalStep.Some?)
  {
    Reached(cfg, v, es);
    hide Shape, Ledger, Live, Permits, Staleness, Gate, Rows, Fifo;
    var s := After(cfg, v, es);
    forall i | 0 <= i < |s.log| ensures RolloutOk(s.store, s.log[i]) {}
  }

  /** What a group captured when it opened never changes afterwards. */
  lemma {:induction false} CapturedForever(cfg: Config, s: State, es: seq<Event>)
    requires cfg.Valid() && Runs(cfg, s, es)
    ensures SameIds(s.store, Run(cfg, s, es).store)
    decreases |es|
  {
    hide Step, Enabled;
    if es != [] {
      StepFrame(cfg, s, es[0]);
      CapturedForever(cfg, Step(cfg, s, es[0]), es[1..]);
    }
  }

  // ---------------------------------------------------------------- the gate

  /** The gate is exact at every yield point, and every train group opened under it. */
  lemma {:induction false} GateOverRuns(cfg: Config, v: int, es: seq<Event>)
    requires cfg.Valid() && Runs(cfg, Init(v), es)
    ensures var s := After(cfg, v, es);
            && (s.gate <==> (s.step - 1) - s.version <= TARGET_LAG)
            && (forall g: Gid | g < |s.store| && s.store[g].kind.Train? ::
                  s.store[g].openStep <= s.step && s.store[g].version <= s.version
                  && s.store[g].version >= (s.store[g].openStep - 1) - TARGET_LAG)
  {
    Reached(cfg, v, es);
    hide Shape, Agree, Ledger, Live, Permits, Staleness, Rows, Fifo;
    var s := After(cfg, v, es);
    forall g: Gid | g < |s.store| ensures GroupGated(s.store[g], s.step, s.version) {}
  }

  /** An applied update strictly raises the version; nothing else moves it. */
  lemma {:induction false} VersionAdvances(cfg: Config, v: int, es: seq<Event>, e: Event)
    requires cfg.Valid() && Runs(cfg, Init(v), es) && Shape(cfg, After(cfg, v, es)) && Enabled(cfg, After(cfg, v, es), e)
    ensures var s := After(cfg, v, es);
            && (if e.Adopt? then Step(cfg, s, e).version > s.version else Step(cfg, s, e).version == s.version)
            && Step(cfg, s, e).step == s.step + (if e.Ship? then 1 else 0)
  {
    Reached(cfg, v, es);
    hide Shape, Agree, Ledger, Live, Permits, Staleness, Rows, Fifo;
    var s := After(cfg, v, es);
    if e.Adopt? {
      assert Gate(s.step, s.version, s.gate, s.watcher, s.store);
    } else {
      StepFrame(cfg, s, e);
    }
  }

  // ---------------------------------------------------------------- the queue

  lemma {:induction false} QueueIsFifo(cfg: Config, v: int, es: seq<Event>)
    requires cfg.Valid() && Runs(cfg, Init(v), es)
    ensures var s := After(cfg, v, es);
            s.consumed + s.queue == s.log && |s.queue| <= cfg.QueueCap() && OpenedRows(s.store) + s.evalQueue == s.triggered
  {
    Reached(cfg, v, es);
    hide Shape, Agree, Ledger, Live, Permits, Staleness, Gate;
  }

  // ---------------------------------------------------------------- idleness

  /** Nothing of any eval group is held by a suspended scheduler or handler. */
  predicate EvalSettled(s: State)
    requires s.loop.Acquiring? ==> s.loop.gid < |s.store|
  {
    && !(s.loop.Acquiring? && s.store[s.loop.gid].kind.Eval?)
    && !(s.loop.Emitting? && s.loop.meta.kind.Eval?)
  }

  /** For an idle dispatcher, an eval group is still owed something only by a suspended frame. */
  lemma IdleOwing(cfg: Config, s: State, g: Gid)
    requires Shape(cfg, s) && IsIdle(s) && g < |s.store| && s.store[g].kind.Eval?
    requires WatcherAgrees(s.store, s.watcher)
    ensures OwingIn(s, g) == Reserved(s.loop, g) + InHandler(s.loop, g)
  {
    assert g in s.groups ==> exists i | 0 <= i < |s.groups| :: s.groups[i] == g;
  }

  /** Exactly when `is_idle` means drained, over every run, drained or not: for an idle dispatcher
      every eval rollout has been consumed if and only if no scheduler or handler is suspended with
      one of them and no event of the run lost any. */
  lemma {:induction false} IdleMeansDrained(cfg: Config, v: int, es: seq<Event>)
    requires cfg.Valid() && Runs(cfg, Init(v), es)
    requires Shape(cfg, After(cfg, v, es)) && IsIdle(After(cfg, v, es))
    ensures var s := After(cfg, v, es);
            (forall g: Gid | g < |s.store| && s.store[g].kind.Eval? :: CountOf(s.consumed, g) == s.store[g].target)
            <==> EvalSettled(s) && forall g: Gid | g < |s.store| && s.store[g].kind.Eval? :: !RunLoses(cfg, Init(v), es, g)
  {
    Reached(cfg, v, es);
    var s := After(cfg, v, es);
    assert |s.lost| == |s.store|;
    forall g: Gid | g < |s.store| ensures s.lost[g] == 0 <==> !RunLoses(cfg, Init(v), es, g) { LostIff(cfg, v, es, g); }
    hide After, Runs, RunLoses;
    IdleCounts(cfg, s);
  }

  /** Without fatal or cancelled tasks the suspended frames are all that matters, drain or no drain. */
  lemma {:induction false} IdleMeansSettled(cfg: Config, v: int, es: seq<Event>)
    requires cfg.Valid() && Runs(cfg, Init(v), es)
    requires Shape(cfg, After(cfg, v, es)) && IsIdle(After(cfg, v, es))
    requires forall i | 0 <= i < |es| :: es[i].Complete? ==> !es[i].outcome.Unsupported? && !es[i].outcome.TaskCancelled?
    ensures var s := After(cfg, v, es);
            EvalSettled(s) <==> forall g: Gid | g < |s.store| && s.store[g].kind.Eval? :: CountOf(s.consumed, g) == s.store[g].target
  {
    IdleMeansDrained(cfg, v, es);
    InitInv(cfg, v);
    var s := After(cfg, v, es);
    hide Inv, EvalSettled, CountOf;
    forall g: Gid | g < |s.store| && s.store[g].kind.Eval? ensures !RunLoses(cfg, Init(v), es, g) { EvalLoses(cfg, Init(v), es, g); }
  }

  lemma IdleCounts(cfg: Config, s: State)
    requires Inv(cfg, s) && Shape(cfg, s) && IsIdle(s) && |s.lost| == |s.store|
    ensures (forall g: Gid | g < |s.store| && s.store[g].kind.Eval? :: CountOf(s.consumed, g) == s.store[g].target)
            <==> EvalSettled(s) && forall g: Gid | g < |s.store| && s.store[g].kind.Eval? :: s.lost[g] == 0
  {
    hide Permits, Staleness, Gate, Rows, Live, IsIdle;
    assert s.consumed == s.log by { IdleQueue(cfg, s); }
    forall g: Gid | g < |s.store| && s.store[g].kind.Eval?
      ensures s.store[g].target == Reserved(s.loop, g) + InHandler(s.loop, g) + CountOf(s.consumed, g) + s.lost[g]
    {
      IdleOwing(cfg, s, g);
      assert s.store[g].target == OwingIn(s, g) + CountOf(s.log, g) + s.lost[g];
    }
    if !EvalSettled(s) {
      var g := if s.loop.Acquiring? then s.loop.gid else s.loop.meta.gid;
      assert MetasOk(s.store, s.inflight);
      assert s.store[g].kind.Eval? && CountOf(s.consumed, g) < s.store[g].target;
    }
  }

  lemma IdleQueue(cfg: Config, s: State)
    requires Shape(cfg, s) && IsIdle(s) && Fifo(cfg, s.consumed, s.queue, s.log)
    ensures s.consumed == s.log
  {
    assert s.consumed + [] == s.consumed;
  }
}
