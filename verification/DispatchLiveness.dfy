/** Exactly when a group can still be delivered, over every run: a train group can not once train
    scheduling is shut for good and nothing under way can still take the rest of it out. */
module DispatchLiveness {
  import opened Common
  import opened Dispatch
  import opened DispatchInvariant
  import opened DispatchSafety
  import opened DispatchDrop
  import opened DispatchRuns
  import opened DispatchPaths
  import opened DispatchProgress

  /** An eval example whose first task needs more permits than there are. */
  ghost predicate Oversize(cfg: Config, row: Row) { row.env in cfg.eval && FreshCost(cfg.eval[row.env]) > cfg.maxInflight }

  /** Training is disabled, or an oversize eval example is queued, which keeps eval preferred. */
  ghost predicate TrainShut(cfg: Config, trainDisabled: bool, evalQueue: seq<Row>) {
    trainDisabled || exists i | 0 <= i < |evalQueue| :: Oversize(cfg, evalQueue[i])
  }

  /** A live train group with rollouts left to schedule. */
  ghost predicate Waits(cfg: Config, store: seq<Group>, groups: seq<Gid>, g: Gid) {
    && g < |store| && store[g].kind.Train? && store[g].env in cfg.train
    && g in groups && store[g].toSchedule > 0
  }

  /** No registered task, and no scheduler under way, will lead to the rest of the group: tasks of a live
      environment age until the whole group is dropped, those of a frozen one never do. */
  ghost predicate Unaided(cfg: Config, store: seq<Group>, inflight: seq<Meta>, loop: Loop, g: Gid)
    requires g < |store| && store[g].kind.Train? && store[g].env in cfg.train
  {
    if cfg.train[store[g].env].live then
      && (forall m | m in inflight :: m.gid != g)
      && !(loop.Selecting? && loop.gid == g) && !(loop.Acquiring? && loop.gid == g)
    else loop.Selecting? && loop.gid == g ==> Cost(cfg, store[g]) < store[g].toSchedule
  }

  ghost predicate Doomed(w: Watcher, g: Gid) { !w.Quiet? && g in w.stale }

  /** Group `g` will never be delivered. */
  ghost predicate Stuck(cfg: Config, s: State, g: Gid) {
    && TrainShut(cfg, s.trainDisabled, s.evalQueue)
    && Waits(cfg, s.store, s.groups, g)
    && !Doomed(s.watcher, g)
    && Unaided(cfg, s.store, s.inflight, s.loop, g)
  }

  // ---------------------------------------------------------------- a stuck group stays stuck

  /** The parts of the state a stuck group depends on are as they were. */
  ghost predicate Untouched(s: State, t: State, g: Gid) {
    && g < |s.store| && g < |t.store| && t.store[g] == s.store[g].(emitted := t.store[g].emitted) && g in t.groups
    && t.trainDisabled == s.trainDisabled && t.evalQueue == s.evalQueue
  }

  lemma CalmStuck(cfg: Config, s: State, t: State, g: Gid)
    requires Stuck(cfg, s, g) && Untouched(s, t, g) && !Doomed(t.watcher, g)
    requires forall m | m in t.inflight && m.gid == g :: m in s.inflight
    requires t.loop == s.loop || !(t.loop.Selecting? || t.loop.Acquiring?) || t.loop.gid != g
    ensures Stuck(cfg, t, g)
  {
    hide TrainShut;
  }

  lemma TailShut(cfg: Config, rows: seq<Row>)
    requires rows != [] && TrainShut(cfg, false, rows) && !Oversize(cfg, rows[0])
    ensures TrainShut(cfg, false, rows[1..])
  {
    var i :| 0 <= i < |rows| && Oversize(cfg, rows[i]);
    hide Oversize;
    assert rows[1..][i - 1] == rows[i];
  }

  lemma StuckIs(cfg: Config, s: State, g: Gid)
    requires Stuck(cfg, s, g)
    ensures Waits(cfg, s.store, s.groups, g) && !Doomed(s.watcher, g) && TrainShut(cfg, s.trainDisabled, s.evalQueue)
  {
  }

  /** Scheduling some other group. */
  lemma BeginStuck(cfg: Config, s: State, h: Gid, g: Gid)
    requires h < |s.store| && s.store[h].env in cfg.Envs(s.store[h].kind) && 0 < s.store[h].toSchedule && h != g
    requires Stuck(cfg, s, g)
    ensures Stuck(cfg, BeginSchedule(cfg, s, h), g)
  {
    StuckIs(cfg, s, g);
    hide Stuck, Cost, TrainShut;
    CalmStuck(cfg, s, BeginSchedule(cfg, s, h), g);
  }

  /** The head of the eval queue is opened only when it fits. */
  lemma HeadStuck(cfg: Config, s: State, g: Gid)
    requires Shape(cfg, s) && Stuck(cfg, s, g) && s.evalQueue != [] && s.permits >= 0
    requires FreshCost(cfg.eval[s.evalQueue[0].env]) <= Available(cfg, s)
    ensures Stuck(cfg, s.(evalQueue := s.evalQueue[1..]), g)
  {
    assert !Oversize(cfg, s.evalQueue[0]);
    if !s.trainDisabled { TailShut(cfg, s.evalQueue); }
    hide Oversize;
  }

  lemma OpenStuck(cfg: Config, s: State, row: Row, g: Gid)
    requires cfg.Valid() && Stuck(cfg, s, g) && row.env in cfg.eval
    ensures var t := OpenGroup(cfg, s, Eval, row.env, Some(row.evalStep));
            |s.store| < |t.store| && t.store[|s.store|].toSchedule > 0 && Stuck(cfg, BeginSchedule(cfg, t, |s.store|), g)
  {
    StuckIs(cfg, s, g);
    var t := OpenGroup(cfg, s, Eval, row.env, Some(row.evalStep));
    hide Stuck, Cost, TrainShut;
    CalmStuck(cfg, s, t, g);
    BeginStuck(cfg, t, |s.store|, g);
  }

  /** Only eval is scheduled: with training disabled no train group is, and an oversize eval example
      keeps the queue filled and eval preferred. */
  lemma EvalStuck(cfg: Config, s: State, pick: Env, g: Gid)
    requires cfg.Valid() && Shape(cfg, s) && Stuck(cfg, s, g) && s.permits >= 0 && pick in cfg.train
    ensures Stuck(cfg, TrySchedule(cfg, s, Eval, pick), g)
  {
    StuckIs(cfg, s, g);
    hide Stuck, TrainShut, BeginSchedule, OpenGroup, FirstEligible;
    var i := FirstEligible(cfg, s, Eval, 0);
    if i < |s.groups| {
      BeginStuck(cfg, s, s.groups[i], g);
    } else if s.evalQueue != [] && FreshCost(cfg.eval[s.evalQueue[0].env]) <= Available(cfg, s) {
      HeadStuck(cfg, s, g);
      OpenStuck(cfg, s.(evalQueue := s.evalQueue[1..]), s.evalQueue[0], g);
    }
  }

  lemma FillStuck(cfg: Config, s: State, pick: Env, g: Gid)
    requires cfg.Valid() && Shape(cfg, s) && Sound(cfg, s) && Stuck(cfg, s, g) && s.permits >= 0 && pick in cfg.train
    ensures Stuck(cfg, FillStep(cfg, s, pick), g)
  {
    StuckIs(cfg, s, g);
    if s.mode.PreferEval? {
      EvalStuck(cfg, s, pick, g);
      FlipStuck(cfg, s, g);
      hide Stuck, TrySchedule, EvalHasWork, TrainShut, Waits, Sound;
    } else {
      assert s.trainDisabled;
      hide Stuck, FirstEligible, EvalHasWork, Sound, Waits;
    }
  }

  lemma FlipStuck(cfg: Config, s: State, g: Gid)
    requires Stuck(cfg, s, g)
    ensures Stuck(cfg, s.(mode := PreferTrain), g)
  {
  }

  /** Client selection takes only part of a stuck group out. */
  lemma SelectedStuck(cfg: Config, s: State, g: Gid)
    requires cfg.Valid() && Shape(cfg, s) && s.loop.Selecting? && Stuck(cfg, s, g)
    ensures Stuck(cfg, SelectedStep(cfg, s), g)
  {
    if s.loop.gid == g {
      hide TrainShut;
    } else {
      StuckIs(cfg, s, g);
      hide Stuck, TrainShut, Cost;
      CalmStuck(cfg, s, SelectedStep(cfg, s), g);
    }
  }

  lemma LimiterStuck(cfg: Config, s: State, g: Gid)
    requires Shape(cfg, s) && s.loop.Acquiring? && Stuck(cfg, s, g)
    ensures Stuck(cfg, LimiterStep(s), g)
  {
    hide TrainShut, Waits;
  }

  /** What a completion leaves alone. */
  lemma CompleteLeaves(cfg: Config, s: State, task: nat, outcome: Outcome)
    requires Shape(cfg, s) && s.loop.AtTop?
    ensures var t := CompleteStep(s, task, outcome);
            && t.store == s.store && t.groups == s.groups && t.trainDisabled == s.trainDisabled && t.evalQueue == s.evalQueue
            && t.watcher == s.watcher && !t.loop.Selecting? && !t.loop.Acquiring? && forall m | m in t.inflight :: m in s.inflight
  {
    hide IndexOf, Flags;
  }

  lemma CompleteStuck(cfg: Config, s: State, task: nat, outcome: Outcome, g: Gid)
    requires Shape(cfg, s) && Stuck(cfg, s, g) && s.loop.AtTop?
    ensures Stuck(cfg, CompleteStep(s, task, outcome), g)
  {
    StuckIs(cfg, s, g);
    CompleteLeaves(cfg, s, task, outcome);
    hide Stuck, TrainShut, CompleteStep, Shape;
    CalmStuck(cfg, s, CompleteStep(s, task, outcome), g);
  }

  /** An emission cannot pop a group that has rollouts left to schedule. */
  lemma MarkStays(s: State, g: Gid, h: Gid, attached: bool)
    requires g < |s.store| && h < |s.store| && g in s.groups && GidsDistinct(s.groups)
    requires attached && h == g ==> s.store[g].emitted + 1 < s.store[g].target
    ensures Untouched(s, MarkEmitted(s, h, attached), g)
  {
    RemoveSpec(s.groups, h);
  }

  lemma NotLast(cfg: Config, s: State, g: Gid)
    requires Inv(cfg, s) && s.loop.Emitting? && s.loop.pending.None? && s.loop.todo != [] && s.loop.meta.gid == g
    requires Waits(cfg, s.store, s.groups, g)
    ensures s.store[g].emitted + 1 < s.store[g].target
  {
    if s.store[g].emitted + 1 >= s.store[g].target {
      MarkPops(s.store, s.groups, s.inflight, s.loop, s.watcher, s.log, s.lost, g);
      assert false;
    }
  }

  lemma EmitStuck(cfg: Config, s: State, g: Gid)
    requires Inv(cfg, s) && Shape(cfg, s) && s.loop.Emitting? && s.loop.pending.None? && Stuck(cfg, s, g)
    ensures Stuck(cfg, LoopEmitStep(s), g)
  {
    StuckIs(cfg, s, g);
    var h := s.loop.meta.gid;
    if h == g { NotLast(cfg, s, g); }
    assert GidsDistinct(s.groups) && h < |s.store| && s.loop.todo != [];
    hide Inv, Shape, Stuck, TrainShut, MarkEmitted, Untouched;
    MarkStays(s, g, h, s.loop.attached);
    var m := MarkEmitted(s, h, s.loop.attached);
    MarkedStuck(cfg, s, m, LoopEmitStep(s), g);
  }

  lemma MarkedStuck(cfg: Config, s: State, m: State, t: State, g: Gid)
    requires Stuck(cfg, s, g) && Untouched(s, m, g) && m.inflight == s.inflight && m.watcher == s.watcher
    requires t.store == m.store && t.groups == m.groups && t.trainDisabled == m.trainDisabled && t.evalQueue == m.evalQueue
    requires t.inflight == m.inflight && (Doomed(t.watcher, g) ==> Doomed(m.watcher, g))
    requires t.loop == s.loop || !(t.loop.Selecting? || t.loop.Acquiring?)
    ensures Stuck(cfg, t, g)
  {
    StuckIs(cfg, s, g);
    hide Stuck, TrainShut, Doomed;
    CalmStuck(cfg, s, t, g);
  }

  // ---------------------------------------------------------------- the watcher

  /** An update dooms no stuck group: it has no task that ages. */
  lemma PendingStuck(cfg: Config, s: State, next: int, g: Gid)
    requires Inv(cfg, s) && Stuck(cfg, s, g) && s.watcher.Quiet?
    ensures Stuck(cfg, PendingStep(cfg, s, next), g)
  {
    StuckIs(cfg, s, g);
    TasksAged(cfg, s, g);
    hide Inv, Stuck, TrainShut, AgedAll, StaleGids;
    AgedStuck(cfg, s, PendingStep(cfg, s, next), g);
  }

  lemma AgedStuck(cfg: Config, s: State, t: State, g: Gid)
    requires Stuck(cfg, s, g) && t.store == s.store && t.groups == s.groups && t.trainDisabled == s.trainDisabled
    requires t.evalQueue == s.evalQueue && t.loop == s.loop && !Doomed(t.watcher, g)
    requires (exists m :: m in t.inflight && m.gid == g) ==> exists m :: m in s.inflight && m.gid == g
    ensures Stuck(cfg, t, g)
  {
    hide TrainShut, Waits, Doomed;
  }

  lemma {:induction false} TasksAged(cfg: Config, s: State, g: Gid)
    requires Inv(cfg, s) && Stuck(cfg, s, g)
    ensures var aged := AgedAll(cfg, s.inflight);
            && g !in StaleGids(cfg, aged)
            && ((exists m :: m in aged && m.gid == g) ==> exists m :: m in s.inflight && m.gid == g)
  {
    var aged := AgedAll(cfg, s.inflight);
    assert MetasOk(s.store, s.inflight);
    forall m | m in aged && m.gid == g ensures (exists x :: x in s.inflight && x.gid == g) && !Ages(cfg, m) {
      var i :| 0 <= i < |aged| && aged[i] == m;
      assert MetaOk(s.store, s.inflight[i]) && s.inflight[i] in s.inflight;
    }
  }

  lemma DropStuck(cfg: Config, s: State, d: Gid, g: Gid)
    requires Shape(cfg, s) && Stuck(cfg, s, g) && s.watcher.Dropping? && d in s.watcher.stale
    ensures Stuck(cfg, DropStep(s, d), g)
  {
    StuckIs(cfg, s, g);
    assert GidsDistinct(s.groups);
    RemoveSpec(s.groups, d);
    ClaimMembers(s.inflight, d);
    hide Stuck, TrainShut, Remove, WithGid, WithoutGid, Owed, Load, Shape;
    CalmStuck(cfg, s, DropStep(s, d), g);
  }

  lemma MarkerStuck(cfg: Config, s: State, g: Gid)
    requires Inv(cfg, s) && Shape(cfg, s) && s.watcher.DropEmitting? && s.watcher.pending.None? && s.watcher.todo != [] && Stuck(cfg, s, g)
    ensures s.watcher.todo[0].gid == s.watcher.gid < |s.store| && Stuck(cfg, DropEmitStep(s), g)
  {
    StuckIs(cfg, s, g);
    assert GidsDistinct(s.groups) && s.watcher.gid !in s.groups;
    hide Inv, Shape, Stuck, TrainShut, MarkEmitted, Untouched;
    MarkStays(s, g, s.watcher.gid, s.watcher.attached);
    MarkedStuck(cfg, s, MarkEmitted(s, s.watcher.gid, s.watcher.attached), DropEmitStep(s), g);
  }

  /** The watcher's other events touch neither groups nor tasks. */
  lemma RestStuck(cfg: Config, s: State, e: Event, g: Gid)
    requires cfg.Valid() && Shape(cfg, s) && Stuck(cfg, s, g) && Enabled(cfg, s, e)
    requires e.DropPut? || e.SweepUnscheduled? || e.DropDone? || e.Adopt?
    ensures Stuck(cfg, Step(cfg, s, e), g)
  {
    StuckIs(cfg, s, g);
    hide Stuck, TrainShut;
    CalmStuck(cfg, s, Step(cfg, s, e), g);
  }

  lemma WatcherStuck(cfg: Config, s: State, e: Event, g: Gid)
    requires cfg.Valid() && Inv(cfg, s) && Shape(cfg, s) && Stuck(cfg, s, g) && Enabled(cfg, s, e)
    requires e.VersionPending? || e.DropGroup? || e.DropEmit?
    ensures Stuck(cfg, Step(cfg, s, e), g)
  {
    hide Inv, Shape, Stuck, PendingStep, DropStep, DropEmitStep;
    if e.VersionPending? {
      PendingStuck(cfg, s, e.next, g);
    } else if e.DropGroup? {
      DropStuck(cfg, s, e.gid, g);
    } else {
      MarkerStuck(cfg, s, g);
    }
  }

  // ---------------------------------------------------------------- any event

  lemma {:induction false} DrainStuck(cfg: Config, s: State, g: Gid)
    requires Shape(cfg, s) && Stuck(cfg, s, g) && !Loses(s, DrainTraining, g)
    ensures Stuck(cfg, DrainStep(s), g)
  {
    StuckIs(cfg, s, g);
    assert GidsDistinct(s.groups);
    RemoveAllSpec(s.groups, GidsOf(OfKind(s.inflight, Train)));
    if g in GidsOf(OfKind(s.inflight, Train)) { DeadHolds(s.inflight, g); }
    KindMembers(s.inflight, Eval);
    DrainGuard(s, g);
    hide RemoveAll, OfKind, GidsOf, Load, LoadOf, Shape, Loses;
  }

  lemma TriggerStuck(cfg: Config, s: State, t: State, rows: seq<Row>, g: Gid)
    requires Stuck(cfg, s, g) && t == s.(evalQueue := s.evalQueue + rows, triggered := s.triggered + rows, mode := PreferEval)
    ensures Stuck(cfg, t, g)
  {
    if i :| 0 <= i < |s.evalQueue| && Oversize(cfg, s.evalQueue[i]) { assert t.evalQueue[i] == s.evalQueue[i]; }
    hide Oversize;
  }

  lemma ScheduleStuck(cfg: Config, s: State, e: Event, g: Gid)
    requires cfg.Valid() && Shape(cfg, s) && Sound(cfg, s) && Stuck(cfg, s, g) && Enabled(cfg, s, e) && s.permits >= 0
    requires e.Fill? || e.ClientSelected? || e.LimiterPassed?
    ensures Stuck(cfg, Step(cfg, s, e), g)
  {
    hide Shape, Sound, Stuck, FillStep, SelectedStep, LimiterStep;
    if e.Fill? {
      FillStuck(cfg, s, e.pick, g);
    } else if e.ClientSelected? {
      SelectedStuck(cfg, s, g);
    } else {
      LimiterStuck(cfg, s, g);
    }
  }

  lemma HandleStuck(cfg: Config, s: State, e: Event, g: Gid)
    requires cfg.Valid() && Inv(cfg, s) && Shape(cfg, s) && Stuck(cfg, s, g) && Enabled(cfg, s, e)
    requires e.Complete? || e.LoopEmit? || e.LoopPut?
    ensures Stuck(cfg, Step(cfg, s, e), g)
  {
    hide Inv, Shape, Stuck, CompleteStep, LoopEmitStep, LoopPutStep;
    if e.Complete? {
      CompleteStuck(cfg, s, e.task, e.outcome, g);
    } else if e.LoopEmit? {
      EmitStuck(cfg, s, g);
    } else {
      PutStuck(cfg, s, g);
    }
  }

  lemma PutStuck(cfg: Config, s: State, g: Gid)
    requires Shape(cfg, s) && s.loop.Emitting? && s.loop.pending.Some? && Stuck(cfg, s, g)
    ensures Stuck(cfg, LoopPutStep(s), g)
  {
    StuckIs(cfg, s, g);
    hide Stuck, TrainShut;
    CalmStuck(cfg, s, LoopPutStep(s), g);
  }

  lemma StuckStep(cfg: Config, s: State, e: Event, g: Gid)
    requires cfg.Valid() && Inv(cfg, s) && Sound(cfg, s) && Stuck(cfg, s, g) && Enabled(cfg, s, e) && !Loses(s, e, g)
    ensures Shape(cfg, s) && Stuck(cfg, Step(cfg, s, e), g)
  {
    hide *;
    InvPermits(cfg, s);
    if e.Fill? || e.ClientSelected? || e.LimiterPassed? {
      ScheduleStuck(cfg, s, e, g);
    } else if e.Complete? || e.LoopEmit? || e.LoopPut? {
      HandleStuck(cfg, s, e, g);
    } else if e.VersionPending? || e.DropGroup? || e.DropEmit? {
      WatcherStuck(cfg, s, e, g);
    } else if e.DropPut? || e.SweepUnscheduled? || e.DropDone? || e.Adopt? {
      RestStuck(cfg, s, e, g);
    } else {
      MainStuck(cfg, s, e, g);
    }
  }

  /** The orchestrator's events. */
  lemma MainStuck(cfg: Config, s: State, e: Event, g: Gid)
    requires cfg.Valid() && Shape(cfg, s) && Stuck(cfg, s, g) && Enabled(cfg, s, e) && !Loses(s, e, g)
    requires e.Ship? || e.TriggerEval? || e.Consume? || e.DrainTraining?
    ensures Stuck(cfg, Step(cfg, s, e), g)
  {
    hide Shape, Stuck, Loses, DrainStep;
    if e.DrainTraining? {
      DrainStuck(cfg, s, g);
    } else if e.TriggerEval? {
      TriggerStuck(cfg, s, Step(cfg, s, e), e.rows, g);
    } else {
      StuckIs(cfg, s, g);
      hide TrainShut;
      CalmStuck(cfg, s, Step(cfg, s, e), g);
    }
  }

  /** Whatever happens, as long as nothing of the group is discarded, a stuck group stays stuck and is
      still owed its unscheduled rollouts. */
  lemma {:induction false} StuckForever(cfg: Config, s: State, es: seq<Event>, g: Gid)
    requires cfg.Valid() && Inv(cfg, s) && Sound(cfg, s) && Stuck(cfg, s, g) && Runs(cfg, s, es) && !RunLoses(cfg, s, es, g)
    ensures var t := Run(cfg, s, es); Stuck(cfg, t, g) && g < |t.store| && OwingIn(t, g) > 0
    decreases |es|
  {
    StuckOwes(cfg, s, g);
    hide Inv, Sound, Stuck, Step, Enabled, Shape, Loses, OwingIn;
    if es != [] {
      StepKeeps(cfg, s, es[0]);
      StepSound(cfg, s, es[0]);
      StuckStep(cfg, s, es[0], g);
      StuckForever(cfg, Step(cfg, s, es[0]), es[1..], g);
    }
  }

  lemma StuckOwes(cfg: Config, s: State, g: Gid)
    requires Stuck(cfg, s, g)
    ensures g < |s.store| && OwingIn(s, g) > 0
  {
  }

  // ---------------------------------------------------------------- a group that is not stuck is delivered

  lemma {:induction false} StillYoung(cfg: Config, s: State, m: Meta)
    requires Inv(cfg, s) && s.watcher.Quiet? && m in s.inflight
    ensures m.offPolicy <= cfg.maxOffPolicy
  {
    var i :| 0 <= i < |s.inflight| && s.inflight[i] == m;
    assert OverdueDoomed(cfg, s.inflight, s.watcher);
  }

  /** The next version is announced: tasks of a live environment age, and those past the limit doom their group. */
  lemma {:induction false} Announces(cfg: Config, s: State, m: Meta) returns (es: seq<Event>, t: State)
    requires cfg.Valid() && Inv(cfg, s) && s.watcher.Quiet? && m in s.inflight && Ages(cfg, m)
    ensures Moves(cfg, s, es, t, false) && Inv(cfg, t) && Steady(s, t) && t.loop == s.loop && t.watcher.Dropping?
    ensures m.(offPolicy := m.offPolicy + 1) in t.inflight && (m.offPolicy + 1 > cfg.maxOffPolicy ==> m.gid in t.watcher.stale)
  {
    var e := VersionPending(s.version + 1);
    t := Watches(cfg, s, e);
    es := [e];
    AgedTask(cfg, s.inflight, m);
    hide Inv, Moves, Steady, Shape, AgedAll, StaleGids;
  }

  lemma {:induction false} AgedTask(cfg: Config, ms: seq<Meta>, m: Meta)
    requires m in ms && Ages(cfg, m)
    ensures var aged := AgedAll(cfg, ms);
            && m.(offPolicy := m.offPolicy + 1) in aged
            && (m.offPolicy + 1 > cfg.maxOffPolicy ==> m.gid in StaleGids(cfg, aged))
  {
    var i :| 0 <= i < |ms| && ms[i] == m;
    var aged := AgedAll(cfg, ms);
    assert aged[i] == m.(offPolicy := m.offPolicy + 1) && aged[i] in aged;
  }

  /** Updates age a task of a live environment past the limit, and then its whole group is dropped. */
  lemma {:induction false} Outlives(cfg: Config, s: State, g: Gid, m: Meta) returns (es: seq<Event>, t: State)
    requires cfg.Valid() && Inv(cfg, s) && s.watcher.Quiet? && m in s.inflight && m.gid == g && Ages(cfg, m)
    ensures Moves(cfg, s, es, t, false) && Inv(cfg, t) && Steady(s, t) && t.loop == s.loop && Spent(t, g)
    decreases cfg.maxOffPolicy + 1 - m.offPolicy
  {
    StillYoung(cfg, s, m);
    var fs, u := Announces(cfg, s, m);
    hide *;
    var n := m.(offPolicy := m.offPolicy + 1);
    AgesOn(cfg, m);
    var gs, w := DropAll(cfg, u, g);
    Append(cfg, s, fs, u, gs, w, false);
    SteadyTwice(s, u, w);
    SweptCases(u, w, u.watcher.stale, g, n);
    es, t := fs + gs, w;
    if !Spent(w, g) {
      var hs;
      hs, t := Outlives(cfg, w, g, n);
      Append(cfg, s, es, w, hs, t, false);
      SteadyTwice(s, w, t);
      es := es + hs;
    }
  }

  lemma AgesOn(cfg: Config, m: Meta)
    requires Ages(cfg, m)
    ensures Ages(cfg, m.(offPolicy := m.offPolicy + 1))
  {
  }

  lemma SweptCases(s: State, t: State, stale: set<Gid>, g: Gid, m: Meta)
    requires Swept(s, t, stale, g) && m in s.inflight && m.gid == g
    ensures Spent(t, g) || (g !in stale && m in t.inflight)
  {
  }

  /** Why a train group that is shut out and not stuck is delivered all the same. */
  ghost predicate Rescued(cfg: Config, s: State, g: Gid) {
    || Doomed(s.watcher, g)
    || (exists m :: m in s.inflight && m.gid == g && Ages(cfg, m))
    || Spent(s, g)
  }

  lemma TaskAges(cfg: Config, s: State, m: Meta, g: Gid)
    requires Inv(cfg, s) && m in s.inflight && m.gid == g < |s.store|
    requires s.store[g].kind.Train? && s.store[g].env in cfg.train && cfg.train[s.store[g].env].live
    ensures Ages(cfg, m)
  {
    var i :| 0 <= i < |s.inflight| && s.inflight[i] == m;
    assert MetasOk(s.store, s.inflight) && MetaOk(s.store, s.inflight[i]);
  }

  /** Back at the top of the loop, such a group is dropped soon, has a task that ages, or is all scheduled. */
  lemma {:induction false} HomeRescues(cfg: Config, s: State, t: State, g: Gid)
    requires cfg.Valid() && Inv(cfg, s) && Waits(cfg, s.store, s.groups, g) && TrainShut(cfg, s.trainDisabled, s.evalQueue) && !Stuck(cfg, s, g)
    requires Inv(cfg, t) && Kept(s, t) && TasksKept(s.inflight, t.inflight)
    requires Scheduling(s) ==> Registered(s.inflight, t.inflight, s.loop.gid)
    requires Scheduling(s) && s.loop.Selecting? ==> Shape(cfg, s) && Steady(SelectedStep(cfg, s), t)
    ensures Rescued(cfg, t, g)
  {
    assert g < |t.store| && t.store[g].kind.Train? && t.store[g].env == s.store[g].env;
    InvShape(cfg, s);
    hide Inv, Shape, Kept, Steady, TrainShut;
    if Doomed(s.watcher, g) {
      DoomKept(s, t, g);
    } else if cfg.train[s.store[g].env].live {
      if m :| m in s.inflight && m.gid == g {
        TaskAges(cfg, t, m, g);
      } else {
        var m := t.inflight[|s.inflight|];
        assert m in t.inflight;
        TaskAges(cfg, t, m, g);
      }
    } else {
      AllSelected(cfg, s, g);
      SpentStays(SelectedStep(cfg, s), t, g);
    }
  }

  lemma DoomKept(s: State, t: State, g: Gid)
    requires Kept(s, t) && Doomed(s.watcher, g)
    ensures Doomed(t.watcher, g)
  {
  }

  lemma AllSelected(cfg: Config, s: State, g: Gid)
    requires Shape(cfg, s) && s.loop.Selecting? && s.loop.gid == g && g in s.groups && Cost(cfg, s.store[g]) >= s.store[g].toSchedule
    ensures Spent(SelectedStep(cfg, s), g)
  {
  }

  /** With the loop at its top, the watcher drops the group now or once enough updates have aged its task. */
  lemma {:induction false} Rescues(cfg: Config, s: State, g: Gid) returns (es: seq<Event>, t: State)
    requires cfg.Valid() && Inv(cfg, s) && Rescued(cfg, s, g)
    ensures Moves(cfg, s, es, t, false) && Inv(cfg, t) && Steady(s, t) && t.loop == s.loop && Spent(t, g)
  {
    var m :| Doomed(s.watcher, g) || Spent(s, g) || (m in s.inflight && m.gid == g && Ages(cfg, m));
    DoomedIs(s.watcher, g);
    hide *;
    es, t := WatcherHome(cfg, s, g);
    if Spent(s, g) {
      SpentStays(s, t, g);
    } else if Doomed(s.watcher, g) {
      SweptNow(s, t, s.watcher.stale, g);
    } else {
      SweptCases(s, t, if s.watcher.Quiet? then {} else s.watcher.stale, g, m);
      if !Spent(t, g) {
        var fs, u := Outlives(cfg, t, g, m);
        Append(cfg, s, es, t, fs, u, false);
        SteadyTwice(s, t, u);
        es, t := es + fs, u;
      }
    }
  }

  lemma DoomedIs(w: Watcher, g: Gid)
    ensures Doomed(w, g) ==> !w.Quiet?
  {
  }

  lemma SweptNow(s: State, t: State, stale: set<Gid>, g: Gid)
    requires Swept(s, t, stale, g) && g in stale
    ensures Spent(t, g)
  {
  }

  // ---------------------------------------------------------------- over whole runs

  /** The continuation is orderly, loses nothing, and leaves nothing of the group owed. */
  ghost predicate Delivers(cfg: Config, s: State, fs: seq<Event>, g: Gid)
    requires cfg.Valid()
  {
    && Runs(cfg, s, fs) && Lossless(fs) && Orderly(cfg, s, fs, false)
    && g < |Run(cfg, s, fs).store| && OwingIn(Run(cfg, s, fs), g) == 0
  }

  lemma GoesDelivers(cfg: Config, s: State, fs: seq<Event>, t: State, g: Gid)
    requires Goes(cfg, s, fs, t) && g < |t.store| && OwingIn(t, g) == 0
    ensures cfg.Valid() && Delivers(cfg, s, fs, g)
  {
    hide OwingIn, Runs, Run, Lossless, Orderly;
  }

  /** Once a group is all scheduled, letting everything come to rest delivers it. */
  lemma {:induction false} Settles(cfg: Config, s: State, g: Gid, pick: Env) returns (es: seq<Event>, t: State)
    requires cfg.Valid() && Inv(cfg, s) && !s.loop.Dead? && pick in cfg.train && Spent(s, g)
    ensures Goes(cfg, s, es, t) && g < |t.store| && OwingIn(t, g) == 0
  {
    es, t := Normalize(cfg, s, pick);
    hide Inv, Goes, Normal, OwingIn;
    assert g < |t.store| && Unscheduled(t.store, t.groups, g) == 0;
    RestOwing(t, g);
  }

  lemma OpenFits(cfg: Config, s: State)
    requires Shape(cfg, s) && !TrainShut(cfg, s.trainDisabled, s.evalQueue)
    ensures !s.trainDisabled && QueueFits(cfg, s.evalQueue)
  {
    forall i | 0 <= i < |s.evalQueue| ensures s.evalQueue[i].env in cfg.eval && !Oversize(cfg, s.evalQueue[i]) {}
  }

  lemma FitsSuffix(cfg: Config, rows: seq<Row>, k: nat)
    requires QueueFits(cfg, rows) && k <= |rows|
    ensures QueueFits(cfg, rows[k..])
  {
  }

  /** From rest on, a group that can still be scheduled is delivered round by round. */
  lemma {:induction false} Played(cfg: Config, s: State, g: Gid, pick: Env) returns (es: seq<Event>, t: State)
    requires cfg.Valid() && Inv(cfg, s) && Sound(cfg, s) && Ascending(s.groups) && !s.loop.Dead? && pick in cfg.train && g < |s.store|
    requires s.store[g].kind.Train? ==> !s.trainDisabled && QueueFits(cfg, s.evalQueue)
    ensures Goes(cfg, s, es, t) && g < |t.store| && OwingIn(t, g) == 0
  {
    var u, fs;
    es, u := Normalize(cfg, s, pick);
    PathSound(cfg, s, es, u);
    if s.store[g].kind.Train? { FitsSuffix(cfg, s.evalQueue, |s.evalQueue| - |u.evalQueue|); }
    assert g < |u.store| && u.store[g].kind == s.store[g].kind && u.trainDisabled == s.trainDisabled;
    assert Ready(cfg, u, g);
    hide Inv, Sound, Ascending, Goes, Advances, Ready, OwingIn, QueueFits, Normal;
    fs, t := Deliver(cfg, u, g, pick);
    Joins(cfg, s, es, u, fs, t);
    es := es + fs;
  }

  /** A train group that is shut out without being stuck is dropped or finishes what is under way. */
  lemma {:induction false} Saved(cfg: Config, s: State, g: Gid, pick: Env) returns (es: seq<Event>, t: State)
    requires cfg.Valid() && Inv(cfg, s) && !s.loop.Dead? && pick in cfg.train
    requires Waits(cfg, s.store, s.groups, g) && TrainShut(cfg, s.trainDisabled, s.evalQueue) && !Stuck(cfg, s, g)
    ensures Goes(cfg, s, es, t) && g < |t.store| && OwingIn(t, g) == 0
  {
    hide *;
    var fs, gs, u, w;
    fs, u := LoopHome(cfg, s);
    HomeRescues(cfg, s, u, g);
    gs, w := Rescues(cfg, u, g);
    Append(cfg, s, fs, u, gs, w, false);
    Walks(cfg, s, fs + gs, w);
    es, t := Settles(cfg, w, g, pick);
    Joins(cfg, s, fs + gs, w, es, t);
    es := fs + gs + es;
  }

  lemma {:induction false} WaitsIff(cfg: Config, s: State, g: Gid)
    requires Shape(cfg, s) && g < |s.store| && s.store[g].kind.Train?
    ensures Waits(cfg, s.store, s.groups, g) <==> !Spent(s, g)
  {
  }

  /** A group that is not stuck can be delivered. */
  lemma {:induction false} CanDeliver(cfg: Config, s: State, g: Gid, pick: Env) returns (es: seq<Event>)
    requires cfg.Valid() && Inv(cfg, s) && Sound(cfg, s) && Ascending(s.groups) && !s.loop.Dead? && pick in cfg.train
    requires g < |s.store| && !Stuck(cfg, s, g)
    ensures Delivers(cfg, s, es, g)
  {
    var t;
    InvShape(cfg, s);
    hide *;
    if Spent(s, g) {
      es, t := Settles(cfg, s, g, pick);
    } else if s.store[g].kind.Train? && TrainShut(cfg, s.trainDisabled, s.evalQueue) {
      WaitsIff(cfg, s, g);
      es, t := Saved(cfg, s, g, pick);
    } else {
      if s.store[g].kind.Train? { OpenFits(cfg, s); }
      es, t := Played(cfg, s, g, pick);
    }
    GoesDelivers(cfg, s, es, t, g);
  }

  /** What every reachable state has. */
  lemma {:induction false} Standing(cfg: Config, v: int, es: seq<Event>)
    requires cfg.Valid() && Runs(cfg, Init(v), es)
    ensures var s := After(cfg, v, es); Inv(cfg, s) && Sound(cfg, s) && Ascending(s.groups)
  {
    Reached(cfg, v, es);
    InitInv(cfg, v);
    InitSound(cfg, v);
    hide Inv, Sound, Ascending, Runs, Run;
    RunSound(cfg, Init(v), es);
    RunAscends(cfg, Init(v), es);
  }

  lemma {:induction false} NoLoss(cfg: Config, s: State, fs: seq<Event>, g: Gid)
    requires cfg.Valid() && Runs(cfg, s, fs) && Lossless(fs)
    ensures !RunLoses(cfg, s, fs, g)
    decreases |fs|
  {
    hide Step, Enabled, Shape, MayLose, Loses;
    if fs != [] {
      NeverLoses(s, fs[0], g);
      assert forall i | 0 <= i < |fs[1..]| :: fs[1..][i] == fs[i + 1];
      NoLoss(cfg, Step(cfg, s, fs[0]), fs[1..], g);
    }
  }

  /** The exact condition, over every run that has not ended in a fatal episode: some orderly and
      lossless continuation delivers all that a group is owed if and only if the group is not stuck. */
  lemma {:induction false} ProgressIff(cfg: Config, v: int, es: seq<Event>, g: Gid)
    requires cfg.Valid() && cfg.train != map[] && Runs(cfg, Init(v), es) && g < |After(cfg, v, es).store|
    requires !After(cfg, v, es).loop.Dead?
    ensures (exists fs :: Delivers(cfg, After(cfg, v, es), fs, g)) <==> !Stuck(cfg, After(cfg, v, es), g)
  {
    var s := After(cfg, v, es);
    var pick :| pick in cfg.train;
    Standing(cfg, v, es);
    if Stuck(cfg, s, g) {
      forall fs | Delivers(cfg, s, fs, g) ensures false {
        NoLoss(cfg, s, fs, g);
        StuckForever(cfg, s, fs, g);
      }
    } else {
      hide Inv, Sound, Ascending, Stuck, Delivers;
      var fs := CanDeliver(cfg, s, g, pick);
    }
  }

  /** Progress: after such a run, a group that is not stuck can be delivered, and then it has been emitted
      whole if and only if nothing of it had been lost before. */
  lemma {:induction false} Progress(cfg: Config, v: int, es: seq<Event>, g: Gid) returns (fs: seq<Event>)
    requires cfg.Valid() && cfg.train != map[] && Runs(cfg, Init(v), es) && g < |After(cfg, v, es).store|
    requires !After(cfg, v, es).loop.Dead? && !Stuck(cfg, After(cfg, v, es), g)
    ensures Delivers(cfg, After(cfg, v, es), fs, g) && Runs(cfg, Init(v), es + fs)
    ensures var t := After(cfg, v, es + fs);
            && g < |t.store| && OwingIn(t, g) == 0
            && t.store[g].env in cfg.Envs(t.store[g].kind)
            && (CountOf(t.log, g) == cfg.Envs(t.store[g].kind)[t.store[g].env].groupSize <==> !RunLoses(cfg, Init(v), es, g))
  {
    var s := After(cfg, v, es);
    var pick :| pick in cfg.train;
    Standing(cfg, v, es);
    hide Inv, Sound, Ascending, Stuck, OwingIn, RunLoses, LostAt;
    fs := CanDeliver(cfg, s, g, pick);
    hide Lossless, Orderly, Shape, Step, Enabled;
    RunsAppend(cfg, Init(v), es, fs);
    ExactlyOnce(cfg, v, es + fs, g);
    SameLosses(cfg, v, es, fs, g);
  }

  /** A lossless continuation loses nothing more of a group. */
  lemma {:induction false} SameLosses(cfg: Config, v: int, es: seq<Event>, fs: seq<Event>, g: Gid)
    requires cfg.Valid() && Runs(cfg, Init(v), es) && Runs(cfg, After(cfg, v, es), fs) && Lossless(fs) && Inv(cfg, After(cfg, v, es))
    ensures Runs(cfg, Init(v), es + fs) && (RunLoses(cfg, Init(v), es + fs, g) <==> RunLoses(cfg, Init(v), es, g))
    ensures LostAt(After(cfg, v, es + fs).lost, g) == LostAt(After(cfg, v, es).lost, g)
  {
    hide Inv, Lossless, LostAt, RunLoses, Step, Enabled, Shape;
    var s := After(cfg, v, es);
    RunsAppend(cfg, Init(v), es, fs);
    LostIff(cfg, v, es, g);
    LostIff(cfg, v, es + fs, g);
    NoLoss(cfg, s, fs, g);
    RunLosesIff(cfg, s, fs, g);
  }

  // ---------------------------------------------------------------- what was dispatched

  /** Every dispatched rollout can be delivered, of every group at once: after any run that has not ended
      in a fatal episode some orderly and lossless continuation leaves the queue empty and each group owed
      only what was never scheduled, which is no more than before; all else has been consumed, except what
      had been lost already. */
  lemma {:induction false} DispatchedDelivered(cfg: Config, v: int, es: seq<Event>) returns (fs: seq<Event>)
    requires cfg.Valid() && cfg.train != map[] && Runs(cfg, Init(v), es) && !After(cfg, v, es).loop.Dead?
    ensures Runs(cfg, After(cfg, v, es), fs) && Lossless(fs) && Orderly(cfg, After(cfg, v, es), fs, false)
    ensures Runs(cfg, Init(v), es + fs)
    ensures var s, t := After(cfg, v, es), After(cfg, v, es + fs);
            && SameIds(s.store, t.store) && t.queue == []
            && forall g: Gid | g < |t.store| ::
                 && OwingIn(t, g) == Unscheduled(t.store, t.groups, g)
                 && t.store[g].env in cfg.Envs(t.store[g].kind)
                 && cfg.Envs(t.store[g].kind)[t.store[g].env].groupSize
                    == Unscheduled(t.store, t.groups, g) + CountOf(t.consumed, g) + LostAt(s.lost, g)
                 && (g < |s.store| ==> Unscheduled(t.store, t.groups, g) <= Unscheduled(s.store, s.groups, g))
  {
    var s, t := After(cfg, v, es), After(cfg, v, es);
    var pick :| pick in cfg.train;
    Standing(cfg, v, es);
    fs, t := Normalize(cfg, s, pick);
    RunsAppend(cfg, Init(v), es, fs);
    assert t == After(cfg, v, es + fs);
    AllConsumed(cfg, v, es + fs);
    hide Inv, Sound, Ascending, Orderly, OwingIn, Unscheduled, CountOf, LostAt, Lossless;
    forall g: Gid | g < |t.store|
      ensures OwingIn(t, g) == Unscheduled(t.store, t.groups, g) && t.store[g].env in cfg.Envs(t.store[g].kind)
      ensures cfg.Envs(t.store[g].kind)[t.store[g].env].groupSize == Unscheduled(t.store, t.groups, g) + CountOf(t.consumed, g) + LostAt(s.lost, g)
    {
      RestOwing(t, g);
      EmissionLedger(cfg, v, es + fs, g);
      SameLosses(cfg, v, es, fs, g);
      LostIs(t.lost, g);
    }
  }

  lemma LostIs(lost: seq<nat>, g: Gid)
    requires g < |lost|
    ensures LostAt(lost, g) == lost[g]
  {
  }

  lemma {:induction false} AllConsumed(cfg: Config, v: int, es: seq<Event>)
    requires cfg.Valid() && Runs(cfg, Init(v), es) && Normal(After(cfg, v, es))
    ensures After(cfg, v, es).consumed == After(cfg, v, es).log && After(cfg, v, es).queue == []
  {
    QueueIsFifo(cfg, v, es);
  }

  // ---------------------------------------------------------------- when nothing opens any more

  /** Eval is preferred and the head of its queue needs more permits than there are. */
  ghost predicate Blocked(cfg: Config, s: State) {
    && s.mode.PreferEval? && s.evalQueue != []
    && s.evalQueue[0].env in cfg.eval && FreshCost(cfg.eval[s.evalQueue[0].env]) > cfg.maxInflight
  }

  lemma BlockedFill(cfg: Config, s: State, pick: Env)
    requires cfg.Valid() && Shape(cfg, s) && Blocked(cfg, s) && pick in cfg.train && s.permits >= 0
    ensures var t := FillStep(cfg, s, pick); t.evalQueue == s.evalQueue && t.mode == s.mode && |t.store| == |s.store|
  {
    assert EvalHasWork(s);
    var i := FirstEligible(cfg, s, Eval, 0);
    if i < |s.groups| { BeginSteady(cfg, s, s.groups[i]); }
    hide FirstEligible, Reserve, Inv;
  }

  lemma BlockedStep(cfg: Config, s: State, e: Event)
    requires cfg.Valid() && Inv(cfg, s) && Blocked(cfg, s) && Enabled(cfg, s, e)
    ensures Shape(cfg, s) && Blocked(cfg, Step(cfg, s, e)) && |Step(cfg, s, e).store| == |s.store|
  {
    InvPermits(cfg, s);
    if OfWatcher(e) {
      hide *;
      WatcherSteady(cfg, s, e);
      SteadyBlocked(cfg, s, Step(cfg, s, e));
    } else if e.Consume? || (OfLoop(e) && !e.Fill?) {
      hide *;
      LoopKept(cfg, s, e);
      KeptIs(s, Step(cfg, s, e));
      SteadyBlocked(cfg, s, Step(cfg, s, e));
    } else {
      hide *;
      OtherEvents(e);
      OtherBlocked(cfg, s, e);
    }
  }

  lemma OtherBlocked(cfg: Config, s: State, e: Event)
    requires cfg.Valid() && Shape(cfg, s) && Blocked(cfg, s) && Enabled(cfg, s, e) && s.permits >= 0
    requires e.Fill? || e.DrainTraining? || e.TriggerEval? || e.Ship?
    ensures Blocked(cfg, Step(cfg, s, e)) && |Step(cfg, s, e).store| == |s.store|
  {
    if e.Fill? {
      BlockedFill(cfg, s, e.pick);
    } else if e.DrainTraining? {
      DrainQueue(cfg, s);
    }
    hide Shape, FillStep, DrainStep;
  }

  lemma DrainQueue(cfg: Config, s: State)
    requires Shape(cfg, s)
    ensures var t := DrainStep(s); t.evalQueue == s.evalQueue && t.mode == s.mode && t.store == s.store
  {
    hide OfKind, RemoveAll, GidsOf, Load, LoadOf;
  }

  lemma SteadyBlocked(cfg: Config, s: State, t: State)
    requires Steady(s, t) && Blocked(cfg, s)
    ensures Blocked(cfg, t) && |t.store| == |s.store|
  {
  }

  /** The capacity bounds group sizes only for the default size: once an eval example that is scored as a
      group larger than the capacity heads the queue, whatever happens no group of either kind is ever
      opened again. */
  lemma {:induction false} BlockedForever(cfg: Config, s: State, es: seq<Event>)
    requires cfg.Valid() && Inv(cfg, s) && Blocked(cfg, s) && Runs(cfg, s, es)
    ensures Blocked(cfg, Run(cfg, s, es)) && |Run(cfg, s, es).store| == |s.store|
    decreases |es|
  {
    hide Inv, Blocked, Step, Enabled, Shape;
    if es != [] {
      StepKeeps(cfg, s, es[0]);
      BlockedStep(cfg, s, es[0]);
      BlockedForever(cfg, Step(cfg, s, es[0]), es[1..]);
    }
  }
}
