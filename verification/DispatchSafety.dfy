/** Every event keeps the dispatcher's invariant, so every run does. */
module DispatchSafety {
  import opened Common
  import opened Dispatch
  import opened DispatchInvariant

  // ---------------------------------------------------------------- opening a group

  lemma {:induction false} NoCountPast(rs: seq<Rollout>, g: Gid)
    requires forall i | 0 <= i < |rs| :: rs[i].gid != g
    ensures CountOf(rs, g) == 0
  {
    if rs != [] { NoCountPast(rs[..|rs| - 1], g); }
  }

  /** An example may open a train group under an open gate, or an eval group for the head row. */
  ghost predicate MayOpen(cfg: Config, s: State, kind: Kind, env: Env, evalStep: Option<int>) {
    && s.loop.AtTop? && env in cfg.Envs(kind)
    && (kind.Train? ==> s.gate && evalStep == None)
    && (kind.Eval? ==> s.evalQueue != [] && evalStep == Some(s.evalQueue[0].evalStep) && env == s.evalQueue[0].env)
  }

  function Opened(cfg: Config, s: State, kind: Kind, env: Env, evalStep: Option<int>): State
    requires env in cfg.Envs(kind)
  {
    OpenGroup(cfg, if kind.Eval? && s.evalQueue != [] then s.(evalQueue := s.evalQueue[1..]) else s, kind, env, evalStep)
  }

  lemma OpenLedger(store: seq<Group>, groups: seq<Gid>, inflight: seq<Meta>, w: Watcher, log: seq<Rollout>,
                   lost: seq<nat>, g: Group)
    requires MetasOk(store, inflight) && RolloutsOk(store, log) && Ledger(store, groups, inflight, AtTop, w, log, lost)
    requires w.DropEmitting? ==> w.gid < |store|
    requires g.toSchedule == g.target
    ensures Ledger(store + [g], groups + [|store|], inflight, AtTop, w, log, lost + [0])
  {
    NoCountPast(log, |store|);
    LoadOfMember(inflight, |store|);
    forall h: Gid | h <= |store|
      ensures (store + [g])[h].target == Owing(store + [g], groups + [|store|], inflight, AtTop, w, h)
                                        + CountOf(log, h) + (lost + [0])[h]
    {
      assert h in groups + [|store|] <==> h in groups || h == |store|;
      if h < |store| {
        assert store[h].target == Owing(store, groups, inflight, AtTop, w, h) + CountOf(log, h) + lost[h];
      }
    }
  }

  lemma OpenLive(cfg: Config, s: State, t: State, kind: Kind, env: Env, evalStep: Option<int>)
    requires cfg.Valid() && MayOpen(cfg, s, kind, env, evalStep) && t == Opened(cfg, s, kind, env, evalStep)
    requires RolloutsOk(s.store, s.log) && Live(s.store, s.groups, s.loop, s.watcher, s.log)
    requires s.watcher.DropEmitting? ==> s.watcher.gid < |s.store|
    ensures Live(t.store, t.groups, t.loop, t.watcher, t.log)
  {
    NoCountPast(s.log, |s.store|);
    assert forall g: Gid :: g in t.groups <==> g in s.groups || g == |s.store|;
  }

  lemma OpenAgrees(cfg: Config, s: State, t: State, kind: Kind, env: Env, evalStep: Option<int>)
    requires MayOpen(cfg, s, kind, env, evalStep) && t == Opened(cfg, s, kind, env, evalStep)
    requires Agree(cfg, s.store, s.inflight, s.nextTask, s.loop, s.watcher, s.log)
    ensures Agree(cfg, t.store, t.inflight, t.nextTask, t.loop, t.watcher, t.log)
  {
    OkKept(s.store, t.store, s.inflight, s.loop, s.watcher, s.log);
  }

  lemma OpenRows(cfg: Config, s: State, t: State, kind: Kind, env: Env, evalStep: Option<int>)
    requires MayOpen(cfg, s, kind, env, evalStep) && t == Opened(cfg, s, kind, env, evalStep)
    requires Rows(s.store, s.evalQueue, s.triggered) && Gate(s.step, s.version, s.gate, s.watcher, s.store)
    ensures Rows(t.store, t.evalQueue, t.triggered) && Gate(t.step, t.version, t.gate, t.watcher, t.store)
  {
    var g := t.store[|s.store|];
    assert t.store == s.store + [g] && g.kind == kind && g.env == env && g.evalStep == evalStep;
    assert t.evalQueue == (if kind.Eval? then s.evalQueue[1..] else s.evalQueue) && t.triggered == s.triggered;
    assert Gate(t.step, t.version, t.gate, t.watcher, t.store) by { OpenGate(cfg, s, t, kind, env, evalStep); }
    assert kind.Eval? ==> s.evalQueue != [] && evalStep == Some(s.evalQueue[0].evalStep) && env == s.evalQueue[0].env;
    assert kind.Train? ==> evalStep == None;
    hide *;
    OpenedRow(s.store, g, s.evalQueue, s.triggered, t.evalQueue);
  }

  lemma OpenGate(cfg: Config, s: State, t: State, kind: Kind, env: Env, evalStep: Option<int>)
    requires MayOpen(cfg, s, kind, env, evalStep) && t == Opened(cfg, s, kind, env, evalStep)
    requires Gate(s.step, s.version, s.gate, s.watcher, s.store)
    ensures Gate(t.step, t.version, t.gate, t.watcher, t.store)
  {
  }

  lemma OpenedRow(store: seq<Group>, g: Group, evalQueue: seq<Row>, triggered: seq<Row>, rest: seq<Row>)
    requires Rows(store, evalQueue, triggered)
    requires g.kind.Eval? ==> evalQueue != [] && g.evalStep == Some(evalQueue[0].evalStep) && g.env == evalQueue[0].env && rest == evalQueue[1..]
    requires g.kind.Train? ==> g.evalStep == None && rest == evalQueue
    ensures Rows(store + [g], rest, triggered)
  {
    hide OpenedRows;
    RowsSnoc(store, g, evalQueue, triggered);
  }

  lemma {:induction false} RowsSnoc(store: seq<Group>, g: Group, evalQueue: seq<Row>, triggered: seq<Row>)
    requires OpenedRows(store) + evalQueue == triggered
    ensures (store + [g])[..|store|] == store
    ensures !(g.kind.Eval? && g.evalStep.Some?) ==> OpenedRows(store + [g]) + evalQueue == triggered
    ensures g.kind.Eval? && g.evalStep.Some? && evalQueue != [] && evalQueue[0] == Row(g.env, g.evalStep.value) ==>
              OpenedRows(store + [g]) + evalQueue[1..] == triggered
  {
    assert (store + [g])[..|store|] == store;
    var rows := OpenedRows(store);
    assert OpenedRows(store + [g]) == rows + (if g.kind.Eval? && g.evalStep.Some? then [Row(g.env, g.evalStep.value)] else []);
    hide OpenedRows;
    HeadMoves(rows, evalQueue);
  }

  lemma HeadMoves<T>(a: seq<T>, b: seq<T>)
    ensures a + [] == a && (b != [] ==> (a + [b[0]]) + b[1..] == a + b)
  {
    if b != [] { assert b == [b[0]] + b[1..]; }
  }

  lemma OpenShape(cfg: Config, s: State, t: State, kind: Kind, env: Env, evalStep: Option<int>)
    requires MayOpen(cfg, s, kind, env, evalStep) && t == Opened(cfg, s, kind, env, evalStep)
    requires Shape(cfg, s) && Permits(cfg, s.permits, s.inflight, s.loop, s.store)
    ensures Shape(cfg, t) && Permits(cfg, t.permits, t.inflight, t.loop, t.store)
  {
  }

  lemma OpenKeeps(cfg: Config, s: State, t: State, kind: Kind, env: Env, evalStep: Option<int>)
    requires cfg.Valid() && Inv(cfg, s) && MayOpen(cfg, s, kind, env, evalStep)
    requires t == Opened(cfg, s, kind, env, evalStep)
    ensures Inv(cfg, t)
  {
    hide Ledger, Live, Permits, Staleness, Gate, Rows, Fifo, MetasOk, RolloutsOk, LoopAgrees, WatcherAgrees, StoreOk;
    OpenLedger(s.store, s.groups, s.inflight, s.watcher, s.log, s.lost, t.store[|s.store|]);
    OpenLive(cfg, s, t, kind, env, evalStep);
    OpenAgrees(cfg, s, t, kind, env, evalStep);
    OpenRows(cfg, s, t, kind, env, evalStep);
    OpenShape(cfg, s, t, kind, env, evalStep);
  }

  // ---------------------------------------------------------------- group objects touched in place

  /** An event that only moves the scheduler and edits counters of group objects. */
  ghost predicate Touches(s: State, t: State) {
    && t == s.(store := t.store, loop := t.loop)
    && SameIds(s.store, t.store) && |s.store| == |t.store|
    && !s.loop.Emitting? && !t.loop.Emitting?
  }

  lemma TouchKeeps(cfg: Config, s: State, t: State)
    requires Touches(s, t)
    requires Agree(cfg, s.store, s.inflight, s.nextTask, s.loop, s.watcher, s.log)
    requires Gate(s.step, s.version, s.gate, s.watcher, s.store)
    requires Rows(s.store, s.evalQueue, s.triggered)
    requires Staleness(cfg, s.inflight, s.loop, s.watcher, s.log)
    ensures Agree(cfg, t.store, t.inflight, t.nextTask, t.loop, t.watcher, t.log)
    ensures Gate(t.step, t.version, t.gate, t.watcher, t.store)
    ensures Rows(t.store, t.evalQueue, t.triggered)
    ensures Staleness(cfg, t.inflight, t.loop, t.watcher, t.log)
  {
    hide MetaAges, OverdueDoomed, WatcherAge, LogAge;
    OkKept(s.store, t.store, s.inflight, s.loop, s.watcher, s.log);
    RowsSame(s.store, t.store);
  }

  // ---------------------------------------------------------------- reserving

  /** The group is live, has something to schedule, and its next task fits. */
  ghost predicate MayReserve(cfg: Config, s: State, gid: Gid) {
    && (s.loop.AtTop? || s.loop == Selecting(gid))
    && gid < |s.store| && gid in s.groups && s.store[gid].env in cfg.Envs(s.store[gid].kind)
    && 0 < s.store[gid].toSchedule
    && Load(s.inflight) + Cost(cfg, s.store[gid]) <= cfg.maxInflight
  }

  function Pinned(s: State, gid: Gid): State
    requires gid < |s.store|
  {
    s.(store := s.store[gid := s.store[gid].(pinned := true)])
  }

  lemma ReserveBooks(cfg: Config, s: State, t: State, gid: Gid)
    requires MayReserve(cfg, s, gid) && t == Reserve(cfg, s, gid)
    requires Ledger(s.store, s.groups, s.inflight, s.loop, s.watcher, s.log, s.lost)
    requires Live(s.store, s.groups, s.loop, s.watcher, s.log)
    ensures Ledger(t.store, t.groups, t.inflight, t.loop, t.watcher, t.log, t.lost)
    ensures Live(t.store, t.groups, t.loop, t.watcher, t.log)
  {
  }

  lemma ReserveShape(cfg: Config, s: State, t: State, gid: Gid)
    requires MayReserve(cfg, s, gid) && t == Reserve(cfg, s, gid)
    requires Shape(cfg, s) && Permits(cfg, s.permits, s.inflight, s.loop, s.store)
    ensures Shape(cfg, t) && Permits(cfg, t.permits, t.inflight, t.loop, t.store)
  {
  }

  lemma ReserveKeeps(cfg: Config, s: State, t: State, gid: Gid)
    requires Inv(cfg, s) && MayReserve(cfg, s, gid) && t == Reserve(cfg, s, gid)
    ensures Inv(cfg, t)
  {
    hide Shape, Agree, Ledger, Live, Permits, Staleness, Gate, Rows, Fifo;
    ReserveBooks(cfg, s, t, gid);
    ReserveShape(cfg, s, t, gid);
    TouchKeeps(cfg, s, t);
  }

  lemma SelectShape(cfg: Config, s: State, t: State, gid: Gid)
    requires MayReserve(cfg, s, gid) && s.loop.AtTop? && t == s.(loop := Selecting(gid))
    requires Shape(cfg, s) && Permits(cfg, s.permits, s.inflight, s.loop, s.store)
    requires Ledger(s.store, s.groups, s.inflight, s.loop, s.watcher, s.log, s.lost)
    requires Live(s.store, s.groups, s.loop, s.watcher, s.log)
    ensures Shape(cfg, t) && Permits(cfg, t.permits, t.inflight, t.loop, t.store)
    ensures Ledger(t.store, t.groups, t.inflight, t.loop, t.watcher, t.log, t.lost)
    ensures Live(t.store, t.groups, t.loop, t.watcher, t.log)
  {
  }

  lemma BeginKeeps(cfg: Config, s: State, t: State, gid: Gid)
    requires Inv(cfg, s) && MayReserve(cfg, s, gid) && s.loop.AtTop? && t == BeginSchedule(cfg, s, gid)
    ensures Inv(cfg, t)
  {
    hide Shape, Agree, Ledger, Live, Permits, Staleness, Gate, Rows, Fifo;
    if s.store[gid].pinned {
      ReserveKeeps(cfg, s, t, gid);
    } else {
      SelectShape(cfg, s, t, gid);
      TouchKeeps(cfg, s, t);
    }
  }

  lemma PinBooks(cfg: Config, s: State, t: State, gid: Gid)
    requires s.loop == Selecting(gid) && gid < |s.store| && t == Pinned(s, gid)
    requires Shape(cfg, s) && Permits(cfg, s.permits, s.inflight, s.loop, s.store)
    requires Ledger(s.store, s.groups, s.inflight, s.loop, s.watcher, s.log, s.lost)
    requires Live(s.store, s.groups, s.loop, s.watcher, s.log)
    ensures Shape(cfg, t) && Permits(cfg, t.permits, t.inflight, t.loop, t.store)
    ensures Ledger(t.store, t.groups, t.inflight, t.loop, t.watcher, t.log, t.lost)
    ensures Live(t.store, t.groups, t.loop, t.watcher, t.log)
  {
    PinPlaces(cfg, s, t, gid);
    hide Shape, Permits;
  }

  lemma PinPlaces(cfg: Config, s: State, t: State, gid: Gid)
    requires s.loop == Selecting(gid) && gid < |s.store| && t == Pinned(s, gid)
    requires Shape(cfg, s) && Permits(cfg, s.permits, s.inflight, s.loop, s.store)
    ensures Shape(cfg, t) && Permits(cfg, t.permits, t.inflight, t.loop, t.store)
  {
  }

  lemma PinKeeps(cfg: Config, s: State, t: State, gid: Gid)
    requires Inv(cfg, s) && s.loop == Selecting(gid) && gid < |s.store| && t == Pinned(s, gid)
    ensures Inv(cfg, t)
  {
    hide Shape, Agree, Ledger, Live, Permits, Staleness, Gate, Rows, Fifo;
    PinBooks(cfg, s, t, gid);
    TouchKeeps(cfg, s, t);
  }

  lemma AbandonKeeps(cfg: Config, s: State, t: State)
    requires Inv(cfg, s) && s.loop.Selecting? && t == s.(loop := AtTop)
    ensures Inv(cfg, t)
  {
    hide Agree, Staleness, Gate, Rows, Fifo;
    TouchKeeps(cfg, s, t);
  }

  lemma SelectedKeeps(cfg: Config, s: State)
    requires Inv(cfg, s) && s.loop.Selecting?
    ensures Inv(cfg, SelectedStep(cfg, s))
  {
    hide Agree, Ledger, Live, Staleness, Gate, Rows, Fifo;
    var gid := s.loop.gid;
    if gid in s.groups {
      PinKeeps(cfg, s, Pinned(s, gid), gid);
      ReserveKeeps(cfg, Pinned(s, gid), SelectedStep(cfg, s), gid);
    } else {
      AbandonKeeps(cfg, s, SelectedStep(cfg, s));
    }
  }

  lemma FreshKeeps(cfg: Config, s: State, kind: Kind, env: Env, evalStep: Option<int>)
    requires cfg.Valid() && Inv(cfg, s) && MayOpen(cfg, s, kind, env, evalStep)
    requires FreshCost(cfg.Envs(kind)[env]) <= Available(cfg, s)
    ensures var t := Opened(cfg, s, kind, env, evalStep);
            t.store[|s.store|].toSchedule > 0 && Inv(cfg, BeginSchedule(cfg, t, |s.store|))
  {
    hide Shape, Agree, Ledger, Live, Staleness, Gate, Rows, Fifo;
    var t := Opened(cfg, s, kind, env, evalStep);
    OpenKeeps(cfg, s, t, kind, env, evalStep);
    assert t.groups[|s.groups|] == |s.store|;
    BeginKeeps(cfg, t, BeginSchedule(cfg, t, |s.store|), |s.store|);
  }

  lemma TryKeeps(cfg: Config, s: State, kind: Kind, pick: Env)
    requires cfg.Valid() && Inv(cfg, s) && s.loop.AtTop? && pick in cfg.train && (kind.Train? ==> s.gate)
    ensures Inv(cfg, TrySchedule(cfg, s, kind, pick))
  {
    hide Agree, Ledger, Live, Staleness, Gate, Rows, Fifo;
    if !(kind.Train? && s.trainDisabled) {
      var i := FirstEligible(cfg, s, kind, 0);
      if i < |s.groups| {
        BeginKeeps(cfg, s, BeginSchedule(cfg, s, s.groups[i]), s.groups[i]);
      } else if kind.Train? {
        if FreshCost(cfg.train[pick]) <= Available(cfg, s) { FreshKeeps(cfg, s, Train, pick, None); }
      } else if s.evalQueue != [] {
        var head := s.evalQueue[0];
        if FreshCost(cfg.eval[head.env]) <= Available(cfg, s) { FreshKeeps(cfg, s, Eval, head.env, Some(head.evalStep)); }
      }
    }
  }

  lemma ModeKeeps(cfg: Config, s: State, mode: Mode)
    requires Inv(cfg, s)
    ensures Inv(cfg, s.(mode := mode))
  {
    hide Agree, Ledger, Live, Permits, Staleness, Gate, Rows, Fifo;
  }

  lemma FillKeeps(cfg: Config, s: State, pick: Env)
    requires cfg.Valid() && Inv(cfg, s) && s.loop.AtTop? && pick in cfg.train
    ensures Inv(cfg, FillStep(cfg, s, pick))
  {
    hide Agree, Ledger, Live, Permits, Staleness, Gate, Rows, Fifo;
    if Available(cfg, s) <= 0 {
    } else if s.mode.PreferEval? && !EvalHasWork(s) {
      ModeKeeps(cfg, s, PreferTrain);
    } else if s.mode.PreferEval? {
      TryKeeps(cfg, s, Eval, pick);
    } else if s.gate {
      TryKeeps(cfg, s, Train, pick);
    }
  }

  // ---------------------------------------------------------------- acquiring and registering

  lemma RegisterLedger(store: seq<Group>, groups: seq<Gid>, inflight: seq<Meta>, w: Watcher, log: seq<Rollout>,
                       lost: seq<nat>, m: Meta, taken: nat)
    requires Ledger(store, groups, inflight, Acquiring(m.gid, m.count, taken), w, log, lost)
    ensures Ledger(store, groups, inflight + [m], AtTop, w, log, lost)
  {
    forall g: Gid | g < |store|
      ensures Owing(store, groups, inflight + [m], AtTop, w, g)
           == Owing(store, groups, inflight, Acquiring(m.gid, m.count, taken), w, g)
    {
      LoadOne(inflight, m, g);
    }
  }

  lemma RegisterAgrees(cfg: Config, store: seq<Group>, inflight: seq<Meta>, loop: Loop, w: Watcher, log: seq<Rollout>,
                       m: Meta)
    requires Agree(cfg, store, inflight, m.task, loop, w, log) && Staleness(cfg, inflight, loop, w, log)
    requires MetaOk(store, m) && m.offPolicy == 0
    ensures Agree(cfg, store, inflight + [m], m.task + 1, AtTop, w, log)
    ensures Staleness(cfg, inflight + [m], AtTop, w, log)
  {
    hide StoreOk, WatcherAgrees, RolloutsOk, WatcherAge, LogAge;
    assert MetaAge(cfg, m);
  }

  lemma RegisterPermits(cfg: Config, permits: int, inflight: seq<Meta>, loop: Loop, store: seq<Group>, m: Meta)
    requires Permits(cfg, permits, inflight, loop, store)
    requires loop.Acquiring? && m.count == loop.need == loop.taken + 1
    ensures Permits(cfg, permits + 1, inflight + [m], AtTop, store)
  {
    LoadOne(inflight, m, 0);
  }

  lemma RegisterKeeps(cfg: Config, s: State, t: State)
    requires Inv(cfg, s) && s.loop.Acquiring? && s.loop.gid < |s.store| && s.loop.taken + 1 == s.loop.need
    requires t == LimiterStep(s)
    ensures Inv(cfg, t)
  {
    hide Agree, Ledger, Live, Permits, Staleness, Gate, Rows, Fifo;
    var m := t.inflight[|s.inflight|];
    RegisterLedger(s.store, s.groups, s.inflight, s.watcher, s.log, s.lost, m, s.loop.taken);
    RegisterAgrees(cfg, s.store, s.inflight, s.loop, s.watcher, s.log, m);
    RegisterPermits(cfg, s.permits, s.inflight, s.loop, s.store, m);
    LiveCalm(s.store, s.groups, s.loop, AtTop, s.watcher, s.log);
  }

  lemma LiveCalm(store: seq<Group>, groups: seq<Gid>, loop: Loop, loop': Loop, w: Watcher, log: seq<Rollout>)
    requires Live(store, groups, loop, w, log) && !loop.Emitting? && !loop'.Emitting?
    ensures Live(store, groups, loop', w, log)
  {
  }

  lemma TakePermitLedger(store: seq<Group>, groups: seq<Gid>, inflight: seq<Meta>, w: Watcher, log: seq<Rollout>,
                         lost: seq<nat>, loop: Loop, loop': Loop)
    requires Ledger(store, groups, inflight, loop, w, log, lost)
    requires loop.Acquiring? && loop'.Acquiring? && loop.gid == loop'.gid && loop.need == loop'.need
    ensures Ledger(store, groups, inflight, loop', w, log, lost)
  {
  }

  lemma LimiterKeeps(cfg: Config, s: State, t: State)
    requires Inv(cfg, s) && s.loop.Acquiring? && s.loop.gid < |s.store| && s.loop.taken < s.loop.need && t == LimiterStep(s)
    ensures Inv(cfg, t)
  {
    hide Agree, Ledger, Live, Staleness, Gate, Rows, Fifo;
    if s.loop.taken + 1 == s.loop.need {
      RegisterKeeps(cfg, s, t);
    } else {
      TakePermitLedger(s.store, s.groups, s.inflight, s.watcher, s.log, s.lost, s.loop, t.loop);
      LiveCalm(s.store, s.groups, s.loop, t.loop, s.watcher, s.log);
      LoopCalm(cfg, s.store, s.inflight, s.nextTask, s.loop, t.loop, s.watcher, s.log);
    }
  }

  lemma LoopCalm(cfg: Config, store: seq<Group>, inflight: seq<Meta>, nextTask: nat, loop: Loop, loop': Loop, w: Watcher,
                 log: seq<Rollout>)
    requires Agree(cfg, store, inflight, nextTask, loop, w, log) && Staleness(cfg, inflight, loop, w, log)
    requires !loop'.Emitting?
    ensures Agree(cfg, store, inflight, nextTask, loop', w, log) && Staleness(cfg, inflight, loop', w, log)
  {
    hide StoreOk, MetasOk, TasksOk, WatcherAgrees, RolloutsOk, MetaAges, OverdueDoomed, WatcherAge, LogAge;
  }

  // ---------------------------------------------------------------- completion

  lemma WithoutAgrees(cfg: Config, store: seq<Group>, inflight: seq<Meta>, nextTask: nat, w: Watcher, log: seq<Rollout>,
                      i: nat, loop: Loop)
    requires i < |inflight| && Agree(cfg, store, inflight, nextTask, AtTop, w, log) && Staleness(cfg, inflight, AtTop, w, log)
    requires loop.Emitting? ==> loop.meta == inflight[i] && loop.pending.None?
    ensures Agree(cfg, store, Without(inflight, i), nextTask, loop, w, log)
    ensures Staleness(cfg, Without(inflight, i), loop, w, log)
  {
    hide StoreOk, WatcherAgrees, RolloutsOk, WatcherAge, LogAge;
    var rest := Without(inflight, i);
    assert forall j | 0 <= j < |rest| :: rest[j] == inflight[if j < i then j else j + 1];
  }

  lemma EmitLedger(store: seq<Group>, groups: seq<Gid>, inflight: seq<Meta>, w: Watcher, log: seq<Rollout>,
                   lost: seq<nat>, i: nat, loop: Loop)
    requires i < |inflight| && Ledger(store, groups, inflight, AtTop, w, log, lost)
    requires loop.Emitting? && loop.meta == inflight[i] && loop.pending.None? && |loop.todo| == inflight[i].count
    ensures Ledger(store, groups, Without(inflight, i), loop, w, log, lost)
  {
    forall g: Gid | g < |store|
      ensures Owing(store, groups, Without(inflight, i), loop, w, g) == Owing(store, groups, inflight, AtTop, w, g)
    {
      LoadSplitAt(inflight, i, g);
    }
  }

  lemma LoseLedger(store: seq<Group>, groups: seq<Gid>, inflight: seq<Meta>, w: Watcher, log: seq<Rollout>,
                   lost: seq<nat>, i: nat, loop: Loop)
    requires i < |inflight| && inflight[i].gid < |store| && Ledger(store, groups, inflight, AtTop, w, log, lost)
    requires loop.AtTop? || loop.Dead?
    ensures Ledger(store, groups, Without(inflight, i), loop, w, log,
                   lost[inflight[i].gid := lost[inflight[i].gid] + inflight[i].count])
  {
    forall g: Gid | g < |store|
      ensures Owing(store, groups, Without(inflight, i), loop, w, g) + (if inflight[i].gid == g then inflight[i].count else 0)
           == Owing(store, groups, inflight, AtTop, w, g)
    {
      LoadSplitAt(inflight, i, g);
    }
  }

  lemma WithoutPermits(cfg: Config, permits: int, inflight: seq<Meta>, store: seq<Group>, i: nat, loop: Loop)
    requires i < |inflight| && Permits(cfg, permits, inflight, AtTop, store)
    requires !loop.Acquiring? && !loop.Selecting?
    ensures Permits(cfg, permits - inflight[i].count, Without(inflight, i), loop, store)
  {
    LoadSplitAt(inflight, i, 0);
  }

  lemma CompleteLive(store: seq<Group>, groups: seq<Gid>, loop: Loop, w: Watcher, log: seq<Rollout>)
    requires Live(store, groups, AtTop, w, log)
    requires loop.Emitting? ==> loop.pending.None? && loop.attached == (loop.meta.gid in groups)
    ensures Live(store, groups, loop, w, log)
  {
  }

  /** What handling a registered task does to the state: it is taken out, and its rollouts are
      either handed to the emitting loop or lost. */
  ghost predicate TookTask(s: State, t: State, i: nat)
    requires i < |s.inflight| && s.inflight[i].gid < |s.lost|
  {
    var m := s.inflight[i];
    && t == s.(inflight := Without(s.inflight, i), permits := s.permits - m.count, loop := t.loop, lost := t.lost)
    && (|| (t.loop.Emitting? && t.loop.meta == m && t.loop.attached == (m.gid in s.groups) && t.loop.pending.None?
            && t.loop.todo != [] && |t.loop.todo| == m.count && t.lost == s.lost)
        || ((t.loop.AtTop? || t.loop.Dead?) && t.lost == s.lost[m.gid := s.lost[m.gid] + m.count]))
  }

  lemma {:induction false} CompleteTakes(cfg: Config, s: State, task: nat, outcome: Outcome)
    requires |s.lost| == |s.store| && s.loop.AtTop? && Enabled(cfg, s, Complete(task, outcome))
    requires MetasOk(s.store, s.inflight)
    ensures forall j | 0 <= j < |s.inflight| :: s.inflight[j].gid < |s.store|
    ensures var i := IndexOf(s.inflight, task);
            if i < |s.inflight| then TookTask(s, CompleteStep(s, task, outcome), i)
            else CompleteStep(s, task, outcome) == s
  {
    hide Without, IndexOf;
    assert forall j | 0 <= j < |s.inflight| :: MetaOk(s.store, s.inflight[j]);
    hide MetasOk;
    var i := IndexOf(s.inflight, task);
    if i < |s.inflight| {
      assert MetaOk(s.store, s.inflight[i]);
    }
  }

  lemma TookShape(cfg: Config, s: State, t: State, i: nat)
    requires i < |s.inflight| && Shape(cfg, s) && s.loop.AtTop? && TookTask(s, t, i)
    ensures Shape(cfg, t)
  {
  }

  lemma TookKeeps(cfg: Config, s: State, t: State, i: nat)
    requires i < |s.inflight| && s.inflight[i].gid < |s.store| && |s.lost| == |s.store|
    requires Inv(cfg, s) && s.loop.AtTop? && TookTask(s, t, i)
    ensures Inv(cfg, t)
  {
    hide Shape, Agree, Ledger, Live, Permits, Staleness, Gate, Rows, Fifo, Without;
    TookShape(cfg, s, t, i);
    WithoutAgrees(cfg, s.store, s.inflight, s.nextTask, s.watcher, s.log, i, t.loop);
    WithoutPermits(cfg, s.permits, s.inflight, s.store, i, t.loop);
    CompleteLive(s.store, s.groups, t.loop, s.watcher, s.log);
    if t.loop.Emitting? {
      EmitLedger(s.store, s.groups, s.inflight, s.watcher, s.log, s.lost, i, t.loop);
    } else {
      LoseLedger(s.store, s.groups, s.inflight, s.watcher, s.log, s.lost, i, t.loop);
    }
  }

  lemma CompleteKeeps(cfg: Config, s: State, task: nat, outcome: Outcome)
    requires Inv(cfg, s) && Shape(cfg, s) && s.loop.AtTop? && Enabled(cfg, s, Complete(task, outcome))
    ensures Inv(cfg, CompleteStep(s, task, outcome))
  {
    hide Ledger, Live, Permits, Staleness, Gate, Rows, Fifo, CompleteStep, TookTask;
    CompleteTakes(cfg, s, task, outcome);
    var i := IndexOf(s.inflight, task);
    if i < |s.inflight| { TookKeeps(cfg, s, CompleteStep(s, task, outcome), i); }
  }

  // ---------------------------------------------------------------- emission

  /** Counting a started emission: the pop it may cause happens only when nothing else is owed. */
  lemma MarkPops(store: seq<Group>, groups: seq<Gid>, inflight: seq<Meta>, loop: Loop, w: Watcher, log: seq<Rollout>,
                 lost: seq<nat>, g: Gid)
    requires Ledger(store, groups, inflight, loop, w, log, lost) && Live(store, groups, loop, w, log)
    requires g < |store| && g in groups
    requires loop.Emitting? && loop.meta.gid == g && loop.pending.None? && loop.todo != []
    requires store[g].emitted + 1 >= store[g].target
    ensures store[g].toSchedule == 0
  {
    assert store[g].target == Owing(store, groups, inflight, loop, w, g) + CountOf(log, g) + lost[g];
  }

  lemma EmitDetachedLedger(store: seq<Group>, groups: seq<Gid>, inflight: seq<Meta>, loop: Loop, w: Watcher,
                           log: seq<Rollout>, lost: seq<nat>, r: Rollout)
    requires Ledger(store, groups, inflight, loop, w, log, lost) && Live(store, groups, loop, w, log)
    requires loop.Emitting? && loop.pending.None? && loop.todo != [] && !loop.attached
    ensures var loop' := loop.(todo := loop.todo[1..], pending := Some(r));
            Ledger(store, groups, inflight, loop', w, log, lost) && Live(store, groups, loop', w, log)
  {
  }

  /** An attached emission bumps the group's counter and may pop it. */
  ghost predicate Marks(store: seq<Group>, groups: seq<Gid>, g: Gid, store': seq<Group>, groups': seq<Gid>) {
    && g < |store|
    && store' == store[g := store[g].(emitted := store[g].emitted + 1)]
    && groups' == (if store[g].emitted + 1 >= store[g].target then Remove(groups, g) else groups)
  }

  lemma EmitAttachedLedger(store: seq<Group>, groups: seq<Gid>, inflight: seq<Meta>, loop: Loop, w: Watcher,
                           log: seq<Rollout>, lost: seq<nat>, store': seq<Group>, groups': seq<Gid>, r: Rollout)
    requires Ledger(store, groups, inflight, loop, w, log, lost) && Live(store, groups, loop, w, log)
    requires loop.Emitting? && loop.pending.None? && loop.todo != [] && GidsDistinct(groups)
    requires Marks(store, groups, loop.meta.gid, store', groups')
    ensures Ledger(store', groups', inflight, loop.(todo := loop.todo[1..], pending := Some(r)), w, log, lost)
  {
    var g := loop.meta.gid;
    RemoveSpec(groups, g);
    if g in groups && store[g].emitted + 1 >= store[g].target {
      MarkPops(store, groups, inflight, loop, w, log, lost, g);
    }
    var loop' := loop.(todo := loop.todo[1..], pending := Some(r));
    forall h: Gid | h < |store| ensures Owing(store', groups', inflight, loop', w, h) == Owing(store, groups, inflight, loop, w, h) {
      MarkedOwing(store, groups, inflight, loop, w, store', groups', r, h);
    }
    hide Live, GidsDistinct, LoadOf, CountOf, Remove, Owing;
  }

  /** Counting an emission and suspending in its `put` changes nothing that is owed. */
  lemma MarkedOwing(store: seq<Group>, groups: seq<Gid>, inflight: seq<Meta>, loop: Loop, w: Watcher,
                    store': seq<Group>, groups': seq<Gid>, r: Rollout, h: Gid)
    requires loop.Emitting? && loop.pending.None? && loop.todo != [] && h < |store|
    requires Marks(store, groups, loop.meta.gid, store', groups')
    requires Unscheduled(store', groups', h) == Unscheduled(store, groups, h)
    ensures Owing(store', groups', inflight, loop.(todo := loop.todo[1..], pending := Some(r)), w, h) == Owing(store, groups, inflight, loop, w, h)
  {
    assert store'[h].toSchedule == store[h].toSchedule;
    hide Unscheduled, LoadOf, Remove, Marks;
  }

  lemma EmitAttachedLive(store: seq<Group>, groups: seq<Gid>, loop: Loop, w: Watcher, log: seq<Rollout>,
                         store': seq<Group>, groups': seq<Gid>, r: Rollout)
    requires Live(store, groups, loop, w, log)
    requires loop.Emitting? && loop.pending.None? && loop.attached && GidsDistinct(groups)
    requires Marks(store, groups, loop.meta.gid, store', groups')
    requires loop.todo != []
    ensures Live(store', groups', loop.(todo := loop.todo[1..], pending := Some(r)), w, log)
  {
    RemoveSpec(groups, loop.meta.gid);
  }

  lemma StampAgrees(cfg: Config, s: State, m: Meta, attached: bool, failed: bool)
    requires MetaOk(s.store, m) && MetaAge(cfg, m)
    ensures RolloutOk(s.store, Stamp(s, m, attached, failed)) && RolloutAge(cfg, Stamp(s, m, attached, failed))
    ensures Stamp(s, m, attached, failed).gid == m.gid
  {
  }

  lemma MarksIds(store: seq<Group>, groups: seq<Gid>, g: Gid, store': seq<Group>, groups': seq<Gid>)
    requires Marks(store, groups, g, store', groups')
    ensures SameIds(store, store') && |store| == |store'|
    ensures forall h: Gid | h < |store| :: store'[h].toSchedule == store[h].toSchedule
  {
  }

  /** Clauses that follow the group objects' captured fields only. */
  lemma IdsKeep(cfg: Config, s: State, store': seq<Group>)
    requires SameIds(s.store, store') && |s.store| == |store'|
    requires Agree(cfg, s.store, s.inflight, s.nextTask, s.loop, s.watcher, s.log)
    requires Gate(s.step, s.version, s.gate, s.watcher, s.store) && Rows(s.store, s.evalQueue, s.triggered)
    ensures Agree(cfg, store', s.inflight, s.nextTask, s.loop, s.watcher, s.log)
    ensures Gate(s.step, s.version, s.gate, s.watcher, store') && Rows(store', s.evalQueue, s.triggered)
  {
    OkKept(s.store, store', s.inflight, s.loop, s.watcher, s.log);
    RowsSame(s.store, store');
  }

  lemma MarksShape(cfg: Config, s: State, t: State, g: Gid)
    requires Shape(cfg, s) && Marks(s.store, s.groups, g, t.store, t.groups)
    requires t == s.(store := t.store, groups := t.groups)
    ensures Shape(cfg, t)
  {
    RemoveSpec(s.groups, g);
    forall i | 0 <= i < |t.groups| ensures t.groups[i] < |t.store| { assert t.groups[i] in t.groups; }
  }

  /** The handler's frame advances by one stamped rollout. */
  lemma LoopAdvances(cfg: Config, store: seq<Group>, inflight: seq<Meta>, nextTask: nat, loop: Loop, w: Watcher,
                     log: seq<Rollout>, r: Rollout)
    requires Agree(cfg, store, inflight, nextTask, loop, w, log) && Staleness(cfg, inflight, loop, w, log)
    requires loop.Emitting? && loop.todo != [] && RolloutOk(store, r) && RolloutAge(cfg, r) && r.gid == loop.meta.gid
    ensures var loop' := loop.(todo := loop.todo[1..], pending := Some(r));
            Agree(cfg, store, inflight, nextTask, loop', w, log) && Staleness(cfg, inflight, loop', w, log)
  {
    hide StoreOk, MetasOk, TasksOk, WatcherAgrees, RolloutsOk, MetaAges, OverdueDoomed, WatcherAge, LogAge;
  }

  lemma PermitsCalm(cfg: Config, permits: int, inflight: seq<Meta>, loop: Loop, store: seq<Group>, loop': Loop,
                    store': seq<Group>)
    requires Permits(cfg, permits, inflight, loop, store)
    requires !loop.Acquiring? && !loop'.Acquiring? && !loop'.Selecting?
    ensures Permits(cfg, permits, inflight, loop', store')
  {
  }

  lemma LoopFrameShape(cfg: Config, s: State, t: State)
    requires Shape(cfg, s) && s.loop.Emitting? && t == s.(loop := t.loop)
    requires t.loop.AtTop? || (t.loop.Emitting? && t.loop.meta == s.loop.meta && (t.loop.todo != [] || t.loop.pending.Some?))
    ensures Shape(cfg, t)
  {
  }

  /** The handler is about to emit the next rollout of the task it took. */
  ghost predicate MayEmit(cfg: Config, s: State) {
    && s.loop.Emitting? && s.loop.pending.None? && s.loop.todo != [] && s.loop.meta.gid < |s.store|
    && MetaOk(s.store, s.loop.meta) && MetaAge(cfg, s.loop.meta) && GidsDistinct(s.groups)
  }

  lemma EmitAttachedKeeps(cfg: Config, s: State, t: State)
    requires Inv(cfg, s) && MayEmit(cfg, s) && s.loop.attached && t == LoopEmitStep(s)
    ensures Inv(cfg, t)
  {
    hide Shape, Agree, Ledger, Live, Permits, Staleness, Gate, Rows, Fifo, Stamp, RolloutOk, MetaOk;
    var m, r := s.loop.meta, t.loop.pending.value;
    StampAgrees(cfg, s, m, true, s.loop.todo[0]);
    MarksIds(s.store, s.groups, m.gid, t.store, t.groups);
    var u := s.(store := t.store, groups := t.groups);
    MarksShape(cfg, s, u, m.gid);
    LoopFrameShape(cfg, u, t);
    IdsKeep(cfg, s, t.store);
    EmitAttachedLedger(s.store, s.groups, s.inflight, s.loop, s.watcher, s.log, s.lost, t.store, t.groups, r);
    EmitAttachedLive(s.store, s.groups, s.loop, s.watcher, s.log, t.store, t.groups, r);
    RolloutSameIds(s.store, t.store, r);
    LoopAdvances(cfg, t.store, s.inflight, s.nextTask, s.loop, s.watcher, s.log, r);
    PermitsCalm(cfg, s.permits, s.inflight, s.loop, s.store, t.loop, t.store);
  }

  lemma RolloutSameIds(a: seq<Group>, b: seq<Group>, r: Rollout)
    requires SameIds(a, b) && RolloutOk(a, r)
    ensures RolloutOk(b, r)
  {
  }

  lemma EmitDetachedKeeps(cfg: Config, s: State, t: State)
    requires Inv(cfg, s) && MayEmit(cfg, s) && !s.loop.attached && t == LoopEmitStep(s)
    ensures Inv(cfg, t)
  {
    hide Shape, Agree, Ledger, Live, Permits, Staleness, Gate, Rows, Fifo, Stamp, RolloutOk, MetaOk;
    var m, r := s.loop.meta, t.loop.pending.value;
    StampAgrees(cfg, s, m, false, s.loop.todo[0]);
    LoopFrameShape(cfg, s, t);
    EmitDetachedLedger(s.store, s.groups, s.inflight, s.loop, s.watcher, s.log, s.lost, r);
    LoopAdvances(cfg, t.store, s.inflight, s.nextTask, s.loop, s.watcher, s.log, r);
    PermitsCalm(cfg, s.permits, s.inflight, s.loop, s.store, t.loop, t.store);
  }

  lemma LoopEmitKeeps(cfg: Config, s: State)
    requires Inv(cfg, s) && s.loop.Emitting? && s.loop.pending.None? && s.loop.todo != [] && s.loop.meta.gid < |s.store|
    ensures Inv(cfg, LoopEmitStep(s))
  {
    hide Ledger, Live, Permits, Gate, Rows, Fifo, Stamp, LoopEmitStep;
    assert MayEmit(cfg, s);
    if s.loop.attached {
      EmitAttachedKeeps(cfg, s, LoopEmitStep(s));
    } else {
      EmitDetachedKeeps(cfg, s, LoopEmitStep(s));
    }
  }

  // ---------------------------------------------------------------- puts

  lemma LoopPutLedger(store: seq<Group>, groups: seq<Gid>, inflight: seq<Meta>, loop: Loop, w: Watcher, log: seq<Rollout>,
                      lost: seq<nat>, r: Rollout, loop': Loop)
    requires Ledger(store, groups, inflight, loop, w, log, lost) && Live(store, groups, loop, w, log)
    requires loop.Emitting? && loop.pending == Some(r) && r.gid == loop.meta.gid
    requires loop' == if loop.todo == [] then AtTop else loop.(pending := None)
    ensures Ledger(store, groups, inflight, loop', w, log + [r], lost) && Live(store, groups, loop', w, log + [r])
  {
    forall g: Gid ensures CountOf(log + [r], g) == CountOf(log, g) + (if r.gid == g then 1 else 0) { CountOne(log, r, g); }
  }

  lemma DropPutLedger(store: seq<Group>, groups: seq<Gid>, inflight: seq<Meta>, loop: Loop, w: Watcher, log: seq<Rollout>,
                      lost: seq<nat>, r: Rollout)
    requires Ledger(store, groups, inflight, loop, w, log, lost) && Live(store, groups, loop, w, log)
    requires w.DropEmitting? && w.pending == Some(r) && r.gid == w.gid
    ensures Ledger(store, groups, inflight, loop, w.(pending := None), log + [r], lost)
    ensures Live(store, groups, loop, w.(pending := None), log + [r])
  {
    forall g: Gid ensures CountOf(log + [r], g) == CountOf(log, g) + (if r.gid == g then 1 else 0) { CountOne(log, r, g); }
  }

  lemma LogAppends(cfg: Config, store: seq<Group>, inflight: seq<Meta>, nextTask: nat, loop: Loop, w: Watcher,
                   log: seq<Rollout>, r: Rollout)
    requires Agree(cfg, store, inflight, nextTask, loop, w, log) && Staleness(cfg, inflight, loop, w, log)
    requires RolloutOk(store, r) && RolloutAge(cfg, r)
    ensures Agree(cfg, store, inflight, nextTask, loop, w, log + [r]) && Staleness(cfg, inflight, loop, w, log + [r])
  {
    hide StoreOk, MetasOk, TasksOk, LoopAgrees, WatcherAgrees, MetaAges, OverdueDoomed, LoopAge, WatcherAge;
  }

  lemma FifoPut(cfg: Config, consumed: seq<Rollout>, queue: seq<Rollout>, log: seq<Rollout>, r: Rollout)
    requires Fifo(cfg, consumed, queue, log) && |queue| < cfg.QueueCap()
    ensures Fifo(cfg, consumed, queue + [r], log + [r])
  {
    assert consumed + (queue + [r]) == consumed + queue + [r];
  }

  lemma LoopFrameAgrees(cfg: Config, store: seq<Group>, inflight: seq<Meta>, nextTask: nat, loop: Loop, w: Watcher,
                        log: seq<Rollout>, loop': Loop)
    requires Agree(cfg, store, inflight, nextTask, loop, w, log) && Staleness(cfg, inflight, loop, w, log)
    requires loop'.Emitting? ==> loop.Emitting? && loop'.meta == loop.meta && loop'.pending.None?
    ensures Agree(cfg, store, inflight, nextTask, loop', w, log) && Staleness(cfg, inflight, loop', w, log)
  {
    hide StoreOk, MetasOk, TasksOk, WatcherAgrees, RolloutsOk, MetaAges, OverdueDoomed, WatcherAge, LogAge;
  }

  lemma LoopPutKeeps(cfg: Config, s: State, t: State)
    requires Inv(cfg, s) && s.loop.Emitting? && s.loop.pending.Some? && |s.queue| < cfg.QueueCap() && t == LoopPutStep(s)
    ensures Inv(cfg, t)
  {
    var r := s.loop.pending.value;
    assert RolloutOk(s.store, r) && RolloutAge(cfg, r) && r.gid == s.loop.meta.gid;
    LoopPutParts(cfg, s, t, r);
  }

  lemma LoopPutParts(cfg: Config, s: State, t: State, r: Rollout)
    requires Inv(cfg, s) && s.loop.Emitting? && s.loop.pending == Some(r) && |s.queue| < cfg.QueueCap() && t == LoopPutStep(s)
    requires RolloutOk(s.store, r) && RolloutAge(cfg, r) && r.gid == s.loop.meta.gid
    ensures Inv(cfg, t)
  {
    hide Shape, Agree, Ledger, Live, Permits, Staleness, Gate, Rows, Fifo, RolloutOk;
    LoopPutLedger(s.store, s.groups, s.inflight, s.loop, s.watcher, s.log, s.lost, r, t.loop);
    LoopFrameAgrees(cfg, s.store, s.inflight, s.nextTask, s.loop, s.watcher, s.log, t.loop);
    LogAppends(cfg, s.store, s.inflight, s.nextTask, t.loop, s.watcher, s.log, r);
    PermitsCalm(cfg, s.permits, s.inflight, s.loop, s.store, t.loop, s.store);
    FifoPut(cfg, s.consumed, s.queue, s.log, r);
    QueueShape(cfg, s, s.(queue := t.queue, log := t.log));
    LoopFrameShape(cfg, s.(queue := t.queue, log := t.log), t);
  }

  /** Histories, queues and the orchestrator's counters are not part of the shape. */
  lemma QueueShape(cfg: Config, s: State, t: State)
    requires Shape(cfg, s)
    requires t == s.(queue := t.queue, log := t.log, consumed := t.consumed, step := t.step, version := t.version,
                     gate := t.gate, triggered := t.triggered, mode := t.mode)
    ensures Shape(cfg, t)
  {
  }
}
