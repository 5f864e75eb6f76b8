/** The dispatcher object: each method is the code between two awaits, updating the fields in
    place, and is proved to take exactly the corresponding step of the state machine. */
module RolloutDispatcherImpl {
  import opened Common
  import opened Dispatch
  import opened DispatchInvariant
  import opened DispatchSafety
  import opened DispatchDrop
  import opened DispatchRuns

  class RolloutDispatcher {
    const cfg: Config
    var permits: int
    var inflight: seq<Meta>
    var groups: seq<Gid>
    var store: seq<Group>
    var nextTask: nat
    var loop: Loop
    var watcher: Watcher
    var queue: seq<Rollout>
    var mode: Mode
    var evalQueue: seq<Row>
    var trainDisabled: bool
    var gate: bool
    var step: int
    var version: int
    ghost var log: seq<Rollout>
    ghost var consumed: seq<Rollout>
    ghost var triggered: seq<Row>
    ghost var lost: seq<nat>

    ghost function Snapshot(): State
      reads this
    {
      State(permits, inflight, groups, store, nextTask, loop, watcher, queue, mode, evalQueue, trainDisabled, gate, step,
            version, log, consumed, triggered, lost)
    }

    /** The whole invariant of the state machine. */
    ghost predicate Valid()
      reads this
    {
      cfg.Valid() && Shape(cfg, Snapshot()) && Inv(cfg, Snapshot())
    }

    constructor (cfg: Config, version: int)
      requires cfg.Valid()
      ensures Valid() && this.cfg == cfg && Snapshot() == Init(version)
    {
      this.cfg := cfg;
      permits, inflight, groups, store, nextTask := 0, [], [], [], 0;
      loop, watcher, queue, mode, evalQueue := AtTop, Quiet, [], PreferTrain, [];
      trainDisabled, gate, step, this.version := false, true, version + 1, version;
      log, consumed, triggered, lost := [], [], [], [];
      new;
      InitInv(cfg, version);
    }

    // -------------------------------------------------------------- scheduling

    /** Whether an eval example is queued or an opened eval group is still mid-schedule. */
    method HasEvalWork() returns (work: bool)
      requires forall i | 0 <= i < |groups| :: groups[i] < |store|
      ensures work == EvalHasWork(Snapshot())
    {
      work := evalQueue != [];
      var i := 0;
      while i < |groups|
        invariant i <= |groups|
        invariant work <==> evalQueue != [] || exists j | 0 <= j < i :: store[groups[j]].kind.Eval? && store[groups[j]].toSchedule > 0
      {
        if store[groups[i]].kind.Eval? && store[groups[i]].toSchedule > 0 { work := true; }
        i := i + 1;
      }
    }

    /** The scan of live groups in `try_schedule`. */
    method FindGroup(kind: Kind) returns (i: nat)
      requires Shape(cfg, Snapshot())
      ensures i == FirstEligible(cfg, Snapshot(), kind, 0)
    {
      i := 0;
      while i < |groups|
        invariant i <= |groups|
        invariant FirstEligible(cfg, Snapshot(), kind, i) == FirstEligible(cfg, Snapshot(), kind, 0)
      {
        var g := store[groups[i]];
        if g.kind == kind && g.toSchedule > 0 && Cost(cfg, g) <= cfg.maxInflight - permits { return; }
        i := i + 1;
      }
    }

    /** `schedule_group_rollout` up to its first await. */
    method ScheduleGroup(gid: Gid)
      requires cfg.Valid() && gid < |store| && store[gid].env in cfg.Envs(store[gid].kind) && 0 < store[gid].toSchedule
      modifies this`store, this`loop
      ensures Snapshot() == BeginSchedule(cfg, old(Snapshot()), gid)
    {
      if store[gid].pinned {
        ReservePermits(gid);
      } else {
        loop := Selecting(gid);
      }
    }

    /** Decrement `rollouts_to_schedule` before suspending in `acquire`. */
    method ReservePermits(gid: Gid)
      requires gid < |store| && store[gid].env in cfg.Envs(store[gid].kind) && 0 < store[gid].toSchedule
      modifies this`store, this`loop
      ensures Snapshot() == Reserve(cfg, old(Snapshot()), gid)
    {
      var g := store[gid];
      var need := 1;
      if cfg.Envs(g.kind)[g.env].groupScoring { need := g.toSchedule; }
      store := store[gid := g.(toSchedule := g.toSchedule - need)];
      loop := Acquiring(gid, need, 0);
    }

    /** `next_fresh_group` once its example was drawn. */
    method OpenFresh(kind: Kind, env: Env, evalStep: Option<int>)
      requires env in cfg.Envs(kind)
      modifies this`store, this`groups, this`lost
      ensures Snapshot() == OpenGroup(cfg, old(Snapshot()), kind, env, evalStep)
    {
      var size := cfg.Envs(kind)[env].groupSize;
      groups := groups + [|store|];
      store := store + [Group(kind, env, size, size, 0, evalStep, version, false, step)];
      lost := lost + [0];
    }

    method TryScheduleKind(kind: Kind, pick: Env)
      requires cfg.Valid() && Shape(cfg, Snapshot()) && pick in cfg.train
      modifies this`store, this`groups, this`lost, this`loop, this`evalQueue
      ensures Snapshot() == TrySchedule(cfg, old(Snapshot()), kind, pick)
    {
      if kind.Train? && trainDisabled { return; }
      var i := FindGroup(kind);
      if i < |groups| {
        ScheduleGroup(groups[i]);
      } else if kind.Train? {
        if FreshCost(cfg.train[pick]) <= cfg.maxInflight - permits {
          OpenFresh(Train, pick, None);
          ScheduleGroup(|store| - 1);
        }
      } else if evalQueue != [] {
        var head := evalQueue[0];
        if FreshCost(cfg.eval[head.env]) <= cfg.maxInflight - permits {
          evalQueue := evalQueue[1..];
          OpenFresh(Eval, head.env, Some(head.evalStep));
          ScheduleGroup(|store| - 1);
        }
      }
    }

    /** One turn of `fill_inflight`; `pick` is what the train source would draw. */
    method FillInflight(pick: Env)
      requires cfg.Valid() && Shape(cfg, Snapshot()) && pick in cfg.train
      modifies this
      ensures Snapshot() == FillStep(cfg, old(Snapshot()), pick)
    {
      if cfg.maxInflight - permits <= 0 { return; }
      if mode.PreferEval? {
        var work := HasEvalWork();
        if !work {
          mode := PreferTrain;
        } else {
          TryScheduleKind(Eval, pick);
        }
      } else if gate {
        TryScheduleKind(Train, pick);
      }
    }

    method OnClientSelected()
      requires Shape(cfg, Snapshot()) && loop.Selecting?
      modifies this
      ensures Snapshot() == SelectedStep(cfg, old(Snapshot()))
    {
      var gid := loop.gid;
      if gid in groups {
        store := store[gid := store[gid].(pinned := true)];
        ReservePermits(gid);
      } else {
        loop := AtTop;
      }
    }

    /** One turn of the loop in `acquire`; the last one registers the task. */
    method OnLimiterPassed()
      requires loop.Acquiring? && loop.gid < |store|
      modifies this
      ensures Snapshot() == LimiterStep(old(Snapshot()))
    {
      var gid, need, taken := loop.gid, loop.need, loop.taken + 1;
      permits := permits + 1;
      if taken < need {
        loop := Acquiring(gid, need, taken);
      } else {
        var g := store[gid];
        inflight := inflight + [Meta(nextTask, g.kind, g.env, gid, g.version, need, 0, g.evalStep)];
        nextTask := nextTask + 1;
        loop := AtTop;
      }
    }

    // -------------------------------------------------------------- completion

    /** Pop a registered task and release its permits. */
    method TakeTask(i: nat) returns (m: Meta)
      requires i < |inflight|
      modifies this`inflight, this`permits
      ensures m == old(inflight[i])
      ensures Snapshot() == old(Snapshot()).(inflight := Without(old(inflight), i), permits := old(permits) - m.count)
    {
      hide Without;
      m := inflight[i];
      inflight := Without(inflight, i);
      permits := permits - m.count;
    }

    /** A task that ended without a result to emit. */
    method LoseTask(m: Meta, next: Loop)
      requires m.gid < |lost|
      modifies this`lost, this`loop
      ensures Snapshot() == Lose(old(Snapshot()), m.gid, m.count).(loop := next)
    {
      lost := lost[m.gid := lost[m.gid] + m.count];
      loop := next;
    }

    /** `handle_completed_rollout`: claim the task, release its permits, classify its result. */
    method HandleCompleted(task: nat, outcome: Outcome)
      requires |lost| == |store| && forall i | 0 <= i < |inflight| :: inflight[i].gid < |store|
      modifies this
      ensures Snapshot() == CompleteStep(old(Snapshot()), task, outcome)
    {
      hide IndexOf, Flags, Without;
      var i := FindTask(inflight, task);
      if i < |inflight| {
        var m := TakeTask(i);
        if outcome.Unsupported? {
          LoseTask(m, Dead);
        } else if outcome.TaskCancelled? {
          LoseTask(m, loop);
        } else {
          var flags := Verdicts(m, outcome);
          if flags != [] { loop := Emitting(m, m.gid in groups, flags, None); }
        }
      }
    }

    static method FindTask(ms: seq<Meta>, task: nat) returns (i: nat)
      ensures i == IndexOf(ms, task)
    {
      i := 0;
      while i < |ms| && ms[i].task != task
        invariant i <= |ms|
        invariant IndexOf(ms, task) == i + IndexOf(ms[i..], task)
      {
        assert ms[i..][1..] == ms[i + 1..];
        i := i + 1;
      }
    }

    /** One flag per rollout: an empty trajectory or a task exception counts as a failure. */
    static method Verdicts(m: Meta, outcome: Outcome) returns (flags: seq<bool>)
      ensures flags == Flags(m, outcome)
    {
      flags := [];
      match outcome
      case Finished(results) =>
        var i := 0;
        while i < |results|
          invariant i <= |results| && flags == FailedFlags(results[..i])
        {
          flags := flags + [results[i].hasError || results[i].turns == 0];
          i := i + 1;
        }
        assert results[..i] == results;
      case Raised =>
        while |flags| < m.count
          invariant |flags| <= m.count && flags == Copies(true, |flags|)
          decreases m.count - |flags|
        {
          flags := flags + [true];
        }
      case _ =>
    }

    /** The counter updates of `emit_rollout`. */
    method CountEmission(gid: Gid, attached: bool)
      requires gid < |store|
      modifies this`store, this`groups
      ensures Snapshot() == MarkEmitted(old(Snapshot()), gid, attached)
    {
      if attached {
        store := store[gid := store[gid].(emitted := store[gid].emitted + 1)];
        if store[gid].emitted >= store[gid].target { groups := Remove(groups, gid); }
      }
    }

    /** Stamp the next rollout of the completed task and suspend in `put`. */
    method EmitNext()
      requires loop.Emitting? && loop.pending.None? && loop.todo != [] && loop.meta.gid < |store|
      modifies this
      ensures Snapshot() == LoopEmitStep(old(Snapshot()))
    {
      var m, attached, failed := loop.meta, loop.attached, loop.todo[0];
      var g := store[m.gid];
      var r := Rollout(m.kind, m.env, m.gid, if attached then g.version else m.version, m.offPolicy,
                       if attached then g.evalStep else m.evalStep, failed);
      CountEmission(m.gid, attached);
      loop := loop.(todo := loop.todo[1..], pending := Some(r));
    }

    method PutNext()
      requires loop.Emitting? && loop.pending.Some?
      modifies this
      ensures Snapshot() == LoopPutStep(old(Snapshot()))
    {
      queue := queue + [loop.pending.value];
      log := log + [loop.pending.value];
      if loop.todo == [] { loop := AtTop; } else { loop := loop.(pending := None); }
    }

    // -------------------------------------------------------------- off-policy cancellation

    /** The ageing loop of `on_version_pending`: bump live-sourced train tasks, collect overdue groups. */
    static method AgeTasks(cfg: Config, ms: seq<Meta>) returns (aged: seq<Meta>, stale: set<Gid>)
      ensures aged == AgedAll(cfg, ms) && stale == StaleGids(cfg, aged)
    {
      aged, stale := ms, {};
      NothingAged(cfg);
      hide AgedAll, StaleGids;
      var i := 0;
      while i < |ms|
        invariant i <= |ms| == |aged|
        invariant aged[..i] == AgedAll(cfg, ms[..i]) && aged[i..] == ms[i..]
        invariant stale == StaleGids(cfg, aged[..i])
      {
        ghost var done := aged[..i];
        AgedSnoc(cfg, ms, i);
        var m := aged[i];
        assert m == aged[i..][0] == ms[i..][0];
        if m.kind.Train? && m.env in cfg.train && cfg.train[m.env].live {
          aged := aged[i := m.(offPolicy := m.offPolicy + 1)];
          if m.offPolicy + 1 > cfg.maxOffPolicy { stale := stale + {m.gid}; }
        }
        assert aged[..i + 1] == done + [Aged(cfg, m)];
        StaleSnoc(cfg, done, Aged(cfg, m));
        i := i + 1;
      }
      assert ms[..i] == ms && aged[..i] == aged;
    }

    static lemma {:induction false} NothingAged(cfg: Config)
      ensures AgedAll(cfg, []) == [] && StaleGids(cfg, []) == {}
    {
    }

    static lemma {:induction false} AgedSnoc(cfg: Config, ms: seq<Meta>, i: nat)
      requires i < |ms|
      ensures AgedAll(cfg, ms[..i + 1]) == AgedAll(cfg, ms[..i]) + [Aged(cfg, ms[i])]
    {
      assert ms[..i + 1][..i] == ms[..i];
    }

    method OnVersionPending(next: int)
      modifies this
      ensures Snapshot() == PendingStep(cfg, old(Snapshot()), next)
    {
      var stale;
      inflight, stale := AgeTasks(cfg, inflight);
      watcher := Dropping(next, stale);
    }

    static lemma StaleSnoc(cfg: Config, ms: seq<Meta>, m: Meta)
      ensures StaleGids(cfg, ms + [m])
           == StaleGids(cfg, ms) + (if Ages(cfg, m) && m.offPolicy > cfg.maxOffPolicy then {m.gid} else {})
    {
    }

    /** The claim sweep of `drop_group` over the registered tasks. */
    static method ClaimTasks(ms: seq<Meta>, gid: Gid) returns (kept: seq<Meta>, claimed: seq<Meta>, freed: nat)
      ensures kept == WithoutGid(ms, gid) && claimed == WithGid(ms, gid) && freed == LoadOf(ms, gid) == Load(claimed)
    {
      kept, claimed, freed := [], [], 0;
      var i := 0;
      while i < |ms|
        invariant i <= |ms|
        invariant kept == WithoutGid(ms[..i], gid) && claimed == WithGid(ms[..i], gid)
        invariant freed == LoadOf(ms[..i], gid)
      {
        assert ms[..i + 1][..i] == ms[..i];
        if ms[i].gid == gid {
          freed := freed + ms[i].count;
          claimed := claimed + [ms[i]];
        } else {
          kept := kept + [ms[i]];
        }
        i := i + 1;
      }
      assert ms[..i] == ms;
      ClaimLoad(ms, gid);
    }

    /** Pop the group (`Remove` is the dictionary's `pop`) and take its registered tasks, releasing their permits. */
    method Claim(gid: Gid) returns (claimed: seq<Meta>)
      modifies this`groups, this`inflight, this`permits
      ensures claimed == WithGid(old(inflight), gid)
      ensures Snapshot() == old(Snapshot()).(groups := Remove(old(groups), gid), inflight := WithoutGid(old(inflight), gid),
                                             permits := old(permits) - Load(claimed))
    {
      hide WithGid, WithoutGid, Load, LoadOf, Remove;
      groups := Remove(groups, gid);
      var kept, freed;
      kept, claimed, freed := ClaimTasks(inflight, gid);
      inflight := kept;
      permits := permits - freed;
    }

    /** One marker per rollout a claimed task held. */
    static method OweMarkers(claimed: seq<Meta>) returns (todo: seq<Meta>)
      ensures todo == Owed(claimed)
    {
      todo := [];
      for i := 0 to |claimed|
        invariant todo == Owed(claimed[..i])
      {
        assert claimed[..i + 1][..i] == claimed[..i];
        hide Owed;
        ghost var before := todo;
        for n := 0 to claimed[i].count
          invariant todo == before + Copies(claimed[i], n)
        {
          todo := todo + [claimed[i]];
        }
      }
      assert claimed[..|claimed|] == claimed;
    }

    /** The non-yielding part of `drop_group`. */
    method DropGroupNow(gid: Gid)
      requires watcher.Dropping?
      modifies this
      ensures Snapshot() == DropStep(old(Snapshot()), gid)
    {
      hide WithGid, WithoutGid, Load, LoadOf, Remove, Owed;
      var attached := gid in groups;
      var claimed := Claim(gid);
      var todo := OweMarkers(claimed);
      watcher := DropEmitting(watcher.next, watcher.stale - {gid}, gid, attached, todo,
                              if claimed == [] then None else Some(claimed[|claimed| - 1]), false, None);
    }

    method EmitMarker()
      requires watcher.DropEmitting? && watcher.pending.None? && watcher.todo != [] && watcher.todo[0].gid == watcher.gid < |store|
      modifies this
      ensures Snapshot() == DropEmitStep(old(Snapshot()))
    {
      var w := watcher;
      var m, g := w.todo[0], store[w.gid];
      var r := Rollout(m.kind, m.env, m.gid, if w.attached then g.version else m.version, m.offPolicy,
                       if w.attached then g.evalStep else m.evalStep, true);
      CountEmission(w.gid, w.attached);
      watcher := w.(todo := w.todo[1..], pending := Some(r));
    }

    method PutMarker()
      requires watcher.DropEmitting? && watcher.pending.Some?
      modifies this
      ensures Snapshot() == DropPutStep(old(Snapshot()))
    {
      queue := queue + [watcher.pending.value];
      log := log + [watcher.pending.value];
      watcher := watcher.(pending := None);
    }

    /** Markers for rollouts the group never dispatched. */
    method SweepNeverScheduled()
      requires watcher.DropEmitting? && watcher.gid < |store|
      modifies this
      ensures Snapshot() == SweepStep(old(Snapshot()))
    {
      var w := watcher;
      var todo: seq<Meta> := [];
      if w.attached && store[w.gid].toSchedule > 0 {
        var g := store[w.gid];
        var stand := if w.last.Some? then w.last.value else Meta(0, g.kind, g.env, w.gid, g.version, 1, 0, g.evalStep);
        while |todo| < g.toSchedule
          invariant |todo| <= g.toSchedule && todo == Copies(stand, |todo|)
          decreases g.toSchedule - |todo|
        {
          todo := todo + [stand];
        }
      }
      watcher := w.(swept := true, todo := todo);
    }

    method FinishDrop()
      requires watcher.DropEmitting?
      modifies this
      ensures Snapshot() == old(Snapshot()).(watcher := Dropping(old(watcher.next), old(watcher.stale)))
    {
      watcher := Dropping(watcher.next, watcher.stale);
    }

    // -------------------------------------------------------------- orchestrator side

    /** The watcher writes the version and the orchestrator re-evaluates the gate. */
    method AdoptVersion()
      requires watcher.Dropping?
      modifies this
      ensures Snapshot() == AdoptStep(old(Snapshot()))
    {
      version := watcher.next;
      watcher := Quiet;
      UpdateGate();
    }

    /** `update_dispatch_gate`. */
    method UpdateGate()
      modifies this`gate
      ensures gate == GateFor(step, version)
    {
      var lead := (step - 1) - version;
      if lead > TARGET_LAG { gate := false; } else { gate := true; }
    }

    method ShipBatch()
      modifies this
      ensures Snapshot() == ShipStep(old(Snapshot()))
    {
      step := step + 1;
      UpdateGate();
    }

    method Take() returns (r: Rollout)
      requires queue != []
      modifies this
      ensures r == old(queue[0])
      ensures Snapshot() == old(Snapshot().(queue := queue[1..], consumed := consumed + [queue[0]]))
    {
      r := queue[0];
      consumed := consumed + [r];
      queue := queue[1..];
    }

    static lemma GidsSnocSet(ms: seq<Meta>, m: Meta)
      ensures GidsOf(ms + [m]) == GidsOf(ms) + {m.gid}
    {
    }

    static lemma {:induction false} OfKindSnoc(ms: seq<Meta>, i: nat, kind: Kind)
      requires i < |ms|
      ensures OfKind(ms[..i + 1], kind) == if ms[i].kind == kind then OfKind(ms[..i], kind) + [ms[i]] else OfKind(ms[..i], kind)
    {
      assert ms[..i + 1][..i] == ms[..i];
    }

    static lemma {:induction false} NothingCut(ms: seq<Meta>)
      requires ms == []
      ensures OfKind(ms, Eval) == [] && GidsOf(OfKind(ms, Train)) == {} && Load(OfKind(ms, Train)) == 0
    {
    }

    static lemma {:induction false} CutNext(ms: seq<Meta>, i: nat)
      requires i < |ms|
      ensures var (a, b, m) := (ms[..i], ms[..i + 1], ms[i]);
              && OfKind(b, Eval) == (if m.kind.Eval? then OfKind(a, Eval) + [m] else OfKind(a, Eval))
              && GidsOf(OfKind(b, Train)) == GidsOf(OfKind(a, Train)) + (if m.kind.Train? then {m.gid} else {})
              && Load(OfKind(b, Train)) == Load(OfKind(a, Train)) + (if m.kind.Train? then m.count else 0)
    {
      OfKindSnoc(ms, i, Train);
      OfKindSnoc(ms, i, Eval);
      var cut := OfKind(ms[..i], Train);
      LoadOne(cut, ms[i], 0);
      GidsSnocSet(cut, ms[i]);
      hide GidsOf, Load, OfKind;
    }

    /** The sweep of `cancel_inflight_train_rollouts` over the registered tasks. */
    static method CutTrain(ms: seq<Meta>) returns (kept: seq<Meta>, dead: set<Gid>, freed: nat)
      ensures kept == OfKind(ms, Eval) && dead == GidsOf(OfKind(ms, Train)) && freed == Load(OfKind(ms, Train))
    {
      kept, dead, freed := [], {}, 0;
      NothingCut(ms[..0]);
      hide GidsOf, Load, OfKind;
      var i := 0;
      while i < |ms|
        invariant i <= |ms| && kept == OfKind(ms[..i], Eval)
        invariant dead == GidsOf(OfKind(ms[..i], Train)) && freed == Load(OfKind(ms[..i], Train))
      {
        CutNext(ms, i);
        if ms[i].kind.Train? {
          freed := freed + ms[i].count;
          dead := dead + {ms[i].gid};
        } else {
          kept := kept + [ms[i]];
        }
        i := i + 1;
      }
      assert ms[..i] == ms;
    }

    /** Pop the groups of the tasks that were cut. */
    static method PopDead(gs: seq<Gid>, dead: set<Gid>) returns (alive: seq<Gid>)
      ensures alive == RemoveAll(gs, dead)
    {
      alive := [];
      for i := 0 to |gs|
        invariant alive == RemoveAll(gs[..i], dead)
      {
        assert gs[..i + 1][..i] == gs[..i];
        if gs[i] !in dead { alive := alive + [gs[i]]; }
      }
      assert gs[..|gs|] == gs;
    }

    /** `_drain_training` with `cancel_inflight_train_rollouts`; returns how many rollouts it cut. */
    method DrainTrain() returns (cancelled: nat)
      requires |lost| == |store| && forall i | 0 <= i < |groups| :: groups[i] < |store|
      modifies this
      ensures Snapshot() == DrainStep(old(Snapshot())) && cancelled == Load(OfKind(old(inflight), Train))
    {
      ghost var target := DrainStep(Snapshot());
      hide OfKind, Load, LoadOf, GidsOf, RemoveAll;
      trainDisabled := true;
      var dead;
      inflight, dead, cancelled := CutTrain(inflight);
      permits := permits - cancelled;
      groups := PopDead(groups, dead);
      lost := target.lost;
    }

    // -------------------------------------------------------------- the event loop

    method QueueEval(rows: seq<Row>)
      modifies this
      ensures Snapshot() == old(Snapshot()).(evalQueue := old(evalQueue) + rows, triggered := old(triggered) + rows,
                                             mode := PreferEval)
    {
      evalQueue := evalQueue + rows;
      triggered := triggered + rows;
      mode := PreferEval;
    }

    method PerformLoop(e: Event)
      requires cfg.Valid() && Shape(cfg, Snapshot()) && Enabled(cfg, Snapshot(), e) && OfLoop(e)
      modifies this
      ensures Snapshot() == Step(cfg, old(Snapshot()), e)
    {
      hide FillStep, SelectedStep, LimiterStep, CompleteStep, LoopEmitStep, LoopPutStep;
      match e
      case Fill(pick) => FillInflight(pick);
      case ClientSelected => OnClientSelected();
      case LimiterPassed => OnLimiterPassed();
      case Complete(task, outcome) => HandleCompleted(task, outcome);
      case LoopEmit => EmitNext();
      case LoopPut => PutNext();
      case _ => assert false;
    }

    method PerformWatcher(e: Event)
      requires cfg.Valid() && Shape(cfg, Snapshot()) && Enabled(cfg, Snapshot(), e) && OfWatcher(e)
      modifies this
      ensures Snapshot() == Step(cfg, old(Snapshot()), e)
    {
      hide PendingStep, DropStep, DropEmitStep, DropPutStep, SweepStep, AdoptStep;
      match e
      case VersionPending(next) => OnVersionPending(next);
      case DropGroup(gid) => DropGroupNow(gid);
      case DropEmit => EmitMarker();
      case DropPut => PutMarker();
      case SweepUnscheduled => SweepNeverScheduled();
      case DropDone => FinishDrop();
      case Adopt => AdoptVersion();
      case _ => assert false;
    }

    /** Whatever segment the event loop runs next, the object takes that step of the state machine
        and keeps its invariant. */
    method Perform(e: Event)
      requires Valid() && Enabled(cfg, Snapshot(), e)
      modifies this
      ensures Valid() && Snapshot() == Step(cfg, old(Snapshot()), e)
    {
      hide Inv, ShipStep, DrainStep;
      StepValid(Snapshot(), e);
      if OfLoop(e) {
        PerformLoop(e);
      } else if OfWatcher(e) {
        PerformWatcher(e);
      } else {
        match e
        case Ship => ShipBatch();
        case TriggerEval(rows) => QueueEval(rows);
        case Consume => var _ := Take();
        case DrainTraining => var _ := DrainTrain();
        case _ => assert false;
      }
    }

    lemma StepValid(s: State, e: Event)
      requires cfg.Valid() && Shape(cfg, s) && Inv(cfg, s) && Enabled(cfg, s, e)
      ensures Shape(cfg, Step(cfg, s, e)) && Inv(cfg, Step(cfg, s, e))
    {
      hide Step, Enabled, Agree, Ledger, Live, Permits, Staleness, Gate, Rows, Fifo;
      StepKeeps(cfg, s, e);
    }
  }
}
