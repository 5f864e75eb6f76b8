/** The dispatcher never paints itself into a corner: whatever a group could still have scheduled, some
    orderly and lossless continuation delivers. */
module DispatchProgress {
  import opened Common
  import opened Dispatch
  import opened DispatchInvariant
  import opened DispatchSafety
  import opened DispatchDrop
  import opened DispatchRuns
  import opened DispatchPaths

  // ---------------------------------------------------------------- what every reachable state has

  /** A group scored as a whole fits the capacity. */
  ghost predicate Feasible(cfg: Config, g: Group) {
    g.env in cfg.Envs(g.kind) && (SpecOf(cfg, g).groupScoring ==> g.target <= cfg.maxInflight)
  }

  ghost predicate AllFeasible(cfg: Config, store: seq<Group>) { forall h: Gid | h < |store| :: Feasible(cfg, store[h]) }

  /** The dispatcher prefers training only when there is no eval work. */
  ghost predicate EvalFirst(s: State) {
    s.mode.PreferTrain? ==>
      s.evalQueue == [] && forall h: Gid | h < |s.store| && s.store[h].kind.Eval? :: Unscheduled(s.store, s.groups, h) == 0
  }

  ghost predicate Sound(cfg: Config, s: State) { AllFeasible(cfg, s.store) && EvalFirst(s) }

  lemma SteadySound(cfg: Config, s: State, t: State)
    requires Steady(s, t) && Sound(cfg, s)
    ensures Sound(cfg, t)
  {
    assert forall h: Gid | h < |s.store| :: Feasible(cfg, s.store[h]);
    hide Unscheduled;
  }

  lemma {:induction false} RemoveAllSubset(gs: seq<Gid>, dead: set<Gid>)
    ensures forall h | h in RemoveAll(gs, dead) :: h in gs
  {
    if gs != [] { RemoveAllSubset(gs[..|gs| - 1], dead); }
  }

  lemma DrainSound(cfg: Config, s: State)
    requires Shape(cfg, s) && Sound(cfg, s)
    ensures Sound(cfg, DrainStep(s))
  {
    var t := DrainStep(s);
    RemoveAllSubset(s.groups, GidsOf(OfKind(s.inflight, Train)));
    hide RemoveAll, OfKind, GidsOf, Load, LoadOf;
    assert Steady(s, t.(trainDisabled := s.trainDisabled));
    hide Steady;
    SteadySound(cfg, s, t.(trainDisabled := s.trainDisabled));
  }

  lemma BeginSteady(cfg: Config, s: State, gid: Gid)
    requires gid < |s.store| && s.store[gid].env in cfg.Envs(s.store[gid].kind) && 0 < s.store[gid].toSchedule
    ensures Steady(s, BeginSchedule(cfg, s, gid))
  {
    ReserveSteady(cfg, s, gid);
    hide Steady, Reserve;
    if !s.store[gid].pinned { SteadySelf(s, BeginSchedule(cfg, s, gid)); }
  }

  lemma OpenSound(cfg: Config, s: State, kind: Kind, env: Env, evalStep: Option<int>)
    requires cfg.Valid() && Sound(cfg, s) && env in cfg.Envs(kind) && FreshCost(cfg.Envs(kind)[env]) <= cfg.maxInflight
    requires kind.Eval? ==> s.mode.PreferEval?
    ensures Sound(cfg, OpenGroup(cfg, s, kind, env, evalStep))
  {
    var t := OpenGroup(cfg, s, kind, env, evalStep);
    forall h: Gid | h < |t.store| ensures Feasible(cfg, t.store[h]) { assert h < |s.store| ==> Feasible(cfg, s.store[h]); }
    forall h: Gid | h < |s.store| ensures Unscheduled(t.store, t.groups, h) == Unscheduled(s.store, s.groups, h) {}
  }

  lemma FreshSound(cfg: Config, s: State, kind: Kind, env: Env, evalStep: Option<int>)
    requires cfg.Valid() && Sound(cfg, s) && env in cfg.Envs(kind) && FreshCost(cfg.Envs(kind)[env]) <= cfg.maxInflight
    requires kind.Eval? ==> s.mode.PreferEval?
    ensures var t := OpenGroup(cfg, s, kind, env, evalStep);
            t.store[|s.store|].toSchedule > 0 && Sound(cfg, BeginSchedule(cfg, t, |s.store|))
  {
    OpenSound(cfg, s, kind, env, evalStep);
    var t := OpenGroup(cfg, s, kind, env, evalStep);
    assert t.store[|s.store|].toSchedule > 0;
    BeginSteady(cfg, t, |s.store|);
    hide Sound, Steady, BeginSchedule, OpenGroup;
    SteadySound(cfg, t, BeginSchedule(cfg, t, |s.store|));
  }

  lemma TrySound(cfg: Config, s: State, kind: Kind, pick: Env)
    requires cfg.Valid() && Shape(cfg, s) && Sound(cfg, s) && pick in cfg.train && s.permits >= 0
    requires kind.Eval? ==> s.mode.PreferEval?
    ensures Sound(cfg, TrySchedule(cfg, s, kind, pick))
  {
    hide BeginSchedule, OpenGroup, Sound, Steady;
    var i := FirstEligible(cfg, s, kind, 0);
    if kind.Train? && s.trainDisabled {
    } else if i < |s.groups| {
      BeginSteady(cfg, s, s.groups[i]);
      SteadySound(cfg, s, BeginSchedule(cfg, s, s.groups[i]));
    } else if kind.Train? {
      if FreshCost(cfg.train[pick]) <= cfg.maxInflight { FreshSound(cfg, s, Train, pick, None); }
    } else if s.evalQueue != [] {
      var u, head := s.(evalQueue := s.evalQueue[1..]), s.evalQueue[0];
      HeadSound(cfg, s);
      if FreshCost(cfg.eval[head.env]) <= cfg.maxInflight { FreshSound(cfg, u, Eval, head.env, Some(head.evalStep)); }
    }
  }

  lemma HeadSound(cfg: Config, s: State)
    requires Sound(cfg, s) && s.mode.PreferEval? && s.evalQueue != []
    ensures Sound(cfg, s.(evalQueue := s.evalQueue[1..]))
  {
  }

  lemma FlipSound(cfg: Config, s: State)
    requires Shape(cfg, s) && Sound(cfg, s) && !EvalHasWork(s)
    ensures Sound(cfg, s.(mode := PreferTrain))
  {
    hide Feasible;
    forall h: Gid | h < |s.store| && s.store[h].kind.Eval? ensures Unscheduled(s.store, s.groups, h) == 0 {
      if h in s.groups { var i :| 0 <= i < |s.groups| && s.groups[i] == h; }
    }
  }

  lemma FillSound(cfg: Config, s: State, pick: Env)
    requires cfg.Valid() && Shape(cfg, s) && Sound(cfg, s) && pick in cfg.train && s.permits >= 0
    ensures Sound(cfg, FillStep(cfg, s, pick))
  {
    assert forall i | 0 <= i < |s.groups| :: s.groups[i] < |s.store|;
    hide Sound, TrySchedule, EvalHasWork, Shape;
    if s.mode.PreferEval? {
      if EvalHasWork(s) { TrySound(cfg, s, Eval, pick); } else { FlipSound(cfg, s); }
    } else {
      TrySound(cfg, s, Train, pick);
    }
  }

  lemma InvPermits(cfg: Config, s: State)
    requires Inv(cfg, s)
    ensures Shape(cfg, s) && 0 <= s.permits <= cfg.maxInflight && (s.inflight == [] && s.loop.AtTop? ==> s.permits == 0)
  {
  }

  lemma StepSound(cfg: Config, s: State, e: Event)
    requires cfg.Valid() && Inv(cfg, s) && Sound(cfg, s) && Enabled(cfg, s, e)
    ensures Shape(cfg, s) && Sound(cfg, Step(cfg, s, e))
  {
    hide *;
    InvPermits(cfg, s);
    if OfWatcher(e) {
      WatcherSteady(cfg, s, e);
      SteadySound(cfg, s, Step(cfg, s, e));
    } else if e.Consume? || (OfLoop(e) && !e.Fill?) {
      LoopKept(cfg, s, e);
      KeptIs(s, Step(cfg, s, e));
      SteadySound(cfg, s, Step(cfg, s, e));
    } else {
      OtherEvents(e);
      OtherSound(cfg, s, e);
    }
  }

  lemma OtherEvents(e: Event)
    requires !OfWatcher(e) && !e.Consume? && !(OfLoop(e) && !e.Fill?)
    ensures e.Fill? || e.DrainTraining? || e.TriggerEval? || e.Ship?
  {
  }

  lemma OtherSound(cfg: Config, s: State, e: Event)
    requires cfg.Valid() && Shape(cfg, s) && Sound(cfg, s) && Enabled(cfg, s, e) && s.permits >= 0
    requires e.Fill? || e.DrainTraining? || e.TriggerEval? || e.Ship?
    ensures Sound(cfg, Step(cfg, s, e))
  {
    if e.Fill? {
      FillSound(cfg, s, e.pick);
    } else if e.DrainTraining? {
      DrainSound(cfg, s);
    } else if e.TriggerEval? {
      TriggerSound(cfg, s, e.rows);
    } else {
      SteadySelf(s, ShipStep(s));
      SteadySound(cfg, s, ShipStep(s));
    }
    hide Shape, Sound, Steady, FillStep, DrainStep;
  }

  lemma TriggerSound(cfg: Config, s: State, rows: seq<Row>)
    requires Sound(cfg, s)
    ensures Sound(cfg, s.(evalQueue := s.evalQueue + rows, triggered := s.triggered + rows, mode := PreferEval))
  {
  }

  lemma {:induction false} RunSound(cfg: Config, s: State, es: seq<Event>)
    requires cfg.Valid() && Inv(cfg, s) && Sound(cfg, s) && Runs(cfg, s, es)
    ensures Sound(cfg, Run(cfg, s, es))
    decreases |es|
  {
    hide Inv, Sound, Step, Enabled, Shape;
    if es != [] {
      StepKeeps(cfg, s, es[0]);
      StepSound(cfg, s, es[0]);
      RunSound(cfg, Step(cfg, s, es[0]), es[1..]);
    }
  }

  lemma InitSound(cfg: Config, v: int)
    ensures Sound(cfg, Init(v)) && Ascending(Init(v).groups)
  {
  }

  /** Live groups are kept in the order they opened. */
  ghost predicate Ascending(gs: seq<Gid>) { forall i, j | 0 <= i < j < |gs| :: gs[i] < gs[j] }

  lemma {:induction false} RemoveAscends(gs: seq<Gid>, g: Gid)
    requires Ascending(gs)
    ensures Ascending(Remove(gs, g))
  {
    if gs != [] {
      RemoveAscends(gs[..|gs| - 1], g);
      RemoveSubset(gs[..|gs| - 1], g);
      LastAscends(gs, Remove(gs[..|gs| - 1], g));
    }
  }

  lemma LastAscends(gs: seq<Gid>, rest: seq<Gid>)
    requires gs != [] && Ascending(gs) && Ascending(rest) && forall h | h in rest :: h in gs[..|gs| - 1]
    ensures Ascending(rest + [gs[|gs| - 1]])
  {
    assert forall i | 0 <= i < |rest| :: rest[i] in rest;
  }

  lemma {:induction false} RemoveAllAscends(gs: seq<Gid>, dead: set<Gid>)
    requires Ascending(gs)
    ensures Ascending(RemoveAll(gs, dead))
  {
    if gs != [] {
      RemoveAllAscends(gs[..|gs| - 1], dead);
      RemoveAllSubset(gs[..|gs| - 1], dead);
      LastAscends(gs, RemoveAll(gs[..|gs| - 1], dead));
    }
  }

  /** What one event may do to the list of live groups. */
  ghost predicate Relists(s: State, t: State) {
    || t.groups == s.groups
    || (exists g :: t.groups == Remove(s.groups, g))
    || (exists dead :: t.groups == RemoveAll(s.groups, dead))
    || t.groups == s.groups + [|s.store|]
  }

  lemma FillRelists(cfg: Config, s: State, pick: Env)
    requires cfg.Valid() && Shape(cfg, s) && pick in cfg.train
    ensures Relists(s, FillStep(cfg, s, pick))
  {
    hide Remove, RemoveAll, FirstEligible, EvalHasWork;
  }

  lemma StepRelists(cfg: Config, s: State, e: Event)
    requires cfg.Valid() && Shape(cfg, s) && Enabled(cfg, s, e)
    ensures Relists(s, Step(cfg, s, e))
  {
    if e.Fill? {
      FillRelists(cfg, s, e.pick);
      hide *;
      FillIs(cfg, s, e);
    } else {
      OtherRelists(cfg, s, e);
    }
  }

  lemma FillIs(cfg: Config, s: State, e: Event)
    requires cfg.Valid() && Shape(cfg, s) && Enabled(cfg, s, e) && e.Fill?
    ensures e.pick in cfg.train && Step(cfg, s, e) == FillStep(cfg, s, e.pick)
  {
  }

  lemma OtherRelists(cfg: Config, s: State, e: Event)
    requires cfg.Valid() && Shape(cfg, s) && Enabled(cfg, s, e) && !e.Fill?
    ensures Relists(s, Step(cfg, s, e))
  {
    hide Remove, RemoveAll, WithGid, WithoutGid, Owed, Load, LoadOf, OfKind, GidsOf, AgedAll, StaleGids, IndexOf, Flags;
  }

  lemma RelistAscends(cfg: Config, s: State, t: State)
    requires Shape(cfg, s) && Relists(s, t) && Ascending(s.groups)
    ensures Ascending(t.groups)
  {
    hide Remove, RemoveAll;
    if g :| t.groups == Remove(s.groups, g) { RemoveAscends(s.groups, g); }
    if dead :| t.groups == RemoveAll(s.groups, dead) { RemoveAllAscends(s.groups, dead); }
  }

  lemma {:induction false} RunAscends(cfg: Config, s: State, es: seq<Event>)
    requires cfg.Valid() && Runs(cfg, s, es) && Ascending(s.groups)
    ensures Ascending(Run(cfg, s, es).groups)
    decreases |es|
  {
    hide Ascending, Relists, Step, Enabled, Shape;
    if es != [] {
      StepRelists(cfg, s, es[0]);
      RelistAscends(cfg, s, Step(cfg, s, es[0]));
      RunAscends(cfg, Step(cfg, s, es[0]), es[1..]);
    }
  }

  /** An orderly path keeps what every reachable state has. */
  lemma {:induction false} PathSound(cfg: Config, s: State, es: seq<Event>, t: State)
    requires Goes(cfg, s, es, t) && Inv(cfg, s) && Sound(cfg, s) && Ascending(s.groups)
    ensures Sound(cfg, t) && Ascending(t.groups)
  {
    hide Inv, Sound, Ascending, Runs, Run, Orderly, Lossless;
    RunSound(cfg, s, es);
    RunAscends(cfg, s, es);
  }

  // ---------------------------------------------------------------- what an orderly path may change

  /** The groups there are keep their captured fields and only shrink in what is left to schedule; the eval
      queue only loses rows at its head, and until it does, only train groups are opened. */
  ghost predicate Advances(s: State, t: State) {
    && SameIds(s.store, t.store) && t.trainDisabled == s.trainDisabled
    && (s.mode.PreferTrain? ==> t.mode.PreferTrain?)
    && |t.evalQueue| <= |s.evalQueue| && t.evalQueue == s.evalQueue[|s.evalQueue| - |t.evalQueue|..]
    && (forall h: Gid | h < |s.store| :: Unscheduled(t.store, t.groups, h) <= Unscheduled(s.store, s.groups, h))
    && (|t.evalQueue| == |s.evalQueue| ==> forall h: Gid | |s.store| <= h < |t.store| :: t.store[h].kind.Train?)
  }

  lemma SteadyAdvances(s: State, t: State)
    requires Steady(s, t)
    ensures Advances(s, t)
  {
    hide Unscheduled;
  }

  lemma AdvancesTwice(s: State, t: State, u: State)
    requires Advances(s, t) && Advances(t, u)
    ensures Advances(s, u)
  {
    hide Unscheduled;
    forall h: Gid | h < |s.store|
      ensures h < |u.store| && Unscheduled(u.store, u.groups, h) <= Unscheduled(s.store, s.groups, h)
    {
      assert Unscheduled(t.store, t.groups, h) <= Unscheduled(s.store, s.groups, h);
    }
    SuffixTwice(s.evalQueue, t.evalQueue, u.evalQueue);
  }

  lemma SuffixTwice<T>(a: seq<T>, b: seq<T>, c: seq<T>)
    requires |c| <= |b| <= |a| && b == a[|a| - |b|..] && c == b[|b| - |c|..]
    ensures c == a[|a| - |c|..]
  {
  }

  lemma OpenAdvances(cfg: Config, s: State, q: State, kind: Kind, env: Env, evalStep: Option<int>)
    requires cfg.Valid() && Shape(cfg, s) && env in cfg.Envs(kind)
    requires if kind.Train? then q == s else s.evalQueue != [] && q == s.(evalQueue := s.evalQueue[1..])
    ensures var t := OpenGroup(cfg, q, kind, env, evalStep);
            |t.store| == |s.store| + 1 && t.store[|s.store|].toSchedule > 0 && Advances(s, t)
  {
    var t := OpenGroup(cfg, q, kind, env, evalStep);
    forall h: Gid | h < |s.store| ensures Unscheduled(t.store, t.groups, h) <= Unscheduled(s.store, s.groups, h) {}
  }

  /** What a turn of the fill loop that schedules leaves. */
  ghost predicate Began(s: State, t: State) {
    && Advances(s, t) && t.watcher == s.watcher && t.permits == s.permits
    && (t.loop.Acquiring? || (t.loop.Selecting? && t.loop.gid in t.groups))
  }

  lemma BeginBegan(cfg: Config, s: State, t: State, gid: Gid)
    requires Advances(s, t) && t.watcher == s.watcher && t.permits == s.permits
    requires gid < |t.store| && t.store[gid].env in cfg.Envs(t.store[gid].kind) && 0 < t.store[gid].toSchedule && gid in t.groups
    ensures Began(s, BeginSchedule(cfg, t, gid))
  {
    var u := BeginSchedule(cfg, t, gid);
    BeginSteady(cfg, t, gid);
    SteadyAdvances(t, u);
    hide Advances, Steady;
    AdvancesTwice(s, t, u);
  }

  lemma FreshBegan(cfg: Config, s: State, q: State, kind: Kind, env: Env, evalStep: Option<int>)
    requires cfg.Valid() && Shape(cfg, s) && env in cfg.Envs(kind)
    requires if kind.Train? then q == s else s.evalQueue != [] && q == s.(evalQueue := s.evalQueue[1..])
    ensures var t := OpenGroup(cfg, q, kind, env, evalStep);
            |s.store| < |t.store| && t.store[|s.store|].toSchedule > 0 && Began(s, BeginSchedule(cfg, t, |s.store|))
  {
    OpenAdvances(cfg, s, q, kind, env, evalStep);
    var t := OpenGroup(cfg, q, kind, env, evalStep);
    assert t.groups[|t.groups| - 1] == |s.store|;
    hide Shape, Advances;
    BeginBegan(cfg, s, t, |s.store|);
  }

  lemma TryBegan(cfg: Config, s: State, kind: Kind, pick: Env)
    requires cfg.Valid() && Shape(cfg, s) && pick in cfg.train
    ensures var t := TrySchedule(cfg, s, kind, pick); t == s || Began(s, t)
  {
    hide BeginSchedule, OpenGroup, Began, Advances;
    var i := FirstEligible(cfg, s, kind, 0);
    if kind.Train? && s.trainDisabled {
    } else if i < |s.groups| {
      AdvancesSelf(s);
      BeginBegan(cfg, s, s, s.groups[i]);
    } else if kind.Train? {
      FreshBegan(cfg, s, s, Train, pick, None);
    } else if s.evalQueue != [] {
      FreshBegan(cfg, s, s.(evalQueue := s.evalQueue[1..]), Eval, s.evalQueue[0].env, Some(s.evalQueue[0].evalStep));
    }
  }

  lemma AdvancesSelf(s: State)
    ensures Advances(s, s)
  {
  }

  /** A turn of the fill loop changes nothing, prefers training again, or begins to schedule a task. */
  lemma FillCases(cfg: Config, s: State, pick: Env)
    requires cfg.Valid() && Shape(cfg, s) && pick in cfg.train
    ensures var t := FillStep(cfg, s, pick);
            t == s || Began(s, t) || (s.mode.PreferEval? && t == s.(mode := PreferTrain))
  {
    TryBegan(cfg, s, Train, pick);
    TryBegan(cfg, s, Eval, pick);
    hide TrySchedule, Began, EvalHasWork;
  }

  lemma FlipAdvances(s: State)
    ensures Advances(s, s.(mode := PreferTrain))
  {
  }

  lemma BeganIs(s: State, t: State)
    requires Began(s, t)
    ensures Advances(s, t) && t.watcher == s.watcher && t.permits == s.permits && Scheduling(t)
  {
  }

  /** The fill loop runs until a turn changes nothing. */
  lemma {:induction false} Saturate(cfg: Config, s: State, pick: Env) returns (es: seq<Event>, t: State)
    requires cfg.Valid() && Inv(cfg, s) && s.loop.AtTop? && pick in cfg.train
    ensures Goes(cfg, s, es, t) && Inv(cfg, t) && Advances(s, t) && t.loop.AtTop? && t.watcher == s.watcher
    ensures Shape(cfg, t) && FillStep(cfg, t, pick) == t
    decreases cfg.maxInflight - s.permits, if s.mode.PreferEval? then 1 else 0
  {
    hide *;
    InvPermits(cfg, s);
    FillCases(cfg, s, pick);
    if FillStep(cfg, s, pick) == s {
      es, t := [], s;
      Rests(cfg, s);
      AdvancesSelf(s);
    } else {
      var u := Fills(cfg, s, pick);
      var fs, w := [], u;
      if Began(s, u) {
        BeganIs(s, u);
        fs, w := Registers(cfg, u);
        Walks(cfg, u, fs, w);
        KeptIs(u, w);
        SteadyAdvances(u, w);
        AdvancesTwice(s, u, w);
        InvPermits(cfg, w);
      } else {
        FlipAdvances(s);
        Rests(cfg, u);
      }
      Joins(cfg, s, [Fill(pick)], u, fs, w);
      es, t := Saturate(cfg, w, pick);
      Joins(cfg, s, [Fill(pick)] + fs, w, es, t);
      AdvancesTwice(s, w, t);
      es := [Fill(pick)] + fs + es;
    }
  }

  lemma Rests(cfg: Config, s: State)
    requires cfg.Valid()
    ensures Goes(cfg, s, [], s)
  {
  }

  // ---------------------------------------------------------------- normal states

  /** Nothing is suspended, registered or queued. */
  ghost predicate Normal(s: State) {
    s.loop.AtTop? && s.watcher.Quiet? && s.inflight == [] && s.queue == []
  }

  /** Both coroutines come to rest, the loop fills, every task finishes, and the queue is consumed. */
  lemma {:induction false} Normalize(cfg: Config, s: State, pick: Env) returns (es: seq<Event>, t: State)
    requires cfg.Valid() && Inv(cfg, s) && !s.loop.Dead? && pick in cfg.train
    ensures Goes(cfg, s, es, t) && Inv(cfg, t) && Advances(s, t) && Normal(t)
  {
    var fs;
    hide Goes, Moves, Inv, Kept, Steady, Advances, Swept, Shape, FillStep, Registered, TasksKept, Scheduling;
    var u, v, w, x;
    es, u := LoopHome(cfg, s);
    Walks(cfg, s, es, u);
    KeptIs(s, u);
    SteadyAdvances(s, u);
    fs, v := WatcherHome(cfg, u, 0);
    Walks(cfg, u, fs, v);
    SteadyAdvances(u, v);
    Further(cfg, s, es, u, fs, v);
    es := es + fs;
    fs, w := Saturate(cfg, v, pick);
    Further(cfg, s, es, v, fs, w);
    es := es + fs;
    fs, x := FinishTasks(cfg, w);
    Handles(cfg, w, pick, fs, x);
    KeptIs(w, x);
    SteadyAdvances(w, x);
    Further(cfg, s, es, w, [Fill(pick)] + fs, x);
    es := es + ([Fill(pick)] + fs);
    fs, t := ConsumeAll(cfg, x);
    Walks(cfg, x, fs, t);
    KeptIs(x, t);
    SteadyAdvances(x, t);
    Further(cfg, s, es, x, fs, t);
    es := es + fs;
  }

  lemma Further(cfg: Config, s: State, es: seq<Event>, t: State, fs: seq<Event>, u: State)
    requires Goes(cfg, s, es, t) && Advances(s, t) && Goes(cfg, t, fs, u) && Advances(t, u)
    ensures Goes(cfg, s, es + fs, u) && Advances(s, u)
  {
    hide Goes, Advances;
    Joins(cfg, s, es, t, fs, u);
    AdvancesTwice(s, t, u);
  }

  // ---------------------------------------------------------------- the measure

  /** Groups that may be scheduled before group `g` is: eval groups, and those opened no later. */
  predicate Ahead(store: seq<Group>, g: Gid, h: Gid)
    requires h < |store|
  {
    h <= g || store[h].kind.Eval?
  }

  /** What is left to schedule, ahead of `g`, of the first `n` groups. */
  ghost function Left(store: seq<Group>, groups: seq<Gid>, g: Gid, n: nat): nat
    requires n <= |store|
  {
    if n == 0 then 0
    else Left(store, groups, g, n - 1) + (if Ahead(store, g, n - 1) then Unscheduled(store, groups, n - 1) else 0)
  }

  ghost function LeftAhead(s: State, g: Gid): nat { Left(s.store, s.groups, g, |s.store|) }

  lemma {:induction false} LeftShrinks(s: State, t: State, g: Gid, h: Gid, n: nat)
    requires Advances(s, t) && n <= |s.store|
    ensures Left(t.store, t.groups, g, n) <= Left(s.store, s.groups, g, n)
    ensures h < n && Ahead(s.store, g, h) && Unscheduled(t.store, t.groups, h) < Unscheduled(s.store, s.groups, h)
            ==> Left(t.store, t.groups, g, n) < Left(s.store, s.groups, g, n)
  {
    hide Unscheduled;
    if n > 0 {
      LeftShrinks(s, t, g, h, n - 1);
      assert Unscheduled(t.store, t.groups, n - 1) <= Unscheduled(s.store, s.groups, n - 1);
    }
  }

  lemma {:induction false} LeftSame(s: State, t: State, g: Gid, n: nat)
    requires Advances(s, t) && |t.evalQueue| == |s.evalQueue| && g < |s.store| <= n <= |t.store|
    ensures Left(t.store, t.groups, g, n) == Left(t.store, t.groups, g, |s.store|)
    decreases n
  {
    hide Unscheduled;
    if n > |s.store| {
      LeftSame(s, t, g, n - 1);
      assert t.store[n - 1].kind.Train?;
    }
  }

  /** Until the eval queue loses a row, what is left ahead of a group only shrinks, and does so strictly
      when some group ahead of it is scheduled. */
  lemma LeftAheadShrinks(s: State, t: State, g: Gid, h: Gid)
    requires Advances(s, t) && |t.evalQueue| == |s.evalQueue| && g < |s.store|
    ensures LeftAhead(t, g) <= LeftAhead(s, g)
    ensures h < |s.store| && Ahead(s.store, g, h) && Unscheduled(t.store, t.groups, h) < Unscheduled(s.store, s.groups, h)
            ==> LeftAhead(t, g) < LeftAhead(s, g)
  {
    LeftShrinks(s, t, g, h, |s.store|);
    LeftSame(s, t, g, |t.store|);
    hide Left, Unscheduled;
  }

  // ---------------------------------------------------------------- one round of scheduling

  lemma ReservedLess(cfg: Config, s: State, h: Gid)
    requires h < |s.store| && s.store[h].env in cfg.Envs(s.store[h].kind) && 0 < s.store[h].toSchedule && h in s.groups
    ensures var t := Reserve(cfg, s, h); |t.store| == |s.store| && Unscheduled(t.store, t.groups, h) < Unscheduled(s.store, s.groups, h)
  {
  }

  /** Scheduling a group that has rollouts left takes at least one of them out. */
  lemma {:induction false} Schedules(cfg: Config, s: State, h: Gid) returns (es: seq<Event>, t: State)
    requires cfg.Valid() && h < |s.store| && s.store[h].env in cfg.Envs(s.store[h].kind) && 0 < s.store[h].toSchedule && h in s.groups
    requires Inv(cfg, BeginSchedule(cfg, s, h))
    ensures Moves(cfg, BeginSchedule(cfg, s, h), es, t, false) && Inv(cfg, t) && !t.loop.Dead? && Steady(s, t)
    ensures Unscheduled(t.store, t.groups, h) < Unscheduled(s.store, s.groups, h)
  {
    var u := BeginSchedule(cfg, s, h);
    if s.store[h].pinned {
      ReserveSteady(cfg, s, h);
      ReservedLess(cfg, s, h);
      hide Inv, Steady, Moves, Reserve, Unscheduled;
      es, t := [], u;
      Stay(cfg, u, false);
    } else {
      var p := u.(store := u.store[h := u.store[h].(pinned := true)]);
      PinSteady(s, u, p, h);
      ReserveSteady(cfg, p, h);
      ReservedLess(cfg, p, h);
      hide Inv, Steady, Moves, Reserve, Unscheduled;
      t := Selects(cfg, u);
      es := [ClientSelected];
      assert t == Reserve(cfg, p, h);
      SteadyTwice(s, p, t);
    }
  }

  lemma PinSteady(s: State, u: State, p: State, h: Gid)
    requires h < |s.store| && u == s.(loop := Selecting(h)) && p == u.(store := u.store[h := u.store[h].(pinned := true)])
    ensures Steady(s, p) && Unscheduled(p.store, p.groups, h) == Unscheduled(s.store, s.groups, h)
  {
  }

  /** A turn of the fill loop that continues group `h`, played out until everything is back at rest. */
  lemma {:induction false} Continues(cfg: Config, s: State, pick: Env, h: Gid) returns (es: seq<Event>, t: State)
    requires cfg.Valid() && Inv(cfg, s) && s.loop.AtTop? && pick in cfg.train && Shape(cfg, s)
    requires h < |s.store| && s.store[h].env in cfg.Envs(s.store[h].kind) && 0 < s.store[h].toSchedule && h in s.groups
    requires FillStep(cfg, s, pick) == BeginSchedule(cfg, s, h)
    ensures Goes(cfg, s, es, t) && Inv(cfg, t) && Advances(s, t) && Normal(t)
    ensures h < |t.store| && Unscheduled(t.store, t.groups, h) < Unscheduled(s.store, s.groups, h)
  {
    var u, w, fs, gs;
    u := Fills(cfg, s, pick);
    hide Inv, Goes, Moves, Steady, Advances, Shape, FillStep, BeginSchedule, Unscheduled, Normal;
    fs, w := Schedules(cfg, s, h);
    SteadyAdvances(s, w);
    Walks(cfg, u, fs, w);
    gs, t := Normalize(cfg, w, pick);
    Joins(cfg, s, [Fill(pick)], u, fs, w);
    Further(cfg, s, [Fill(pick)] + fs, w, gs, t);
    es := [Fill(pick)] + fs + gs;
    Less(s, w, t, h);
  }

  lemma Less(s: State, w: State, t: State, h: Gid)
    requires Advances(w, t) && |w.store| == |s.store| && h < |s.store|
    requires Unscheduled(w.store, w.groups, h) < Unscheduled(s.store, s.groups, h)
    ensures h < |t.store| && Unscheduled(t.store, t.groups, h) < Unscheduled(s.store, s.groups, h)
  {
    hide Unscheduled;
  }

  /** A turn that opens a group for the head of the eval queue, played out likewise. */
  lemma {:induction false} OpensHead(cfg: Config, s: State, pick: Env) returns (es: seq<Event>, t: State)
    requires cfg.Valid() && Inv(cfg, s) && s.loop.AtTop? && pick in cfg.train && Shape(cfg, s) && s.evalQueue != []
    requires s.evalQueue[0].env in cfg.eval
    requires FillStep(cfg, s, pick) == HeadOpened(cfg, s)
    ensures Goes(cfg, s, es, t) && Inv(cfg, t) && Advances(s, t) && Normal(t) && |t.evalQueue| < |s.evalQueue|
  {
    var u, gs;
    u := Fills(cfg, s, pick);
    HeadOpenedIs(cfg, s);
    hide Inv, Goes, Shape, FillStep, HeadOpened, Normal, Advances;
    gs, t := Normalize(cfg, u, pick);
    Further(cfg, s, [Fill(pick)], u, gs, t);
    es := [Fill(pick)] + gs;
    QueueShrinks(u, t);
  }

  lemma QueueShrinks(s: State, t: State)
    requires Advances(s, t)
    ensures |t.evalQueue| <= |s.evalQueue|
  {
    hide Unscheduled;
  }

  function HeadOpened(cfg: Config, s: State): State
    requires cfg.Valid() && s.evalQueue != [] && s.evalQueue[0].env in cfg.eval
  {
    var head := s.evalQueue[0];
    OpenGroup(cfg, s.(evalQueue := s.evalQueue[1..]), Eval, head.env, Some(head.evalStep)).(loop := Selecting(|s.store|))
  }

  lemma HeadOpenedIs(cfg: Config, s: State)
    requires cfg.Valid() && Shape(cfg, s) && s.evalQueue != [] && s.evalQueue[0].env in cfg.eval
    ensures var u := HeadOpened(cfg, s); |u.evalQueue| < |s.evalQueue| && !u.loop.Dead? && Advances(s, u)
  {
    var head := s.evalQueue[0];
    var q := s.(evalQueue := s.evalQueue[1..]);
    OpenAdvances(cfg, s, q, Eval, head.env, Some(head.evalStep));
    var o := OpenGroup(cfg, q, Eval, head.env, Some(head.evalStep));
    SteadySelf(o, HeadOpened(cfg, s));
    SteadyAdvances(o, HeadOpened(cfg, s));
    assert o.evalQueue == q.evalQueue;
    hide Advances, Steady, OpenGroup;
    AdvancesTwice(s, o, HeadOpened(cfg, s));
  }

  // ---------------------------------------------------------------- which round it is

  /** At rest the whole capacity is free, and every group with rollouts left fits it. */
  lemma RestFits(cfg: Config, s: State, h: Gid)
    requires cfg.Valid() && Inv(cfg, s) && Sound(cfg, s) && Normal(s) && h < |s.store| && h in s.groups && s.store[h].toSchedule > 0
    ensures Shape(cfg, s) && s.permits == 0 && Cost(cfg, s.store[h]) <= Available(cfg, s) == cfg.maxInflight
  {
    InvPermits(cfg, s);
    assert s.store[h].target == Owing(s.store, s.groups, s.inflight, s.loop, s.watcher, h) + CountOf(s.log, h) + s.lost[h];
    assert Unscheduled(s.store, s.groups, h) == s.store[h].toSchedule;
    assert Feasible(cfg, s.store[h]);
    hide Inv, Owing, CountOf, Sound, Shape;
  }

  lemma {:induction false} EligibleAtRest(cfg: Config, s: State, kind: Kind, h: Gid)
    requires cfg.Valid() && Inv(cfg, s) && Sound(cfg, s) && Normal(s) && Shape(cfg, s)
    requires h < |s.store| && h in s.groups && s.store[h].toSchedule > 0 && s.store[h].kind == kind
    ensures var i := FirstEligible(cfg, s, kind, 0);
            && i < |s.groups| && s.groups[i] < |s.store| && s.store[s.groups[i]].kind == kind && 0 < s.store[s.groups[i]].toSchedule
            && (Ascending(s.groups) ==> s.groups[i] <= h)
  {
    RestFits(cfg, s, h);
    var j :| 0 <= j < |s.groups| && s.groups[j] == h;
    hide Inv, Sound, Normal;
    assert Eligible(cfg, s, kind, j);
  }

  /** With eval work and eval preferred, the next turn continues an eval group if one is open. */
  lemma EvalTurn(cfg: Config, s: State, pick: Env, h: Gid) returns (i: nat)
    requires cfg.Valid() && Inv(cfg, s) && Sound(cfg, s) && Normal(s) && Shape(cfg, s) && pick in cfg.train && s.mode.PreferEval?
    requires h < |s.store| && h in s.groups && s.store[h].toSchedule > 0 && s.store[h].kind.Eval?
    ensures i < |s.groups| && s.groups[i] < |s.store| && 0 < s.store[s.groups[i]].toSchedule
    ensures s.store[s.groups[i]].env in cfg.Envs(s.store[s.groups[i]].kind) && s.store[s.groups[i]].kind.Eval?
    ensures FillStep(cfg, s, pick) == BeginSchedule(cfg, s, s.groups[i])
  {
    EligibleAtRest(cfg, s, Eval, h);
    RestFits(cfg, s, h);
    i := FirstEligible(cfg, s, Eval, 0);
    var j :| 0 <= j < |s.groups| && s.groups[j] == h;
    assert EvalHasWork(s);
    hide Inv, Sound, BeginSchedule, Cost;
  }

  /** With eval preferred and no eval group open, it opens one for the head of the queue. */
  lemma {:induction false} HeadTurn(cfg: Config, s: State, pick: Env)
    requires cfg.Valid() && Inv(cfg, s) && Normal(s) && Shape(cfg, s) && pick in cfg.train && s.mode.PreferEval? && s.evalQueue != []
    requires FirstEligible(cfg, s, Eval, 0) == |s.groups| && FreshCost(cfg.eval[s.evalQueue[0].env]) <= cfg.maxInflight
    ensures s.evalQueue[0].env in cfg.eval && FillStep(cfg, s, pick) == HeadOpened(cfg, s)
  {
    InvPermits(cfg, s);
    hide Inv, FirstEligible;
  }

  /** With training preferred and the gate open, it continues a train group. */
  lemma TrainTurn(cfg: Config, s: State, pick: Env, h: Gid) returns (i: nat)
    requires cfg.Valid() && Inv(cfg, s) && Sound(cfg, s) && Normal(s) && Shape(cfg, s) && pick in cfg.train && s.mode.PreferTrain?
    requires s.gate && !s.trainDisabled && Ascending(s.groups)
    requires h < |s.store| && h in s.groups && s.store[h].toSchedule > 0 && s.store[h].kind.Train?
    ensures i < |s.groups| && s.groups[i] < |s.store| && 0 < s.store[s.groups[i]].toSchedule
    ensures s.store[s.groups[i]].env in cfg.Envs(s.store[s.groups[i]].kind) && s.groups[i] <= h
    ensures FillStep(cfg, s, pick) == BeginSchedule(cfg, s, s.groups[i])
  {
    EligibleAtRest(cfg, s, Train, h);
    RestFits(cfg, s, h);
    i := FirstEligible(cfg, s, Train, 0);
    hide Inv, Sound, BeginSchedule, Cost;
  }

  /** An update with nothing in flight: it opens the gate. */
  lemma {:induction false} OpensGate(cfg: Config, s: State) returns (es: seq<Event>, t: State)
    requires cfg.Valid() && Inv(cfg, s) && Normal(s)
    ensures Goes(cfg, s, es, t) && Inv(cfg, t) && Normal(t) && Steady(s, t)
    ensures t.gate && t.mode == s.mode && t.store == s.store && t.groups == s.groups
  {
    var next := if s.version + 1 > s.step then s.version + 1 else s.step;
    var u := Watches(cfg, s, VersionPending(next));
    NothingStale(cfg, s, next);
    assert u == s.(watcher := Dropping(next, {}));
    hide Inv, Goes, Moves, Steady, Shape, PendingStep;
    t := Adopts(cfg, u);
    Append(cfg, s, [VersionPending(next)], u, [Adopt], t, false);
    es := [VersionPending(next)] + [Adopt];
    Walks(cfg, s, es, t);
    SteadyTwice(s, u, t);
  }

  lemma NothingStale(cfg: Config, s: State, next: int)
    requires s.inflight == []
    ensures PendingStep(cfg, s, next) == s.(watcher := Dropping(next, {}))
  {
    assert AgedAll(cfg, s.inflight) == [];
    assert StaleGids(cfg, []) == {};
  }

  /** With no eval work left, training is preferred again. */
  lemma {:induction false} Flips(cfg: Config, s: State, pick: Env) returns (t: State)
    requires cfg.Valid() && Inv(cfg, s) && Normal(s) && pick in cfg.train && s.mode.PreferEval? && Shape(cfg, s) && !EvalHasWork(s)
    ensures Goes(cfg, s, [Fill(pick)], t) && Inv(cfg, t) && t == s.(mode := PreferTrain)
  {
    InvPermits(cfg, s);
    t := Fills(cfg, s, pick);
    hide Inv, Goes, EvalHasWork;
  }

  // ---------------------------------------------------------------- progress

  /** Every queued eval example's first task fits the capacity. */
  ghost predicate QueueFits(cfg: Config, rows: seq<Row>) {
    forall i | 0 <= i < |rows| :: rows[i].env in cfg.eval && FreshCost(cfg.eval[rows[i].env]) <= cfg.maxInflight
  }

  lemma RestOwing(s: State, g: Gid)
    requires Normal(s) && g < |s.store|
    ensures OwingIn(s, g) == Unscheduled(s.store, s.groups, g)
  {
  }

  lemma WorkLeft(s: State, h: Gid)
    requires h < |s.store| && Unscheduled(s.store, s.groups, h) > 0
    ensures h in s.groups && s.store[h].toSchedule > 0
  {
  }

  /** An open eval group with rollouts left, if there is one. */
  lemma NextEval(cfg: Config, s: State) returns (h: Option<Gid>)
    requires Shape(cfg, s)
    ensures h.Some? ==> h.value < |s.store| && h.value in s.groups && s.store[h.value].toSchedule > 0 && s.store[h.value].kind.Eval?
    ensures h.None? ==> FirstEligible(cfg, s, Eval, 0) == |s.groups| && (EvalHasWork(s) <==> s.evalQueue != [])
  {
    if i :| 0 <= i < |s.groups| && s.store[s.groups[i]].kind.Eval? && s.store[s.groups[i]].toSchedule > 0 {
      h := Some(s.groups[i]);
    } else {
      h := None;
    }
  }

  /** What a round needs and keeps. */
  ghost predicate Ready(cfg: Config, s: State, g: Gid) {
    && Inv(cfg, s) && Sound(cfg, s) && Ascending(s.groups) && Normal(s) && g < |s.store|
    && (s.store[g].kind.Train? ==> !s.trainDisabled && QueueFits(cfg, s.evalQueue))
  }

  lemma StaysReady(cfg: Config, s: State, es: seq<Event>, t: State, g: Gid)
    requires Ready(cfg, s, g) && Goes(cfg, s, es, t) && Inv(cfg, t) && Advances(s, t) && Normal(t)
    ensures Ready(cfg, t, g)
  {
    PathSound(cfg, s, es, t);
    hide Inv, Sound, Ascending, Normal, Goes, Unscheduled;
  }

  /** The lexicographic order `Deliver` goes down. */
  ghost predicate Lower(s: State, u: State, g: Gid) {
    || |u.evalQueue| < |s.evalQueue|
    || (|u.evalQueue| == |s.evalQueue| && LeftAhead(u, g) < LeftAhead(s, g))
    || (|u.evalQueue| == |s.evalQueue| && LeftAhead(u, g) == LeftAhead(s, g) && s.mode.PreferEval? && u.mode.PreferTrain?)
    || (|u.evalQueue| == |s.evalQueue| && LeftAhead(u, g) == LeftAhead(s, g) && s.mode == u.mode && !s.gate && u.gate)
  }

  /** From rest, everything left of group `g` is delivered, round by round. */
  lemma {:induction false} Deliver(cfg: Config, s: State, g: Gid, pick: Env) returns (es: seq<Event>, t: State)
    requires cfg.Valid() && Ready(cfg, s, g) && pick in cfg.train
    ensures Goes(cfg, s, es, t) && Inv(cfg, t) && g < |t.store| && OwingIn(t, g) == 0
    decreases |s.evalQueue|, LeftAhead(s, g), if s.mode.PreferEval? then 1 else 0, if s.gate then 0 else 1
  {
    RestOwing(s, g);
    InGroups(cfg, s, g);
    InvShape(cfg, s);
    hide Inv, Ready, Goes, Normal, Shape, LeftAhead, OwingIn, Unscheduled;
    if Unscheduled(s.store, s.groups, g) == 0 {
      es, t := [], s;
      Rests(cfg, s);
    } else {
      WorkLeft(s, g);
      var fs, u := Round(cfg, s, g, pick);
      InGroups(cfg, u, g);
      es, t := Deliver(cfg, u, g, pick);
      Joins(cfg, s, fs, u, es, t);
      es := fs + es;
    }
  }

  lemma InGroups(cfg: Config, s: State, g: Gid)
    requires Ready(cfg, s, g)
    ensures Inv(cfg, s) && g < |s.store|
  {
  }

  /** One round towards delivering a group that has rollouts left. */
  lemma {:induction false} Round(cfg: Config, s: State, g: Gid, pick: Env) returns (es: seq<Event>, u: State)
    requires cfg.Valid() && Ready(cfg, s, g) && Shape(cfg, s) && pick in cfg.train && g in s.groups && s.store[g].toSchedule > 0
    ensures Goes(cfg, s, es, u) && Ready(cfg, u, g) && Lower(s, u, g)
  {
    hide Inv, Sound, Shape, Goes, Normal, Advances, LeftAhead, OwingIn, QueueFits, FillStep, BeginSchedule,
         EvalHasWork, FirstEligible, Lower, Ascending, Unscheduled;
    AtRest(s);
    if s.mode.PreferEval? {
      var h := NextEval(cfg, s);
      if h.Some? {
        var i := EvalTurn(cfg, s, pick, h.value);
        InList(s.groups, i);
        es, u := Continues(cfg, s, pick, s.groups[i]);
        LessAhead(s, u, g, s.groups[i]);
        StaysReady(cfg, s, es, u, g);
      } else if s.evalQueue != [] {
        es, u := HeadRound(cfg, s, g, pick);
      } else {
        u := Flips(cfg, s, pick);
        es := [Fill(pick)];
        FlipReady(s, u, g);
        StaysReady(cfg, s, es, u, g);
      }
    } else {
      es, u := TrainRound(cfg, s, g, pick);
    }
  }

  lemma InList(gs: seq<Gid>, i: nat)
    requires i < |gs|
    ensures gs[i] in gs
  {
  }

  lemma LessAhead(s: State, u: State, g: Gid, h: Gid)
    requires Advances(s, u) && g < |s.store| && h < |s.store| && Ahead(s.store, g, h)
    requires h < |u.store| && Unscheduled(u.store, u.groups, h) < Unscheduled(s.store, s.groups, h)
    ensures Lower(s, u, g)
  {
    QueueShrinks(s, u);
    hide Advances, LeftAhead, Unscheduled;
    if |u.evalQueue| == |s.evalQueue| { LeftAheadShrinks(s, u, g, h); }
  }

  lemma AtRest(s: State)
    requires Normal(s)
    ensures s.loop.AtTop?
  {
  }

  lemma FlipReady(s: State, u: State, g: Gid)
    requires u == s.(mode := PreferTrain) && s.mode.PreferEval?
    ensures Lower(s, u, g) && Advances(s, u) && (Normal(s) ==> Normal(u))
  {
    FlipAdvances(s);
    hide Advances;
  }

  lemma {:induction false} HeadRound(cfg: Config, s: State, g: Gid, pick: Env) returns (es: seq<Event>, u: State)
    requires cfg.Valid() && Ready(cfg, s, g) && Shape(cfg, s) && pick in cfg.train && g in s.groups && s.store[g].toSchedule > 0
    requires s.mode.PreferEval? && s.evalQueue != [] && FirstEligible(cfg, s, Eval, 0) == |s.groups|
    ensures Goes(cfg, s, es, u) && Ready(cfg, u, g) && Lower(s, u, g)
  {
    if s.store[g].kind.Eval? {
      EligibleAtRest(cfg, s, Eval, g);
      assert false;
    } else {
      assert FreshCost(cfg.eval[s.evalQueue[0].env]) <= cfg.maxInflight;
      hide Inv, Sound, Shape, Goes, Normal, LeftAhead, FillStep, FirstEligible, HeadOpened, Advances, Ascending;
      HeadTurn(cfg, s, pick);
      AtRest(s);
      es, u := OpensHead(cfg, s, pick);
      StaysReady(cfg, s, es, u, g);
    }
  }

  lemma {:induction false} TrainRound(cfg: Config, s: State, g: Gid, pick: Env) returns (es: seq<Event>, u: State)
    requires cfg.Valid() && Ready(cfg, s, g) && Shape(cfg, s) && pick in cfg.train && g in s.groups && s.store[g].toSchedule > 0
    requires s.mode.PreferTrain?
    ensures Goes(cfg, s, es, u) && Ready(cfg, u, g) && Lower(s, u, g)
  {
    TrainIs(cfg, s, g);
    hide Inv, Sound, Shape, Goes, Steady, Normal, QueueFits, FillStep, BeginSchedule, Advances, Ascending, Unscheduled, Lower, LeftAhead;
    if s.gate {
      var i := TrainTurn(cfg, s, pick, g);
      AtRest(s);
      InList(s.groups, i);
      es, u := Continues(cfg, s, pick, s.groups[i]);
      LessAhead(s, u, g, s.groups[i]);
    } else {
      es, u := OpensGate(cfg, s);
      GateLower(s, u, g);
    }
    StaysReady(cfg, s, es, u, g);
  }

  lemma GateLower(s: State, u: State, g: Gid)
    requires Steady(s, u) && u.store == s.store && u.groups == s.groups && u.mode == s.mode && !s.gate && u.gate
    ensures Lower(s, u, g) && Advances(s, u)
  {
    SteadyAdvances(s, u);
    hide Advances, Unscheduled;
  }

  /** While training is preferred no eval group has rollouts left. */
  lemma TrainIs(cfg: Config, s: State, g: Gid)
    requires Sound(cfg, s) && s.mode.PreferTrain? && g < |s.store| && g in s.groups && s.store[g].toSchedule > 0
    ensures s.store[g].kind.Train?
  {
    assert Unscheduled(s.store, s.groups, g) == s.store[g].toSchedule;
  }
}
