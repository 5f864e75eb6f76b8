/** Lossless paths of the dispatcher: how each coroutine comes back to rest, wherever it is suspended. */
module DispatchPaths {
  import opened Common
  import opened Dispatch
  import opened DispatchInvariant
  import opened DispatchSafety
  import opened DispatchDrop
  import opened DispatchRuns

  // ---------------------------------------------------------------- paths

  /** The loop handles a completion only after a turn of the fill loop that changed nothing; `filled`
      says whether the last turn before `s` was one. */
  ghost predicate Orderly(cfg: Config, s: State, es: seq<Event>, filled: bool)
    requires cfg.Valid() && Runs(cfg, s, es)
    decreases |es|
  {
    es == [] ||
    ((es[0].Complete? ==> filled) &&
     Orderly(cfg, Step(cfg, s, es[0]), es[1..], if es[0].Fill? then Step(cfg, s, es[0]) == s else filled))
  }

  ghost predicate Lossless(es: seq<Event>) { forall i | 0 <= i < |es| :: !MayLose(es[i]) }

  /** An orderly run that loses nothing leads from `s` to `t`. */
  ghost predicate Goes(cfg: Config, s: State, es: seq<Event>, t: State) {
    Leads(cfg, s, es, t) && Lossless(es) && Orderly(cfg, s, es, false)
  }

  ghost predicate Moving(e: Event, filled: bool) { !MayLose(e) && !e.Fill? && (e.Complete? ==> filled) }

  /** A run without turns of the fill loop that loses nothing; tasks complete in it only if `filled`. */
  ghost predicate Moves(cfg: Config, s: State, es: seq<Event>, t: State, filled: bool) {
    Leads(cfg, s, es, t) && forall i | 0 <= i < |es| :: Moving(es[i], filled)
  }

  lemma {:induction false} RunsAppend(cfg: Config, s: State, es: seq<Event>, fs: seq<Event>)
    requires cfg.Valid() && Runs(cfg, s, es) && Runs(cfg, Run(cfg, s, es), fs)
    ensures Runs(cfg, s, es + fs) && Run(cfg, s, es + fs) == Run(cfg, Run(cfg, s, es), fs)
    decreases |es|
  {
    hide Step, Enabled, Shape;
    if es == [] {
      assert es + fs == fs;
    } else {
      assert (es + fs)[1..] == es[1..] + fs && (es + fs)[0] == es[0];
      RunsAppend(cfg, Step(cfg, s, es[0]), es[1..], fs);
    }
  }

  lemma Stay(cfg: Config, s: State, filled: bool)
    requires cfg.Valid()
    ensures Moves(cfg, s, [], s, filled)
  {
  }

  lemma {:induction false} Append(cfg: Config, s: State, es: seq<Event>, t: State, fs: seq<Event>, u: State, filled: bool)
    requires Moves(cfg, s, es, t, filled) && Moves(cfg, t, fs, u, filled)
    ensures Moves(cfg, s, es + fs, u, filled)
  {
    RunsAppend(cfg, s, es, fs);
    hide Runs, Run, Moving;
    assert forall i | 0 <= i < |es + fs| :: (es + fs)[i] == if i < |es| then es[i] else fs[i - |es|];
  }

  lemma Widen(cfg: Config, s: State, es: seq<Event>, t: State)
    requires Moves(cfg, s, es, t, false)
    ensures Moves(cfg, s, es, t, true)
  {
    assert forall e | Moving(e, false) :: Moving(e, true);
    hide Moving, Runs, Run;
  }

  lemma {:induction false} MovesOrderly(cfg: Config, s: State, es: seq<Event>, filled: bool)
    requires cfg.Valid() && Runs(cfg, s, es) && forall i | 0 <= i < |es| :: Moving(es[i], filled)
    ensures Orderly(cfg, s, es, filled)
    decreases |es|
  {
    hide Step, Enabled, Shape, MayLose;
    if es != [] {
      assert Moving(es[0], filled);
      assert forall i | 0 <= i < |es[1..]| :: es[1..][i] == es[i + 1];
      MovesOrderly(cfg, Step(cfg, s, es[0]), es[1..], filled);
    }
  }

  lemma {:induction false} Walks(cfg: Config, s: State, es: seq<Event>, t: State)
    requires Moves(cfg, s, es, t, false)
    ensures Goes(cfg, s, es, t)
  {
    MovesOrderly(cfg, s, es, false);
    assert forall i | 0 <= i < |es| :: Moving(es[i], false);
    hide Orderly, Runs, Run, MayLose;
  }

  lemma {:induction false} OrderlyMore(cfg: Config, s: State, es: seq<Event>, filled: bool)
    requires cfg.Valid() && Runs(cfg, s, es) && Orderly(cfg, s, es, false)
    ensures Orderly(cfg, s, es, filled)
    decreases |es|
  {
    hide Step, Enabled, Shape;
    if es != [] && filled && !es[0].Fill? { OrderlyMore(cfg, Step(cfg, s, es[0]), es[1..], true); }
  }

  lemma {:induction false} OrderlyAppend(cfg: Config, s: State, es: seq<Event>, fs: seq<Event>, filled: bool)
    requires cfg.Valid() && Runs(cfg, s, es) && Runs(cfg, Run(cfg, s, es), fs)
    requires Orderly(cfg, s, es, filled) && Orderly(cfg, Run(cfg, s, es), fs, false)
    ensures Runs(cfg, s, es + fs) && Orderly(cfg, s, es + fs, filled)
    decreases |es|
  {
    hide Step, Enabled, Shape;
    RunsAppend(cfg, s, es, fs);
    if es == [] {
      assert es + fs == fs;
      OrderlyMore(cfg, s, fs, filled);
    } else {
      assert (es + fs)[1..] == es[1..] + fs && (es + fs)[0] == es[0];
      var u := Step(cfg, s, es[0]);
      OrderlyAppend(cfg, u, es[1..], fs, if es[0].Fill? then u == s else filled);
    }
  }

  lemma {:induction false} Joins(cfg: Config, s: State, es: seq<Event>, t: State, fs: seq<Event>, u: State)
    requires Goes(cfg, s, es, t) && Goes(cfg, t, fs, u)
    ensures Goes(cfg, s, es + fs, u)
  {
    RunsAppend(cfg, s, es, fs);
    OrderlyAppend(cfg, s, es, fs, false);
    hide Runs, Run, Orderly, MayLose;
    assert forall i | 0 <= i < |es + fs| :: (es + fs)[i] == if i < |es| then es[i] else fs[i - |es|];
  }

  /** After a turn of the fill loop that changes nothing, completions may be handled. */
  lemma {:induction false} Handles(cfg: Config, s: State, pick: Env, es: seq<Event>, t: State)
    requires Moves(cfg, s, es, t, true) && Shape(cfg, s) && s.loop.AtTop? && pick in cfg.train && FillStep(cfg, s, pick) == s
    ensures Goes(cfg, s, [Fill(pick)] + es, t)
  {
    var all := [Fill(pick)] + es;
    assert all[0] == Fill(pick) && all[1..] == es;
    MovesOrderly(cfg, s, es, true);
    assert forall i | 0 <= i < |es| :: Moving(es[i], true);
    hide Shape, FillStep;
    assert Step(cfg, s, all[0]) == s;
    assert Runs(cfg, s, all) && Run(cfg, s, all) == Run(cfg, s, es) && Orderly(cfg, s, all, false);
    hide Orderly, Runs, Run;
  }

  lemma {:induction false} Go(cfg: Config, s: State, e: Event, filled: bool) returns (t: State)
    requires cfg.Valid() && Inv(cfg, s) && Enabled(cfg, s, e) && Moving(e, filled)
    ensures Shape(cfg, s) && t == Step(cfg, s, e) && Moves(cfg, s, [e], t, filled) && Inv(cfg, t)
  {
    assert Shape(cfg, s);
    hide *;
    StepKeeps(cfg, s, e);
    t := Step(cfg, s, e);
    OneStep(cfg, s, e, t);
    OneMove(cfg, s, e, t, filled);
  }

  lemma {:induction false} OneStep(cfg: Config, s: State, e: Event, t: State)
    requires cfg.Valid() && Shape(cfg, s) && Enabled(cfg, s, e) && t == Step(cfg, s, e)
    ensures Leads(cfg, s, [e], t) && Runs(cfg, t, []) && Orderly(cfg, t, [], true) && Orderly(cfg, t, [], false)
  {
    hide Shape, Step, Enabled;
    var rest := [e][1..];
    assert rest == [] && Runs(cfg, t, rest) && Run(cfg, t, rest) == t;
    assert Runs(cfg, s, [e]) && Run(cfg, s, [e]) == Run(cfg, t, rest);
  }

  lemma OneMove(cfg: Config, s: State, e: Event, t: State, filled: bool)
    requires Leads(cfg, s, [e], t) && Moving(e, filled)
    ensures Moves(cfg, s, [e], t, filled)
  {
    hide Leads, Moving;
  }

  /** One turn of the fill loop. */
  lemma {:induction false} Fills(cfg: Config, s: State, pick: Env) returns (t: State)
    requires cfg.Valid() && Inv(cfg, s) && s.loop.AtTop? && pick in cfg.train
    ensures Shape(cfg, s) && t == FillStep(cfg, s, pick) && Goes(cfg, s, [Fill(pick)], t) && Inv(cfg, t)
  {
    assert Shape(cfg, s);
    hide Inv, Shape, FillStep;
    var e := Fill(pick);
    StepKeeps(cfg, s, e);
    t := Step(cfg, s, e);
    OneStep(cfg, s, e, t);
    assert [e][1..] == [];
    assert Orderly(cfg, s, [e], false);
  }

  // ---------------------------------------------------------------- what only shrinks

  /** The groups keep their captured fields and what is left to schedule of each only shrinks. */
  ghost predicate Steady(s: State, t: State) {
    && SameIds(s.store, t.store) && |t.store| == |s.store|
    && t.evalQueue == s.evalQueue && t.mode == s.mode && t.trainDisabled == s.trainDisabled
    && forall h: Gid | h < |s.store| :: Unscheduled(t.store, t.groups, h) <= Unscheduled(s.store, s.groups, h)
  }

  lemma SteadySelf(s: State, t: State)
    requires t.store == s.store && t.groups == s.groups && t.evalQueue == s.evalQueue && t.mode == s.mode && t.trainDisabled == s.trainDisabled
    ensures Steady(s, t)
  {
  }

  lemma SteadyTwice(s: State, t: State, u: State)
    requires Steady(s, t) && Steady(t, u)
    ensures Steady(s, u)
  {
    hide Unscheduled;
  }

  lemma {:induction false} RemoveSubset(gs: seq<Gid>, g: Gid)
    ensures forall h | h in Remove(gs, g) :: h in gs
  {
    if gs != [] { RemoveSubset(gs[..|gs| - 1], g); }
  }

  lemma MarkSteady(s: State, gid: Gid, attached: bool)
    requires gid < |s.store|
    ensures Steady(s, MarkEmitted(s, gid, attached))
  {
    RemoveSubset(s.groups, gid);
    hide Remove;
  }

  lemma ReserveSteady(cfg: Config, s: State, gid: Gid)
    requires gid < |s.store| && s.store[gid].env in cfg.Envs(s.store[gid].kind) && 0 < s.store[gid].toSchedule
    ensures var t := Reserve(cfg, s, gid);
            && Steady(s, t) && t.groups == s.groups && t.store[gid].toSchedule < s.store[gid].toSchedule
            && t.loop.Acquiring? && t.loop.gid == gid
  {
  }

  lemma SelectedSteady(cfg: Config, s: State)
    requires Shape(cfg, s) && s.loop.Selecting?
    ensures Steady(s, SelectedStep(cfg, s))
  {
    var gid := s.loop.gid;
    var u := s.(store := s.store[gid := s.store[gid].(pinned := true)]);
    assert Steady(s, u);
    ReserveSteady(cfg, u, gid);
    hide Steady, Reserve, Shape;
    if gid in s.groups { SteadyTwice(s, u, SelectedStep(cfg, s)); } else { SteadySelf(s, SelectedStep(cfg, s)); }
  }

  /** What the loop's own events and the consumer leave alone. */
  ghost predicate Kept(s: State, t: State) {
    Steady(s, t) && t.watcher == s.watcher && t.gate == s.gate
  }

  lemma KeptTwice(s: State, t: State, u: State)
    requires Kept(s, t) && Kept(t, u)
    ensures Kept(s, u)
  {
    hide Steady;
    SteadyTwice(s, t, u);
  }

  lemma LoopKept(cfg: Config, s: State, e: Event)
    requires cfg.Valid() && Shape(cfg, s) && Enabled(cfg, s, e) && (e.Consume? || (OfLoop(e) && !e.Fill?))
    ensures Kept(s, Step(cfg, s, e))
  {
    var t := Step(cfg, s, e);
    if e.ClientSelected? {
      SelectedSteady(cfg, s);
      hide Steady;
    } else if e.LoopEmit? {
      MarkSteady(s, s.loop.meta.gid, s.loop.attached);
      var m := MarkEmitted(s, s.loop.meta.gid, s.loop.attached);
      hide MarkEmitted, Steady;
      SteadySelf(m, t);
      SteadyTwice(s, m, t);
    } else if e.Complete? {
      CompleteSteady(s, e.task, e.outcome);
      hide Steady, CompleteStep;
    } else {
      hide Steady;
      SteadySelf(s, t);
    }
  }

  lemma CompleteSteady(s: State, task: nat, outcome: Outcome)
    requires |s.lost| == |s.store| && forall i | 0 <= i < |s.inflight| :: s.inflight[i].gid < |s.store|
    ensures var t := CompleteStep(s, task, outcome); Steady(s, t) && t.watcher == s.watcher && t.gate == s.gate
  {
    hide Steady, IndexOf, Flags, Without;
    SteadySelf(s, CompleteStep(s, task, outcome));
  }

  lemma WatcherSteady(cfg: Config, s: State, e: Event)
    requires cfg.Valid() && Shape(cfg, s) && Enabled(cfg, s, e) && OfWatcher(e)
    ensures Steady(s, Step(cfg, s, e)) && Step(cfg, s, e).loop == s.loop
  {
    var t := Step(cfg, s, e);
    if e.DropGroup? {
      RemoveSubset(s.groups, e.gid);
      hide Remove, WithGid, WithoutGid, Owed, Load;
      assert SameIds(s.store, t.store);
    } else if e.DropEmit? {
      MarkSteady(s, s.watcher.gid, s.watcher.attached);
      var m := MarkEmitted(s, s.watcher.gid, s.watcher.attached);
      hide MarkEmitted, Steady;
      SteadySelf(m, t);
      SteadyTwice(s, m, t);
    } else {
      hide Steady;
      SteadySelf(s, t);
    }
  }

  // ---------------------------------------------------------------- one event at a time

  lemma InvShape(cfg: Config, s: State)
    requires Inv(cfg, s)
    ensures Shape(cfg, s)
  {
  }

  lemma Consumes(cfg: Config, s: State) returns (t: State)
    requires cfg.Valid() && Inv(cfg, s) && s.queue != []
    ensures Moves(cfg, s, [Consume], t, false) && Inv(cfg, t) && Kept(s, t)
    ensures t.queue == s.queue[1..] && t.loop == s.loop && t.inflight == s.inflight
  {
    InvShape(cfg, s);
    hide *;
    ConsumeStep(cfg, s);
    t := Go(cfg, s, Consume, false);
    LoopKept(cfg, s, Consume);
  }

  lemma ConsumeStep(cfg: Config, s: State)
    requires cfg.Valid() && Shape(cfg, s) && s.queue != []
    ensures Enabled(cfg, s, Consume) && !MayLose(Consume)
    ensures Step(cfg, s, Consume) == s.(queue := s.queue[1..], consumed := s.consumed + [s.queue[0]])
  {
    hide Shape;
  }

  lemma Emits(cfg: Config, s: State) returns (t: State)
    requires cfg.Valid() && Inv(cfg, s) && s.loop.Emitting? && s.loop.pending.None?
    ensures Moves(cfg, s, [LoopEmit], t, false) && Inv(cfg, t) && Kept(s, t)
    ensures s.loop.todo != [] && t.inflight == s.inflight
    ensures t.loop.Emitting? && t.loop.todo == s.loop.todo[1..] && t.loop.pending.Some?
  {
    t := Go(cfg, s, LoopEmit, false);
    LoopKept(cfg, s, LoopEmit);
    hide Inv, Moves, Kept;
  }

  lemma Puts(cfg: Config, s: State) returns (t: State)
    requires cfg.Valid() && Inv(cfg, s) && s.loop.Emitting? && s.loop.pending.Some? && s.queue == []
    ensures Moves(cfg, s, [LoopPut], t, false) && Inv(cfg, t) && Kept(s, t) && t.inflight == s.inflight
    ensures t.loop == if s.loop.todo == [] then AtTop else s.loop.(pending := None)
  {
    t := Go(cfg, s, LoopPut, false);
    LoopKept(cfg, s, LoopPut);
    hide Inv, Moves, Kept;
  }

  /** One task of group `g` was registered. */
  ghost predicate Registered(a: seq<Meta>, b: seq<Meta>, g: Gid) { |b| == |a| + 1 && b[..|a|] == a && b[|a|].gid == g }

  lemma Takes(cfg: Config, s: State) returns (t: State)
    requires cfg.Valid() && Inv(cfg, s) && s.loop.Acquiring?
    ensures Moves(cfg, s, [LimiterPassed], t, false) && Inv(cfg, t) && Kept(s, t)
    ensures s.loop.taken < s.loop.need && t.permits == s.permits + 1
    ensures if s.loop.taken + 1 < s.loop.need then t.loop == s.loop.(taken := s.loop.taken + 1) && t.inflight == s.inflight
            else t.loop.AtTop? && Registered(s.inflight, t.inflight, s.loop.gid)
  {
    InvShape(cfg, s);
    LimiterIs(cfg, s);
    hide *;
    t := Go(cfg, s, LimiterPassed, false);
    LoopKept(cfg, s, LimiterPassed);
  }

  lemma LimiterIs(cfg: Config, s: State)
    requires cfg.Valid() && Shape(cfg, s) && s.loop.Acquiring?
    ensures Enabled(cfg, s, LimiterPassed) && Moving(LimiterPassed, false) && OfLoop(LimiterPassed) && s.loop.taken < s.loop.need
    ensures var t := Step(cfg, s, LimiterPassed);
            && t.permits == s.permits + 1
            && if s.loop.taken + 1 < s.loop.need then t.loop == s.loop.(taken := s.loop.taken + 1) && t.inflight == s.inflight
               else t.loop.AtTop? && Registered(s.inflight, t.inflight, s.loop.gid)
  {
  }


  lemma Selects(cfg: Config, s: State) returns (t: State)
    requires cfg.Valid() && Inv(cfg, s) && s.loop.Selecting?
    ensures Moves(cfg, s, [ClientSelected], t, false) && Inv(cfg, t) && Kept(s, t) && Shape(cfg, s)
    ensures t == SelectedStep(cfg, s) && t.inflight == s.inflight && t.permits == s.permits
    ensures if s.loop.gid in s.groups then t.loop.Acquiring? && t.loop.gid == s.loop.gid else t.loop.AtTop?
  {
    t := Go(cfg, s, ClientSelected, false);
    LoopKept(cfg, s, ClientSelected);
    hide Inv, Moves, Kept, Shape;
  }

  /** The first registered task raises: its failures are handed to the emitting loop. */
  lemma Raises(cfg: Config, s: State) returns (t: State)
    requires cfg.Valid() && Inv(cfg, s) && s.loop.AtTop? && s.inflight != []
    ensures Moves(cfg, s, [Complete(s.inflight[0].task, Raised)], t, true) && Inv(cfg, t) && Kept(s, t)
    ensures t.inflight == s.inflight[1..] && t.loop.Emitting?
  {
    var e := Complete(s.inflight[0].task, Raised);
    t := Go(cfg, s, e, true);
    LoopKept(cfg, s, e);
    assert MetaOk(s.store, s.inflight[0]) && t == CompleteStep(s, e.task, Raised);
    hide Inv, Moves, Kept, Shape, Step, Enabled;
    RaisedStep(s);
  }

  lemma RaisedStep(s: State)
    requires |s.lost| == |s.store| && (forall i | 0 <= i < |s.inflight| :: s.inflight[i].gid < |s.store|)
    requires s.inflight != [] && 1 <= s.inflight[0].count
    ensures var t := CompleteStep(s, s.inflight[0].task, Raised); t.inflight == s.inflight[1..] && t.loop.Emitting?
  {
    assert IndexOf(s.inflight, s.inflight[0].task) == 0;
    assert s.inflight[..0] + s.inflight[1..] == s.inflight[1..];
  }

  // ---------------------------------------------------------------- back to the top of the loop

  lemma {:induction false} ConsumeAll(cfg: Config, s: State) returns (es: seq<Event>, t: State)
    requires cfg.Valid() && Inv(cfg, s)
    ensures Moves(cfg, s, es, t, false) && Inv(cfg, t) && Kept(s, t)
    ensures t.queue == [] && t.loop == s.loop && t.inflight == s.inflight
    decreases |s.queue|
  {
    if s.queue == [] {
      es, t := [], s;
      Stay(cfg, s, false);
      SteadySelf(s, s);
    } else {
      hide *;
      var u := Consumes(cfg, s);
      es, t := ConsumeAll(cfg, u);
      Append(cfg, s, [Consume], u, es, t, false);
      KeptTwice(s, u, t);
      es := [Consume] + es;
    }
  }

  lemma {:induction false} EmitAll(cfg: Config, s: State) returns (es: seq<Event>, t: State)
    requires cfg.Valid() && Inv(cfg, s) && s.loop.Emitting?
    ensures Moves(cfg, s, es, t, false) && Inv(cfg, t) && Kept(s, t) && t.loop.AtTop? && t.inflight == s.inflight
    decreases |s.loop.todo|, if s.loop.pending.Some? then 1 else 0
  {
    hide *;
    var u, fs := s, [];
    if s.loop.pending.None? {
      u := Emits(cfg, s);
      fs := [LoopEmit];
      es, t := EmitAll(cfg, u);
    } else {
      var w;
      fs, w := ConsumeAll(cfg, s);
      u := Puts(cfg, w);
      Append(cfg, s, fs, w, [LoopPut], u, false);
      KeptTwice(s, w, u);
      fs := fs + [LoopPut];
      if u.loop.AtTop? {
        es, t := [], u;
        Stay(cfg, u, false);
        KeptSelf(u);
      } else {
        es, t := EmitAll(cfg, u);
      }
    }
    Append(cfg, s, fs, u, es, t, false);
    KeptTwice(s, u, t);
    es := fs + es;
  }

  lemma KeptSelf(s: State)
    ensures Kept(s, s)
  {
  }

  lemma {:induction false} TakeAll(cfg: Config, s: State) returns (es: seq<Event>, t: State)
    requires cfg.Valid() && Inv(cfg, s) && s.loop.Acquiring?
    ensures Moves(cfg, s, es, t, false) && Inv(cfg, t) && Kept(s, t) && t.loop.AtTop?
    ensures t.permits > s.permits && Registered(s.inflight, t.inflight, s.loop.gid)
    decreases s.loop.need - s.loop.taken
  {
    hide *;
    var u := Takes(cfg, s);
    if u.loop.AtTop? {
      es, t := [LimiterPassed], u;
    } else {
      es, t := TakeAll(cfg, u);
      Append(cfg, s, [LimiterPassed], u, es, t, false);
      KeptTwice(s, u, t);
      es := [LimiterPassed] + es;
    }
  }

  /** The loop is about to register a task. */
  predicate Scheduling(s: State) { s.loop.Acquiring? || (s.loop.Selecting? && s.loop.gid in s.groups) }

  /** A scheduler suspended in client selection or in the rate limiter registers its task. */
  lemma {:induction false} Registers(cfg: Config, s: State) returns (es: seq<Event>, t: State)
    requires cfg.Valid() && Inv(cfg, s) && Scheduling(s)
    ensures Moves(cfg, s, es, t, false) && Inv(cfg, t) && Kept(s, t) && t.loop.AtTop?
    ensures t.permits > s.permits && Registered(s.inflight, t.inflight, s.loop.gid) && TasksKept(s.inflight, t.inflight)
    ensures s.loop.Selecting? ==> Shape(cfg, s) && Steady(SelectedStep(cfg, s), t)
  {
    var g := s.loop.gid;
    hide *;
    if s.loop.Acquiring? {
      es, t := TakeAll(cfg, s);
      NotSelecting(s);
    } else {
      SelectsIn(s);
      var u := Selects(cfg, s);
      es, t := TakeAll(cfg, u);
      Append(cfg, s, [ClientSelected], u, es, t, false);
      KeptIs(u, t);
      KeptTwice(s, u, t);
      es := [ClientSelected] + es;
    }
    RegisteredKept(s.inflight, t.inflight, g);
  }

  lemma NotSelecting(s: State)
    requires s.loop.Acquiring?
    ensures !s.loop.Selecting?
  {
  }

  lemma SelectsIn(s: State)
    requires Scheduling(s) && !s.loop.Acquiring?
    ensures s.loop.Selecting? && s.loop.gid in s.groups
  {
  }

  /** Registered tasks stay registered. */
  ghost predicate TasksKept(a: seq<Meta>, b: seq<Meta>) { forall m | m in a :: m in b }

  lemma RegisteredKept(a: seq<Meta>, b: seq<Meta>, g: Gid)
    requires Registered(a, b, g)
    ensures TasksKept(a, b)
  {
    assert forall m | m in a :: m in b[..|a|];
  }

  lemma SameTasks(a: seq<Meta>, b: seq<Meta>)
    requires a == b
    ensures TasksKept(a, b)
  {
  }

  /** The loop comes back to its top from wherever it is suspended. */
  lemma {:induction false} LoopHome(cfg: Config, s: State) returns (es: seq<Event>, t: State)
    requires cfg.Valid() && Inv(cfg, s) && !s.loop.Dead?
    ensures Moves(cfg, s, es, t, false) && Inv(cfg, t) && Kept(s, t) && t.loop.AtTop? && TasksKept(s.inflight, t.inflight)
    ensures Scheduling(s) ==> Registered(s.inflight, t.inflight, s.loop.gid)
    ensures Scheduling(s) && s.loop.Selecting? ==> Shape(cfg, s) && Steady(SelectedStep(cfg, s), t)
  {
    hide *;
    if Scheduling(s) {
      es, t := Registers(cfg, s);
    } else {
      if s.loop.AtTop? {
        es, t := [], s;
        Stay(cfg, s, false);
        KeptSelf(s);
      } else if s.loop.Emitting? {
        es, t := EmitAll(cfg, s);
      } else {
        Abandons(s);
        t := Selects(cfg, s);
        es := [ClientSelected];
      }
      SameTasks(s.inflight, t.inflight);
    }
  }

  lemma Abandons(s: State)
    requires !Scheduling(s) && !s.loop.AtTop? && !s.loop.Emitting? && !s.loop.Dead?
    ensures s.loop.Selecting? && s.loop.gid !in s.groups
  {
  }

  /** Every registered task completes and its rollouts reach the queue. */
  lemma {:induction false} FinishTasks(cfg: Config, s: State) returns (es: seq<Event>, t: State)
    requires cfg.Valid() && Inv(cfg, s) && s.loop.AtTop?
    ensures Moves(cfg, s, es, t, true) && Inv(cfg, t) && Kept(s, t) && t.loop.AtTop? && t.inflight == []
    decreases |s.inflight|
  {
    hide *;
    if s.inflight == [] {
      es, t := [], s;
      Stay(cfg, s, true);
      KeptSelf(s);
    } else {
      var e := Complete(s.inflight[0].task, Raised);
      var u := Raises(cfg, s);
      var fs, w := EmitAll(cfg, u);
      Widen(cfg, u, fs, w);
      Append(cfg, s, [e], u, fs, w, true);
      KeptTwice(s, u, w);
      es, t := FinishTasks(cfg, w);
      Append(cfg, s, [e] + fs, w, es, t, true);
      KeptTwice(s, w, t);
      es := [e] + fs + es;
    }
  }

  // ---------------------------------------------------------------- the watcher comes to rest

  lemma Watches(cfg: Config, s: State, e: Event) returns (t: State)
    requires cfg.Valid() && Inv(cfg, s) && Enabled(cfg, s, e) && OfWatcher(e)
    ensures Shape(cfg, s) && t == Step(cfg, s, e)
    ensures Moves(cfg, s, [e], t, false) && Inv(cfg, t) && Steady(s, t) && t.loop == s.loop
  {
    t := Go(cfg, s, e, false);
    WatcherSteady(cfg, s, e);
  }

  lemma Marks(cfg: Config, s: State) returns (t: State)
    requires cfg.Valid() && Inv(cfg, s) && s.watcher.DropEmitting? && s.watcher.pending.None? && s.watcher.todo != []
    ensures Moves(cfg, s, [DropEmit], t, false) && Inv(cfg, t) && Steady(s, t) && t.loop == s.loop
    ensures t.watcher.DropEmitting? && t.watcher.pending.Some? && t.watcher.todo == s.watcher.todo[1..]
    ensures t.watcher.swept == s.watcher.swept && t.watcher.stale == s.watcher.stale && t.inflight == s.inflight
  {
    t := Watches(cfg, s, DropEmit);
    hide Inv, Moves, Steady;
  }

  lemma PutsMarker(cfg: Config, s: State) returns (t: State)
    requires cfg.Valid() && Inv(cfg, s) && s.watcher.DropEmitting? && s.watcher.pending.Some? && s.queue == []
    ensures Moves(cfg, s, [DropPut], t, false) && Inv(cfg, t) && Steady(s, t) && t.loop == s.loop
    ensures t.watcher == s.watcher.(pending := None) && t.inflight == s.inflight
  {
    t := Watches(cfg, s, DropPut);
    hide Inv, Moves, Steady, Shape;
  }

  lemma Sweeps(cfg: Config, s: State) returns (t: State)
    requires cfg.Valid() && Inv(cfg, s) && s.watcher.DropEmitting? && s.watcher.pending.None? && s.watcher.todo == [] && !s.watcher.swept
    ensures Moves(cfg, s, [SweepUnscheduled], t, false) && Inv(cfg, t) && Steady(s, t) && t.loop == s.loop
    ensures t.watcher.DropEmitting? && t.watcher.swept && t.watcher.stale == s.watcher.stale && t.inflight == s.inflight
  {
    t := Watches(cfg, s, SweepUnscheduled);
    hide Inv, Moves, Steady;
  }

  lemma Finishes(cfg: Config, s: State) returns (t: State)
    requires cfg.Valid() && Inv(cfg, s) && s.watcher.DropEmitting? && s.watcher.pending.None? && s.watcher.todo == [] && s.watcher.swept
    ensures Moves(cfg, s, [DropDone], t, false) && Inv(cfg, t) && Steady(s, t) && t.loop == s.loop
    ensures t.watcher.Dropping? && t.watcher.stale == s.watcher.stale && t.inflight == s.inflight
  {
    t := Watches(cfg, s, DropDone);
    hide Inv, Moves, Steady, Shape;
  }

  lemma Drops(cfg: Config, s: State, gid: Gid) returns (t: State)
    requires cfg.Valid() && Inv(cfg, s) && s.watcher.Dropping? && gid in s.watcher.stale
    ensures Moves(cfg, s, [DropGroup(gid)], t, false) && Inv(cfg, t) && Steady(s, t) && t.loop == s.loop
    ensures t.watcher.DropEmitting? && t.watcher.stale == s.watcher.stale - {gid}
    ensures t.groups == Remove(s.groups, gid) && t.inflight == WithoutGid(s.inflight, gid)
  {
    t := Watches(cfg, s, DropGroup(gid));
    hide Inv, Moves, Steady, Shape, WithGid, WithoutGid, Owed, Load, Remove;
  }

  lemma Adopts(cfg: Config, s: State) returns (t: State)
    requires cfg.Valid() && Inv(cfg, s) && s.watcher.Dropping? && s.watcher.stale == {}
    ensures Moves(cfg, s, [Adopt], t, false) && Inv(cfg, t) && Steady(s, t) && t.loop == s.loop
    ensures t == AdoptStep(s) && t.inflight == s.inflight
  {
    t := Watches(cfg, s, Adopt);
    hide Inv, Moves, Steady, Shape;
  }

  /** A drop under way puts out its markers and goes back to the list of stale groups. */
  lemma {:induction false} DropOut(cfg: Config, s: State) returns (es: seq<Event>, t: State)
    requires cfg.Valid() && Inv(cfg, s) && s.watcher.DropEmitting?
    ensures Moves(cfg, s, es, t, false) && Inv(cfg, t) && Steady(s, t) && t.loop == s.loop
    ensures t.watcher.Dropping? && t.watcher.stale == s.watcher.stale && t.inflight == s.inflight
    decreases if s.watcher.swept then 0 else 1, |s.watcher.todo|, if s.watcher.pending.Some? then 1 else 0
  {
    hide *;
    var u, fs;
    if s.watcher.pending.Some? {
      var w;
      fs, w := ConsumeAll(cfg, s);
      KeptIs(s, w);
      u := PutsMarker(cfg, w);
      Append(cfg, s, fs, w, [DropPut], u, false);
      SteadyTwice(s, w, u);
      fs := fs + [DropPut];
      es, t := DropOut(cfg, u);
    } else if s.watcher.todo != [] {
      u := Marks(cfg, s);
      fs := [DropEmit];
      es, t := DropOut(cfg, u);
    } else if !s.watcher.swept {
      u := Sweeps(cfg, s);
      fs := [SweepUnscheduled];
      es, t := DropOut(cfg, u);
    } else {
      t := Finishes(cfg, s);
      u, fs, es := s, [], [DropDone];
      Stay(cfg, s, false);
      KeptSelf(s);
      KeptIs(s, s);
    }
    Append(cfg, s, fs, u, es, t, false);
    SteadyTwice(s, u, t);
    es := fs + es;
  }

  lemma KeptIs(s: State, t: State)
    requires Kept(s, t)
    ensures Steady(s, t) && t.watcher == s.watcher && t.gate == s.gate
  {
  }

  /** Group `g` has nothing left to schedule. */
  ghost predicate Spent(s: State, g: Gid) { g < |s.store| && Unscheduled(s.store, s.groups, g) == 0 }

  lemma SpentStays(s: State, t: State, g: Gid)
    requires Steady(s, t) && Spent(s, g)
    ensures Spent(t, g)
  {
  }

  /** A stale group is dropped; the tasks of any other stay registered. */
  ghost predicate Swept(s: State, t: State, stale: set<Gid>, g: Gid) {
    if g in stale then Spent(t, g) else forall m | m in s.inflight && m.gid == g :: m in t.inflight
  }

  lemma SweptSelf(s: State, t: State, g: Gid)
    requires t.inflight == s.inflight
    ensures Swept(s, t, {}, g)
  {
  }

  lemma {:induction false} OthersStay(ms: seq<Meta>, g: Gid)
    ensures forall m | m in ms && m.gid != g :: m in WithoutGid(ms, g)
  {
    if ms != [] { OthersStay(ms[..|ms| - 1], g); }
  }

  /** One more group is dropped before those left. */
  lemma {:induction false} SweptOne(cfg: Config, s: State, u: State, w: State, t: State, stale: set<Gid>, d: Gid, g: Gid)
    requires Shape(cfg, s) && u.groups == Remove(s.groups, d) && u.inflight == WithoutGid(s.inflight, d) && Steady(s, u) && d < |s.store|
    requires Steady(u, w) && w.inflight == u.inflight && Steady(w, t)
    requires Swept(w, t, stale - {d}, g) && d in stale
    ensures Swept(s, t, stale, g)
  {
    OthersStay(s.inflight, d);
    DroppedSpent(cfg, s, u, d);
    SteadyTwice(u, w, t);
    SpentStays(u, t, d);
    hide Steady, Spent, Shape, Remove, WithoutGid;
    if g !in stale {
      forall m | m in s.inflight && m.gid == g ensures m in t.inflight { assert m in w.inflight; }
    }
  }

  lemma {:induction false} DroppedSpent(cfg: Config, s: State, u: State, d: Gid)
    requires Shape(cfg, s) && u.groups == Remove(s.groups, d) && Steady(s, u) && d < |s.store|
    ensures Spent(u, d)
  {
    assert GidsDistinct(s.groups);
    RemoveSpec(s.groups, d);
  }

  lemma StaleIn(cfg: Config, s: State, d: Gid)
    requires Shape(cfg, s) && !s.watcher.Quiet? && d in s.watcher.stale
    ensures d < |s.store|
  {
  }

  /** The watcher drops every stale group and adopts the version it was told of. */
  lemma {:induction false} DropAll(cfg: Config, s: State, g: Gid) returns (es: seq<Event>, t: State)
    requires cfg.Valid() && Inv(cfg, s) && s.watcher.Dropping?
    ensures Moves(cfg, s, es, t, false) && Inv(cfg, t) && Steady(s, t) && t.loop == s.loop && t.watcher.Quiet?
    ensures Swept(s, t, s.watcher.stale, g)
    decreases |s.watcher.stale|
  {
    hide *;
    var stale := s.watcher.stale;
    if stale == {} {
      t := Adopts(cfg, s);
      es := [Adopt];
      AdoptQuiets(s);
      SweptSelf(s, t, g);
    } else {
      var d :| d in stale;
      InvShape(cfg, s);
      StaleIn(cfg, s, d);
      var u := Drops(cfg, s, d);
      var fs, w := DropOut(cfg, u);
      Append(cfg, s, [DropGroup(d)], u, fs, w, false);
      es, t := DropAll(cfg, w, g);
      Append(cfg, s, [DropGroup(d)] + fs, w, es, t, false);
      SweptOne(cfg, s, u, w, t, stale, d, g);
      SteadyTwice(s, u, w);
      SteadyTwice(s, w, t);
      es := [DropGroup(d)] + fs + es;
    }
  }

  lemma AdoptQuiets(s: State)
    requires s.watcher.Dropping?
    ensures AdoptStep(s).watcher.Quiet?
  {
  }

  /** The watcher comes to rest from wherever it is suspended; whatever was stale has been dropped. */
  lemma {:induction false} WatcherHome(cfg: Config, s: State, g: Gid) returns (es: seq<Event>, t: State)
    requires cfg.Valid() && Inv(cfg, s)
    ensures Moves(cfg, s, es, t, false) && Inv(cfg, t) && Steady(s, t) && t.loop == s.loop && t.watcher.Quiet?
    ensures Swept(s, t, if s.watcher.Quiet? then {} else s.watcher.stale, g)
  {
    hide *;
    if s.watcher.Quiet? {
      es, t := [], s;
      Stay(cfg, s, false);
      KeptSelf(s);
      KeptIs(s, s);
      SweptSelf(s, s, g);
    } else if s.watcher.Dropping? {
      es, t := DropAll(cfg, s, g);
    } else {
      var fs, u := DropOut(cfg, s);
      es, t := DropAll(cfg, u, g);
      Append(cfg, s, fs, u, es, t, false);
      SteadyTwice(s, u, t);
      SweptFrom(s, u, t, u.watcher.stale, g);
      es := fs + es;
    }
  }

  lemma SweptFrom(s: State, u: State, t: State, stale: set<Gid>, g: Gid)
    requires u.inflight == s.inflight && Swept(u, t, stale, g)
    ensures Swept(s, t, stale, g)
  {
  }
}
