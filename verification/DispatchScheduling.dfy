/** Which group a turn of the fill loop works on and how much of it one task takes, stated on the state alone. */
module DispatchScheduling {
  import opened Common
  import opened Dispatch
  import opened DispatchInvariant
  import opened DispatchRuns
  import opened DispatchAges

  // ---------------------------------------------------------------- who is served

  /** A live group of the kind with rollouts left, whose next task fits: all of them when it is scored as a group,
      else one. */
  ghost predicate CanContinue(cfg: Config, s: State, kind: Kind, g: Gid) {
    && g < |s.store| && s.store[g].kind == kind && s.store[g].toSchedule > 0 && s.store[g].env in cfg.Envs(kind)
    && s.permits + (if cfg.Envs(kind)[s.store[g].env].groupScoring then s.store[g].toSchedule else 1) <= cfg.maxInflight
  }

  /** The first live group, in the order they opened, that can continue. */
  ghost predicate Next(cfg: Config, s: State, kind: Kind, g: Gid) {
    exists i :: 0 <= i < |s.groups| && s.groups[i] == g && CanContinue(cfg, s, kind, g)
                && forall j | 0 <= j < i :: !CanContinue(cfg, s, kind, s.groups[j])
  }

  /** The first task of a fresh group fits: of the environment drawn, or of the eval queue's head. */
  ghost predicate CanOpen(cfg: Config, s: State, kind: Kind, pick: Env) {
    if kind.Train? then pick in cfg.train && Fits(cfg, s, cfg.train[pick])
    else s.evalQueue != [] && s.evalQueue[0].env in cfg.eval && Fits(cfg, s, cfg.eval[s.evalQueue[0].env])
  }

  ghost predicate Fits(cfg: Config, s: State, spec: EnvSpec) {
    s.permits + (if spec.groupScoring then spec.groupSize else 1) <= cfg.maxInflight
  }

  ghost predicate EvalWork(s: State) {
    s.evalQueue != [] || exists i :: 0 <= i < |s.groups| && s.groups[i] < |s.store| && s.store[s.groups[i]].kind.Eval? && s.store[s.groups[i]].toSchedule > 0
  }

  /** With a permit free: eval while it is preferred and has work, train behind an open gate until disabled. */
  ghost predicate MayServe(cfg: Config, s: State, kind: Kind) {
    && s.permits < cfg.maxInflight
    && if kind.Eval? then s.mode.PreferEval? && EvalWork(s) else s.mode.PreferTrain? && s.gate && !s.trainDisabled
  }

  /** The loop has taken up the group. */
  ghost predicate Serves(loop: Loop, g: Gid) { (loop.Selecting? && loop.gid == g) || (loop.Acquiring? && loop.gid == g) }

  /** The next task of group `g` in one piece: all rollouts left when it is scored as a group, else one, out of the
      group before any permit is taken. */
  ghost predicate Takes(cfg: Config, s: State, t: State, g: Gid) {
    && g < |s.store| && s.store[g].env in cfg.Envs(s.store[g].kind) && |t.store| == |s.store|
    && var need := if cfg.Envs(s.store[g].kind)[s.store[g].env].groupScoring then s.store[g].toSchedule else 1;
       && t.loop == Acquiring(g, need, 0) && need >= 1
       && t.store[g] == s.store[g].(toSchedule := t.store[g].toSchedule, pinned := true) && t.store[g].toSchedule + need == s.store[g].toSchedule
       && forall h | 0 <= h < |s.store| && h != g :: t.store[h] == s.store[h]
  }

  /** An existing group is taken up: straight into its next task when it has its client, else for client selection. */
  ghost predicate Continued(cfg: Config, s: State, t: State, g: Gid) {
    g < |s.store| && if s.store[g].pinned then Takes(cfg, s, t, g) else t.loop == Selecting(g) && t.store == s.store
  }

  /** A fresh group is taken up for client selection, last in the dictionary, whole. */
  ghost predicate Opened(cfg: Config, s: State, t: State, kind: Kind, pick: Env) {
    && t.loop == Selecting(|s.store|) && |t.store| == |s.store| + 1 && t.store[..|s.store|] == s.store && t.groups == s.groups + [|s.store|]
    && var g := t.store[|s.store|];
       && g.kind == kind && g.version == s.version && g.openStep == s.step && !g.pinned && g.emitted == 0 && g.toSchedule == g.target
       && if kind.Train? then pick in cfg.train && g.env == pick && g.evalStep.None? && g.target == cfg.train[pick].groupSize && t.evalQueue == s.evalQueue
          else s.evalQueue != [] && g.env == s.evalQueue[0].env && g.env in cfg.eval && g.target == cfg.eval[g.env].groupSize
               && g.evalStep == Some(s.evalQueue[0].evalStep) && t.evalQueue == s.evalQueue[1..]
  }

  lemma EligibleIff(cfg: Config, s: State, kind: Kind)
    requires Shape(cfg, s)
    ensures forall i | 0 <= i < |s.groups| :: Eligible(cfg, s, kind, i) <==> CanContinue(cfg, s, kind, s.groups[i])
  {
  }

  lemma {:induction false} FirstIsNext(cfg: Config, s: State, kind: Kind)
    requires Shape(cfg, s)
    ensures var i := FirstEligible(cfg, s, kind, 0);
            if i < |s.groups| then Next(cfg, s, kind, s.groups[i]) && forall g | Next(cfg, s, kind, g) :: g == s.groups[i]
            else forall g :: !Next(cfg, s, kind, g)
  {
    EligibleIff(cfg, s, kind);
    hide Shape, Eligible, CanContinue;
  }

  lemma WorkIff(cfg: Config, s: State)
    requires Shape(cfg, s)
    ensures EvalHasWork(s) <==> EvalWork(s)
  {
  }

  lemma BeginContinues(cfg: Config, s: State, g: Gid)
    requires g < |s.store| && s.store[g].env in cfg.Envs(s.store[g].kind) && 0 < s.store[g].toSchedule
    ensures var t := BeginSchedule(cfg, s, g); Continued(cfg, s, t, g) && t == s.(loop := t.loop, store := t.store)
  {
  }

  lemma OpensFresh(cfg: Config, s: State, kind: Kind, pick: Env)
    requires cfg.Valid() && CanOpen(cfg, s, kind, pick)
    ensures var head := if kind.Train? then pick else s.evalQueue[0].env;
            var u := if kind.Train? then s else s.(evalQueue := s.evalQueue[1..]);
            var o := OpenGroup(cfg, u, kind, head, if kind.Train? then None else Some(s.evalQueue[0].evalStep));
            && |s.store| < |o.store| && o.store[|s.store|].env in cfg.Envs(kind) && o.store[|s.store|].kind == kind && 0 < o.store[|s.store|].toSchedule
            && var t := BeginSchedule(cfg, o, |s.store|);
               Opened(cfg, s, t, kind, pick) && t == s.(loop := t.loop, store := t.store, groups := t.groups, evalQueue := t.evalQueue, lost := t.lost)
  {
    hide Fits;
  }

  /** What a turn does when it may serve the kind: the first live group that can continue is taken up; only when none
      can is a fresh one opened, if it fits. */
  ghost predicate Served(cfg: Config, s: State, t: State, kind: Kind, pick: Env) {
    && t == s.(loop := t.loop, store := t.store, groups := t.groups, evalQueue := t.evalQueue, lost := t.lost)
    && (forall g | Next(cfg, s, kind, g) :: Continued(cfg, s, t, g) && t.groups == s.groups && t.evalQueue == s.evalQueue)
    && ((forall g :: !Next(cfg, s, kind, g)) ==> if CanOpen(cfg, s, kind, pick) then Opened(cfg, s, t, kind, pick) else t == s)
  }

  /** One turn of the fill loop; when it may serve nothing, only the mode can change: back to train, exactly when a
      permit is free and no eval work is left. */
  ghost predicate Turn(cfg: Config, s: State, t: State, pick: Env) {
    var kind := if s.mode.PreferEval? then Eval else Train;
    if MayServe(cfg, s, kind) then Served(cfg, s, t, kind, pick)
    else t == s.(mode := if s.mode.PreferEval? && s.permits < cfg.maxInflight && !EvalWork(s) then PreferTrain else s.mode)
  }

  lemma {:induction false} TryTurns(cfg: Config, s: State, kind: Kind, pick: Env)
    requires cfg.Valid() && Shape(cfg, s) && pick in cfg.train && MayServe(cfg, s, kind)
    ensures Served(cfg, s, TrySchedule(cfg, s, kind, pick), kind, pick)
  {
    FirstIsNext(cfg, s, kind);
    var i := FirstEligible(cfg, s, kind, 0);
    if i < |s.groups| {
      BeginContinues(cfg, s, s.groups[i]);
    } else if CanOpen(cfg, s, kind, pick) {
      OpensFresh(cfg, s, kind, pick);
    }
    hide FirstEligible, BeginSchedule, OpenGroup, Next, Continued, Opened, EvalWork;
  }

  lemma {:induction false} FillExact(cfg: Config, s: State, pick: Env)
    requires cfg.Valid() && Shape(cfg, s) && Enabled(cfg, s, Fill(pick))
    ensures Turn(cfg, s, Step(cfg, s, Fill(pick)), pick)
  {
    FillCases(cfg, s, pick);
    hide MayServe, EvalWork, Served, TrySchedule, Step, Shape;
    var kind := if s.mode.PreferEval? then Eval else Train;
    if MayServe(cfg, s, kind) {
      TryTurns(cfg, s, kind, pick);
    }
  }

  /** A turn tries to schedule exactly when it may serve the preferred kind. */
  lemma FillCases(cfg: Config, s: State, pick: Env)
    requires cfg.Valid() && Shape(cfg, s) && Enabled(cfg, s, Fill(pick))
    ensures var (t, kind) := (Step(cfg, s, Fill(pick)), if s.mode.PreferEval? then Eval else Train);
            if MayServe(cfg, s, kind) then t == TrySchedule(cfg, s, kind, pick) && !(s.mode.PreferEval? && !EvalWork(s))
            else t == s.(mode := if s.mode.PreferEval? && s.permits < cfg.maxInflight && !EvalWork(s) then PreferTrain else s.mode)
  {
    WorkIff(cfg, s);
    if s.trainDisabled { DisabledStays(cfg, s, pick); }
    hide TrySchedule, EvalHasWork, EvalWork, Shape;
  }

  lemma DisabledStays(cfg: Config, s: State, pick: Env)
    requires cfg.Valid() && Shape(cfg, s) && pick in cfg.train && s.trainDisabled
    ensures TrySchedule(cfg, s, Train, pick) == s
  {
  }

  // ---------------------------------------------------------------- client selection

  /** When selection returns, a group dropped meanwhile is left alone; any other keeps its client and its next task
      is taken. */
  lemma SelectedExact(cfg: Config, s: State)
    requires cfg.Valid() && Shape(cfg, s) && Enabled(cfg, s, ClientSelected)
    ensures var (g, t) := (s.loop.gid, Step(cfg, s, ClientSelected));
            if g in s.groups then Takes(cfg, s, t, g) && t.groups == s.groups else t == s.(loop := AtTop)
  {
  }

  /** The event selects a client for a live group. */
  ghost predicate Selects(s: State, e: Event, g: Gid) { e.ClientSelected? && s.loop.Selecting? && s.loop.gid == g && g in s.groups }

  ghost function Selections(cfg: Config, s: State, es: seq<Event>, g: Gid): nat
    requires cfg.Valid() && Runs(cfg, s, es)
    decreases |es|
  {
    if es == [] then 0 else (if Selects(s, es[0], g) then 1 else 0) + Selections(cfg, Step(cfg, s, es[0]), es[1..], g)
  }

  ghost predicate Pinned(s: State, g: Gid) { g < |s.store| && s.store[g].pinned }

  /** Only groups without a client wait for one, and only groups with one have anything scheduled. */
  ghost predicate Waiting(s: State) {
    && (s.loop.Selecting? ==> !Pinned(s, s.loop.gid))
    && (s.loop.Acquiring? ==> Pinned(s, s.loop.gid))
    && (forall m | m in s.inflight :: Pinned(s, m.gid))
  }

  /** Who has a client after an event. */
  ghost predicate PinsAfter(s: State, e: Event, t: State) {
    (forall g: Gid :: Pinned(t, g) <==> Pinned(s, g) || Selects(s, e, g)) && Waiting(t)
  }

  lemma FillPins(cfg: Config, s: State, pick: Env)
    requires cfg.Valid() && Shape(cfg, s) && Enabled(cfg, s, Fill(pick)) && Waiting(s)
    ensures PinsAfter(s, Fill(pick), Step(cfg, s, Fill(pick)))
  {
    FillStores(cfg, s, pick);
    hide Shape, Step, Enabled;
  }

  lemma FillStores(cfg: Config, s: State, pick: Env)
    requires cfg.Valid() && Shape(cfg, s) && Enabled(cfg, s, Fill(pick))
    ensures var t := Step(cfg, s, Fill(pick));
            && t.inflight == s.inflight && (forall g: Gid :: Pinned(t, g) <==> Pinned(s, g))
            && (t.loop.AtTop? || (t.loop.Selecting? && !Pinned(t, t.loop.gid)) || (t.loop.Acquiring? && Pinned(t, t.loop.gid)))
  {
    FillExact(cfg, s, pick);
    TurnStores(cfg, s, Step(cfg, s, Fill(pick)), pick);
    hide Step, Shape, Turn;
  }

  lemma TurnStores(cfg: Config, s: State, t: State, pick: Env)
    requires Turn(cfg, s, t, pick) && s.loop.AtTop?
    ensures t.inflight == s.inflight && (forall g: Gid :: Pinned(t, g) <==> Pinned(s, g))
    ensures t.loop.AtTop? || (t.loop.Selecting? && !Pinned(t, t.loop.gid)) || (t.loop.Acquiring? && Pinned(t, t.loop.gid))
  {
    var kind := if s.mode.PreferEval? then Eval else Train;
    hide Next, CanOpen, MayServe, EvalWork;
    if MayServe(cfg, s, kind) {
      if g :| Next(cfg, s, kind, g) { assert Continued(cfg, s, t, g); }
    }
  }

  lemma SelectedPins(cfg: Config, s: State)
    requires cfg.Valid() && Shape(cfg, s) && Enabled(cfg, s, ClientSelected) && Waiting(s)
    ensures PinsAfter(s, ClientSelected, Step(cfg, s, ClientSelected))
  {
    var g, t := s.loop.gid, Step(cfg, s, ClientSelected);
    SelectedExact(cfg, s);
    if g in s.groups { assert t.inflight == s.inflight; }
    hide Shape, Enabled;
  }

  lemma MarkPins(s: State, gid: Gid, attached: bool)
    requires gid < |s.store|
    ensures var t := MarkEmitted(s, gid, attached); (forall g: Gid :: Pinned(t, g) <==> Pinned(s, g)) && t.loop == s.loop
  {
    hide Remove;
  }

  /** Events that touch no client flag. */
  lemma CalmFlags(cfg: Config, s: State, e: Event)
    requires cfg.Valid() && Shape(cfg, s) && Enabled(cfg, s, e) && !e.Fill? && !e.ClientSelected?
    ensures var t := Step(cfg, s, e);
            && (forall g: Gid :: Pinned(t, g) <==> Pinned(s, g))
            && (t.loop.Selecting? ==> s.loop == t.loop) && (t.loop.Acquiring? ==> s.loop.Acquiring? && s.loop.gid == t.loop.gid)
  {
    hide MarkEmitted, CompleteStep, LimiterStep, Pinned, Remove, RemoveAll, WithGid, WithoutGid, Owed, Load, LoadOf, OfKind, GidsOf, AgedAll, StaleGids, Stamp;
    if e.LoopEmit? {
      MarkPins(s, s.loop.meta.gid, s.loop.attached);
      StorePins(MarkEmitted(s, s.loop.meta.gid, s.loop.attached), Step(cfg, s, e));
    } else if e.DropEmit? {
      MarkPins(s, s.watcher.gid, s.watcher.attached);
      StorePins(MarkEmitted(s, s.watcher.gid, s.watcher.attached), Step(cfg, s, e));
    } else {
      if e.Complete? { CompletePins(s, e.task, e.outcome); }
      if e.LimiterPassed? { LimiterPins(s); }
      StorePins(s, Step(cfg, s, e));
    }
  }

  lemma StorePins(s: State, t: State)
    requires t.store == s.store
    ensures forall g: Gid :: Pinned(t, g) <==> Pinned(s, g)
  {
  }

  lemma CompletePins(s: State, task: nat, outcome: Outcome)
    requires |s.lost| == |s.store| && (forall i | 0 <= i < |s.inflight| :: s.inflight[i].gid < |s.store|) && s.loop.AtTop?
    ensures var t := CompleteStep(s, task, outcome); t.store == s.store && !t.loop.Selecting? && !t.loop.Acquiring?
  {
    hide IndexOf, Flags, Without;
  }

  lemma LimiterPins(s: State)
    requires s.loop.Acquiring? && s.loop.gid < |s.store|
    ensures var t := LimiterStep(s); t.store == s.store && (t.loop.AtTop? || (t.loop.Acquiring? && t.loop.gid == s.loop.gid))
  {
  }

  /** Tasks of groups without a client never appear. */
  lemma CalmTasks(cfg: Config, s: State, e: Event, m: Meta)
    requires cfg.Valid() && Shape(cfg, s) && Enabled(cfg, s, e) && m in Step(cfg, s, e).inflight
    ensures (exists a :: a in s.inflight && a.gid == m.gid) || (s.loop.Acquiring? && s.loop.gid == m.gid)
  {
    StepStays(cfg, s, e, m);
    hide Shape, Enabled, Step;
  }

  lemma CalmPins(cfg: Config, s: State, e: Event)
    requires cfg.Valid() && Shape(cfg, s) && Enabled(cfg, s, e) && Waiting(s) && !e.Fill? && !e.ClientSelected?
    ensures PinsAfter(s, e, Step(cfg, s, e))
  {
    hide Shape, Enabled, Step, Pinned;
    CalmFlags(cfg, s, e);
    forall m | m in Step(cfg, s, e).inflight ensures Pinned(s, m.gid) { CalmTasks(cfg, s, e, m); }
  }

  lemma {:induction false} StepPins(cfg: Config, s: State, e: Event)
    requires cfg.Valid() && Shape(cfg, s) && Enabled(cfg, s, e) && Waiting(s)
    ensures PinsAfter(s, e, Step(cfg, s, e))
  {
    hide *;
    if e.Fill? { FillPins(cfg, s, e.pick); }
    else if e.ClientSelected? { SelectedPins(cfg, s); }
    else { CalmPins(cfg, s, e); }
  }

  /** The client of a group is selected at most once in a run, exactly once if it ended up with one, and nothing of a
      group is under way without one. */
  lemma {:induction false} OneClient(cfg: Config, s: State, es: seq<Event>, g: Gid)
    requires cfg.Valid() && Runs(cfg, s, es) && Waiting(s)
    ensures Waiting(Run(cfg, s, es))
    ensures Selections(cfg, s, es, g) == if Pinned(Run(cfg, s, es), g) && !Pinned(s, g) then 1 else 0
    ensures Pinned(s, g) ==> Pinned(Run(cfg, s, es), g)
    decreases |es|
  {
    hide Shape, Step, Enabled;
    if es != [] {
      StepPins(cfg, s, es[0]);
      OneClient(cfg, Step(cfg, s, es[0]), es[1..], g);
      if Selects(s, es[0], g) { assert !Pinned(s, g); }
    }
  }
}
