/** What single events of the dispatcher do to whom, stated on the state before and after, and carried to runs:
    who ages, who is dropped, what a drain cuts, what a group captures, and where version and step come from. */
module DispatchExact {
  import opened Common
  import opened Dispatch
  import opened DispatchInvariant
  import opened DispatchRuns
  import opened DispatchVerdicts

  // ---------------------------------------------------------------- ageing

  /** A registered train task of an environment sampled from the live policy. */
  ghost predicate LiveTask(cfg: Config, m: Meta) { m.kind.Train? && m.env in cfg.train && cfg.train[m.env].live }

  /** An announced version ages exactly the live train tasks, by one, and dooms exactly the groups one of whose
      tasks is then past the limit. */
  lemma {:induction false} PendingExact(cfg: Config, s: State, next: int)
    requires cfg.Valid() && Shape(cfg, s) && Enabled(cfg, s, VersionPending(next))
    ensures var t := Step(cfg, s, VersionPending(next));
            && t.watcher.Dropping? && t.watcher.next == next
            && (forall g: Gid :: g in t.watcher.stale <==>
                  exists i :: 0 <= i < |s.inflight| && s.inflight[i].gid == g && LiveTask(cfg, s.inflight[i])
                              && s.inflight[i].offPolicy + 1 > cfg.maxOffPolicy)
            && |t.inflight| == |s.inflight|
            && forall i | 0 <= i < |s.inflight| ::
                 t.inflight[i] == if LiveTask(cfg, s.inflight[i]) then s.inflight[i].(offPolicy := s.inflight[i].offPolicy + 1)
                                  else s.inflight[i]
  {
    var t := Step(cfg, s, VersionPending(next));
    var aged := AgedAll(cfg, s.inflight);
    hide Shape, AgedAll;
    forall g: Gid
      ensures g in t.watcher.stale <==>
              exists i :: 0 <= i < |s.inflight| && s.inflight[i].gid == g && LiveTask(cfg, s.inflight[i])
                          && s.inflight[i].offPolicy + 1 > cfg.maxOffPolicy
    {
      if g in t.watcher.stale {
        var m :| m in aged && Ages(cfg, m) && m.offPolicy > cfg.maxOffPolicy && m.gid == g;
        var i :| 0 <= i < |aged| && aged[i] == m;
        assert LiveTask(cfg, s.inflight[i]);
      }
      if i :| 0 <= i < |s.inflight| && s.inflight[i].gid == g && LiveTask(cfg, s.inflight[i]) && s.inflight[i].offPolicy + 1 > cfg.maxOffPolicy {
        assert aged[i] in aged;
      }
    }
  }

  // ---------------------------------------------------------------- draining

  lemma {:induction false} KindPicks(ms: seq<Meta>, kind: Kind) returns (at: seq<nat>)
    ensures Picks(ms, at, OfKind(ms, kind)) && forall i: nat | i < |ms| :: i in at <==> ms[i].kind == kind
  {
    if ms == [] {
      at := [];
    } else {
      var n := |ms| - 1;
      at := KindPicks(ms[..n], kind);
      PicksNext(ms[..n], at, OfKind(ms[..n], kind), ms[n]);
      assert ms == ms[..n] + [ms[n]];
      if ms[n].kind == kind { at := at + [n]; } else { assert OfKind(ms, kind) == OfKind(ms[..n], kind); }
    }
  }

  /** The group has a registered train task. */
  ghost predicate TrainsIn(ms: seq<Meta>, g: Gid) { exists i :: 0 <= i < |ms| && ms[i].kind.Train? && ms[i].gid == g }

  /** `kept` is the eval tasks of a list, in order. */
  ghost predicate EvalOnly(ms: seq<Meta>, kept: seq<Meta>) {
    exists at: seq<nat> :: Picks(ms, at, kept) && forall i: nat | i < |ms| :: i in at <==> ms[i].kind.Eval?
  }

  /** A drain disables train scheduling, keeps exactly the eval tasks, in order, and takes exactly the groups with a
      registered train task off the dictionary; the permits left are those of the eval tasks and of a suspended scheduler. */
  lemma {:induction false} DrainExact(cfg: Config, s: State)
    requires cfg.Valid() && Inv(cfg, s) && Shape(cfg, s)
    ensures var t := Step(cfg, s, DrainTraining);
            && t.trainDisabled && EvalOnly(s.inflight, t.inflight)
            && (forall g: Gid :: g in t.groups <==> g in s.groups && !TrainsIn(s.inflight, g))
            && t.permits == Load(t.inflight) + (if s.loop.Acquiring? then s.loop.taken else 0)
  {
    hide *;
    DrainCases(cfg, s);
    EvalKept(s.inflight);
    KindSplits(s.inflight, 0);
    RemoveAllSpec(s.groups, GidsOf(OfKind(s.inflight, Train)));
    forall g: Gid ensures g in GidsOf(OfKind(s.inflight, Train)) <==> TrainsIn(s.inflight, g) { CutGroups(s.inflight, g); }
  }

  lemma {:induction false} DrainCases(cfg: Config, s: State)
    requires cfg.Valid() && Inv(cfg, s) && Shape(cfg, s)
    ensures GidsDistinct(s.groups) && s.permits == Load(s.inflight) + (if s.loop.Acquiring? then s.loop.taken else 0)
    ensures var t := Step(cfg, s, DrainTraining);
            && t.trainDisabled && t.inflight == OfKind(s.inflight, Eval) && t.groups == RemoveAll(s.groups, GidsOf(OfKind(s.inflight, Train)))
            && t.permits == s.permits - Load(OfKind(s.inflight, Train))
  {
    assert Permits(cfg, s.permits, s.inflight, s.loop, s.store) && GidsDistinct(s.groups);
    hide Inv, Shape, OfKind, RemoveAll, GidsOf, Load, LoadOf;
  }

  lemma {:induction false} EvalKept(ms: seq<Meta>)
    ensures EvalOnly(ms, OfKind(ms, Eval))
  {
    var at := KindPicks(ms, Eval);
    hide OfKind, Picks;
  }

  lemma {:induction false} CutGroups(ms: seq<Meta>, g: Gid)
    ensures g in GidsOf(OfKind(ms, Train)) <==> TrainsIn(ms, g)
  {
    var cut := OfKind(ms, Train);
    var at := KindPicks(ms, Train);
    hide OfKind;
    if g in GidsOf(cut) {
      var m :| m in cut && m.gid == g;
      var k :| 0 <= k < |cut| && cut[k] == m;
      assert at[k] in at;
    }
    if i :| 0 <= i < |ms| && ms[i].kind.Train? && ms[i].gid == g {
      assert i in at;
      var k :| 0 <= k < |at| && at[k] == i;
      assert cut[k] in cut;
    }
  }

  // ---------------------------------------------------------------- what a group captures

  /** A turn of the fill loop opened the group: it captured the policy version and step of that moment, its
      environment's group size and, if it is a train group, the environment drawn, else the head of the eval queue; train groups open only when training is
      preferred, allowed and not disabled, eval groups only when eval is preferred. */
  ghost predicate OpenedBy(cfg: Config, s: State, e: Event, g: Group) {
    && e.Fill? && g.version == s.version && g.openStep == s.step
    && g.env in cfg.Envs(g.kind) && g.target == cfg.Envs(g.kind)[g.env].groupSize
    && if g.kind.Train? then g.env == e.pick && g.evalStep.None? && s.mode.PreferTrain? && s.gate && !s.trainDisabled
       else s.mode.PreferEval? && s.evalQueue != [] && g.env == s.evalQueue[0].env && g.evalStep == Some(s.evalQueue[0].evalStep)
  }

  /** At most one group is opened. */
  ghost predicate Opens(cfg: Config, s: State, e: Event, t: State) {
    |t.store| == |s.store| || (|t.store| == |s.store| + 1 && OpenedBy(cfg, s, e, t.store[|s.store|]))
  }

  lemma BeginOpens(cfg: Config, s: State, gid: Gid)
    requires gid < |s.store| && s.store[gid].env in cfg.Envs(s.store[gid].kind) && 0 < s.store[gid].toSchedule
    ensures var t := BeginSchedule(cfg, s, gid);
            |t.store| == |s.store| && forall h | 0 <= h < |s.store| ::
              t.store[h].kind == s.store[h].kind && t.store[h].env == s.store[h].env && t.store[h].version == s.store[h].version
              && t.store[h].openStep == s.store[h].openStep && t.store[h].target == s.store[h].target && t.store[h].evalStep == s.store[h].evalStep
  {
  }

  lemma FillOpens(cfg: Config, s: State, pick: Env)
    requires cfg.Valid() && Shape(cfg, s) && pick in cfg.train
    ensures Opens(cfg, s, Fill(pick), FillStep(cfg, s, pick))
  {
    var kind := if s.mode.PreferEval? then Eval else Train;
    var i := FirstEligible(cfg, s, kind, 0);
    if i < |s.groups| {
      BeginOpens(cfg, s, s.groups[i]);
    } else if kind.Train? {
      BeginOpens(cfg, OpenGroup(cfg, s, Train, pick, None), |s.store|);
    } else if s.evalQueue != [] {
      var head := s.evalQueue[0];
      BeginOpens(cfg, OpenGroup(cfg, s.(evalQueue := s.evalQueue[1..]), Eval, head.env, Some(head.evalStep)), |s.store|);
    }
    hide BeginSchedule, FirstEligible, EvalHasWork, Shape;
  }

  lemma StepOpens(cfg: Config, s: State, e: Event)
    requires cfg.Valid() && Shape(cfg, s) && Enabled(cfg, s, e)
    ensures Opens(cfg, s, e, Step(cfg, s, e))
  {
    if e.Fill? {
      FillOpens(cfg, s, e.pick);
      hide Opens, FillStep, Shape;
    } else {
      hide IndexOf, Flags, Cost, Remove, RemoveAll, WithGid, WithoutGid, Owed, Load, LoadOf, OfKind, GidsOf, AgedAll, StaleGids, Stamp;
    }
  }

  /** Every group was opened by some turn of the fill loop, and to the end it carries what it captured there. */
  lemma {:induction false} CapturedAtOpen(cfg: Config, s: State, es: seq<Event>, g: Gid) returns (k: nat)
    requires cfg.Valid() && Runs(cfg, s, es) && |s.store| <= g < |Run(cfg, s, es).store|
    ensures k < |es| && Runs(cfg, s, es[..k]) && |Run(cfg, s, es[..k]).store| == g
    ensures OpenedBy(cfg, Run(cfg, s, es[..k]), es[k], Run(cfg, s, es).store[g])
    decreases |es|
  {
    hide Shape, Step, Enabled, OpenedBy;
    var t := Step(cfg, s, es[0]);
    StepOpens(cfg, s, es[0]);
    if g < |t.store| {
      k := 0;
      assert es[..0] == [];
      CapturedForever(cfg, t, es[1..]);
      OpenedSame(cfg, s, es[0], t.store[g], Run(cfg, s, es).store[g]);
    } else {
      var j := CapturedAtOpen(cfg, t, es[1..], g);
      k := j + 1;
      assert es[..k][0] == es[0] && es[..k][1..] == es[1..][..j];
    }
  }

  lemma OpenedSame(cfg: Config, s: State, e: Event, a: Group, b: Group)
    requires OpenedBy(cfg, s, e, a) && a.target == b.target && a.kind == b.kind && a.env == b.env && a.version == b.version && a.openStep == b.openStep && a.evalStep == b.evalStep
    ensures OpenedBy(cfg, s, e, b)
  {
  }

  // ---------------------------------------------------------------- version and step

  /** The policy version after a run: each adoption takes the version announced last. */
  function VersionFrom(version: int, announced: int, es: seq<Event>): int
    decreases |es|
  {
    if es == [] then version
    else if es[0].VersionPending? then VersionFrom(version, es[0].next, es[1..])
    else if es[0].Adopt? then VersionFrom(announced, announced, es[1..])
    else VersionFrom(version, announced, es[1..])
  }

  function Shipments(es: seq<Event>): nat { if es == [] then 0 else (if es[0].Ship? then 1 else 0) + Shipments(es[1..]) }

  /** The watcher at work holds the version announced last. */
  ghost predicate Holds(w: Watcher, announced: int) { !w.Quiet? ==> w.next == announced }

  lemma StepVersion(cfg: Config, s: State, e: Event, announced: int)
    requires cfg.Valid() && Shape(cfg, s) && Enabled(cfg, s, e) && Holds(s.watcher, announced)
    ensures var t := Step(cfg, s, e);
            && Holds(t.watcher, if e.VersionPending? then e.next else announced)
            && t.version == (if e.Adopt? then announced else s.version)
            && t.step == s.step + (if e.Ship? then 1 else 0)
  {
    StepFrame(cfg, s, e);
    if e.Fill? { FillSuccesses(cfg, s, e.pick); }
    hide Shape, SameIds, SameLost, FillStep, IndexOf, Flags, Cost, Remove, RemoveAll, WithGid, WithoutGid, Owed, Load, LoadOf, OfKind, GidsOf, AgedAll, StaleGids, Stamp;
  }

  /** Over every run the policy version is the one last announced before the last adoption, and the step counts the
      shipments. */
  lemma {:induction false} VersionExact(cfg: Config, s: State, es: seq<Event>, announced: int)
    requires cfg.Valid() && Runs(cfg, s, es) && Holds(s.watcher, announced)
    ensures Run(cfg, s, es).version == VersionFrom(s.version, announced, es)
    ensures Run(cfg, s, es).step == s.step + Shipments(es)
    decreases |es|
  {
    hide Shape, Step, Enabled, Holds;
    if es != [] {
      StepVersion(cfg, s, es[0], announced);
      VersionExact(cfg, Step(cfg, s, es[0]), es[1..], if es[0].VersionPending? then es[0].next else announced);
    }
  }
}
