/** Success and failure: which emitted rollouts carry a failure verdict, over every run. */
module DispatchVerdicts {
  import opened Common
  import opened Dispatch
  import opened DispatchInvariant
  import opened DispatchRuns

  /** A returned rollout counts as a success when it has no error and took at least one turn. */
  ghost predicate Clean(t: Trace) { !t.hasError && t.turns > 0 }

  // ---------------------------------------------------------------- one completion

  /** The emitting loop holds a verdict for each rollout of task `m`: of a finished one, failed unless the returned
      rollout is clean, in order; of one that raised, failed throughout. */
  ghost predicate Holds(loop: Loop, m: Meta, outcome: Outcome) {
    && loop.Emitting? && loop.meta == m && loop.pending.None? && |loop.todo| == m.count
    && (outcome.Finished? ==> |outcome.results| == m.count && forall j | 0 <= j < m.count :: loop.todo[j] <==> !Clean(outcome.results[j]))
    && (outcome.Raised? ==> forall j | 0 <= j < m.count :: loop.todo[j])
  }

  /** What the event asks of a registered task, and that it completes it. */
  lemma {:induction false} CompletesTask(cfg: Config, s: State, task: nat, outcome: Outcome)
    requires cfg.Valid() && Inv(cfg, s) && Shape(cfg, s) && Enabled(cfg, s, Complete(task, outcome)) && IndexOf(s.inflight, task) < |s.inflight|
    ensures |s.lost| == |s.store| && (forall i | 0 <= i < |s.inflight| :: s.inflight[i].gid < |s.store|)
    ensures var m := s.inflight[IndexOf(s.inflight, task)]; m.count >= 1 && (outcome.Finished? ==> |outcome.results| == m.count)
    ensures Step(cfg, s, Complete(task, outcome)) == CompleteStep(s, task, outcome)
  {
    hide CompleteStep;
    assert MetaOk(s.store, s.inflight[IndexOf(s.inflight, task)]);
    hide Inv, Shape;
  }

  lemma {:induction false} HandsFlags(s: State, task: nat, outcome: Outcome)
    requires |s.lost| == |s.store| && (forall i | 0 <= i < |s.inflight| :: s.inflight[i].gid < |s.store|)
    requires IndexOf(s.inflight, task) < |s.inflight| && (outcome.Finished? || outcome.Raised?)
    requires var m := s.inflight[IndexOf(s.inflight, task)]; m.count >= 1 && (outcome.Finished? ==> |outcome.results| == m.count)
    ensures Holds(CompleteStep(s, task, outcome).loop, s.inflight[IndexOf(s.inflight, task)], outcome)
  {
    hide Without, IndexOf;
  }

  /** A finished task hands the emitting loop one verdict per returned rollout, in order: failed unless the
      rollout is clean; a task that raised hands over as many failures as it held rollouts. */
  lemma {:induction false} HandsOver(cfg: Config, s: State, task: nat, outcome: Outcome)
    requires cfg.Valid() && Inv(cfg, s) && Shape(cfg, s) && Enabled(cfg, s, Complete(task, outcome))
    requires IndexOf(s.inflight, task) < |s.inflight| && (outcome.Finished? || outcome.Raised?)
    ensures Holds(Step(cfg, s, Complete(task, outcome)).loop, s.inflight[IndexOf(s.inflight, task)], outcome)
  {
    hide *;
    CompletesTask(cfg, s, task, outcome);
    HandsFlags(s, task, outcome);
  }

  // ---------------------------------------------------------------- counting successes

  function CleanCount(ts: seq<Trace>): nat {
    if ts == [] then 0 else (if !ts[0].hasError && ts[0].turns > 0 then 1 else 0) + CleanCount(ts[1..])
  }

  function FalseCount(flags: seq<bool>): nat { if flags == [] then 0 else (if flags[0] then 0 else 1) + FalseCount(flags[1..]) }

  /** Rollouts of group `g` in a list that did not fail. */
  function SuccessCount(rs: seq<Rollout>, g: Gid): nat {
    if rs == [] then 0
    else SuccessCount(rs[..|rs| - 1], g) + (if rs[|rs| - 1].gid == g && !rs[|rs| - 1].failed then 1 else 0)
  }

  /** Successes of group `g` held by the emitting loop. */
  function HeldSuccesses(loop: Loop, g: Gid): nat {
    if loop.Emitting? && loop.meta.gid == g then
      FalseCount(loop.todo) + (if loop.pending.Some? && !loop.pending.value.failed then 1 else 0)
    else 0
  }

  /** Clean rollouts of group `g` that an event's completed task returns. */
  function CleanReturned(s: State, e: Event, g: Gid): nat {
    if e.Complete? && e.outcome.Finished? && IndexOf(s.inflight, e.task) < |s.inflight| && s.inflight[IndexOf(s.inflight, e.task)].gid == g
    then CleanCount(e.outcome.results) else 0
  }

  /** Clean rollouts of group `g` that the tasks completed in a run return. */
  ghost function RunReturned(cfg: Config, s: State, es: seq<Event>, g: Gid): nat
    requires cfg.Valid() && Runs(cfg, s, es)
    decreases |es|
  {
    if es == [] then 0 else CleanReturned(s, es[0], g) + RunReturned(cfg, Step(cfg, s, es[0]), es[1..], g)
  }

  /** A marker on its way into the queue is a failure. */
  ghost predicate MarkersFail(w: Watcher) { w.DropEmitting? && w.pending.Some? ==> w.pending.value.failed }

  ghost function Successes(s: State, g: Gid): nat { SuccessCount(s.log, g) + HeldSuccesses(s.loop, g) }

  lemma {:induction false} SuccessSnoc(rs: seq<Rollout>, r: Rollout, g: Gid)
    ensures SuccessCount(rs + [r], g) == SuccessCount(rs, g) + (if r.gid == g && !r.failed then 1 else 0)
  {
    assert (rs + [r])[..|rs|] == rs;
  }

  lemma {:induction false} FlagsClean(results: seq<Trace>)
    ensures FalseCount(FailedFlags(results)) == CleanCount(results)
  {
    if results != [] {
      FlagsClean(results[1..]);
      assert FailedFlags(results)[1..] == FailedFlags(results[1..]);
    }
  }

  lemma {:induction false} AllFailed(n: nat)
    ensures FalseCount(Copies(true, n)) == 0
  {
    if n > 0 {
      AllFailed(n - 1);
      assert Copies(true, n)[1..] == Copies(true, n - 1);
    }
  }

  lemma CompleteSuccesses(s: State, task: nat, outcome: Outcome, g: Gid)
    requires |s.lost| == |s.store| && (forall i | 0 <= i < |s.inflight| :: s.inflight[i].gid < |s.store|) && s.loop.AtTop?
    ensures var t := CompleteStep(s, task, outcome);
            Successes(t, g) == Successes(s, g) + CleanReturned(s, Complete(task, outcome), g) && t.watcher == s.watcher
  {
    var i := IndexOf(s.inflight, task);
    if i < |s.inflight| {
      if outcome.Finished? { FlagsClean(outcome.results); }
      AllFailed(s.inflight[i].count);
    }
    assert FalseCount([]) == 0;
    hide IndexOf, FailedFlags, Copies, FalseCount, CleanCount, SuccessCount, Without;
  }

  lemma MarkLeaves(s: State, gid: Gid, attached: bool)
    requires gid < |s.store|
    ensures var t := MarkEmitted(s, gid, attached); t.log == s.log && t.loop == s.loop && t.watcher == s.watcher
  {
    hide Remove;
  }

  lemma EmitSuccesses(s: State, g: Gid)
    requires s.loop.Emitting? && s.loop.pending.None? && s.loop.todo != [] && s.loop.meta.gid < |s.store|
    ensures var t := LoopEmitStep(s); Successes(t, g) == Successes(s, g) && t.watcher == s.watcher
  {
    MarkLeaves(s, s.loop.meta.gid, s.loop.attached);
    hide MarkEmitted, SuccessCount;
  }

  lemma PutSuccesses(s: State, g: Gid)
    requires s.loop.Emitting? && s.loop.pending.Some? && s.loop.pending.value.gid == s.loop.meta.gid
    ensures var t := LoopPutStep(s); Successes(t, g) == Successes(s, g) && t.watcher == s.watcher
  {
    SuccessSnoc(s.log, s.loop.pending.value, g);
    assert FalseCount([]) == 0;
    hide SuccessCount;
  }

  lemma MarkerSuccesses(s: State, g: Gid)
    requires s.watcher.DropEmitting? && s.watcher.pending.None? && s.watcher.todo != []
    requires s.watcher.todo[0].gid == s.watcher.gid < |s.store|
    ensures var t := DropEmitStep(s); Successes(t, g) == Successes(s, g) && MarkersFail(t.watcher)
  {
    MarkLeaves(s, s.watcher.gid, s.watcher.attached);
    hide MarkEmitted, SuccessCount, HeldSuccesses;
  }

  lemma MarkerPut(s: State)
    requires s.watcher.DropEmitting? && s.watcher.pending.Some?
    ensures var t := DropPutStep(s); t.log == s.log + [s.watcher.pending.value] && t.loop == s.loop && MarkersFail(t.watcher)
  {
  }

  lemma MarkerPutSuccesses(s: State, g: Gid)
    requires s.watcher.DropEmitting? && s.watcher.pending.Some? && MarkersFail(s.watcher)
    ensures var t := DropPutStep(s); Successes(t, g) == Successes(s, g) && MarkersFail(t.watcher)
  {
    hide SuccessCount, HeldSuccesses, DropPutStep;
    MarkerPut(s);
    SuccessSnoc(s.log, s.watcher.pending.value, g);
  }

  /** The rest neither emits nor puts. */
  lemma FillSuccesses(cfg: Config, s: State, pick: Env)
    requires cfg.Valid() && Shape(cfg, s) && pick in cfg.train && s.loop.AtTop?
    ensures var t := FillStep(cfg, s, pick); t.log == s.log && t.watcher == s.watcher && !t.loop.Emitting?
  {
    hide FirstEligible, EvalHasWork;
  }

  /** Events other than the four that emit or put and the one that completes a task. */
  lemma CalmSuccesses(cfg: Config, s: State, e: Event, g: Gid)
    requires cfg.Valid() && Shape(cfg, s) && Enabled(cfg, s, e) && MarkersFail(s.watcher)
    requires !e.Fill? && !e.Complete? && !e.LoopEmit? && !e.LoopPut? && !e.DropEmit? && !e.DropPut?
    ensures var t := Step(cfg, s, e); Successes(t, g) == Successes(s, g) && MarkersFail(t.watcher)
  {
    hide SuccessCount, FalseCount, AgedAll, StaleGids, WithGid, WithoutGid, Owed, Load, LoadOf, OfKind, GidsOf, RemoveAll, Remove, Copies, Cost;
  }

  lemma CalmLoop(s: State, t: State, g: Gid)
    requires t.log == s.log && !s.loop.Emitting? && !t.loop.Emitting?
    ensures Successes(t, g) == Successes(s, g)
  {
    hide SuccessCount;
  }

  lemma StepSuccesses(cfg: Config, s: State, e: Event, g: Gid)
    requires cfg.Valid() && Inv(cfg, s) && Shape(cfg, s) && Enabled(cfg, s, e) && MarkersFail(s.watcher)
    ensures var t := Step(cfg, s, e); Successes(t, g) == Successes(s, g) + CleanReturned(s, e, g) && MarkersFail(t.watcher)
  {
    hide FillStep, CompleteStep, LoopEmitStep, LoopPutStep, DropEmitStep, DropPutStep, Successes, IndexOf, CleanCount;
    if e.Fill? {
      FillSuccesses(cfg, s, e.pick);
      CalmLoop(s, FillStep(cfg, s, e.pick), g);
      hide Inv, Shape;
    } else if e.Complete? {
      CompleteSuccesses(s, e.task, e.outcome, g);
      hide Inv, Shape, CleanReturned;
    } else if e.LoopEmit? {
      EmitSuccesses(s, g);
      hide Inv, Shape;
    } else if e.LoopPut? {
      assert LoopAgrees(s.store, s.loop);
      PutSuccesses(s, g);
      hide Inv, Shape;
    } else if e.DropEmit? {
      MarkerSuccesses(s, g);
      hide Inv, Shape;
    } else if e.DropPut? {
      MarkerPutSuccesses(s, g);
      hide Inv, Shape;
    } else {
      hide Inv, Shape, Step, Enabled;
      CalmSuccesses(cfg, s, e, g);
    }
  }

  lemma {:induction false} RunSuccesses(cfg: Config, s: State, es: seq<Event>, g: Gid)
    requires cfg.Valid() && Inv(cfg, s) && Runs(cfg, s, es) && MarkersFail(s.watcher)
    ensures Successes(Run(cfg, s, es), g) == Successes(s, g) + RunReturned(cfg, s, es, g) && MarkersFail(Run(cfg, s, es).watcher)
    decreases |es|
  {
    hide Inv, Shape, Step, Enabled, Successes, CleanReturned, MarkersFail;
    if es != [] {
      StepKeeps(cfg, s, es[0]);
      StepSuccesses(cfg, s, es[0], g);
      RunSuccesses(cfg, Step(cfg, s, es[0]), es[1..], g);
    }
  }

  /** Verdicts are conserved: over every run and for each group, the successes on the queue plus those the emitting
      loop still holds are exactly the clean rollouts that its completed tasks returned.  Every other emission, a
      dropped group's markers among them, is a failure. */
  lemma {:induction false} VerdictsConserved(cfg: Config, v: int, es: seq<Event>, g: Gid)
    requires cfg.Valid() && Runs(cfg, Init(v), es)
    ensures var s := After(cfg, v, es);
            && SuccessCount(s.log, g) + HeldSuccesses(s.loop, g) == RunReturned(cfg, Init(v), es, g)
            && MarkersFail(s.watcher)
  {
    hide Inv, Runs, Run, RunReturned;
    InitInv(cfg, v);
    RunSuccesses(cfg, Init(v), es, g);
  }

  // ---------------------------------------------------------------- where a success comes from

  /** The event completes a registered task of group `g` that returned a clean rollout. */
  ghost predicate ReturnsClean(s: State, e: Event, g: Gid) {
    && e.Complete? && e.outcome.Finished?
    && (exists j :: 0 <= j < |e.outcome.results| && Clean(e.outcome.results[j]))
    && exists i :: 0 <= i < |s.inflight| && s.inflight[i].task == e.task && s.inflight[i].gid == g
  }

  lemma {:induction false} SomeClean(ts: seq<Trace>)
    ensures CleanCount(ts) > 0 <==> exists j :: 0 <= j < |ts| && Clean(ts[j])
  {
    if ts != [] {
      SomeClean(ts[1..]);
      if j :| 0 <= j < |ts| && Clean(ts[j]) { assert j == 0 || ts[1..][j - 1] == ts[j]; }
      if j :| 0 <= j < |ts[1..]| && Clean(ts[1..][j]) { assert ts[j + 1] == ts[1..][j]; }
    }
  }

  lemma ReturnedClean(s: State, e: Event, g: Gid)
    requires CleanReturned(s, e, g) > 0
    ensures ReturnsClean(s, e, g)
  {
    SomeClean(e.outcome.results);
    hide Clean;
  }

  lemma {:induction false} ReturnedAt(cfg: Config, s: State, es: seq<Event>, g: Gid) returns (k: nat)
    requires cfg.Valid() && Runs(cfg, s, es) && RunReturned(cfg, s, es, g) > 0
    ensures k < |es| && Runs(cfg, s, es[..k]) && ReturnsClean(Run(cfg, s, es[..k]), es[k], g)
    decreases |es|
  {
    hide Shape, Step, Enabled, CleanReturned, ReturnsClean;
    if CleanReturned(s, es[0], g) > 0 {
      k := 0;
      assert es[..0] == [];
      ReturnedClean(s, es[0], g);
    } else {
      var j := ReturnedAt(cfg, Step(cfg, s, es[0]), es[1..], g);
      k := j + 1;
      assert es[..k][0] == es[0] && es[..k][1..] == es[1..][..j];
    }
  }

  lemma {:induction false} InLog(rs: seq<Rollout>, i: nat)
    requires i < |rs| && !rs[i].failed
    ensures SuccessCount(rs, rs[i].gid) > 0
  {
    if i < |rs| - 1 { InLog(rs[..|rs| - 1], i); }
  }

  /** A rollout that reached the queue as a success comes from a task of its group that completed and returned a
      clean rollout. */
  lemma {:induction false} SuccessHasTrace(cfg: Config, v: int, es: seq<Event>, i: nat) returns (k: nat)
    requires cfg.Valid() && Runs(cfg, Init(v), es) && i < |After(cfg, v, es).log| && !After(cfg, v, es).log[i].failed
    ensures k < |es| && Runs(cfg, Init(v), es[..k]) && ReturnsClean(After(cfg, v, es[..k]), es[k], After(cfg, v, es).log[i].gid)
  {
    var log := After(cfg, v, es).log;
    VerdictsConserved(cfg, v, es, log[i].gid);
    InLog(log, i);
    hide SuccessCount, HeldSuccesses, ReturnsClean, RunReturned;
    k := ReturnedAt(cfg, Init(v), es, log[i].gid);
  }
}
