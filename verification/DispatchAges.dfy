/** Off-policy ages, exactly: how many version notices a task sat through, and which task's age a rollout carries. */
module DispatchAges {
  import opened Common
  import opened Dispatch
  import opened DispatchInvariant
  import opened DispatchRuns
  import opened DispatchExact

  // ---------------------------------------------------------------- registered tasks

  /** Versions announced in a run. */
  function Notices(es: seq<Event>): nat { if es == [] then 0 else (if es[0].VersionPending? then 1 else 0) + Notices(es[1..]) }

  /** A train task of a live environment ages with every notice, any other never. */
  ghost function AgeGained(cfg: Config, m: Meta, es: seq<Event>): nat { if LiveTask(cfg, m) then Notices(es) else 0 }

  ghost function Grown(cfg: Config, m: Meta, es: seq<Event>): Meta { m.(offPolicy := m.offPolicy + AgeGained(cfg, m, es)) }

  /** A task registered by the event, with age zero. */
  ghost predicate Registers(s: State, e: Event, t: State, m: Meta) {
    && e.LimiterPassed? && s.loop.Acquiring? && m.offPolicy == 0 && m.task == s.nextTask && m.gid == s.loop.gid && m in t.inflight
  }

  /** The task was there before the event, younger by one when the event announces a version and it is live. */
  ghost predicate Stays(cfg: Config, s: State, e: Event, m: Meta) { exists a :: a in s.inflight && m == Grown(cfg, a, [e]) }

  lemma {:induction false} OneNotice(e: Event)
    ensures Notices([e]) == if e.VersionPending? then 1 else 0
  {
    assert [e][1..] == [];
  }

  lemma {:induction false} OfKindMember(ms: seq<Meta>, kind: Kind, m: Meta)
    requires m in OfKind(ms, kind)
    ensures m in ms
  {
    if ms != [] && m in OfKind(ms[..|ms| - 1], kind) { OfKindMember(ms[..|ms| - 1], kind, m); }
  }

  lemma {:induction false} WithoutGidMember(ms: seq<Meta>, g: Gid, m: Meta)
    requires m in WithoutGid(ms, g)
    ensures m in ms
  {
    if ms != [] && m in WithoutGid(ms[..|ms| - 1], g) { WithoutGidMember(ms[..|ms| - 1], g, m); }
  }

  lemma {:induction false} WithGidMember(ms: seq<Meta>, g: Gid, m: Meta)
    ensures m in WithGid(ms, g) <==> m in ms && m.gid == g
  {
    if ms != [] {
      WithGidMember(ms[..|ms| - 1], g, m);
      assert ms == ms[..|ms| - 1] + [ms[|ms| - 1]];
    }
  }

  lemma FillTasks(cfg: Config, s: State, pick: Env)
    requires cfg.Valid() && Shape(cfg, s) && pick in cfg.train && s.loop.AtTop?
    ensures var t := FillStep(cfg, s, pick); t.inflight == s.inflight && t.log == s.log && t.watcher == s.watcher && !t.loop.Emitting?
  {
    hide FirstEligible, EvalHasWork, Cost, FreshCost, Available;
  }

  lemma LimiterTasks(s: State, m: Meta)
    requires s.loop.Acquiring? && s.loop.gid < |s.store| && m in LimiterStep(s).inflight
    ensures m in s.inflight || Registers(s, LimiterPassed, LimiterStep(s), m)
  {
  }

  lemma CompleteTasks(s: State, task: nat, outcome: Outcome, m: Meta)
    requires |s.lost| == |s.store| && (forall i | 0 <= i < |s.inflight| :: s.inflight[i].gid < |s.store|)
    requires m in CompleteStep(s, task, outcome).inflight
    ensures m in s.inflight
  {
    hide IndexOf, Flags;
  }

  lemma EmitTasks(s: State, gid: Gid, attached: bool)
    requires gid < |s.store|
    ensures MarkEmitted(s, gid, attached).inflight == s.inflight
  {
    hide Remove;
  }

  /** Events that leave the table of tasks alone. */
  lemma CalmTasks(cfg: Config, s: State, e: Event)
    requires cfg.Valid() && Shape(cfg, s) && Enabled(cfg, s, e)
    requires !e.Fill? && !e.LimiterPassed? && !e.Complete? && !e.VersionPending? && !e.DropGroup? && !e.DrainTraining?
    ensures Step(cfg, s, e).inflight == s.inflight
  {
    if e.LoopEmit? { EmitTasks(s, s.loop.meta.gid, s.loop.attached); }
    if e.DropEmit? { EmitTasks(s, s.watcher.gid, s.watcher.attached); }
    hide MarkEmitted, Cost, Stamp, Shape;
  }

  /** A task after an event: new, aged, or as it was. */
  lemma {:induction false} StepStays(cfg: Config, s: State, e: Event, m: Meta)
    requires cfg.Valid() && Shape(cfg, s) && Enabled(cfg, s, e) && m in Step(cfg, s, e).inflight
    ensures e.VersionPending? ==> exists a :: a in s.inflight && m == Aged(cfg, a)
    ensures !e.VersionPending? ==> m in s.inflight || Registers(s, e, Step(cfg, s, e), m)
  {
    hide FillStep, LimiterStep, CompleteStep, DropEmitStep, LoopEmitStep, Registers, Aged, AgedAll, StaleGids, WithGid, WithoutGid, OfKind, Load, LoadOf, GidsOf, RemoveAll, Owed, Remove;
    if e.Fill? {
      FillTasks(cfg, s, e.pick);
    } else if e.LimiterPassed? {
      LimiterTasks(s, m);
    } else if e.Complete? {
      CompleteTasks(s, e.task, e.outcome, m);
    } else if e.VersionPending? {
      var i :| 0 <= i < |AgedAll(cfg, s.inflight)| && AgedAll(cfg, s.inflight)[i] == m;
    } else if e.DropGroup? {
      WithoutGidMember(s.inflight, e.gid, m);
    } else if e.DrainTraining? {
      OfKindMember(s.inflight, Eval, m);
    } else {
      CalmTasks(cfg, s, e);
    }
  }

  lemma {:induction false} StepOrigin(cfg: Config, s: State, e: Event, m: Meta)
    requires cfg.Valid() && Shape(cfg, s) && Enabled(cfg, s, e) && m in Step(cfg, s, e).inflight
    ensures Stays(cfg, s, e, m) || Registers(s, e, Step(cfg, s, e), m)
  {
    StepStays(cfg, s, e, m);
    OneNotice(e);
    hide Shape, Step, Enabled, Registers, Notices;
    if e.VersionPending? {
      var a :| a in s.inflight && m == Aged(cfg, a);
      assert m == Grown(cfg, a, [e]);
    } else if m in s.inflight {
      assert m == Grown(cfg, m, [e]);
    }
  }

  lemma GrownTwice(cfg: Config, a: Meta, e: Event, es: seq<Event>)
    ensures Grown(cfg, Grown(cfg, a, [e]), es) == Grown(cfg, a, [e] + es)
  {
    OneNotice(e);
    assert ([e] + es)[1..] == es;
  }

  /** A registered task after a run: one that was there before, or one the run registered, in either case with one
      more of age for every version announced since, if it is a live train task, and none if not. */
  lemma {:induction false} AgeExact(cfg: Config, s: State, es: seq<Event>, m: Meta) returns (k: nat, a: Meta)
    requires cfg.Valid() && Runs(cfg, s, es) && m in Run(cfg, s, es).inflight
    ensures k <= |es| && m == Grown(cfg, a, es[k..])
    ensures k == 0 ==> a in s.inflight
    ensures k > 0 ==> Runs(cfg, s, es[..k - 1]) && Runs(cfg, s, es[..k])
                      && Registers(Run(cfg, s, es[..k - 1]), es[k - 1], Run(cfg, s, es[..k]), a)
    decreases |es|
  {
    hide Shape, Step, Enabled, Registers, Grown;
    if es == [] {
      k, a := 0, m;
      GrownNone(cfg, m);
    } else {
      var t := Step(cfg, s, es[0]);
      var j, b := AgeExact(cfg, t, es[1..], m);
      if j > 0 {
        k, a := j + 1, b;
        assert es[..k][0] == es[0] && es[..k][1..] == es[1..][..j];
        assert es[..j][0] == es[0] && es[..j][1..] == es[1..][..j - 1];
        assert es[k..] == es[1..][j..];
      } else {
        StepOrigin(cfg, s, es[0], b);
        assert es[1..][0..] == es[1..];
        if Stays(cfg, s, es[0], b) {
          k := 0;
          a :| a in s.inflight && b == Grown(cfg, a, [es[0]]);
          GrownTwice(cfg, a, es[0], es[1..]);
          assert es[0..] == es == [es[0]] + es[1..];
        } else {
          k, a := 1, b;
          assert es[..0] == [] && es[..1][0] == es[0] && es[..1][1..] == [];
        }
      }
    }
  }

  lemma GrownNone(cfg: Config, m: Meta)
    ensures Grown(cfg, m, []) == m
  {
  }

  /** A registered task's age is the number of versions announced since its registration, if it trains a live
      environment, and zero otherwise. */
  lemma {:induction false} AgeCounts(cfg: Config, v: int, es: seq<Event>, m: Meta) returns (k: nat)
    requires cfg.Valid() && Runs(cfg, Init(v), es) && m in After(cfg, v, es).inflight
    ensures k < |es| && Runs(cfg, Init(v), es[..k]) && Runs(cfg, Init(v), es[..k + 1])
    ensures Registers(After(cfg, v, es[..k]), es[k], After(cfg, v, es[..k + 1]), m.(offPolicy := 0))
    ensures m.offPolicy == if LiveTask(cfg, m) then Notices(es[k + 1..]) else 0
  {
    var j, a := AgeExact(cfg, Init(v), es, m);
    hide Runs, Run;
    assert j > 0;
    k := j - 1;
    assert a.offPolicy == 0;
    assert a == m.(offPolicy := 0);
  }

  // ---------------------------------------------------------------- emitted rollouts

  /** An event takes a task of group `g` and age `off` off the table, by its completion or with the whole group; or
      drops the group when none of its tasks is registered. */
  ghost predicate Departs(s: State, e: Event, g: Gid, off: nat) {
    || (exists m :: m in s.inflight && m.gid == g && m.offPolicy == off && ((e.Complete? && e.task == m.task) || e == DropGroup(g)))
    || (e == DropGroup(g) && off == 0 && forall m | m in s.inflight :: m.gid != g)
  }

  /** Ages by group that may yet be stamped on rollouts, or were. */
  ghost predicate Carried(s: State, d: iset<(Gid, nat)>) {
    && (forall i | 0 <= i < |s.log| :: (s.log[i].gid, s.log[i].offPolicy) in d)
    && (s.loop.Emitting? ==> (s.loop.meta.gid, s.loop.meta.offPolicy) in d && OptCarried(s.loop.pending, d))
    && (s.watcher.DropEmitting? ==>
          && (forall i | 0 <= i < |s.watcher.todo| :: (s.watcher.todo[i].gid, s.watcher.todo[i].offPolicy) in d)
          && (if s.watcher.last.Some? then (s.watcher.last.value.gid, s.watcher.last.value.offPolicy) in d else (s.watcher.gid, 0) in d)
          && OptCarried(s.watcher.pending, d))
  }

  ghost predicate OptCarried(r: Option<Rollout>, d: iset<(Gid, nat)>) { r.Some? ==> (r.value.gid, r.value.offPolicy) in d }

  ghost function Departures(s: State, e: Event): iset<(Gid, nat)> { iset g: Gid, off: nat | Departs(s, e, g, off) :: (g, off) }

  ghost function RunDepartures(cfg: Config, s: State, es: seq<Event>): iset<(Gid, nat)>
    requires cfg.Valid() && Runs(cfg, s, es)
    decreases |es|
  {
    if es == [] then iset{} else Departures(s, es[0]) + RunDepartures(cfg, Step(cfg, s, es[0]), es[1..])
  }

  lemma {:induction false} OwedMember(ms: seq<Meta>, m: Meta)
    requires m in Owed(ms)
    ensures m in ms
  {
    if ms != [] && m in Owed(ms[..|ms| - 1]) { OwedMember(ms[..|ms| - 1], m); }
  }

  lemma {:induction false} CompleteCarries(s: State, task: nat, outcome: Outcome, d: iset<(Gid, nat)>)
    requires |s.lost| == |s.store| && (forall i | 0 <= i < |s.inflight| :: s.inflight[i].gid < |s.store|) && s.loop.AtTop?
    requires Carried(s, d)
    ensures Carried(CompleteStep(s, task, outcome), d + Departures(s, Complete(task, outcome)))
  {
    var i := IndexOf(s.inflight, task);
    if i < |s.inflight| { assert Departs(s, Complete(task, outcome), s.inflight[i].gid, s.inflight[i].offPolicy); }
    hide IndexOf, Flags, Without, Departs;
  }

  lemma {:induction false} DropCarries(s: State, gid: Gid, d: iset<(Gid, nat)>)
    requires s.watcher.Dropping? && Carried(s, d)
    ensures Carried(DropStep(s, gid), d + Departures(s, DropGroup(gid)))
  {
    var claimed, e := WithGid(s.inflight, gid), DropGroup(gid);
    forall m | m in claimed ensures (m.gid, m.offPolicy) in Departures(s, e) {
      WithGidMember(s.inflight, gid, m);
      assert Departs(s, e, m.gid, m.offPolicy);
    }
    if claimed == [] {
      forall m | m in s.inflight ensures m.gid != gid { WithGidMember(s.inflight, gid, m); }
      assert Departs(s, e, gid, 0);
    } else {
      assert claimed[|claimed| - 1] in claimed;
    }
    forall m | m in Owed(claimed) ensures m in claimed { OwedMember(claimed, m); }
    hide WithGid, WithoutGid, Owed, Departures, Load, Remove;
  }

  lemma MarkKeeps(s: State, gid: Gid, attached: bool)
    requires gid < |s.store|
    ensures var t := MarkEmitted(s, gid, attached); t.log == s.log && t.loop == s.loop && t.watcher == s.watcher
  {
    hide Remove;
  }

  lemma EmitCarries(s: State, d: iset<(Gid, nat)>)
    requires s.loop.Emitting? && s.loop.pending.None? && s.loop.todo != [] && s.loop.meta.gid < |s.store| && Carried(s, d)
    ensures Carried(LoopEmitStep(s), d)
  {
    MarkKeeps(s, s.loop.meta.gid, s.loop.attached);
    hide MarkEmitted;
  }

  lemma MarkerCarries(s: State, d: iset<(Gid, nat)>)
    requires s.watcher.DropEmitting? && s.watcher.pending.None? && s.watcher.todo != []
    requires s.watcher.todo[0].gid == s.watcher.gid < |s.store| && Carried(s, d)
    ensures Carried(DropEmitStep(s), d)
  {
    MarkKeeps(s, s.watcher.gid, s.watcher.attached);
    hide MarkEmitted;
  }

  lemma SweepCarries(s: State, d: iset<(Gid, nat)>)
    requires s.watcher.DropEmitting? && s.watcher.gid < |s.store| && Carried(s, d)
    ensures Carried(SweepStep(s), d)
  {
  }

  /** What the ages a state carries look at. */
  ghost predicate SameHolders(s: State, t: State) { t.log == s.log && t.watcher == s.watcher && (t.loop == s.loop || !t.loop.Emitting?) }

  lemma HoldersCarry(s: State, t: State, d: iset<(Gid, nat)>)
    requires SameHolders(s, t) && Carried(s, d)
    ensures Carried(t, d)
  {
  }

  lemma PutCarries(s: State, d: iset<(Gid, nat)>)
    requires s.loop.Emitting? && s.loop.pending.Some? && Carried(s, d)
    ensures Carried(LoopPutStep(s), d)
  {
  }

  lemma MarkerPutCarries(s: State, d: iset<(Gid, nat)>)
    requires s.watcher.DropEmitting? && s.watcher.pending.Some? && Carried(s, d)
    ensures Carried(DropPutStep(s), d)
  {
  }

  lemma WatcherCarries(s: State, t: State, d: iset<(Gid, nat)>)
    requires t.log == s.log && t.loop == s.loop && !t.watcher.DropEmitting? && Carried(s, d)
    ensures Carried(t, d)
  {
  }

  /** Events at which no task leaves the table for the queue. */
  lemma CalmCarries(cfg: Config, s: State, e: Event, d: iset<(Gid, nat)>)
    requires cfg.Valid() && Shape(cfg, s) && Enabled(cfg, s, e) && Carried(s, d)
    requires !e.Fill? && !e.Complete? && !e.LoopEmit? && !e.DropGroup? && !e.DropEmit? && !e.SweepUnscheduled?
    ensures Carried(Step(cfg, s, e), d)
  {
    hide Carried, LoopPutStep, DropPutStep, AgedAll, StaleGids, Load, LoadOf, OfKind, GidsOf, RemoveAll, Cost;
    if e.LoopPut? { PutCarries(s, d); }
    else if e.DropPut? { MarkerPutCarries(s, d); }
    else if e.VersionPending? || e.DropDone? || e.Adopt? { WatcherCarries(s, Step(cfg, s, e), d); }
    else { HoldersCarry(s, Step(cfg, s, e), d); }
  }

  lemma CarriedMore(s: State, d: iset<(Gid, nat)>, more: iset<(Gid, nat)>)
    requires Carried(s, d)
    ensures Carried(s, d + more)
  {
  }

  lemma FillCarries(cfg: Config, s: State, pick: Env, d: iset<(Gid, nat)>)
    requires cfg.Valid() && Shape(cfg, s) && pick in cfg.train && s.loop.AtTop? && Carried(s, d)
    ensures Carried(FillStep(cfg, s, pick), d)
  {
    FillTasks(cfg, s, pick);
    hide FillStep, Shape;
  }

  lemma {:induction false} StepCarries(cfg: Config, s: State, e: Event, d: iset<(Gid, nat)>)
    requires cfg.Valid() && Shape(cfg, s) && Enabled(cfg, s, e) && Carried(s, d)
    ensures Carried(Step(cfg, s, e), d + Departures(s, e))
  {
    hide FillStep, CompleteStep, LoopEmitStep, DropStep, DropEmitStep, SweepStep, Carried, Departures;
    if e.Complete? {
      CompleteCarries(s, e.task, e.outcome, d);
    } else if e.DropGroup? {
      DropCarries(s, e.gid, d);
    } else {
      if e.Fill? { FillCarries(cfg, s, e.pick, d); }
      else if e.LoopEmit? { EmitCarries(s, d); }
      else if e.DropEmit? { MarkerCarries(s, d); }
      else if e.SweepUnscheduled? { SweepCarries(s, d); }
      else { CalmCarries(cfg, s, e, d); }
      CarriedMore(Step(cfg, s, e), d, Departures(s, e));
    }
  }

  lemma {:induction false} RunCarries(cfg: Config, s: State, es: seq<Event>, d: iset<(Gid, nat)>)
    requires cfg.Valid() && Runs(cfg, s, es) && Carried(s, d)
    ensures Carried(Run(cfg, s, es), d + RunDepartures(cfg, s, es))
    decreases |es|
  {
    hide Shape, Step, Enabled, Carried, Departures;
    if es == [] {
      assert d + iset{} == d;
    } else {
      StepCarries(cfg, s, es[0], d);
      RunCarries(cfg, Step(cfg, s, es[0]), es[1..], d + Departures(s, es[0]));
      var rest := RunDepartures(cfg, Step(cfg, s, es[0]), es[1..]);
      assert (d + Departures(s, es[0])) + rest == d + (Departures(s, es[0]) + rest);
    }
  }

  lemma {:induction false} DepartedAt(cfg: Config, s: State, es: seq<Event>, g: Gid, off: nat) returns (k: nat)
    requires cfg.Valid() && Runs(cfg, s, es) && (g, off) in RunDepartures(cfg, s, es)
    ensures k < |es| && Runs(cfg, s, es[..k]) && Departs(Run(cfg, s, es[..k]), es[k], g, off)
    decreases |es|
  {
    hide Shape, Step, Enabled, Departs;
    if Departs(s, es[0], g, off) {
      k := 0;
      assert es[..0] == [];
    } else {
      var j := DepartedAt(cfg, Step(cfg, s, es[0]), es[1..], g, off);
      k := j + 1;
      assert es[..k][0] == es[0] && es[..k][1..] == es[1..][..j];
    }
  }

  /** The age on every rollout on the queue is that of a task of its own group at the moment it left the table, or
      zero on a marker for a group dropped with nothing in flight. */
  lemma {:induction false} EmittedAge(cfg: Config, v: int, es: seq<Event>, i: nat) returns (k: nat)
    requires cfg.Valid() && Runs(cfg, Init(v), es) && i < |After(cfg, v, es).log|
    ensures var r := After(cfg, v, es).log[i];
            k < |es| && Runs(cfg, Init(v), es[..k]) && Departs(After(cfg, v, es[..k]), es[k], r.gid, r.offPolicy)
  {
    var r := After(cfg, v, es).log[i];
    hide Runs, Run, Departs;
    RunCarries(cfg, Init(v), es, iset{});
    assert (r.gid, r.offPolicy) in RunDepartures(cfg, Init(v), es);
    k := DepartedAt(cfg, Init(v), es, r.gid, r.offPolicy);
  }
}
