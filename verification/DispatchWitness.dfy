/** Concrete runs that show three statements about the dispatcher cannot be strengthened. */
module DispatchWitness {
  import opened Common
  import opened Dispatch
  import opened DispatchInvariant
  import opened DispatchRuns

  ghost predicate Takes(cfg: Config, s: State, e: Event, t: State) {
    cfg.Valid() && Shape(cfg, s) && Enabled(cfg, s, e) && Step(cfg, s, e) == t
  }

  lemma Chain(cfg: Config, s: State, e: Event, t: State, es: seq<Event>, u: State)
    requires Takes(cfg, s, e, t) && Leads(cfg, t, es, u)
    ensures Leads(cfg, s, [e] + es, u)
  {
    hide Shape, Enabled, Step;
    assert ([e] + es)[1..] == es;
  }

  lemma Stop(cfg: Config, s: State)
    requires cfg.Valid()
    ensures Leads(cfg, s, [], s)
  {
  }

  // ---------------------------------------------------------------- idle is not drained

  /** One permit, single-rollout groups; one eval epoch of two examples. */
  function EvalConfig(): Config {
    Config(1, 0, map["t" := EnvSpec(1, false, true)], map["e" := EnvSpec(1, false, true)])
  }

  const ROW := Row("e", 1)

  function EvalGroup(unscheduled: nat, emitted: nat, pinned: bool): Group {
    Group(Eval, "e", 1, unscheduled, emitted, Some(1), 0, pinned, 1)
  }

  const EVAL_TASK := Meta(0, Eval, "e", 0, 0, 1, 0, Some(1))
  const EVAL_ROLLOUT := Rollout(Eval, "e", 0, 0, 0, Some(1), false)

  function Triggered(): State { Init(0).(evalQueue := [ROW, ROW], triggered := [ROW, ROW], mode := PreferEval) }

  function Opened(): State {
    Triggered().(evalQueue := [ROW], store := [EvalGroup(1, 0, false)], groups := [0], lost := [0], loop := Selecting(0))
  }

  function Acquired(): State { Opened().(store := [EvalGroup(0, 0, true)], loop := Acquiring(0, 1, 0)) }

  function Registered(): State { Acquired().(permits := 1, inflight := [EVAL_TASK], nextTask := 1, loop := AtTop) }

  function Finishing(): State { Registered().(permits := 0, inflight := [], loop := Emitting(EVAL_TASK, true, [false], None)) }

  function Counted(): State {
    Finishing().(store := [EvalGroup(0, 1, true)], groups := [], loop := Emitting(EVAL_TASK, true, [], Some(EVAL_ROLLOUT)))
  }

  function Delivered(): State { Counted().(queue := [EVAL_ROLLOUT], log := [EVAL_ROLLOUT], loop := AtTop) }

  function Consumed(): State { Delivered().(queue := [], consumed := [EVAL_ROLLOUT]) }

  /** The last step shipped: training drains, the epoch has one example left. */
  function Draining(): State { Consumed().(trainDisabled := true) }

  function SecondOpened(): State {
    Draining().(evalQueue := [], store := [EvalGroup(0, 1, true), EvalGroup(1, 0, false)], groups := [1], lost := [0, 0],
                loop := Selecting(1))
  }

  /** The scheduler waits in the rate limiter, which the first rollout has already used. */
  function SecondAcquired(): State {
    SecondOpened().(store := [EvalGroup(0, 1, true), EvalGroup(0, 0, true)], loop := Acquiring(1, 1, 0))
  }

  lemma EvalTriggers()
    ensures Takes(EvalConfig(), Init(0), TriggerEval([ROW, ROW]), Triggered())
  {
  }

  lemma EvalOpens()
    ensures Takes(EvalConfig(), Triggered(), Fill("t"), Opened())
  {
    assert Triggered().evalQueue[1..] == [ROW];
  }

  lemma EvalSelects()
    ensures Takes(EvalConfig(), Opened(), ClientSelected, Acquired())
  {
  }

  lemma EvalRegisters()
    ensures Takes(EvalConfig(), Acquired(), LimiterPassed, Registered())
  {
  }

  lemma EvalCompletes()
    ensures Takes(EvalConfig(), Registered(), Complete(0, Finished([Trace(false, 1)])), Finishing())
  {
    assert IndexOf([EVAL_TASK], 0) == 0 && Without([EVAL_TASK], 0) == [];
    assert FailedFlags([Trace(false, 1)]) == [false];
  }

  lemma EvalCounts()
    ensures Takes(EvalConfig(), Finishing(), LoopEmit, Counted())
  {
    FinishingShape();
    hide Shape;
    assert [0][..0] == [] && Remove([], 0) == [] && Remove([0], 0) == [];
    assert [false][1..] == [];
    assert Finishing().store[0 := EvalGroup(0, 1, true)] == [EvalGroup(0, 1, true)];
    assert LoopEmitStep(Finishing()) == Counted();
  }

  lemma FinishingShape()
    ensures Shape(EvalConfig(), Finishing()) && EvalConfig().Valid()
  {
  }

  lemma EvalPuts()
    ensures Takes(EvalConfig(), Counted(), LoopPut, Delivered())
  {
  }

  lemma EvalConsumed()
    ensures Takes(EvalConfig(), Delivered(), Consume, Consumed())
  {
    assert [EVAL_ROLLOUT][1..] == [];
  }

  lemma DrainsNothing()
    ensures Takes(EvalConfig(), Consumed(), DrainTraining, Draining())
  {
    DeliveredShape();
    hide DrainStep, Shape, Consumed, EvalConfig;
    DrainEmpty(Consumed());
  }

  lemma DrainEmpty(s: State)
    requires s.inflight == [] && s.groups == [] && |s.lost| == |s.store|
    ensures DrainStep(s) == s.(trainDisabled := true)
  {
    CutNothing();
    var t := DrainStep(s);
    forall g: Gid | g < |s.store| ensures t.lost[g] == s.lost[g] { assert LoadOf([], g) == 0; }
    hide OfKind, RemoveAll, GidsOf, Load, LoadOf;
    assert t.lost == s.lost;
  }

  lemma DeliveredShape()
    ensures EvalConfig().Valid() && Shape(EvalConfig(), Consumed())
    ensures Consumed().inflight == [] && Consumed().groups == [] && |Consumed().lost| == |Consumed().store|
  {
  }

  lemma CutNothing()
    ensures OfKind([], Train) == [] && OfKind([], Eval) == [] && Load([]) == 0
    ensures forall g: Gid :: LoadOf([], g) == 0
    ensures forall dead :: RemoveAll([], dead) == []
    ensures GidsOf([]) == {}
  {
  }

  lemma ConsumedShape()
    ensures EvalConfig().Valid() && Shape(EvalConfig(), Draining())
  {
  }

  lemma SecondOpens()
    ensures Takes(EvalConfig(), Draining(), Fill("t"), SecondOpened())
  {
    ConsumedShape();
    var s := Draining();
    assert [ROW][1..] == [] && s.store + [EvalGroup(1, 0, false)] == [EvalGroup(0, 1, true), EvalGroup(1, 0, false)];
  }

  lemma SecondSelects()
    ensures Takes(EvalConfig(), SecondOpened(), ClientSelected, SecondAcquired())
  {
  }

  ghost predicate IdleButOwing(cfg: Config, s: State) {
    Shape(cfg, s) && s.trainDisabled && IsIdle(s) && |s.store| == 2 && s.store[1].kind.Eval? && OwingIn(s, 1) == 1 && CountOf(s.log, 1) == 0
  }

  lemma SecondIsIdle()
    ensures IdleButOwing(EvalConfig(), SecondAcquired())
  {
    assert Shape(EvalConfig(), SecondAcquired());
    assert LoadOf([], 1) == 0;
    assert [EVAL_ROLLOUT][..0] == [] && CountOf([EVAL_ROLLOUT], 1) == 0;
  }

  lemma EvalConfigValid()
    ensures EvalConfig().Valid()
  {
  }

  lemma FirstDelivered(es: seq<Event>, t: State)
    requires Leads(EvalConfig(), Consumed(), es, t)
    ensures exists fs :: Leads(EvalConfig(), Init(0), fs, t)
  {
    hide Takes, Leads, EvalConfig, Triggered, Opened, Acquired, Registered, Finishing, Counted, Delivered, Consumed;
    var cfg := EvalConfig();
    EvalTriggers();
    EvalOpens();
    EvalSelects();
    EvalRegisters();
    EvalCompletes();
    EvalCounts();
    EvalPuts();
    EvalConsumed();
    Chain(cfg, Delivered(), Consume, Consumed(), es, t);
    var a := [Consume] + es;
    Chain(cfg, Counted(), LoopPut, Delivered(), a, t);
    var b := [LoopPut] + a;
    Chain(cfg, Finishing(), LoopEmit, Counted(), b, t);
    var c := [LoopEmit] + b;
    Chain(cfg, Registered(), Complete(0, Finished([Trace(false, 1)])), Finishing(), c, t);
    var d := [Complete(0, Finished([Trace(false, 1)]))] + c;
    Chain(cfg, Acquired(), LimiterPassed, Registered(), d, t);
    var e := [LimiterPassed] + d;
    Chain(cfg, Opened(), ClientSelected, Acquired(), e, t);
    var f := [ClientSelected] + e;
    Chain(cfg, Triggered(), Fill("t"), Opened(), f, t);
    var h := [Fill("t")] + f;
    Chain(cfg, Init(0), TriggerEval([ROW, ROW]), Triggered(), h, t);
  }

  /** `is_idle` alone does not mean drained, even while draining: one eval rollout has been consumed,
      training has drained, the other eval rollout waits in the rate limiter, and the dispatcher
      reports itself idle. */
  lemma IdleNotDrained()
    ensures exists es, s :: Leads(EvalConfig(), Init(0), es, s) && IdleButOwing(EvalConfig(), s)
  {
    hide Takes, Leads, IdleButOwing, EvalConfig, Consumed, Draining, SecondOpened, SecondAcquired;
    var cfg, s := EvalConfig(), SecondAcquired();
    SecondIsIdle();
    DrainsNothing();
    SecondOpens();
    SecondSelects();
    EvalConfigValid();
    Stop(cfg, s);
    Chain(cfg, SecondOpened(), ClientSelected, s, [], s);
    var a := [ClientSelected] + [];
    Chain(cfg, Draining(), Fill("t"), SecondOpened(), a, s);
    var b := [Fill("t")] + a;
    Chain(cfg, Consumed(), DrainTraining, Draining(), b, s);
    FirstDelivered([DrainTraining] + b, s);
  }

  // ---------------------------------------------------------------- tasks of a live environment

  /** Two single-rollout groups of a live environment, with no off-policy step allowed. */
  function LiveConfig(): Config { Config(2, 0, map["t" := EnvSpec(1, false, true)], map[]) }

  function G(unscheduled: nat, pinned: bool): Group { Group(Train, "t", 1, unscheduled, 0, None, 0, pinned, 1) }

  function Task(gid: Gid, age: nat): Meta { Meta(gid, Train, "t", gid, 0, 1, age, None) }

  /** Nothing, one or two tasks in flight, the loop at its top. */
  function Flying(n: nat): State
    requires n <= 2
  {
    Init(0).(permits := n, nextTask := n, store := seq(n, _ => G(0, true)), groups := seq(n, i => i), lost := seq(n, _ => 0),
             inflight := seq(n, i requires 0 <= i => Task(i, 0)))
  }

  function Choosing(n: nat): State
    requires n < 2
  {
    Flying(n).(store := Flying(n).store + [G(1, false)], groups := Flying(n).groups + [n], lost := Flying(n).lost + [0],
               loop := Selecting(n))
  }

  function Limited(n: nat): State
    requires n < 2
  {
    Choosing(n).(store := Flying(n).store + [G(0, true)], loop := Acquiring(n, 1, 0))
  }

  lemma OpensOne(n: nat)
    requires n < 2
    ensures Takes(LiveConfig(), Flying(n), Fill("t"), Choosing(n))
  {
  }

  lemma SelectsOne(n: nat)
    requires n < 2
    ensures Takes(LiveConfig(), Choosing(n), ClientSelected, Limited(n))
  {
  }

  lemma RegistersOne(n: nat)
    requires n < 2
    ensures Takes(LiveConfig(), Limited(n), LimiterPassed, Flying(n + 1))
  {
  }

  /** One more task in flight. */
  lemma OneMore(n: nat, es: seq<Event>, t: State) returns (fs: seq<Event>)
    requires n < 2 && Leads(LiveConfig(), Flying(n + 1), es, t)
    ensures Leads(LiveConfig(), Flying(n), fs, t)
  {
    hide Takes, Leads, LiveConfig, Flying, Choosing, Limited;
    var cfg := LiveConfig();
    OpensOne(n);
    SelectsOne(n);
    RegistersOne(n);
    Chain(cfg, Limited(n), LimiterPassed, Flying(n + 1), es, t);
    var a := [LimiterPassed] + es;
    Chain(cfg, Choosing(n), ClientSelected, Limited(n), a, t);
    var b := [ClientSelected] + a;
    Chain(cfg, Flying(n), Fill("t"), Choosing(n), b, t);
    fs := [Fill("t")] + b;
  }

  lemma StartsFlying()
    ensures Init(0) == Flying(0) && LiveConfig().Valid()
  {
  }

  // ---------------------------------------------------------------- a cancelled task is not emitted

  function Cancelled(): State { Flying(1).(permits := 0, inflight := [], lost := [1]) }

  lemma Cancels()
    ensures Takes(LiveConfig(), Flying(1), Complete(0, TaskCancelled), Cancelled())
  {
    assert Flying(1).inflight == [Task(0, 0)] && IndexOf([Task(0, 0)], 0) == 0 && Without([Task(0, 0)], 0) == [];
    assert Flying(1).lost[0 := 1] == [1];
  }

  ghost predicate NothingOwedNotEmitted(cfg: Config, s: State) {
    |s.store| == 1 && s.store[0].target == 1 && OwingIn(s, 0) == 0 && CountOf(s.log, 0) == 0
  }

  lemma CancelledOwesNothing()
    ensures NothingOwedNotEmitted(LiveConfig(), Cancelled())
  {
    assert LoadOf([], 0) == 0;
  }

  /** Not every dispatched rollout reaches the queue: a task cancelled from outside leaves its group
      with nothing owed and nothing emitted. */
  lemma CancelledNeverEmitted()
    ensures exists es, s :: Leads(LiveConfig(), Init(0), es, s) && NothingOwedNotEmitted(LiveConfig(), s)
  {
    StartsFlying();
    hide Takes, Leads, LiveConfig, Flying, Cancelled, NothingOwedNotEmitted;
    var cfg, s := LiveConfig(), Cancelled();
    CancelledOwesNothing();
    Cancels();
    Stop(cfg, s);
    Chain(cfg, Flying(1), Complete(0, TaskCancelled), s, [], s);
    var es := OneMore(0, [Complete(0, TaskCancelled)] + [], s);
    assert Leads(cfg, Init(0), es, s);
  }

  // ---------------------------------------------------------------- one past the limit is reached

  function BothStale(): State {
    Flying(2).(inflight := [Task(0, 1), Task(1, 1)], watcher := Dropping(1, {0, 1}))
  }

  function FirstDropped(): State {
    BothStale().(inflight := [Task(1, 1)], permits := 1, groups := [1],
                 watcher := DropEmitting(1, {1}, 0, true, [Task(0, 1)], Some(Task(0, 1)), false, None))
  }

  const MARKER := Rollout(Train, "t", 0, 0, 1, None, true)
  const LATE := Rollout(Train, "t", 1, 0, 1, None, false)

  function Marked(): State {
    FirstDropped().(store := [G(0, true).(emitted := 1), G(0, true)],
                    watcher := DropEmitting(1, {1}, 0, true, [], Some(Task(0, 1)), false, Some(MARKER)))
  }

  function MarkerOut(): State {
    Marked().(queue := [MARKER], log := [MARKER], watcher := DropEmitting(1, {1}, 0, true, [], Some(Task(0, 1)), false, None))
  }

  /** The dropped group's markers are out; the watcher awaits the cancelled tasks. */
  function Swept(): State { MarkerOut().(watcher := DropEmitting(1, {1}, 0, true, [], Some(Task(0, 1)), true, None)) }

  function SecondDone(): State {
    Swept().(inflight := [], permits := 0, loop := Emitting(Task(1, 1), true, [false], None))
  }

  function SecondCounted(): State {
    SecondDone().(store := [G(0, true).(emitted := 1), G(0, true).(emitted := 1)], groups := [],
                  loop := Emitting(Task(1, 1), true, [], Some(LATE)))
  }

  function SecondOut(): State { SecondCounted().(queue := [MARKER, LATE], log := [MARKER, LATE], loop := AtTop) }

  lemma Ages1()
    ensures Takes(LiveConfig(), Flying(2), VersionPending(1), BothStale())
  {
    var cfg, ms := LiveConfig(), Flying(2).inflight;
    assert AgedAll(cfg, ms) == [Task(0, 1), Task(1, 1)];
    assert Task(0, 1) in AgedAll(cfg, ms) && Task(1, 1) in AgedAll(cfg, ms);
    assert StaleGids(cfg, AgedAll(cfg, ms)) == {0, 1};
  }

  lemma BothStaleShape()
    ensures Shape(LiveConfig(), BothStale()) && LiveConfig().Valid()
  {
    assert BothStale().groups == [0, 1];
  }

  lemma DropLists()
    ensures var ms := [Task(0, 1), Task(1, 1)];
            && WithGid(ms, 0) == [Task(0, 1)] && WithoutGid(ms, 0) == [Task(1, 1)]
            && Load([Task(0, 1)]) == 1 && Owed([Task(0, 1)]) == [Task(0, 1)] && Remove([0, 1], 0) == [1]
  {
    TakesFirst(Task(0, 1), Task(1, 1));
    assert [0, 1][..1] == [0] && [0][..0] == [];
    assert Remove([], 0) == [] && Remove([0], 0) == [];
  }

  lemma {:induction false} TakesFirst(a: Meta, b: Meta)
    requires a.gid == 0 && b.gid != 0 && a.count == 1
    ensures WithGid([a, b], 0) == [a] && WithoutGid([a, b], 0) == [b] && Load([a]) == 1 && Owed([a]) == [a]
  {
    assert [a, b][..1] == [a] && [a][..0] == [];
    assert WithGid([], 0) == [] && WithoutGid([], 0) == [] && Load([]) == 0 && Owed([]) == [];
    assert WithGid([a], 0) == [a] && WithoutGid([a], 0) == [];
    assert Copies(a, 1) == [a];
  }

  lemma Drops1()
    ensures Takes(LiveConfig(), BothStale(), DropGroup(0), FirstDropped())
  {
    hide WithGid, WithoutGid, Load, Owed, Remove, Shape;
    BothStaleShape();
    DropLists();
    assert BothStale().groups == [0, 1] && {0, 1} - {0} == {1};
    assert DropStep(BothStale(), 0) == FirstDropped();
  }

  lemma FirstDroppedShape()
    ensures Shape(LiveConfig(), FirstDropped()) && LiveConfig().Valid()
  {
  }

  lemma Marks1()
    ensures Takes(LiveConfig(), FirstDropped(), DropEmit, Marked())
  {
    FirstDroppedShape();
    hide Shape;
    assert [1][..0] == [] && Remove([], 0) == [] && Remove([1], 0) == [1];
    assert [Task(0, 1)][1..] == [];
    assert FirstDropped().store[0 := G(0, true).(emitted := 1)] == [G(0, true).(emitted := 1), G(0, true)];
    assert DropEmitStep(FirstDropped()) == Marked();
  }

  lemma MarkedShape()
    ensures Shape(LiveConfig(), Marked()) && LiveConfig().Valid()
  {
  }

  lemma MarkerPut()
    ensures Takes(LiveConfig(), Marked(), DropPut, MarkerOut())
  {
    MarkedShape();
    hide Shape;
    assert DropPutStep(Marked()) == MarkerOut();
  }

  lemma MarkerOutShape()
    ensures Shape(LiveConfig(), MarkerOut()) && LiveConfig().Valid()
  {
  }

  lemma Sweeps1()
    ensures Takes(LiveConfig(), MarkerOut(), SweepUnscheduled, Swept())
  {
    MarkerOutShape();
    hide Shape;
    assert Copies(Task(0, 1), 0) == [];
    assert SweepStep(MarkerOut()) == Swept();
  }

  lemma SweptShape()
    ensures Shape(LiveConfig(), Swept()) && LiveConfig().Valid()
  {
  }

  lemma Completes1()
    ensures Takes(LiveConfig(), Swept(), Complete(1, Finished([Trace(false, 1)])), SecondDone())
  {
    SweptShape();
    hide Shape;
    assert IndexOf([Task(1, 1)], 1) == 0 && Without([Task(1, 1)], 0) == [];
    assert FailedFlags([Trace(false, 1)]) == [false];
  }

  lemma SecondDoneShape()
    ensures Shape(LiveConfig(), SecondDone()) && LiveConfig().Valid()
  {
  }

  lemma Counts1()
    ensures Takes(LiveConfig(), SecondDone(), LoopEmit, SecondCounted())
  {
    SecondDoneShape();
    hide Shape;
    assert [1][..0] == [] && Remove([], 1) == [];
    assert Remove([1], 1) == [];
    assert [false][1..] == [];
    assert SecondDone().store[1 := G(0, true).(emitted := 1)] == [G(0, true).(emitted := 1), G(0, true).(emitted := 1)];
    assert LoopEmitStep(SecondDone()) == SecondCounted();
  }

  lemma SecondCountedShape()
    ensures Shape(LiveConfig(), SecondCounted()) && LiveConfig().Valid()
  {
  }

  lemma Puts1()
    ensures Takes(LiveConfig(), SecondCounted(), LoopPut, SecondOut())
  {
    SecondCountedShape();
    hide Shape;
    assert [MARKER] + [LATE] == [MARKER, LATE];
    assert LoopPutStep(SecondCounted()) == SecondOut();
  }

  lemma DropThenFinish(t: State) returns (es: seq<Event>)
    requires t == SecondOut()
    ensures Leads(LiveConfig(), BothStale(), es, t)
  {
    StartsFlying();
    hide Takes, Leads, LiveConfig, BothStale, FirstDropped, Marked, MarkerOut, Swept, SecondDone, SecondCounted, SecondOut;
    var cfg := LiveConfig();
    Drops1();
    Marks1();
    MarkerPut();
    Sweeps1();
    Completes1();
    Counts1();
    Puts1();
    Stop(cfg, t);
    Chain(cfg, SecondCounted(), LoopPut, t, [], t);
    var a := [LoopPut] + [];
    Chain(cfg, SecondDone(), LoopEmit, SecondCounted(), a, t);
    var b := [LoopEmit] + a;
    Chain(cfg, Swept(), Complete(1, Finished([Trace(false, 1)])), SecondDone(), b, t);
    var c := [Complete(1, Finished([Trace(false, 1)]))] + b;
    Chain(cfg, MarkerOut(), SweepUnscheduled, Swept(), c, t);
    var d := [SweepUnscheduled] + c;
    Chain(cfg, Marked(), DropPut, MarkerOut(), d, t);
    var e := [DropPut] + d;
    Chain(cfg, FirstDropped(), DropEmit, Marked(), e, t);
    var f := [DropEmit] + e;
    Chain(cfg, BothStale(), DropGroup(0), FirstDropped(), f, t);
    es := [DropGroup(0)] + f;
  }

  lemma LateIsOut()
    ensures LATE in SecondOut().log && LATE.offPolicy == LiveConfig().maxOffPolicy + 1
  {
    assert SecondOut().log[1] == LATE;
  }

  lemma LeadsToLate() returns (fs: seq<Event>)
    ensures Leads(LiveConfig(), Flying(0), fs, SecondOut())
  {
    Ages1();
    hide *;
    var cfg, t := LiveConfig(), SecondOut();
    var es := DropThenFinish(t);
    Chain(cfg, Flying(2), VersionPending(1), BothStale(), es, t);
    es := OneMore(1, [VersionPending(1)] + es, t);
    fs := OneMore(0, es, t);
  }

  /** The emission bound of one past the limit is reached: a stale task finishes while the watcher
      still awaits the cancelled tasks of an earlier stale group. */
  lemma StalenessIsTight()
    ensures exists es, s :: Leads(LiveConfig(), Init(0), es, s) && exists r :: r in s.log && r.offPolicy == LiveConfig().maxOffPolicy + 1
  {
    StartsFlying();
    LateIsOut();
    var es := LeadsToLate();
    hide *;
    assert Leads(LiveConfig(), Init(0), es, SecondOut());
  }
}
