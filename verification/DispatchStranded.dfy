/** A run of the program's own loop that strands part of a train group for good.

    The capacity is one rollout.  A rollout of environment "a" is emitted, consumed and shipped while
    the loop selects a client for the first of two rollouts of environment "b"; the eval triggered by
    that shipment is scored as a group of two, which never fits, and keeps eval preferred. */
module DispatchStranded {
  import opened Common
  import opened Dispatch
  import opened DispatchInvariant
  import opened DispatchRuns
  import opened DispatchWitness
  import DispatchPaths
  import DispatchLiveness

  function SmallConfig(): Config {
    Config(1, 1, map["a" := EnvSpec(1, false, true), "b" := EnvSpec(2, false, true)], map["e" := EnvSpec(2, true, true)])
  }

  const EPOCH := Row("e", 2)
  const ALPHA := Meta(0, Train, "a", 0, 0, 1, 0, None)
  const BETA := Meta(1, Train, "b", 1, 0, 1, 0, None)
  const ALPHA_OUT := Rollout(Train, "a", 0, 0, 0, None, false)
  const BETA_OUT := Rollout(Train, "b", 1, 0, 0, None, false)

  function A(unscheduled: nat, emitted: nat, pinned: bool): Group { Group(Train, "a", 1, unscheduled, emitted, None, 0, pinned, 1) }

  function B(unscheduled: nat, emitted: nat, pinned: bool): Group { Group(Train, "b", 2, unscheduled, emitted, None, 0, pinned, 1) }

  function AOpened(): State { Init(0).(store := [A(1, 0, false)], groups := [0], lost := [0], loop := Selecting(0)) }

  function AAcquired(): State { AOpened().(store := [A(0, 0, true)], loop := Acquiring(0, 1, 0)) }

  function ARegistered(): State { AAcquired().(permits := 1, inflight := [ALPHA], nextTask := 1, loop := AtTop) }

  function ADone(): State { ARegistered().(permits := 0, inflight := [], loop := Emitting(ALPHA, true, [false], None)) }

  function ACounted(): State {
    ADone().(store := [A(0, 1, true)], groups := [], loop := Emitting(ALPHA, true, [], Some(ALPHA_OUT)))
  }

  function AOut(): State { ACounted().(queue := [ALPHA_OUT], log := [ALPHA_OUT], loop := AtTop) }

  function BOpened(): State {
    AOut().(store := [A(0, 1, true), B(2, 0, false)], groups := [1], lost := [0, 0], loop := Selecting(1))
  }

  function AConsumed(): State { BOpened().(queue := [], consumed := [ALPHA_OUT]) }

  function AShipped(): State { AConsumed().(step := 2) }

  function EvalDue(): State { AShipped().(evalQueue := [EPOCH], triggered := [EPOCH], mode := PreferEval) }

  function BAcquired(): State { EvalDue().(store := [A(0, 1, true), B(1, 0, true)], loop := Acquiring(1, 1, 0)) }

  function BRegistered(): State { BAcquired().(permits := 1, inflight := [BETA], nextTask := 2, loop := AtTop) }

  function BDone(): State { BRegistered().(permits := 0, inflight := [], loop := Emitting(BETA, true, [false], None)) }

  function BCounted(): State {
    BDone().(store := [A(0, 1, true), B(1, 1, true)], loop := Emitting(BETA, true, [], Some(BETA_OUT)))
  }

  function BOut(): State { BCounted().(queue := [BETA_OUT], log := [ALPHA_OUT, BETA_OUT], loop := AtTop) }

  // ---------------------------------------------------------------- step by step

  lemma AOpens()
    ensures Takes(SmallConfig(), Init(0), Fill("a"), AOpened())
  {
  }

  lemma ASelects()
    ensures Takes(SmallConfig(), AOpened(), ClientSelected, AAcquired())
  {
  }

  lemma ARegisters()
    ensures Takes(SmallConfig(), AAcquired(), LimiterPassed, ARegistered())
  {
  }

  lemma AFull()
    ensures Takes(SmallConfig(), ARegistered(), Fill("a"), ARegistered())
  {
  }

  lemma ACompletes()
    ensures Takes(SmallConfig(), ARegistered(), Complete(0, Finished([Trace(false, 1)])), ADone())
  {
    assert IndexOf([ALPHA], 0) == 0 && Without([ALPHA], 0) == [];
    assert FailedFlags([Trace(false, 1)]) == [false];
  }

  lemma ADoneShape()
    ensures Shape(SmallConfig(), ADone()) && SmallConfig().Valid()
  {
  }

  lemma ACounts()
    ensures Takes(SmallConfig(), ADone(), LoopEmit, ACounted())
  {
    ADoneShape();
    hide Shape;
    assert [0][..0] == [] && Remove([], 0) == [] && Remove([0], 0) == [];
    assert [false][1..] == [];
    assert ADone().store[0 := A(0, 1, true)] == [A(0, 1, true)];
    assert LoopEmitStep(ADone()) == ACounted();
  }

  lemma APuts()
    ensures Takes(SmallConfig(), ACounted(), LoopPut, AOut())
  {
  }

  lemma BOpens()
    ensures Takes(SmallConfig(), AOut(), Fill("b"), BOpened())
  {
    assert AOut().store + [B(2, 0, false)] == [A(0, 1, true), B(2, 0, false)] && [0] + [0] == [0, 0];
  }

  lemma BOpenedShape()
    ensures Shape(SmallConfig(), BOpened()) && SmallConfig().Valid()
  {
  }

  lemma AIsConsumed()
    ensures Takes(SmallConfig(), BOpened(), Consume, AConsumed())
  {
    BOpenedShape();
    hide Shape;
    assert [ALPHA_OUT][1..] == [];
  }

  lemma AShips()
    ensures Takes(SmallConfig(), AConsumed(), Ship, AShipped())
  {
  }

  lemma EvalTriggers()
    ensures Takes(SmallConfig(), AShipped(), TriggerEval([EPOCH]), EvalDue())
  {
  }

  lemma EvalDueShape()
    ensures Shape(SmallConfig(), EvalDue()) && SmallConfig().Valid()
  {
  }

  lemma BSelects()
    ensures Takes(SmallConfig(), EvalDue(), ClientSelected, BAcquired())
  {
    EvalDueShape();
    hide Shape;
    assert EvalDue().groups[0] == 1;
    assert EvalDue().store[1 := B(1, 0, true)] == [A(0, 1, true), B(1, 0, true)];
  }

  lemma BRegisters()
    ensures Takes(SmallConfig(), BAcquired(), LimiterPassed, BRegistered())
  {
  }

  lemma BFull()
    ensures Takes(SmallConfig(), BRegistered(), Fill("b"), BRegistered())
  {
  }

  lemma BRegisteredShape()
    ensures Shape(SmallConfig(), BRegistered()) && SmallConfig().Valid()
  {
  }

  lemma BCompletes()
    ensures Takes(SmallConfig(), BRegistered(), Complete(1, Finished([Trace(false, 1)])), BDone())
  {
    BRegisteredShape();
    hide Shape;
    assert IndexOf([BETA], 1) == 0 && Without([BETA], 0) == [];
    assert FailedFlags([Trace(false, 1)]) == [false];
  }

  lemma BDoneShape()
    ensures Shape(SmallConfig(), BDone()) && SmallConfig().Valid()
  {
  }

  lemma BCounts()
    ensures Takes(SmallConfig(), BDone(), LoopEmit, BCounted())
  {
    BDoneShape();
    hide Shape;
    assert [false][1..] == [];
    assert BDone().store[1 := B(1, 1, true)] == [A(0, 1, true), B(1, 1, true)];
    assert LoopEmitStep(BDone()) == BCounted();
  }

  lemma BCountedShape()
    ensures Shape(SmallConfig(), BCounted()) && SmallConfig().Valid()
  {
  }

  lemma BPuts()
    ensures Takes(SmallConfig(), BCounted(), LoopPut, BOut())
  {
    BCountedShape();
    hide Shape;
    assert [ALPHA_OUT] + [BETA_OUT] == [ALPHA_OUT, BETA_OUT];
    assert LoopPutStep(BCounted()) == BOut();
  }

  // ---------------------------------------------------------------- the whole run

  /** A lossless run in which the loop handles completions only after filling. */
  ghost predicate Plays(cfg: Config, s: State, es: seq<Event>, t: State, filled: bool) {
    Leads(cfg, s, es, t) && DispatchPaths.Lossless(es) && DispatchPaths.Orderly(cfg, s, es, filled)
  }

  lemma Before(cfg: Config, s: State, e: Event, t: State, es: seq<Event>, u: State, filled: bool, next: bool)
    requires Takes(cfg, s, e, t) && Plays(cfg, t, es, u, next) && !MayLose(e) && (e.Complete? ==> filled)
    requires next ==> if e.Fill? then t == s else filled
    ensures Plays(cfg, s, [e] + es, u, filled)
  {
    Chain(cfg, s, e, t, es, u);
    var all := [e] + es;
    assert all[0] == e && all[1..] == es;
    if !next { DispatchPaths.OrderlyMore(cfg, t, es, if e.Fill? then t == s else filled); }
    hide Shape, Enabled, Step, MayLose;
    assert DispatchPaths.Orderly(cfg, s, all, filled);
  }

  /** Half of group 1 has been emitted; nothing is under way; the other half is owed, and never delivered. */
  ghost predicate HalfStranded(cfg: Config, s: State) {
    && |s.store| == 2 && s.store[1].kind.Train? && s.store[1].target == 2 && !s.trainDisabled
    && s.loop.AtTop? && s.watcher.Quiet? && s.inflight == []
    && OwingIn(s, 1) == 1 && CountOf(s.log, 1) == 1
    && DispatchLiveness.Stuck(cfg, s, 1)
  }

  /** What of the last state the verdict needs. */
  ghost predicate Remains(s: State) {
    && s.store == [A(0, 1, true), B(1, 1, true)] && s.groups == [1] && s.inflight == [] && s.loop.AtTop? && s.watcher.Quiet?
    && s.log == [ALPHA_OUT, BETA_OUT] && s.evalQueue == [EPOCH] && !s.trainDisabled
  }

  lemma BOutRemains()
    ensures Remains(BOut())
  {
  }

  lemma NeverFits()
    ensures DispatchLiveness.Oversize(SmallConfig(), EPOCH) && "b" in SmallConfig().train
  {
  }

  lemma RemainsStuck(s: State)
    requires Remains(s)
    ensures DispatchLiveness.Stuck(SmallConfig(), s, 1)
  {
    NeverFits();
    hide SmallConfig, DispatchLiveness.Oversize;
    assert s.evalQueue[0] == EPOCH && s.groups[0] == 1;
    assert DispatchLiveness.TrainShut(SmallConfig(), s.trainDisabled, s.evalQueue);
    assert DispatchLiveness.Waits(SmallConfig(), s.store, s.groups, 1);
  }

  lemma OneEmitted()
    ensures CountOf([ALPHA_OUT, BETA_OUT], 1) == 1
  {
    CountOne([ALPHA_OUT], BETA_OUT, 1);
    CountOne([], ALPHA_OUT, 1);
    assert [] + [ALPHA_OUT] == [ALPHA_OUT] && [ALPHA_OUT] + [BETA_OUT] == [ALPHA_OUT, BETA_OUT];
  }

  lemma OneOwed(s: State)
    requires Remains(s)
    ensures OwingIn(s, 1) == 1
  {
    assert s.groups[0] == 1;
    assert LoadOf([], 1) == 0;
  }

  lemma BOutIsStranded()
    ensures HalfStranded(SmallConfig(), BOut())
  {
    BOutRemains();
    RemainsStuck(BOut());
    OneOwed(BOut());
    OneEmitted();
    hide OwingIn, CountOf, DispatchLiveness.Stuck, BOut;
  }

  lemma SecondHalf() returns (es: seq<Event>)
    ensures Plays(SmallConfig(), AOut(), es, BOut(), false)
  {
    hide Takes, Plays, SmallConfig, AOut, BOpened, AConsumed, AShipped, EvalDue, BAcquired, BRegistered, BDone, BCounted, BOut;
    var cfg, t := SmallConfig(), BOut();
    BOpens();
    AIsConsumed();
    AShips();
    EvalTriggers();
    BSelects();
    BRegisters();
    BFull();
    BCompletes();
    BCounts();
    BPuts();
    es := [];
    Ends();
    Before(cfg, BCounted(), LoopPut, BOut(), es, t, false, false);
    es := [LoopPut] + es;
    Before(cfg, BDone(), LoopEmit, BCounted(), es, t, false, false);
    es := [LoopEmit] + es;
    Before(cfg, BRegistered(), Complete(1, Finished([Trace(false, 1)])), BDone(), es, t, true, false);
    es := [Complete(1, Finished([Trace(false, 1)]))] + es;
    Before(cfg, BRegistered(), Fill("b"), BRegistered(), es, t, false, true);
    es := [Fill("b")] + es;
    Before(cfg, BAcquired(), LimiterPassed, BRegistered(), es, t, false, false);
    es := [LimiterPassed] + es;
    Before(cfg, EvalDue(), ClientSelected, BAcquired(), es, t, false, false);
    es := [ClientSelected] + es;
    Before(cfg, AShipped(), TriggerEval([EPOCH]), EvalDue(), es, t, false, false);
    es := [TriggerEval([EPOCH])] + es;
    Before(cfg, AConsumed(), Ship, AShipped(), es, t, false, false);
    es := [Ship] + es;
    Before(cfg, BOpened(), Consume, AConsumed(), es, t, false, false);
    es := [Consume] + es;
    Before(cfg, AOut(), Fill("b"), BOpened(), es, t, false, false);
    es := [Fill("b")] + es;
  }

  lemma Ends()
    ensures Plays(SmallConfig(), BOut(), [], BOut(), false)
  {
  }

  /** Not every rollout of an opened group can be delivered: with training enabled and nothing under way, a
      run that lost nothing leaves a group that no continuation ever delivers. */
  lemma Stranded() returns (es: seq<Event>, s: State)
    ensures Leads(SmallConfig(), Init(0), es, s) && DispatchPaths.Lossless(es) && DispatchPaths.Orderly(SmallConfig(), Init(0), es, false)
    ensures HalfStranded(SmallConfig(), s)
  {
    hide Takes, Plays, SmallConfig, AOpened, AAcquired, ARegistered, ADone, ACounted, AOut, BOut, HalfStranded;
    var cfg, t := SmallConfig(), BOut();
    AOpens();
    ASelects();
    ARegisters();
    AFull();
    ACompletes();
    ACounts();
    APuts();
    es := SecondHalf();
    Before(cfg, ACounted(), LoopPut, AOut(), es, t, false, false);
    es := [LoopPut] + es;
    Before(cfg, ADone(), LoopEmit, ACounted(), es, t, false, false);
    es := [LoopEmit] + es;
    Before(cfg, ARegistered(), Complete(0, Finished([Trace(false, 1)])), ADone(), es, t, true, false);
    es := [Complete(0, Finished([Trace(false, 1)]))] + es;
    Before(cfg, ARegistered(), Fill("a"), ARegistered(), es, t, false, true);
    es := [Fill("a")] + es;
    Before(cfg, AAcquired(), LimiterPassed, ARegistered(), es, t, false, false);
    es := [LimiterPassed] + es;
    Before(cfg, AOpened(), ClientSelected, AAcquired(), es, t, false, false);
    es := [ClientSelected] + es;
    Before(cfg, Init(0), Fill("a"), AOpened(), es, t, false, false);
    es := [Fill("a")] + es;
    s := t;
    BOutIsStranded();
    PlaysIs(cfg, Init(0), es, s);
  }

  lemma {:induction false} PlaysIs(cfg: Config, s: State, es: seq<Event>, t: State)
    requires Plays(cfg, s, es, t, false)
    ensures Leads(cfg, s, es, t) && DispatchPaths.Lossless(es) && DispatchPaths.Orderly(cfg, s, es, false)
  {
  }
}
