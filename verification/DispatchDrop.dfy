/** The watcher's and the orchestrator's events keep the dispatcher's invariant. */
module DispatchDrop {
  import opened Common
  import opened Dispatch
  import opened DispatchInvariant
  import opened DispatchSafety

  // ---------------------------------------------------------------- ageing

  lemma {:induction false} AgedLedger(cfg: Config, store: seq<Group>, groups: seq<Gid>, inflight: seq<Meta>, loop: Loop, log: seq<Rollout>,
                   lost: seq<nat>, w: Watcher)
    requires Ledger(store, groups, inflight, loop, Quiet, log, lost) && w.Dropping?
    ensures Ledger(store, groups, AgedAll(cfg, inflight), loop, w, log, lost)
  {
    forall g: Gid ensures LoadOf(AgedAll(cfg, inflight), g) == LoadOf(inflight, g) { AgedKeepsLoad(cfg, inflight, g); }
  }

  lemma {:induction false} AgedAgrees(cfg: Config, store: seq<Group>, inflight: seq<Meta>, nextTask: nat, loop: Loop, log: seq<Rollout>,
                   w: Watcher)
    requires Agree(cfg, store, inflight, nextTask, loop, Quiet, log)
    requires w.Dropping? && w.stale == StaleGids(cfg, AgedAll(cfg, inflight))
    ensures Agree(cfg, store, AgedAll(cfg, inflight), nextTask, loop, w, log)
  {
    hide StoreOk, LoopAgrees, RolloutsOk;
    var aged := AgedAll(cfg, inflight);
    forall i | 0 <= i < |aged| ensures MetaOk(store, aged[i]) { assert MetaOk(store, inflight[i]); }
  }

  lemma {:induction false} AgedStaleness(cfg: Config, inflight: seq<Meta>, loop: Loop, log: seq<Rollout>, next: int)
    requires Staleness(cfg, inflight, loop, Quiet, log)
    ensures var aged := AgedAll(cfg, inflight);
            Staleness(cfg, aged, loop, Dropping(next, StaleGids(cfg, aged)), log)
  {
    hide LoopAge, LogAge;
    var aged := AgedAll(cfg, inflight);
    forall i | 0 <= i < |aged|
      ensures MetaAge(cfg, aged[i])
      ensures aged[i].offPolicy > cfg.maxOffPolicy ==> aged[i].gid in StaleGids(cfg, aged)
    {
      assert MetaAge(cfg, inflight[i]);
      assert aged[i] in aged;
    }
  }

  lemma AgedShape(cfg: Config, s: State, t: State, next: int)
    requires Shape(cfg, s) && s.watcher.Quiet? && t == PendingStep(cfg, s, next)
    ensures Shape(cfg, t)
  {
    forall i | 0 <= i < |t.inflight| ensures t.inflight[i].gid < |t.store| { assert s.inflight[i].gid < |s.store|; }
    forall m | m in t.inflight ensures m.gid < |t.store| {}
  }

  lemma {:induction false} AgedPermits(cfg: Config, permits: int, inflight: seq<Meta>, loop: Loop, store: seq<Group>)
    requires Permits(cfg, permits, inflight, loop, store)
    ensures Permits(cfg, permits, AgedAll(cfg, inflight), loop, store)
  {
    AgedKeepsLoad(cfg, inflight, 0);
  }

  lemma WatcherLive(store: seq<Group>, groups: seq<Gid>, loop: Loop, w: Watcher, w': Watcher, log: seq<Rollout>)
    requires Live(store, groups, loop, w, log) && (w'.DropEmitting? ==> w'.gid !in groups)
    ensures Live(store, groups, loop, w', log)
  {
  }

  lemma PendingKeeps(cfg: Config, s: State, t: State, next: int)
    requires Inv(cfg, s) && s.watcher.Quiet? && s.version < next && t == PendingStep(cfg, s, next)
    ensures Inv(cfg, t)
  {
    hide Shape, Agree, Ledger, Live, Permits, Staleness, Rows, Fifo, StaleGids;
    AgedLedger(cfg, s.store, s.groups, s.inflight, s.loop, s.log, s.lost, t.watcher);
    AgedAgrees(cfg, s.store, s.inflight, s.nextTask, s.loop, s.log, t.watcher);
    AgedStaleness(cfg, s.inflight, s.loop, s.log, next);
    AgedShape(cfg, s, t, next);
    AgedPermits(cfg, s.permits, s.inflight, s.loop, s.store);
    WatcherLive(s.store, s.groups, s.loop, s.watcher, t.watcher, s.log);
  }

  // ---------------------------------------------------------------- the claim phase

  lemma {:induction false} DropLedger(store: seq<Group>, groups: seq<Gid>, inflight: seq<Meta>, loop: Loop, w: Watcher, log: seq<Rollout>,
                   lost: seq<nat>, gid: Gid, w': Watcher)
    requires Ledger(store, groups, inflight, loop, w, log, lost) && w.Dropping? && GidsDistinct(groups)
    requires w'.DropEmitting? && w'.gid == gid && w'.attached == (gid in groups) && !w'.swept && w'.pending.None?
    requires w'.todo == Owed(WithGid(inflight, gid))
    ensures Ledger(store, Remove(groups, gid), WithoutGid(inflight, gid), loop, w', log, lost)
  {
    RemoveSpec(groups, gid);
    ClaimLoad(inflight, gid);
    OwedCounts(WithGid(inflight, gid));
    forall g: Gid | g < |store|
      ensures Owing(store, Remove(groups, gid), WithoutGid(inflight, gid), loop, w', g)
           == Owing(store, groups, inflight, loop, w, g)
    {
      ClaimLoadOf(inflight, gid, g);
    }
  }

  lemma {:induction false} DropLive(store: seq<Group>, groups: seq<Gid>, loop: Loop, w: Watcher, log: seq<Rollout>, gid: Gid, w': Watcher)
    requires Live(store, groups, loop, w, log) && GidsDistinct(groups) && w'.DropEmitting? && w'.gid == gid
    ensures Live(store, Remove(groups, gid), loop, w', log)
  {
    RemoveSpec(groups, gid);
  }

  lemma {:induction false} DropPermits(cfg: Config, permits: int, inflight: seq<Meta>, loop: Loop, store: seq<Group>, gid: Gid)
    requires Permits(cfg, permits, inflight, loop, store)
    ensures Permits(cfg, permits - Load(WithGid(inflight, gid)), WithoutGid(inflight, gid), loop, store)
  {
    ClaimLoad(inflight, gid);
  }

  lemma {:induction false} DropAgrees(cfg: Config, store: seq<Group>, inflight: seq<Meta>, nextTask: nat, loop: Loop, w: Watcher,
                   log: seq<Rollout>, gid: Gid, w': Watcher)
    requires Agree(cfg, store, inflight, nextTask, loop, w, log) && w.Dropping? && gid in w.stale
    requires w'.DropEmitting? && w'.stale == w.stale - {gid} && w'.gid == gid && w'.pending.None? && w'.todo == Owed(WithGid(inflight, gid))
    requires w'.last.Some? ==> w'.last.value in WithGid(inflight, gid)
    ensures Agree(cfg, store, WithoutGid(inflight, gid), nextTask, loop, w', log)
    ensures forall i | 0 <= i < |w'.todo| :: w'.todo[i].gid == gid
  {
    hide StoreOk, LoopAgrees, RolloutsOk;
    ClaimMembers(inflight, gid);
    OwedCounts(WithGid(inflight, gid));
    WithoutGidDistinct(inflight, gid);
    var rest := WithoutGid(inflight, gid);
    forall m | m in inflight ensures MetaOk(store, m) && m.task < nextTask {}
    forall i | 0 <= i < |rest| ensures rest[i] in inflight { assert rest[i] in rest; }
    forall i | 0 <= i < |w'.todo| ensures w'.todo[i] in inflight && w'.todo[i].gid == gid { assert w'.todo[i] in w'.todo; }
  }

  lemma {:induction false} DropStaleness(cfg: Config, inflight: seq<Meta>, loop: Loop, w: Watcher, log: seq<Rollout>, gid: Gid, w': Watcher)
    requires Staleness(cfg, inflight, loop, w, log) && w.Dropping?
    requires w'.DropEmitting? && w'.pending.None? && w'.todo == Owed(WithGid(inflight, gid)) && w'.stale == w.stale - {gid}
    requires w'.last.Some? ==> w'.last.value in WithGid(inflight, gid)
    ensures Staleness(cfg, WithoutGid(inflight, gid), loop, w', log)
  {
    hide LoopAge, LogAge;
    ClaimMembers(inflight, gid);
    OwedCounts(WithGid(inflight, gid));
    var rest := WithoutGid(inflight, gid);
    forall m | m in inflight
      ensures MetaAge(cfg, m) && (m.offPolicy > cfg.maxOffPolicy ==> m.gid in w.stale) {}
    forall i | 0 <= i < |rest| ensures rest[i] in inflight && rest[i].gid != gid { assert rest[i] in rest; }
    forall i | 0 <= i < |w'.todo| ensures MetaAge(cfg, w'.todo[i]) { assert w'.todo[i] in w'.todo; }
  }

  lemma DropShape(cfg: Config, s: State, t: State, gid: Gid)
    requires Shape(cfg, s) && s.watcher.Dropping? && gid in s.watcher.stale && t == DropStep(s, gid)
    requires forall i | 0 <= i < |t.watcher.todo| :: t.watcher.todo[i].gid == gid
    ensures Shape(cfg, t)
  {
    RemoveSpec(s.groups, gid);
    ClaimMembers(s.inflight, gid);
    forall i | 0 <= i < |t.inflight| ensures t.inflight[i].gid < |t.store| { assert t.inflight[i] in t.inflight; }
    forall i | 0 <= i < |t.groups| ensures t.groups[i] < |t.store| { assert t.groups[i] in t.groups; }
  }

  lemma ShapeDistinct(cfg: Config, s: State)
    requires Shape(cfg, s)
    ensures GidsDistinct(s.groups)
  {
  }

  lemma DropKeeps(cfg: Config, s: State, t: State, gid: Gid)
    requires Inv(cfg, s) && s.watcher.Dropping? && gid in s.watcher.stale && t == DropStep(s, gid)
    ensures Inv(cfg, t)
  {
    hide Shape, Agree, Ledger, Live, Permits, Staleness, Rows, Fifo, Owed, WithGid, WithoutGid, Remove, Load;
    ShapeDistinct(cfg, s);
    DropLedger(s.store, s.groups, s.inflight, s.loop, s.watcher, s.log, s.lost, gid, t.watcher);
    DropLive(s.store, s.groups, s.loop, s.watcher, s.log, gid, t.watcher);
    DropPermits(cfg, s.permits, s.inflight, s.loop, s.store, gid);
    DropAgrees(cfg, s.store, s.inflight, s.nextTask, s.loop, s.watcher, s.log, gid, t.watcher);
    DropStaleness(cfg, s.inflight, s.loop, s.watcher, s.log, gid, t.watcher);
    DropShape(cfg, s, t, gid);
  }

  // ---------------------------------------------------------------- marker emission

  lemma {:induction false} RemoveAbsent(gs: seq<Gid>, g: Gid)
    requires g !in gs
    ensures Remove(gs, g) == gs
  {
    if gs != [] {
      RemoveAbsent(gs[..|gs| - 1], g);
      assert gs == gs[..|gs| - 1] + [gs[|gs| - 1]];
    }
  }

  /** Store after the dropper counted an emission on the detached group object. */
  ghost predicate Bumped(store: seq<Group>, store': seq<Group>, g: Gid) {
    g < |store| && (store' == store || store' == store[g := store[g].(emitted := store[g].emitted + 1)])
  }

  lemma DropEmitLedger(store: seq<Group>, groups: seq<Gid>, inflight: seq<Meta>, loop: Loop, w: Watcher, log: seq<Rollout>,
                       lost: seq<nat>, store': seq<Group>, r: Rollout)
    requires Ledger(store, groups, inflight, loop, w, log, lost) && Live(store, groups, loop, w, log)
    requires w.DropEmitting? && w.pending.None? && w.todo != [] && Bumped(store, store', w.gid)
    ensures var w' := w.(todo := w.todo[1..], pending := Some(r));
            Ledger(store', groups, inflight, loop, w', log, lost) && Live(store', groups, loop, w', log)
  {
    var w' := w.(todo := w.todo[1..], pending := Some(r));
    forall h: Gid | h < |store|
      ensures Owing(store', groups, inflight, loop, w', h) == Owing(store, groups, inflight, loop, w, h) && store'[h].target == store[h].target
    {
      BumpedOwing(store, groups, inflight, loop, w, store', r, h);
    }
    DropEmitLive(store, groups, loop, w, log, store', r);
    hide Owing, LoadOf, CountOf, Live, Bumped;
  }

  lemma BumpedOwing(store: seq<Group>, groups: seq<Gid>, inflight: seq<Meta>, loop: Loop, w: Watcher, store': seq<Group>, r: Rollout, h: Gid)
    requires w.DropEmitting? && w.pending.None? && w.todo != [] && Bumped(store, store', w.gid) && h < |store|
    ensures h < |store'| && store'[h].target == store[h].target
    ensures Owing(store', groups, inflight, loop, w.(todo := w.todo[1..], pending := Some(r)), h) == Owing(store, groups, inflight, loop, w, h)
  {
    assert store'[h].toSchedule == store[h].toSchedule;
    hide LoadOf, Bumped;
  }

  lemma DropEmitLive(store: seq<Group>, groups: seq<Gid>, loop: Loop, w: Watcher, log: seq<Rollout>, store': seq<Group>, r: Rollout)
    requires Live(store, groups, loop, w, log)
    requires w.DropEmitting? && w.pending.None? && w.todo != [] && Bumped(store, store', w.gid)
    ensures Live(store', groups, loop, w.(todo := w.todo[1..], pending := Some(r)), log)
  {
    hide CountOf, HandlerPut;
  }

  lemma BumpedIds(store: seq<Group>, store': seq<Group>, g: Gid)
    requires Bumped(store, store', g)
    ensures SameIds(store, store') && |store| == |store'|
  {
  }

  lemma BumpedPermits(cfg: Config, permits: int, inflight: seq<Meta>, loop: Loop, store: seq<Group>, store': seq<Group>, g: Gid)
    requires Permits(cfg, permits, inflight, loop, store) && Bumped(store, store', g)
    ensures Permits(cfg, permits, inflight, loop, store')
  {
  }

  lemma WatcherAdvances(cfg: Config, store: seq<Group>, inflight: seq<Meta>, nextTask: nat, loop: Loop, w: Watcher,
                        log: seq<Rollout>, r: Rollout)
    requires Agree(cfg, store, inflight, nextTask, loop, w, log) && Staleness(cfg, inflight, loop, w, log)
    requires w.DropEmitting? && w.todo != [] && RolloutOk(store, r) && RolloutAge(cfg, r) && r.gid == w.gid
    ensures var w' := w.(todo := w.todo[1..], pending := Some(r));
            Agree(cfg, store, inflight, nextTask, loop, w', log) && Staleness(cfg, inflight, loop, w', log)
  {
    hide StoreOk, MetasOk, TasksOk, LoopAgrees, RolloutsOk, LoopAge, LogAge;
    assert MetasOk(store, w.todo[1..]) by { MetasTail(store, w.todo); }
    assert MetaAges(cfg, w.todo[1..]);
  }

  lemma MetasTail(store: seq<Group>, ms: seq<Meta>)
    requires ms != [] && MetasOk(store, ms)
    ensures MetasOk(store, ms[1..])
  {
  }

  lemma DropFrameShape(cfg: Config, s: State, t: State)
    requires Shape(cfg, s) && s.watcher.DropEmitting? && SameIds(s.store, t.store) && |s.store| == |t.store|
    requires forall g: Gid | g < |s.store| :: t.store[g].toSchedule == s.store[g].toSchedule
    requires t == s.(store := t.store, watcher := t.watcher)
    requires t.watcher.DropEmitting? ==>
               && t.watcher.gid == s.watcher.gid && t.watcher.last == s.watcher.last && t.watcher.stale == s.watcher.stale
               && (forall i | 0 <= i < |t.watcher.todo| :: t.watcher.todo[i].gid == s.watcher.gid)
    requires t.watcher.Dropping? ==> t.watcher.stale == s.watcher.stale
    ensures Shape(cfg, t)
  {
  }

  /** The dropper is about to emit the next marker. */
  ghost predicate MayMark(cfg: Config, s: State) {
    && s.watcher.DropEmitting? && s.watcher.pending.None? && s.watcher.todo != []
    && s.watcher.todo[0].gid == s.watcher.gid < |s.store| && s.watcher.gid !in s.groups
    && MetaOk(s.store, s.watcher.todo[0]) && MetaAge(cfg, s.watcher.todo[0])
    && (forall i | 0 <= i < |s.watcher.todo| :: s.watcher.todo[i].gid == s.watcher.gid)
  }

  /** What emitting a marker writes. */
  lemma DropEmitMark(cfg: Config, s: State, t: State)
    requires MayMark(cfg, s) && t == DropEmitStep(s)
    ensures Bumped(s.store, t.store, s.watcher.gid) && |t.store| == |s.store|
    ensures forall g: Gid | g < |s.store| :: t.store[g].toSchedule == s.store[g].toSchedule
    ensures t.watcher.DropEmitting? && t.watcher.pending.Some?
    ensures t == s.(store := t.store, watcher := s.watcher.(todo := s.watcher.todo[1..], pending := t.watcher.pending))
    ensures var r := t.watcher.pending.value; RolloutOk(s.store, r) && RolloutAge(cfg, r) && r.gid == s.watcher.gid
  {
    RemoveAbsent(s.groups, s.watcher.gid);
    StampAgrees(cfg, s, s.watcher.todo[0], s.watcher.attached, true);
    hide Stamp, RolloutOk, MetaOk;
  }

  lemma DropEmitParts(cfg: Config, s: State, t: State)
    requires Inv(cfg, s) && MayMark(cfg, s) && t == DropEmitStep(s)
    ensures Inv(cfg, t)
  {
    DropEmitMark(cfg, s, t);
    assert s.watcher.DropEmitting? && s.watcher.pending.None? && s.watcher.todo != [];
    assert forall i | 0 <= i < |s.watcher.todo| :: s.watcher.todo[i].gid == s.watcher.gid;
    hide Shape, Agree, Ledger, Live, Permits, Staleness, Gate, Rows, Fifo, RolloutOk, MayMark, DropEmitStep, Bumped, SameIds;
    var w, r := s.watcher, t.watcher.pending.value;
    BumpedIds(s.store, t.store, w.gid);
    IdsKeep(cfg, s, t.store);
    RolloutSameIds(s.store, t.store, r);
    DropEmitLedger(s.store, s.groups, s.inflight, s.loop, w, s.log, s.lost, t.store, r);
    BumpedPermits(cfg, s.permits, s.inflight, s.loop, s.store, t.store, w.gid);
    WatcherAdvances(cfg, t.store, s.inflight, s.nextTask, s.loop, w, s.log, r);
    DropFrameShape(cfg, s, t);
    WatcherGate(s.step, s.version, s.gate, w, t.watcher, t.store);
  }

  lemma WatcherGate(step: int, version: int, gate: bool, w: Watcher, w': Watcher, store: seq<Group>)
    requires Gate(step, version, gate, w, store) && !w.Quiet? && !w'.Quiet? && w'.next == w.next
    ensures Gate(step, version, gate, w', store)
  {
  }

  lemma DropEmitKeeps(cfg: Config, s: State)
    requires Inv(cfg, s) && s.watcher.DropEmitting? && s.watcher.pending.None? && s.watcher.todo != []
    requires s.watcher.todo[0].gid == s.watcher.gid < |s.store|
    ensures Inv(cfg, DropEmitStep(s))
  {
    hide Ledger, Permits, Gate, Rows, Fifo, DropEmitStep;
    assert MayMark(cfg, s);
    DropEmitParts(cfg, s, DropEmitStep(s));
  }

  lemma WatcherFrameAgrees(cfg: Config, store: seq<Group>, inflight: seq<Meta>, nextTask: nat, loop: Loop, w: Watcher,
                           log: seq<Rollout>, w': Watcher)
    requires Agree(cfg, store, inflight, nextTask, loop, w, log) && Staleness(cfg, inflight, loop, w, log)
    requires !w.Quiet? && !w'.Quiet? && w'.stale == w.stale
    requires w'.DropEmitting? ==>
               && w.DropEmitting? && w'.gid == w.gid && w'.last == w.last && w'.pending.None?
               && MetasOk(store, w'.todo) && MetaAges(cfg, w'.todo)
    ensures Agree(cfg, store, inflight, nextTask, loop, w', log) && Staleness(cfg, inflight, loop, w', log)
  {
    hide StoreOk, MetasOk, TasksOk, LoopAgrees, RolloutsOk, MetaAges, LoopAge, LogAge;
  }

  lemma DropPutParts(cfg: Config, s: State, t: State, r: Rollout)
    requires Inv(cfg, s) && s.watcher.DropEmitting? && s.watcher.pending == Some(r) && |s.queue| < cfg.QueueCap()
    requires t == DropPutStep(s)
    requires RolloutOk(s.store, r) && RolloutAge(cfg, r) && r.gid == s.watcher.gid
    requires MetasOk(s.store, s.watcher.todo) && MetaAges(cfg, s.watcher.todo)
    requires forall i | 0 <= i < |s.watcher.todo| :: s.watcher.todo[i].gid == s.watcher.gid
    ensures Inv(cfg, t)
  {
    hide Shape, Agree, Ledger, Live, Permits, Staleness, Gate, Rows, Fifo, RolloutOk, MetasOk, MetaAges;
    DropPutLedger(s.store, s.groups, s.inflight, s.loop, s.watcher, s.log, s.lost, r);
    WatcherFrameAgrees(cfg, s.store, s.inflight, s.nextTask, s.loop, s.watcher, s.log, t.watcher);
    LogAppends(cfg, s.store, s.inflight, s.nextTask, s.loop, t.watcher, s.log, r);
    FifoPut(cfg, s.consumed, s.queue, s.log, r);
    QueueShape(cfg, s, s.(queue := t.queue, log := t.log));
    DropFrameShape(cfg, s.(queue := t.queue, log := t.log), t);
    WatcherGate(s.step, s.version, s.gate, s.watcher, t.watcher, s.store);
  }

  lemma DropPutKeeps(cfg: Config, s: State)
    requires Inv(cfg, s) && s.watcher.DropEmitting? && s.watcher.pending.Some? && |s.queue| < cfg.QueueCap()
    ensures Inv(cfg, DropPutStep(s))
  {
    hide Ledger, Live, Permits, Gate, Rows, Fifo, DropPutStep;
    DropPutParts(cfg, s, DropPutStep(s), s.watcher.pending.value);
  }

  // ---------------------------------------------------------------- sweep and done

  lemma SweepLedger(store: seq<Group>, groups: seq<Gid>, inflight: seq<Meta>, loop: Loop, w: Watcher, log: seq<Rollout>,
                    lost: seq<nat>, w': Watcher)
    requires Ledger(store, groups, inflight, loop, w, log, lost) && w.DropEmitting? && w.gid < |store|
    requires w.todo == [] && !w.swept && w.pending.None?
    requires w'.DropEmitting? && w'.gid == w.gid && w'.swept && w'.pending.None?
    requires |w'.todo| == if w.attached then store[w.gid].toSchedule else 0
    ensures Ledger(store, groups, inflight, loop, w', log, lost)
  {
  }

  lemma DoneLedger(store: seq<Group>, groups: seq<Gid>, inflight: seq<Meta>, loop: Loop, w: Watcher, log: seq<Rollout>,
                   lost: seq<nat>, w': Watcher)
    requires w.DropEmitting? ==> w.todo == [] && w.swept && w.pending.None?
    requires Ledger(store, groups, inflight, loop, w, log, lost)
    requires !w'.DropEmitting?
    ensures Ledger(store, groups, inflight, loop, w', log, lost)
  {
  }

  lemma SweepFacts(cfg: Config, s: State)
    requires Shape(cfg, s) && Agree(cfg, s.store, s.inflight, s.nextTask, s.loop, s.watcher, s.log)
    requires Staleness(cfg, s.inflight, s.loop, s.watcher, s.log) && s.watcher.DropEmitting?
    ensures var t := SweepStep(s);
            && MetasOk(t.store, t.watcher.todo) && MetaAges(cfg, t.watcher.todo)
            && (forall i | 0 <= i < |t.watcher.todo| :: t.watcher.todo[i].gid == s.watcher.gid)
  {
    hide MetaAges, OverdueDoomed, LogAge;
    var t := SweepStep(s);
    forall i | 0 <= i < |t.watcher.todo| ensures MetaAge(cfg, t.watcher.todo[i]) {}
    assert MetaAges(cfg, t.watcher.todo) by { AgesFrom(cfg, t.watcher.todo); }
  }

  lemma AgesFrom(cfg: Config, ms: seq<Meta>)
    requires forall i | 0 <= i < |ms| :: MetaAge(cfg, ms[i])
    ensures MetaAges(cfg, ms)
  {
  }

  lemma SweepKeeps(cfg: Config, s: State, t: State)
    requires Inv(cfg, s) && s.watcher.DropEmitting? && s.watcher.gid < |s.store| && t == SweepStep(s)
    requires s.watcher.pending.None? && s.watcher.todo == [] && !s.watcher.swept
    ensures Inv(cfg, t)
  {
    hide Shape, Agree, Ledger, Live, Permits, Staleness, Gate, Rows, Fifo, MetasOk, MetaAges;
    SweepFacts(cfg, s);
    SweepLedger(s.store, s.groups, s.inflight, s.loop, s.watcher, s.log, s.lost, t.watcher);
    WatcherFrameAgrees(cfg, s.store, s.inflight, s.nextTask, s.loop, s.watcher, s.log, t.watcher);
    DropFrameShape(cfg, s, t);
    LiveSameGid(s.store, s.groups, s.loop, s.watcher, t.watcher, s.log);
    WatcherGate(s.step, s.version, s.gate, s.watcher, t.watcher, s.store);
  }

  lemma LiveSameGid(store: seq<Group>, groups: seq<Gid>, loop: Loop, w: Watcher, w': Watcher, log: seq<Rollout>)
    requires Live(store, groups, loop, w, log)
    requires w'.DropEmitting? ==> w.DropEmitting? && w'.gid == w.gid
    ensures Live(store, groups, loop, w', log)
  {
  }

  lemma DoneKeeps(cfg: Config, s: State, t: State)
    requires Inv(cfg, s) && s.watcher.DropEmitting? && s.watcher.pending.None? && s.watcher.todo == [] && s.watcher.swept
    requires t == s.(watcher := Dropping(s.watcher.next, s.watcher.stale))
    ensures Inv(cfg, t)
  {
    hide Shape, Agree, Ledger, Live, Permits, Staleness, Gate, Rows, Fifo;
    DoneLedger(s.store, s.groups, s.inflight, s.loop, s.watcher, s.log, s.lost, t.watcher);
    WatcherFrameAgrees(cfg, s.store, s.inflight, s.nextTask, s.loop, s.watcher, s.log, t.watcher);
    DropFrameShape(cfg, s, t);
    LiveSameGid(s.store, s.groups, s.loop, s.watcher, t.watcher, s.log);
    WatcherGate(s.step, s.version, s.gate, s.watcher, t.watcher, s.store);
  }

  // ---------------------------------------------------------------- adoption, shipping, eval triggers, consumption

  lemma AdoptAgrees(cfg: Config, store: seq<Group>, inflight: seq<Meta>, nextTask: nat, loop: Loop, w: Watcher,
                    log: seq<Rollout>)
    requires Agree(cfg, store, inflight, nextTask, loop, w, log) && Staleness(cfg, inflight, loop, w, log)
    requires w.Dropping? && w.stale == {}
    ensures Agree(cfg, store, inflight, nextTask, loop, Quiet, log) && Staleness(cfg, inflight, loop, Quiet, log)
  {
    hide StoreOk, MetasOk, TasksOk, LoopAgrees, RolloutsOk, MetaAges, LoopAge, LogAge;
  }

  lemma QuietShape(cfg: Config, s: State, t: State)
    requires Shape(cfg, s) && t == s.(watcher := Quiet)
    ensures Shape(cfg, t)
  {
  }

  lemma AdoptKeeps(cfg: Config, s: State, t: State)
    requires Inv(cfg, s) && s.watcher.Dropping? && s.watcher.stale == {} && t == AdoptStep(s)
    ensures Inv(cfg, t)
  {
    hide Shape, Agree, Ledger, Live, Permits, Staleness, Rows, Fifo;
    AdoptAgrees(cfg, s.store, s.inflight, s.nextTask, s.loop, s.watcher, s.log);
    DoneLedger(s.store, s.groups, s.inflight, s.loop, s.watcher, s.log, s.lost, Quiet);
    WatcherLive(s.store, s.groups, s.loop, s.watcher, Quiet, s.log);
    QuietShape(cfg, s, s.(watcher := Quiet));
    QueueShape(cfg, s.(watcher := Quiet), t);
  }

  lemma ShipKeeps(cfg: Config, s: State, t: State)
    requires Inv(cfg, s) && t == ShipStep(s)
    ensures Inv(cfg, t)
  {
    hide Shape, Agree, Ledger, Live, Permits, Staleness, Rows, Fifo;
    QueueShape(cfg, s, t);
    forall g: Gid | g < |s.store| ensures GroupGated(t.store[g], t.step, t.version) {
      assert GroupGated(s.store[g], s.step, s.version);
    }
  }

  lemma TriggerKeeps(cfg: Config, s: State, t: State, rows: seq<Row>)
    requires Inv(cfg, s) && (forall i | 0 <= i < |rows| :: rows[i].env in cfg.eval)
    requires t == s.(evalQueue := s.evalQueue + rows, triggered := s.triggered + rows, mode := PreferEval)
    ensures Inv(cfg, t)
  {
    hide Agree, Ledger, Live, Permits, Staleness, Gate, Fifo;
    assert OpenedRows(s.store) + (s.evalQueue + rows) == OpenedRows(s.store) + s.evalQueue + rows;
  }

  lemma ConsumeKeeps(cfg: Config, s: State, t: State)
    requires Inv(cfg, s) && s.queue != []
    requires t == s.(queue := s.queue[1..], consumed := s.consumed + [s.queue[0]])
    ensures Inv(cfg, t)
  {
    hide Shape, Agree, Ledger, Live, Permits, Staleness, Gate, Rows;
    QueueShape(cfg, s, t);
    assert s.consumed + [s.queue[0]] + s.queue[1..] == s.consumed + s.queue;
  }

  // ---------------------------------------------------------------- draining

  lemma {:induction false} DrainLedger(store: seq<Group>, groups: seq<Gid>, inflight: seq<Meta>, loop: Loop, w: Watcher, log: seq<Rollout>,
                    lost: seq<nat>, lost': seq<nat>)
    requires Ledger(store, groups, inflight, loop, w, log, lost) && GidsDistinct(groups) && |lost'| == |store|
    requires var cut := OfKind(inflight, Train);
             forall g: Gid | g < |store| ::
               lost'[g] == lost[g] + LoadOf(cut, g) + (if g in GidsOf(cut) && g in groups then store[g].toSchedule else 0)
    ensures Ledger(store, RemoveAll(groups, GidsOf(OfKind(inflight, Train))), OfKind(inflight, Eval), loop, w, log, lost')
  {
    var cut := OfKind(inflight, Train);
    RemoveAllSpec(groups, GidsOf(cut));
    forall g: Gid | g < |store|
      ensures Owing(store, RemoveAll(groups, GidsOf(cut)), OfKind(inflight, Eval), loop, w, g) + lost'[g]
           == Owing(store, groups, inflight, loop, w, g) + lost[g]
    {
      KindSplits(inflight, g);
    }
  }

  lemma {:induction false} DrainLive(store: seq<Group>, groups: seq<Gid>, loop: Loop, w: Watcher, log: seq<Rollout>, dead: set<Gid>)
    requires Live(store, groups, loop, w, log) && GidsDistinct(groups)
    ensures Live(store, RemoveAll(groups, dead), loop, w, log)
  {
    RemoveAllSpec(groups, dead);
  }

  lemma {:induction false} DrainPermits(cfg: Config, permits: int, inflight: seq<Meta>, loop: Loop, store: seq<Group>)
    requires Permits(cfg, permits, inflight, loop, store)
    ensures Permits(cfg, permits - Load(OfKind(inflight, Train)), OfKind(inflight, Eval), loop, store)
  {
    KindSplits(inflight, 0);
  }

  lemma {:induction false} DrainAgrees(cfg: Config, store: seq<Group>, inflight: seq<Meta>, nextTask: nat, loop: Loop, w: Watcher,
                    log: seq<Rollout>)
    requires Agree(cfg, store, inflight, nextTask, loop, w, log) && Staleness(cfg, inflight, loop, w, log)
    ensures Agree(cfg, store, OfKind(inflight, Eval), nextTask, loop, w, log)
    ensures Staleness(cfg, OfKind(inflight, Eval), loop, w, log)
  {
    hide StoreOk, LoopAgrees, RolloutsOk, WatcherAgrees, LoopAge, WatcherAge, LogAge;
    KindMembers(inflight, Eval);
    OfKindDistinct(inflight, Eval);
    var rest := OfKind(inflight, Eval);
    forall m | m in inflight
      ensures MetaOk(store, m) && m.task < nextTask && MetaAge(cfg, m)
           && (m.offPolicy > cfg.maxOffPolicy ==> !w.Quiet? && m.gid in w.stale) {}
    forall i | 0 <= i < |rest| ensures rest[i] in inflight { assert rest[i] in rest; }
  }

  lemma DrainShape(cfg: Config, s: State, t: State)
    requires Shape(cfg, s) && t == DrainStep(s)
    ensures Shape(cfg, t)
  {
    KindMembers(s.inflight, Eval);
    RemoveAllSpec(s.groups, GidsOf(OfKind(s.inflight, Train)));
    forall i | 0 <= i < |t.inflight| ensures t.inflight[i].gid < |t.store| { assert t.inflight[i] in t.inflight; }
    forall i | 0 <= i < |t.groups| ensures t.groups[i] < |t.store| { assert t.groups[i] in t.groups; }
  }

  lemma DrainKeeps(cfg: Config, s: State, t: State)
    requires Inv(cfg, s) && Shape(cfg, s) && t == DrainStep(s)
    ensures Inv(cfg, t)
  {
    DrainShape(cfg, s, t);
    ShapeDistinct(cfg, s);
    DrainParts(cfg, s, t);
  }

  lemma DrainParts(cfg: Config, s: State, t: State)
    requires Inv(cfg, s) && |s.lost| == |s.store| && (forall i | 0 <= i < |s.groups| :: s.groups[i] < |s.store|)
    requires GidsDistinct(s.groups) && t == DrainStep(s) && Shape(cfg, t)
    ensures Inv(cfg, t)
  {
    hide Shape, Agree, Ledger, Live, Permits, Staleness, Gate, Rows, Fifo, OfKind, RemoveAll, GidsOf, Load, LoadOf, GidsDistinct;
    DrainLedger(s.store, s.groups, s.inflight, s.loop, s.watcher, s.log, s.lost, t.lost);
    DrainLive(s.store, s.groups, s.loop, s.watcher, s.log, GidsOf(OfKind(s.inflight, Train)));
    DrainPermits(cfg, s.permits, s.inflight, s.loop, s.store);
    DrainAgrees(cfg, s.store, s.inflight, s.nextTask, s.loop, s.watcher, s.log);
  }
}
