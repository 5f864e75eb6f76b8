/** What every event of the dispatcher keeps, whichever coroutine runs it.

    Each clause of the invariant takes only the fields it is about, so an event that leaves
    those fields alone keeps the clause for free. */
module DispatchInvariant {
  import opened Common
  import opened Dispatch

  // ---------------------------------------------------------------- the per-group ledger

  function Unscheduled(store: seq<Group>, groups: seq<Gid>, g: Gid): nat
    requires g < |store|
  {
    if g in groups then store[g].toSchedule else 0
  }

  /** Taken out of the group, not yet registered: the scheduler is inside `acquire`. */
  function Reserved(loop: Loop, g: Gid): nat {
    if loop.Acquiring? && loop.gid == g then loop.need else 0
  }

  function Waiting(pending: Option<Rollout>): nat { if pending.Some? then 1 else 0 }

  /** Held by the dispatch loop between a task's completion and its last `put`. */
  function InHandler(loop: Loop, g: Gid): nat {
    if loop.Emitting? && loop.meta.gid == g then |loop.todo| + Waiting(loop.pending) else 0
  }

  /** Held by `drop_group` between its claim phase and its last `put`. */
  function InDropper(store: seq<Group>, w: Watcher, g: Gid): nat
    requires g < |store|
  {
    if w.DropEmitting? && w.gid == g then
      |w.todo| + Waiting(w.pending) + (if w.attached && !w.swept then store[g].toSchedule else 0)
    else 0
  }

  /** Rollouts of group `g` that the dispatcher still owes its sink, wherever they are. */
  function Owing(store: seq<Group>, groups: seq<Gid>, inflight: seq<Meta>, loop: Loop, w: Watcher, g: Gid): nat
    requires g < |store|
  {
    Unscheduled(store, groups, g) + Reserved(loop, g) + LoadOf(inflight, g) + InHandler(loop, g) + InDropper(store, w, g)
  }

  ghost predicate Ledger(store: seq<Group>, groups: seq<Gid>, inflight: seq<Meta>, loop: Loop, w: Watcher,
                         log: seq<Rollout>, lost: seq<nat>)
  {
    |lost| == |store| &&
    forall g: Gid | g < |store| ::
      store[g].target == Owing(store, groups, inflight, loop, w, g) + CountOf(log, g) + lost[g]
  }

  /** Emissions of group `g` that started in the handler and wait for room in the queue. */
  function HandlerPut(loop: Loop, g: Gid): nat {
    if loop.Emitting? && loop.meta.gid == g then Waiting(loop.pending) else 0
  }

  /** For a group still in the dictionary, the `emitted` field counts every started emission. */
  ghost predicate Live(store: seq<Group>, groups: seq<Gid>, loop: Loop, w: Watcher, log: seq<Rollout>) {
    && (forall g: Gid | g < |store| && g in groups ::
          store[g].emitted < store[g].target && store[g].emitted == CountOf(log, g) + HandlerPut(loop, g))
    && (loop.Emitting? && !loop.attached ==> loop.meta.gid !in groups)
    && (w.DropEmitting? ==> w.gid !in groups)
  }

  // ---------------------------------------------------------------- metadata

  ghost predicate MetaOk(store: seq<Group>, m: Meta) {
    && m.gid < |store| && 1 <= m.count
    && m.kind == store[m.gid].kind && m.env == store[m.gid].env
    && m.version == store[m.gid].version && m.evalStep == store[m.gid].evalStep
  }

  ghost predicate MetasOk(store: seq<Group>, ms: seq<Meta>) {
    forall i | 0 <= i < |ms| :: MetaOk(store, ms[i])
  }

  ghost predicate RolloutOk(store: seq<Group>, r: Rollout) {
    && r.gid < |store|
    && r.kind == store[r.gid].kind && r.env == store[r.gid].env
    && r.version == store[r.gid].version && r.evalStep == store[r.gid].evalStep
  }

  ghost predicate RolloutsOk(store: seq<Group>, rs: seq<Rollout>) {
    forall i | 0 <= i < |rs| :: RolloutOk(store, rs[i])
  }

  ghost predicate StoreOk(cfg: Config, store: seq<Group>) {
    forall g: Gid | g < |store| ::
      && store[g].env in cfg.Envs(store[g].kind)
      && store[g].target == SpecOf(cfg, store[g]).groupSize
      && store[g].evalStep.Some? == store[g].kind.Eval?
  }

  ghost predicate TasksOk(ms: seq<Meta>, nextTask: nat) {
    && (forall i | 0 <= i < |ms| :: ms[i].task < nextTask)
    && (forall i, j | 0 <= i < j < |ms| :: ms[i].task != ms[j].task)
  }

  ghost predicate LoopAgrees(store: seq<Group>, loop: Loop) {
    loop.Emitting? ==>
      && MetaOk(store, loop.meta)
      && (loop.pending.Some? ==> RolloutOk(store, loop.pending.value) && loop.pending.value.gid == loop.meta.gid)
  }

  /** Only train groups are ever dropped. */
  ghost predicate WatcherAgrees(store: seq<Group>, w: Watcher) {
    && (!w.Quiet? ==> forall g | g in w.stale :: g < |store| && store[g].kind.Train?)
    && (w.DropEmitting? ==>
      && w.gid < |store| && store[w.gid].kind.Train?
      && MetasOk(store, w.todo)
      && (w.last.Some? ==> MetaOk(store, w.last.value))
      && (w.pending.Some? ==> RolloutOk(store, w.pending.value) && w.pending.value.gid == w.gid))
  }

  ghost predicate Agree(cfg: Config, store: seq<Group>, inflight: seq<Meta>, nextTask: nat, loop: Loop, w: Watcher,
                        log: seq<Rollout>)
  {
    && StoreOk(cfg, store)
    && MetasOk(store, inflight)
    && TasksOk(inflight, nextTask)
    && LoopAgrees(store, loop)
    && WatcherAgrees(store, w)
    && RolloutsOk(store, log)
  }

  /** Group objects keep the fields captured when they opened. */
  ghost predicate SameIds(a: seq<Group>, b: seq<Group>) {
    |a| <= |b| && forall g: Gid | g < |a| ::
      && a[g].kind == b[g].kind && a[g].env == b[g].env && a[g].target == b[g].target
      && a[g].version == b[g].version && a[g].evalStep == b[g].evalStep && a[g].openStep == b[g].openStep
  }

  lemma OkKept(a: seq<Group>, b: seq<Group>, ms: seq<Meta>, loop: Loop, w: Watcher, rs: seq<Rollout>)
    requires SameIds(a, b) && MetasOk(a, ms) && LoopAgrees(a, loop) && WatcherAgrees(a, w) && RolloutsOk(a, rs)
    ensures MetasOk(b, ms) && LoopAgrees(b, loop) && WatcherAgrees(b, w) && RolloutsOk(b, rs)
  {
    assert forall m | MetaOk(a, m) :: MetaOk(b, m);
    assert forall r | RolloutOk(a, r) :: RolloutOk(b, r);
  }

  // ---------------------------------------------------------------- permits

  /** Permits are the registered tasks' plus those the suspended scheduler already took, and
      what it still needs fits under the capacity. */
  ghost predicate Permits(cfg: Config, permits: int, inflight: seq<Meta>, loop: Loop, store: seq<Group>) {
    && permits == Load(inflight) + (if loop.Acquiring? then loop.taken else 0)
    && Load(inflight) <= cfg.maxInflight
    && (loop.Acquiring? ==> Load(inflight) + loop.need <= cfg.maxInflight)
    && (loop.Selecting? && loop.gid < |store| && store[loop.gid].env in cfg.Envs(store[loop.gid].kind)
        ==> Load(inflight) + Cost(cfg, store[loop.gid]) <= cfg.maxInflight)
  }

  // ---------------------------------------------------------------- staleness

  predicate AgesIn(cfg: Config, kind: Kind, env: Env) { kind.Train? && env in cfg.train && cfg.train[env].live }

  ghost predicate AgeOk(cfg: Config, kind: Kind, env: Env, off: nat) {
    off <= cfg.maxOffPolicy + 1 && (!AgesIn(cfg, kind, env) ==> off == 0)
  }

  ghost predicate MetaAge(cfg: Config, m: Meta) { AgeOk(cfg, m.kind, m.env, m.offPolicy) }

  ghost predicate MetaAges(cfg: Config, ms: seq<Meta>) { forall i | 0 <= i < |ms| :: MetaAge(cfg, ms[i]) }

  ghost predicate RolloutAge(cfg: Config, r: Rollout) { AgeOk(cfg, r.kind, r.env, r.offPolicy) }

  /** A registered task past the limit belongs to a group the watcher is about to drop. */
  ghost predicate OverdueDoomed(cfg: Config, ms: seq<Meta>, w: Watcher) {
    forall i | 0 <= i < |ms| :: ms[i].offPolicy > cfg.maxOffPolicy ==> !w.Quiet? && ms[i].gid in w.stale
  }

  ghost predicate LoopAge(cfg: Config, loop: Loop) {
    loop.Emitting? ==> MetaAge(cfg, loop.meta) && (loop.pending.Some? ==> RolloutAge(cfg, loop.pending.value))
  }

  ghost predicate WatcherAge(cfg: Config, w: Watcher) {
    w.DropEmitting? ==>
      && MetaAges(cfg, w.todo)
      && (w.last.Some? ==> MetaAge(cfg, w.last.value))
      && (w.pending.Some? ==> RolloutAge(cfg, w.pending.value))
  }

  ghost predicate LogAge(cfg: Config, log: seq<Rollout>) { forall i | 0 <= i < |log| :: RolloutAge(cfg, log[i]) }

  ghost predicate Staleness(cfg: Config, inflight: seq<Meta>, loop: Loop, w: Watcher, log: seq<Rollout>) {
    MetaAges(cfg, inflight) && OverdueDoomed(cfg, inflight, w) && LoopAge(cfg, loop) && WatcherAge(cfg, w) && LogAge(cfg, log)
  }

  // ---------------------------------------------------------------- gate, queue, eval rows

  ghost predicate GroupGated(g: Group, step: int, version: int) {
    g.version <= version && g.openStep <= step && (g.kind.Train? ==> GateFor(g.openStep, g.version))
  }

  ghost predicate Gate(step: int, version: int, gate: bool, w: Watcher, store: seq<Group>) {
    && gate == GateFor(step, version)
    && (!w.Quiet? ==> version < w.next)
    && (forall g: Gid | g < |store| :: GroupGated(store[g], step, version))
  }

  /** The eval rows of the groups opened so far, in opening order. */
  function OpenedRows(store: seq<Group>): seq<Row> {
    if store == [] then [] else
      var g := store[|store| - 1];
      OpenedRows(store[..|store| - 1])
      + (if g.kind.Eval? && g.evalStep.Some? then [Row(g.env, g.evalStep.value)] else [])
  }

  ghost predicate Rows(store: seq<Group>, evalQueue: seq<Row>, triggered: seq<Row>) {
    OpenedRows(store) + evalQueue == triggered
  }

  ghost predicate Fifo(cfg: Config, consumed: seq<Rollout>, queue: seq<Rollout>, log: seq<Rollout>) {
    consumed + queue == log && |queue| <= cfg.QueueCap()
  }

  ghost predicate Inv(cfg: Config, s: State) {
    && Shape(cfg, s)
    && Agree(cfg, s.store, s.inflight, s.nextTask, s.loop, s.watcher, s.log)
    && Ledger(s.store, s.groups, s.inflight, s.loop, s.watcher, s.log, s.lost)
    && Live(s.store, s.groups, s.loop, s.watcher, s.log)
    && Permits(cfg, s.permits, s.inflight, s.loop, s.store)
    && Staleness(cfg, s.inflight, s.loop, s.watcher, s.log)
    && Gate(s.step, s.version, s.gate, s.watcher, s.store)
    && Rows(s.store, s.evalQueue, s.triggered)
    && Fifo(cfg, s.consumed, s.queue, s.log)
  }

  // ---------------------------------------------------------------- list lemmas

  lemma {:induction false} LoadConcat(a: seq<Meta>, b: seq<Meta>)
    ensures Load(a + b) == Load(a) + Load(b)
  {
    if b == [] {
      assert a + b == a;
    } else {
      assert (a + b)[..|a + b| - 1] == a + b[..|b| - 1];
      LoadConcat(a, b[..|b| - 1]);
    }
  }

  lemma {:induction false} LoadOfConcat(a: seq<Meta>, b: seq<Meta>, g: Gid)
    ensures LoadOf(a + b, g) == LoadOf(a, g) + LoadOf(b, g)
  {
    if b == [] {
      assert a + b == a;
    } else {
      assert (a + b)[..|a + b| - 1] == a + b[..|b| - 1];
      LoadOfConcat(a, b[..|b| - 1], g);
    }
  }

  lemma {:induction false} LoadOne(a: seq<Meta>, m: Meta, g: Gid)
    ensures Load(a + [m]) == Load(a) + m.count
    ensures LoadOf(a + [m], g) == LoadOf(a, g) + (if m.gid == g then m.count else 0)
  {
    assert (a + [m])[..|a|] == a;
  }

  lemma {:induction false} LoadSplitAt(ms: seq<Meta>, i: nat, g: Gid)
    requires i < |ms|
    ensures Load(ms) == Load(ms[..i] + ms[i + 1..]) + ms[i].count
    ensures LoadOf(ms, g) == LoadOf(ms[..i] + ms[i + 1..], g) + (if ms[i].gid == g then ms[i].count else 0)
  {
    assert ms == ms[..i] + [ms[i]] + ms[i + 1..];
    LoadConcat(ms[..i] + [ms[i]], ms[i + 1..]);
    LoadOfConcat(ms[..i] + [ms[i]], ms[i + 1..], g);
    LoadOne(ms[..i], ms[i], g);
    LoadConcat(ms[..i], ms[i + 1..]);
    LoadOfConcat(ms[..i], ms[i + 1..], g);
  }

  lemma {:induction false} CountOne(a: seq<Rollout>, r: Rollout, g: Gid)
    ensures CountOf(a + [r], g) == CountOf(a, g) + (if r.gid == g then 1 else 0)
  {
    assert (a + [r])[..|a|] == a;
  }

  lemma {:induction false} ClaimLoad(ms: seq<Meta>, g: Gid)
    ensures Load(ms) == Load(WithGid(ms, g)) + Load(WithoutGid(ms, g))
    ensures Load(WithGid(ms, g)) == LoadOf(ms, g)
  {
    if ms != [] {
      var a, m := ms[..|ms| - 1], ms[|ms| - 1];
      ClaimLoad(a, g);
      LoadConcat(WithGid(a, g), if m.gid == g then [m] else []);
      LoadConcat(WithoutGid(a, g), if m.gid == g then [] else [m]);
      assert Load([m]) == m.count;
    }
  }

  lemma {:induction false} ClaimLoadOf(ms: seq<Meta>, g: Gid, h: Gid)
    ensures LoadOf(WithoutGid(ms, g), h) == if h == g then 0 else LoadOf(ms, h)
  {
    if ms != [] {
      var a, m := ms[..|ms| - 1], ms[|ms| - 1];
      ClaimLoadOf(a, g, h);
      LoadOfConcat(WithoutGid(a, g), if m.gid == g then [] else [m], h);
    }
  }

  lemma {:induction false} ClaimMembers(ms: seq<Meta>, g: Gid)
    ensures forall m | m in WithGid(ms, g) :: m in ms && m.gid == g
    ensures forall m | m in WithoutGid(ms, g) :: m in ms && m.gid != g
  {
    if ms != [] { ClaimMembers(ms[..|ms| - 1], g); }
  }

  lemma {:induction false} KindSplits(ms: seq<Meta>, g: Gid)
    ensures Load(ms) == Load(OfKind(ms, Train)) + Load(OfKind(ms, Eval))
    ensures LoadOf(ms, g) == LoadOf(OfKind(ms, Train), g) + LoadOf(OfKind(ms, Eval), g)
  {
    if ms != [] {
      var a, m := ms[..|ms| - 1], ms[|ms| - 1];
      KindSplits(a, g);
      LoadOne(OfKind(a, m.kind), m, g);
      if m.kind.Train? {
        assert OfKind(ms, Eval) == OfKind(a, Eval);
      } else {
        assert OfKind(ms, Train) == OfKind(a, Train);
      }
    }
  }

  lemma {:induction false} KindMembers(ms: seq<Meta>, k: Kind)
    ensures forall m | m in OfKind(ms, k) :: m in ms && m.kind == k
  {
    if ms != [] { KindMembers(ms[..|ms| - 1], k); }
  }

  lemma {:induction false} LoadOfMember(ms: seq<Meta>, g: Gid)
    ensures LoadOf(ms, g) == 0 || exists m :: m in ms && m.gid == g
    ensures LoadOf(ms, g) <= Load(ms)
  {
    if ms != [] { LoadOfMember(ms[..|ms| - 1], g); }
  }

  lemma {:induction false} AgedKeepsLoad(cfg: Config, ms: seq<Meta>, g: Gid)
    ensures Load(AgedAll(cfg, ms)) == Load(ms)
    ensures LoadOf(AgedAll(cfg, ms), g) == LoadOf(ms, g)
  {
    if ms != [] {
      var a := ms[..|ms| - 1];
      AgedKeepsLoad(cfg, a, g);
      LoadOne(AgedAll(cfg, a), Aged(cfg, ms[|ms| - 1]), g);
    }
  }

  lemma {:induction false} OwedCounts(ms: seq<Meta>)
    ensures |Owed(ms)| == Load(ms)
    ensures forall m | m in Owed(ms) :: m in ms
  {
    if ms != [] { OwedCounts(ms[..|ms| - 1]); }
  }

  ghost predicate TasksDistinct(ms: seq<Meta>) {
    forall i, j | 0 <= i < j < |ms| :: ms[i].task != ms[j].task
  }

  lemma DistinctSnoc(ms: seq<Meta>, m: Meta)
    requires TasksDistinct(ms) && forall x | x in ms :: x.task != m.task
    ensures TasksDistinct(ms + [m])
  {
    assert forall i | 0 <= i < |ms| :: ms[i] in ms;
  }

  lemma {:induction false} WithoutGidDistinct(ms: seq<Meta>, g: Gid)
    requires TasksDistinct(ms)
    ensures TasksDistinct(WithoutGid(ms, g))
  {
    if ms != [] {
      var a, m := ms[..|ms| - 1], ms[|ms| - 1];
      WithoutGidDistinct(a, g);
      ClaimMembers(a, g);
      if m.gid != g { DistinctSnoc(WithoutGid(a, g), m); }
    }
  }

  lemma {:induction false} OfKindDistinct(ms: seq<Meta>, k: Kind)
    requires TasksDistinct(ms)
    ensures TasksDistinct(OfKind(ms, k))
  {
    if ms != [] {
      var a, m := ms[..|ms| - 1], ms[|ms| - 1];
      OfKindDistinct(a, k);
      KindMembers(a, k);
      if m.kind == k { DistinctSnoc(OfKind(a, k), m); }
    }
  }

  ghost predicate GidsDistinct(gs: seq<Gid>) {
    forall i, j | 0 <= i < j < |gs| :: gs[i] != gs[j]
  }

  lemma GidsSnoc(gs: seq<Gid>, g: Gid)
    requires GidsDistinct(gs) && g !in gs
    ensures GidsDistinct(gs + [g])
  {
    assert forall i | 0 <= i < |gs| :: gs[i] in gs;
  }

  lemma {:induction false} RemoveSpec(gs: seq<Gid>, g: Gid)
    requires GidsDistinct(gs)
    ensures GidsDistinct(Remove(gs, g))
    ensures forall h :: h in Remove(gs, g) <==> h in gs && h != g
  {
    if gs != [] {
      var a, h := gs[..|gs| - 1], gs[|gs| - 1];
      RemoveSpec(a, g);
      assert gs == a + [h];
      if h != g { GidsSnoc(Remove(a, g), h); }
    }
  }

  lemma {:induction false} RemoveAllSpec(gs: seq<Gid>, dead: set<Gid>)
    requires GidsDistinct(gs)
    ensures GidsDistinct(RemoveAll(gs, dead))
    ensures forall h :: h in RemoveAll(gs, dead) <==> h in gs && h !in dead
  {
    if gs != [] {
      var a, h := gs[..|gs| - 1], gs[|gs| - 1];
      RemoveAllSpec(a, dead);
      assert gs == a + [h];
      if h !in dead { GidsSnoc(RemoveAll(a, dead), h); }
    }
  }

  lemma {:induction false} RowsSame(a: seq<Group>, b: seq<Group>)
    requires SameIds(a, b) && |a| == |b|
    ensures OpenedRows(a) == OpenedRows(b)
  {
    if a != [] {
      RowsSame(a[..|a| - 1], b[..|b| - 1]);
    }
  }
}
