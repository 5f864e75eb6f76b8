/** The rollout dispatcher as a state machine over its yield points.

    Three coroutines share the dispatcher's fields: the dispatch loop (which both schedules
    and handles completed tasks), the weight watcher (which ages and drops stale groups
    before it adopts a version) and the orchestrator's main loop (which consumes rollouts,
    ships batches, triggers evals and finally drains).  Everything between two awaits is one
    event; the place where a coroutine is suspended is part of the state.  A `put` on the
    bounded queue is two events, so anything may run while it waits. */
module Dispatch {
  import opened Common

  type Env = string
  /** Groups are numbered in the order they open; the number stands for the source's UUID. */
  type Gid = nat

  datatype Kind = Train | Eval
  datatype Mode = PreferTrain | PreferEval

  const TARGET_LAG := 1

  datatype EnvSpec = EnvSpec(groupSize: nat, groupScoring: bool, live: bool)

  datatype Config = Config(maxInflight: nat, maxOffPolicy: nat, train: map<Env, EnvSpec>, eval: map<Env, EnvSpec>) {
    function QueueCap(): nat { if maxInflight > 8 then maxInflight else 8 }

    function Envs(kind: Kind): map<Env, EnvSpec> {
      if kind.Train? then train else eval
    }

    /** Group sizes and the capacity are configured with a lower bound of one. */
    ghost predicate Valid() {
      && 1 <= maxInflight
      && (forall e | e in train :: 1 <= train[e].groupSize)
      && (forall e | e in eval :: 1 <= eval[e].groupSize)
    }
  }

  /** One `GroupState` object.  `openStep` is history: the step being collected when it opened. */
  datatype Group = Group(kind: Kind, env: Env, target: nat, toSchedule: nat, emitted: nat,
                         evalStep: Option<int>, version: int, pinned: bool, openStep: int)

  /** One registered task (`InflightRollout`). */
  datatype Meta = Meta(task: nat, kind: Kind, env: Env, gid: Gid, version: int, count: nat,
                       offPolicy: nat, evalStep: Option<int>)

  datatype Rollout = Rollout(kind: Kind, env: Env, gid: Gid, version: int, offPolicy: nat,
                             evalStep: Option<int>, failed: bool)

  datatype Row = Row(env: Env, evalStep: int)

  datatype Trace = Trace(hasError: bool, turns: nat)

  datatype Outcome = Finished(results: seq<Trace>) | Raised | Unsupported | TaskCancelled

  /** Where the dispatch loop is suspended. */
  datatype Loop =
    | AtTop
    | Selecting(gid: Gid)
    | Acquiring(gid: Gid, need: nat, taken: nat)
    | Emitting(meta: Meta, attached: bool, todo: seq<bool>, pending: Option<Rollout>)
    | Dead

  /** Where the weight watcher is suspended. */
  datatype Watcher =
    | Quiet
    | Dropping(next: int, stale: set<Gid>)
    | DropEmitting(next: int, stale: set<Gid>, gid: Gid, attached: bool, todo: seq<Meta>,
                   last: Option<Meta>, swept: bool, pending: Option<Rollout>)

  datatype State = State(
    permits: int,
    inflight: seq<Meta>,     // registered tasks, in insertion order
    groups: seq<Gid>,        // keys of the live-group dictionary, in insertion order
    store: seq<Group>,       // every group object ever opened, still reachable from suspended frames
    nextTask: nat,
    loop: Loop,
    watcher: Watcher,
    queue: seq<Rollout>,     // out_q
    mode: Mode,
    evalQueue: seq<Row>,
    trainDisabled: bool,
    gate: bool,
    step: int,
    version: int,
    log: seq<Rollout>,       // history: every rollout ever put, in order
    consumed: seq<Rollout>,  // history: every rollout the orchestrator took
    triggered: seq<Row>,     // history: every eval row ever queued
    lost: seq<nat>)          // history, per group: rollouts discarded without an emission

  /** A fresh run starts with version 0 and step 1; a resumed one with version v and step v + 1. */
  function Init(v: int): State {
    State(0, [], [], [], 0, AtTop, Quiet, [], PreferTrain, [], false, true, v + 1, v, [], [], [], [])
  }

  datatype Event =
    | Fill(pick: Env)
    | ClientSelected
    | LimiterPassed
    | Complete(task: nat, outcome: Outcome)
    | LoopEmit
    | LoopPut
    | VersionPending(next: int)
    | DropGroup(gid: Gid)
    | DropEmit
    | DropPut
    | SweepUnscheduled
    | DropDone
    | Adopt
    | Ship
    | TriggerEval(rows: seq<Row>)   // some environment fired, with or without examples
    | Consume
    | DrainTraining

  // ---------------------------------------------------------------- sequence helpers

  /** Permits held by a list of registered tasks. */
  function Load(ms: seq<Meta>): nat {
    if ms == [] then 0 else Load(ms[..|ms| - 1]) + ms[|ms| - 1].count
  }

  /** Rollouts of group `g` held by a list of registered tasks. */
  function LoadOf(ms: seq<Meta>, g: Gid): nat {
    if ms == [] then 0
    else LoadOf(ms[..|ms| - 1], g) + (if ms[|ms| - 1].gid == g then ms[|ms| - 1].count else 0)
  }

  /** Rollouts of group `g` in a list. */
  function CountOf(rs: seq<Rollout>, g: Gid): nat {
    if rs == [] then 0 else CountOf(rs[..|rs| - 1], g) + (if rs[|rs| - 1].gid == g then 1 else 0)
  }

  function WithGid(ms: seq<Meta>, g: Gid): seq<Meta> {
    if ms == [] then [] else
      WithGid(ms[..|ms| - 1], g) + (if ms[|ms| - 1].gid == g then [ms[|ms| - 1]] else [])
  }

  function WithoutGid(ms: seq<Meta>, g: Gid): seq<Meta> {
    if ms == [] then [] else
      WithoutGid(ms[..|ms| - 1], g) + (if ms[|ms| - 1].gid == g then [] else [ms[|ms| - 1]])
  }

  function OfKind(ms: seq<Meta>, kind: Kind): seq<Meta> {
    if ms == [] then [] else
      OfKind(ms[..|ms| - 1], kind) + (if ms[|ms| - 1].kind == kind then [ms[|ms| - 1]] else [])
  }

  /** The markers a claimed list owes: one copy of each task per rollout it held. */
  function Owed(ms: seq<Meta>): seq<Meta> {
    if ms == [] then [] else
      Owed(ms[..|ms| - 1]) + Copies(ms[|ms| - 1], ms[|ms| - 1].count)
  }

  function Copies<T>(x: T, n: nat): (r: seq<T>)
    ensures |r| == n
    ensures forall i | 0 <= i < n :: r[i] == x
  {
    seq(n, _ => x)
  }

  function Remove(gs: seq<Gid>, g: Gid): seq<Gid> {
    if gs == [] then [] else
      Remove(gs[..|gs| - 1], g) + (if gs[|gs| - 1] == g then [] else [gs[|gs| - 1]])
  }

  function RemoveAll(gs: seq<Gid>, dead: set<Gid>): seq<Gid> {
    if gs == [] then [] else
      RemoveAll(gs[..|gs| - 1], dead) + (if gs[|gs| - 1] in dead then [] else [gs[|gs| - 1]])
  }

  function GidsOf(ms: seq<Meta>): set<Gid> { set m | m in ms :: m.gid }

  /** Position of a task in the in-flight list, or its length when the task was already taken. */
  function IndexOf(ms: seq<Meta>, task: nat): (i: nat)
    ensures i <= |ms|
    ensures i < |ms| ==> ms[i].task == task
    ensures forall j | 0 <= j < i :: ms[j].task != task
  {
    if ms == [] then 0
    else if ms[0].task == task then 0
    else 1 + IndexOf(ms[1..], task)
  }

  // ---------------------------------------------------------------- scheduling

  function Available(cfg: Config, s: State): int { cfg.maxInflight - s.permits }

  function SpecOf(cfg: Config, g: Group): EnvSpec
    requires g.env in cfg.Envs(g.kind)
  {
    cfg.Envs(g.kind)[g.env]
  }

  /** Permits the next task of a group needs. */
  function Cost(cfg: Config, g: Group): nat
    requires g.env in cfg.Envs(g.kind)
  {
    if SpecOf(cfg, g).groupScoring then g.toSchedule else 1
  }

  /** Permits a fresh group of an environment needs for its first task. */
  function FreshCost(spec: EnvSpec): nat { if spec.groupScoring then spec.groupSize else 1 }

  /** Facts every reference in the state needs to be followable; kept by every event. */
  ghost predicate Shape(cfg: Config, s: State) {
    && |s.lost| == |s.store|
    && (forall i | 0 <= i < |s.store| :: s.store[i].env in cfg.Envs(s.store[i].kind))
    && (forall i | 0 <= i < |s.groups| :: s.groups[i] < |s.store|)
    && (forall i, j | 0 <= i < j < |s.groups| :: s.groups[i] != s.groups[j])
    && (forall i | 0 <= i < |s.inflight| :: s.inflight[i].gid < |s.store|)
    && (forall i | 0 <= i < |s.evalQueue| :: s.evalQueue[i].env in cfg.eval)
    && (match s.loop
        case Selecting(g) => g < |s.store| && s.store[g].toSchedule > 0
        case Acquiring(g, need, taken) => g < |s.store| && taken < need
        case Emitting(m, _, todo, pending) => m.gid < |s.store| && (todo != [] || pending.Some?)
        case _ => true)
    && (!s.watcher.Quiet? ==> forall g | g in s.watcher.stale :: g < |s.store|)
    && (s.watcher.DropEmitting? ==>
          && s.watcher.gid < |s.store|
          && (forall i | 0 <= i < |s.watcher.todo| :: s.watcher.todo[i].gid == s.watcher.gid)
          && (s.watcher.last.Some? ==> s.watcher.last.value.gid == s.watcher.gid))
  }

  predicate EvalHasWork(s: State)
    requires forall i | 0 <= i < |s.groups| :: s.groups[i] < |s.store|
  {
    s.evalQueue != [] || exists i | 0 <= i < |s.groups| ::
      s.store[s.groups[i]].kind.Eval? && s.store[s.groups[i]].toSchedule > 0
  }

  predicate IsIdle(s: State)
    requires forall i | 0 <= i < |s.groups| :: s.groups[i] < |s.store|
  {
    s.inflight == [] && !EvalHasWork(s) && s.queue == []
  }

  predicate Eligible(cfg: Config, s: State, kind: Kind, i: nat)
    requires i < |s.groups| && s.groups[i] < |s.store|
    requires s.store[s.groups[i]].env in cfg.Envs(s.store[s.groups[i]].kind)
  {
    var g := s.store[s.groups[i]];
    g.kind == kind && g.toSchedule > 0 && Cost(cfg, g) <= Available(cfg, s)
  }

  /** Position of the first live group, at or after `i`, that can be continued. */
  function FirstEligible(cfg: Config, s: State, kind: Kind, i: nat): (r: nat)
    requires Shape(cfg, s) && i <= |s.groups|
    ensures i <= r <= |s.groups|
    ensures r < |s.groups| ==> Eligible(cfg, s, kind, r)
    ensures forall j | i <= j < r :: !Eligible(cfg, s, kind, j)
    decreases |s.groups| - i
  {
    if i == |s.groups| then i
    else if Eligible(cfg, s, kind, i) then i
    else FirstEligible(cfg, s, kind, i + 1)
  }

  function OpenGroup(cfg: Config, s: State, kind: Kind, env: Env, evalStep: Option<int>): State
    requires env in cfg.Envs(kind)
  {
    var size := cfg.Envs(kind)[env].groupSize;
    s.(store := s.store + [Group(kind, env, size, size, 0, evalStep, s.version, false, s.step)],
       groups := s.groups + [|s.store|],
       lost := s.lost + [0])
  }

  /** Take the next task's rollouts out of the group and start acquiring their permits. */
  function Reserve(cfg: Config, s: State, gid: Gid): State
    requires gid < |s.store| && s.store[gid].env in cfg.Envs(s.store[gid].kind)
    requires 0 < s.store[gid].toSchedule
  {
    var g := s.store[gid];
    var need := Cost(cfg, g);
    s.(store := s.store[gid := g.(toSchedule := g.toSchedule - need)], loop := Acquiring(gid, need, 0))
  }

  /** A group without a pinned client suspends in client selection first. */
  function BeginSchedule(cfg: Config, s: State, gid: Gid): State
    requires gid < |s.store| && s.store[gid].env in cfg.Envs(s.store[gid].kind)
    requires 0 < s.store[gid].toSchedule
  {
    if s.store[gid].pinned then Reserve(cfg, s, gid) else s.(loop := Selecting(gid))
  }

  function TrySchedule(cfg: Config, s: State, kind: Kind, pick: Env): State
    requires cfg.Valid() && Shape(cfg, s) && pick in cfg.train
  {
    if kind.Train? && s.trainDisabled then s
    else
      var i := FirstEligible(cfg, s, kind, 0);
      if i < |s.groups| then BeginSchedule(cfg, s, s.groups[i])
      else if kind.Train? then
        if FreshCost(cfg.train[pick]) > Available(cfg, s) then s
        else BeginSchedule(cfg, OpenGroup(cfg, s, Train, pick, None), |s.store|)
      else if s.evalQueue == [] then s
      else
        var head := s.evalQueue[0];
        if FreshCost(cfg.eval[head.env]) > Available(cfg, s) then s
        else BeginSchedule(cfg, OpenGroup(cfg, s.(evalQueue := s.evalQueue[1..]), Eval, head.env, Some(head.evalStep)),
                           |s.store|)
  }

  /** One turn of `fill_inflight`; `pick` is the environment the train source would draw. */
  function FillStep(cfg: Config, s: State, pick: Env): State
    requires cfg.Valid() && Shape(cfg, s) && pick in cfg.train
  {
    if Available(cfg, s) <= 0 then s
    else if s.mode.PreferEval? then
      if !EvalHasWork(s) then s.(mode := PreferTrain)
      else TrySchedule(cfg, s, Eval, pick)
    else if !s.gate then s
    else TrySchedule(cfg, s, Train, pick)
  }

  /** Client selection returned; the group may have been dropped meanwhile. */
  function SelectedStep(cfg: Config, s: State): State
    requires Shape(cfg, s) && s.loop.Selecting?
  {
    var gid := s.loop.gid;
    if gid !in s.groups then s.(loop := AtTop)
    else Reserve(cfg, s.(store := s.store[gid := s.store[gid].(pinned := true)]), gid)
  }

  /** The rate limiter let one more permit through; the last one registers the task. */
  function LimiterStep(s: State): State
    requires s.loop.Acquiring? && s.loop.gid < |s.store|
  {
    var gid, need, taken := s.loop.gid, s.loop.need, s.loop.taken + 1;
    if taken < need then s.(permits := s.permits + 1, loop := Acquiring(gid, need, taken))
    else
      var g := s.store[gid];
      s.(permits := s.permits + 1, loop := AtTop, nextTask := s.nextTask + 1,
         inflight := s.inflight + [Meta(s.nextTask, g.kind, g.env, gid, g.version, need, 0, g.evalStep)])
  }

  // ---------------------------------------------------------------- completion and emission

  function FailedFlags(results: seq<Trace>): seq<bool> {
    seq(|results|, i requires 0 <= i < |results| => results[i].hasError || results[i].turns == 0)
  }

  function Lose(s: State, gid: Gid, n: nat): State
    requires gid < |s.lost|
  {
    s.(lost := s.lost[gid := s.lost[gid] + n])
  }

  function Without(ms: seq<Meta>, i: nat): seq<Meta>
    requires i < |ms|
  {
    ms[..i] + ms[i + 1..]
  }

  /** The verdict flags a finished task hands to the emitting loop; none when it was lost. */
  function Flags(m: Meta, outcome: Outcome): seq<bool> {
    match outcome
    case Finished(results) => FailedFlags(results)
    case Raised => Copies(true, m.count)
    case _ => []
  }

  /** `handle_completed_rollout` up to its first `put`. */
  function CompleteStep(s: State, task: nat, outcome: Outcome): State
    requires |s.lost| == |s.store|
    requires forall i | 0 <= i < |s.inflight| :: s.inflight[i].gid < |s.store|
  {
    var i := IndexOf(s.inflight, task);
    if i == |s.inflight| then s
    else
      var m := s.inflight[i];
      var t := s.(inflight := Without(s.inflight, i), permits := s.permits - m.count);
      if outcome.Unsupported? then Lose(t, m.gid, m.count).(loop := Dead)
      else if outcome.TaskCancelled? then Lose(t, m.gid, m.count)
      else if Flags(m, outcome) == [] then t
      else t.(loop := Emitting(m, m.gid in s.groups, Flags(m, outcome), None))
  }

  /** The metadata `emit_rollout` stamps: the group's when the frame holds it, else the task's. */
  function Stamp(s: State, m: Meta, attached: bool, failed: bool): Rollout
    requires m.gid < |s.store|
  {
    if attached then
      Rollout(m.kind, m.env, m.gid, s.store[m.gid].version, m.offPolicy, s.store[m.gid].evalStep, failed)
    else Rollout(m.kind, m.env, m.gid, m.version, m.offPolicy, m.evalStep, failed)
  }

  /** Count an emission on the group; the last one pops it from the dictionary. */
  function MarkEmitted(s: State, gid: Gid, attached: bool): State
    requires gid < |s.store|
  {
    if !attached then s
    else
      var g := s.store[gid].(emitted := s.store[gid].emitted + 1);
      s.(store := s.store[gid := g],
         groups := if g.emitted >= g.target then Remove(s.groups, gid) else s.groups)
  }

  function LoopEmitStep(s: State): State
    requires s.loop.Emitting? && s.loop.pending.None? && s.loop.todo != [] && s.loop.meta.gid < |s.store|
  {
    var r := Stamp(s, s.loop.meta, s.loop.attached, s.loop.todo[0]);
    MarkEmitted(s, s.loop.meta.gid, s.loop.attached).(loop := s.loop.(todo := s.loop.todo[1..], pending := Some(r)))
  }

  function LoopPutStep(s: State): State
    requires s.loop.Emitting? && s.loop.pending.Some?
  {
    var r := s.loop.pending.value;
    s.(queue := s.queue + [r], log := s.log + [r],
       loop := if s.loop.todo == [] then AtTop else s.loop.(pending := None))
  }

  // ---------------------------------------------------------------- off-policy ageing and dropping

  /** Train tasks of environments sampled from the live policy age; nothing else does. */
  predicate Ages(cfg: Config, m: Meta) { m.kind.Train? && m.env in cfg.train && cfg.train[m.env].live }

  function Aged(cfg: Config, m: Meta): Meta {
    if Ages(cfg, m) then m.(offPolicy := m.offPolicy + 1) else m
  }

  function AgedAll(cfg: Config, ms: seq<Meta>): (r: seq<Meta>)
    ensures |r| == |ms|
    ensures forall i | 0 <= i < |ms| :: r[i] == Aged(cfg, ms[i])
  {
    if ms == [] then [] else AgedAll(cfg, ms[..|ms| - 1]) + [Aged(cfg, ms[|ms| - 1])]
  }

  /** Groups with an aged task past the limit. */
  function StaleGids(cfg: Config, aged: seq<Meta>): set<Gid> {
    set m | m in aged && Ages(cfg, m) && m.offPolicy > cfg.maxOffPolicy :: m.gid
  }

  function PendingStep(cfg: Config, s: State, next: int): State {
    var aged := AgedAll(cfg, s.inflight);
    s.(inflight := aged, watcher := Dropping(next, StaleGids(cfg, aged)))
  }

  /** The non-yielding claim phase of `drop_group`. */
  function DropStep(s: State, gid: Gid): State
    requires s.watcher.Dropping?
  {
    var claimed := WithGid(s.inflight, gid);
    s.(inflight := WithoutGid(s.inflight, gid), permits := s.permits - Load(claimed), groups := Remove(s.groups, gid),
       watcher := DropEmitting(s.watcher.next, s.watcher.stale - {gid}, gid, gid in s.groups, Owed(claimed),
                               if claimed == [] then None else Some(claimed[|claimed| - 1]), false, None))
  }

  function DropEmitStep(s: State): State
    requires s.watcher.DropEmitting? && s.watcher.pending.None? && s.watcher.todo != []
    requires s.watcher.todo[0].gid == s.watcher.gid < |s.store|
  {
    var w := s.watcher;
    var r := Stamp(s, w.todo[0], w.attached, true);
    MarkEmitted(s, w.gid, w.attached).(watcher := w.(todo := w.todo[1..], pending := Some(r)))
  }

  function DropPutStep(s: State): State
    requires s.watcher.DropEmitting? && s.watcher.pending.Some?
  {
    var r := s.watcher.pending.value;
    s.(queue := s.queue + [r], log := s.log + [r], watcher := s.watcher.(pending := None))
  }

  /** Once the claimed markers are out, owe one for every rollout the group never scheduled. */
  function SweepStep(s: State): State
    requires s.watcher.DropEmitting? && s.watcher.gid < |s.store|
  {
    var w := s.watcher;
    var g := s.store[w.gid];
    var stand := if w.last.Some? then w.last.value
                 else Meta(0, g.kind, g.env, w.gid, g.version, 1, 0, g.evalStep);
    s.(watcher := w.(swept := true, todo := if w.attached then Copies(stand, g.toSchedule) else []))
  }

  // ---------------------------------------------------------------- orchestrator side

  /** The dispatch gate is open while the batch being collected leads the policy by at most TARGET_LAG. */
  predicate GateFor(step: int, version: int) { (step - 1) - version <= TARGET_LAG }

  function AdoptStep(s: State): State
    requires s.watcher.Dropping?
  {
    s.(version := s.watcher.next, gate := GateFor(s.step, s.watcher.next), watcher := Quiet)
  }

  function ShipStep(s: State): State {
    s.(step := s.step + 1, gate := GateFor(s.step + 1, s.version))
  }

  /** `_drain_training`: stop train scheduling, discard in-flight train tasks and their groups. */
  function DrainStep(s: State): State
    requires |s.lost| == |s.store|
    requires forall i | 0 <= i < |s.groups| :: s.groups[i] < |s.store|
  {
    var cut := OfKind(s.inflight, Train);
    var dead := GidsOf(cut);
    s.(trainDisabled := true, inflight := OfKind(s.inflight, Eval), permits := s.permits - Load(cut),
       groups := RemoveAll(s.groups, dead),
       lost := seq(|s.store|, g requires 0 <= g < |s.store| =>
                     s.lost[g] + LoadOf(cut, g) + (if g in dead && g in s.groups then s.store[g].toSchedule else 0)))
  }

  // ---------------------------------------------------------------- events

  predicate Enabled(cfg: Config, s: State, e: Event) {
    match e
    case Fill(pick) => s.loop.AtTop? && pick in cfg.train
    case ClientSelected => s.loop.Selecting?
    case LimiterPassed => s.loop.Acquiring?
    case Complete(task, outcome) =>
      && s.loop.AtTop?
      && (outcome.Finished? ==> forall i | 0 <= i < |s.inflight| ::
              s.inflight[i].task == task ==> |outcome.results| == s.inflight[i].count)
    case LoopEmit => s.loop.Emitting? && s.loop.pending.None?
    case LoopPut => s.loop.Emitting? && s.loop.pending.Some? && |s.queue| < cfg.QueueCap()
    case VersionPending(next) => s.watcher.Quiet? && s.version < next
    case DropGroup(gid) => s.watcher.Dropping? && gid in s.watcher.stale
    case DropEmit => s.watcher.DropEmitting? && s.watcher.pending.None? && s.watcher.todo != []
    case DropPut => s.watcher.DropEmitting? && s.watcher.pending.Some? && |s.queue| < cfg.QueueCap()
    case SweepUnscheduled =>
      s.watcher.DropEmitting? && s.watcher.pending.None? && s.watcher.todo == [] && !s.watcher.swept
    case DropDone =>
      s.watcher.DropEmitting? && s.watcher.pending.None? && s.watcher.todo == [] && s.watcher.swept
    case Adopt => s.watcher.Dropping? && s.watcher.stale == {}
    case Ship => true
    case TriggerEval(rows) => forall i | 0 <= i < |rows| :: rows[i].env in cfg.eval
    case Consume => s.queue != []
    case DrainTraining => true
  }

  function Step(cfg: Config, s: State, e: Event): State
    requires cfg.Valid() && Shape(cfg, s) && Enabled(cfg, s, e)
  {
    match e
    case Fill(pick) => FillStep(cfg, s, pick)
    case ClientSelected => SelectedStep(cfg, s)
    case LimiterPassed => LimiterStep(s)
    case Complete(task, outcome) => CompleteStep(s, task, outcome)
    case LoopEmit => LoopEmitStep(s)
    case LoopPut => LoopPutStep(s)
    case VersionPending(next) => PendingStep(cfg, s, next)
    case DropGroup(gid) => DropStep(s, gid)
    case DropEmit => DropEmitStep(s)
    case DropPut => DropPutStep(s)
    case SweepUnscheduled => SweepStep(s)
    case DropDone => s.(watcher := Dropping(s.watcher.next, s.watcher.stale))
    case Adopt => AdoptStep(s)
    case Ship => ShipStep(s)
    case TriggerEval(rows) => s.(evalQueue := s.evalQueue + rows, triggered := s.triggered + rows, mode := PreferEval)
    case Consume => s.(queue := s.queue[1..], consumed := s.consumed + [s.queue[0]])
    case DrainTraining => DrainStep(s)
  }
}
