/** The train sink as a step function: one arrival in, possibly one batch out. */
module TrainSinkSpec {
  import opened Common

  type Env = string

  /** An arrived rollout.  `id` is its object identity, `samples` what materialization produced
      (none for an errored or untrainable rollout). */
  datatype Rollout = Rollout(id: nat, gid: nat, env: Env, hasError: bool, samples: seq<nat>, tokens: nat,
                             valueVersion: Option<int>)

  datatype EnvSpec = EnvSpec(groupSize: nat, groupScoring: bool, minimumGroup: nat, privileged: bool)

  datatype Target = Rollouts(n: nat) | Tokens(n: nat)

  /** `pre` and `post` are the enforcing filters' verdicts. */
  datatype Config = Config(target: Target, limit: nat, envs: map<Env, EnvSpec>, pre: Rollout -> bool, post: Rollout -> bool) {
    ghost predicate Valid() {
      && 1 <= target.n && 1 <= limit && forall e | e in envs :: 1 <= envs[e].groupSize
    }
  }

  /** `cohort` is history: the rollouts popped off the queue for this batch. */
  datatype Batch = Batch(rollouts: seq<Rollout>, samples: seq<nat>, versionMin: Option<int>, madeProgress: bool,
                         cohort: seq<Rollout>)

  datatype State = State(
    pendingRollouts: seq<Rollout>,
    pendingGroups: map<nat, seq<Rollout>>,
    pendingBatch: seq<Rollout>,
    pendingTokens: int,
    lastEmpty: int,
    arrived: seq<Rollout>,    // history: everything given to add
    accepted: seq<Rollout>,   // history: everything ever queued
    cohorts: seq<Rollout>,    // history: cohorts, concatenated
    windows: seq<Rollout>)    // history: arrival windows, concatenated

  const EMPTY := State([], map[], [], 0, 0, [], [], [], [])

  // ---------------------------------------------------------------- helpers

  function Keep(rs: seq<Rollout>, p: Rollout -> bool): (r: seq<Rollout>)
    ensures |r| <= |rs|
    ensures forall x | x in r :: x in rs && p(x)
  {
    if rs == [] then []
    else
      var x := rs[|rs| - 1];
      if p(x) then Keep(rs[..|rs| - 1], p) + [x] else Keep(rs[..|rs| - 1], p)
  }

  function Drop(rs: seq<Rollout>, p: Rollout -> bool): (r: seq<Rollout>)
    ensures |r| <= |rs|
    ensures forall x | x in r :: x in rs && !p(x)
  {
    if rs == [] then []
    else
      var x := rs[|rs| - 1];
      if p(x) then Drop(rs[..|rs| - 1], p) else Drop(rs[..|rs| - 1], p) + [x]
  }

  /** The rollouts whose identity is (not) in a set, in order. */
  function Inside(rs: seq<Rollout>, ids: set<nat>): seq<Rollout> {
    if rs == [] then []
    else Inside(rs[..|rs| - 1], ids) + (if rs[|rs| - 1].id in ids then [rs[|rs| - 1]] else [])
  }

  function Outside(rs: seq<Rollout>, ids: set<nat>): seq<Rollout> {
    if rs == [] then []
    else Outside(rs[..|rs| - 1], ids) + (if rs[|rs| - 1].id in ids then [] else [rs[|rs| - 1]])
  }

  function TokenSum(rs: seq<Rollout>): nat {
    if rs == [] then 0 else TokenSum(rs[..|rs| - 1]) + rs[|rs| - 1].tokens
  }

  function SamplesOf(rs: seq<Rollout>): seq<nat> {
    if rs == [] then [] else SamplesOf(rs[..|rs| - 1]) + rs[|rs| - 1].samples
  }

  function Min(a: Option<int>, b: Option<int>): Option<int> {
    if a.None? then b else if b.None? then a else if b.value < a.value then b else a
  }

  function VersionMin(rs: seq<Rollout>): Option<int> {
    if rs == [] then None else Min(VersionMin(rs[..|rs| - 1]), rs[|rs| - 1].valueVersion)
  }

  /** How many queued rollouts the next cohort takes: in token mode, until the target is reached. */
  function CutFrom(rs: seq<Rollout>, target: nat, i: nat): (cut: nat)
    requires i <= |rs|
    ensures i <= cut <= |rs|
    decreases |rs| - i
  {
    if i == |rs| || (0 < i && TokenSum(rs[..i]) >= target) then i else CutFrom(rs, target, i + 1)
  }

  function Cut(cfg: Config, rs: seq<Rollout>): (cut: nat)
    ensures cut <= |rs|
  {
    match cfg.target
    case Rollouts(n) => if n < |rs| then n else |rs|
    case Tokens(n) => CutFrom(rs, n, 0)
  }

  // ---------------------------------------------------------------- groups

  predicate Usable(r: Rollout) { !r.hasError && r.samples != [] }

  /** What `process_group` queues of a complete group. */
  function Accept(cfg: Config, spec: EnvSpec, group: seq<Rollout>): seq<Rollout> {
    var survivors := Keep(group, Usable);
    if |survivors| < |group| && spec.groupScoring then []
    else if survivors == [] then []
    else if spec.privileged && |survivors| != spec.groupSize then []
    else if |survivors| < spec.minimumGroup then []
    else Drop(survivors, cfg.pre)
  }

  function GroupWith(s: State, r: Rollout): seq<Rollout> {
    (if r.gid in s.pendingGroups then s.pendingGroups[r.gid] else []) + [r]
  }

  predicate Completes(cfg: Config, s: State, r: Rollout)
    requires r.env in cfg.envs
  {
    |GroupWith(s, r)| >= cfg.envs[r.env].groupSize
  }

  /** Arrival of one rollout up to and including `process_group`. */
  function Arrive(cfg: Config, s: State, r: Rollout): State
    requires r.env in cfg.envs && GroupWith(s, r)[0].env in cfg.envs
  {
    var group := GroupWith(s, r);
    var t := s.(pendingRollouts := s.pendingRollouts + [r], arrived := s.arrived + [r]);
    if !Completes(cfg, s, r) then t.(pendingGroups := s.pendingGroups[r.gid := group])
    else
      var queued := Accept(cfg, cfg.envs[group[0].env], group);
      t.(pendingGroups := s.pendingGroups - {r.gid},
         pendingBatch := s.pendingBatch + queued,
         pendingTokens := s.pendingTokens + (if cfg.target.Tokens? then TokenSum(queued) else 0),
         accepted := s.accepted + queued)
  }

  // ---------------------------------------------------------------- batches

  function Queued(cfg: Config, s: State): int {
    if cfg.target.Rollouts? then |s.pendingBatch| else s.pendingTokens
  }

  predicate Ready(cfg: Config, s: State) { Queued(cfg, s) >= cfg.target.n }

  /** Identities still eligible for a future batch: queued, or in a group that is still filling. */
  function RetainedIds(s: State): set<nat> {
    (set r | r in s.pendingBatch :: r.id) + (set g, r | g in s.pendingGroups && r in s.pendingGroups[g] :: r.id)
  }

  function Settled(s: State): seq<Rollout> {
    Outside(s.pendingRollouts, RetainedIds(s))
  }

  function Unsettled(s: State): seq<Rollout> {
    Inside(s.pendingRollouts, RetainedIds(s))
  }

  /** `_pop_settled_rollouts`. */
  function PopSettled(s: State, minimum: nat): (State, seq<Rollout>) {
    var settled := Settled(s);
    if |settled| < minimum then (s, [])
    else (s.(pendingRollouts := Unsettled(s), windows := s.windows + settled), settled)
  }

  /** The cohort leaves the queue. */
  function PopCohort(cfg: Config, s: State): State {
    var cut := Cut(cfg, s.pendingBatch);
    s.(pendingBatch := s.pendingBatch[cut..],
       pendingTokens := s.pendingTokens - (if cfg.target.Tokens? then TokenSum(s.pendingBatch[..cut]) else 0),
       cohorts := s.cohorts + s.pendingBatch[..cut])
  }

  function ProcessBatch(cfg: Config, s: State): (State, Batch) {
    var cohort := s.pendingBatch[..Cut(cfg, s.pendingBatch)];
    var t := PopCohort(cfg, s);
    var shipped := Drop(cohort, cfg.post);
    var samples := SamplesOf(shipped);
    if samples != [] then
      (t.(pendingRollouts := [], windows := t.windows + t.pendingRollouts, lastEmpty := Queued(cfg, t)),
       Batch(t.pendingRollouts, samples, VersionMin(shipped), false, cohort))
    else
      var (u, settled) := PopSettled(t, 1);
      (u.(lastEmpty := Queued(cfg, t)), Batch(settled, samples, VersionMin(shipped), false, cohort))
  }

  /** A bounded accounting flush when a completed group leaves too many settled arrivals. */
  function Flush(cfg: Config, s: State): (State, Option<Batch>) {
    var (t, settled) := PopSettled(s, cfg.limit);
    if settled == [] then (s, None)
    else
      (t.(lastEmpty := Queued(cfg, s)), Some(Batch(settled, [], None, Queued(cfg, s) > s.lastEmpty, [])))
  }

  /** `TrainSink.add`. */
  function Add(cfg: Config, s: State, r: Rollout): (State, Option<Batch>)
    requires r.env in cfg.envs && GroupWith(s, r)[0].env in cfg.envs
  {
    var t := Arrive(cfg, s, r);
    if Ready(cfg, t) then
      var (u, b) := ProcessBatch(cfg, t);
      (u, Some(b))
    else if Completes(cfg, s, r) then Flush(cfg, t)
    else (t, None)
  }
}
