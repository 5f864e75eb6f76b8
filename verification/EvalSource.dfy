/** The eval source: which environments an eval trigger fires, and the round-robin order in which
    their examples are queued. */
module EvalSourceSpec {
  import opened Common

  datatype EvalEnv = EvalEnv(name: string, interval: nat, examples: seq<nat>)

  datatype EvalRow = EvalRow(env: string, example: nat, evalStep: int)

  /** Environments are keyed by name and their intervals are at least one. */
  ghost predicate ValidEnvs(envs: seq<EvalEnv>) {
    && (forall i | 0 <= i < |envs| :: 1 <= envs[i].interval)
    && (forall i, j | 0 <= i < j < |envs| :: envs[i].name != envs[j].name)
  }

  predicate Fires(env: EvalEnv, first: bool, step: int)
    requires 1 <= env.interval
  {
    first || step % env.interval == 0
  }

  function Fired(envs: seq<EvalEnv>, first: bool, step: int): (r: seq<EvalEnv>)
    requires forall i | 0 <= i < |envs| :: 1 <= envs[i].interval
    ensures forall e | e in r :: e in envs && Fires(e, first, step)
  {
    if envs == [] then []
    else
      var last := envs[|envs| - 1];
      if Fires(last, first, step) then Fired(envs[..|envs| - 1], first, step) + [last]
      else Fired(envs[..|envs| - 1], first, step)
  }

  /** The step is a multiple of the interval. */
  ghost predicate Multiple(step: int, interval: int) { exists q: int :: step == q * interval }

  lemma MultipleIff(step: int, interval: int)
    requires 1 <= interval
    ensures Multiple(step, interval) <==> step % interval == 0
  {
    if q: int :| step == q * interval { ProductModulo(q, interval); }
    if step % interval == 0 { assert step == (step / interval) * interval; }
  }

  lemma ProductModulo(q: int, n: int)
    requires 1 <= n
    ensures (q * n) % n == 0
  {
    var k, m := q - (q * n) / n, (q * n) % n;
    assert k * n == m;
    if k >= 1 { AtLeast(k, n); } else if k <= -1 { AtLeast(-k, n); }
  }

  lemma AtLeast(k: int, n: int)
    requires 1 <= k && 1 <= n
    ensures k * n >= n
  {
  }

  /** An environment is due at the first trigger of a fresh run, unless that one is skipped, and at any
      other trigger whose step is a multiple of its interval. */
  ghost predicate Due(e: EvalEnv, first: bool, skipFirst: bool, step: int) {
    if first then !skipFirst else Multiple(step, e.interval)
  }

  lemma FiresIff(e: EvalEnv, first: bool, step: int)
    requires 1 <= e.interval
    ensures Fires(e, first, step) <==> Due(e, first, false, step)
  {
    MultipleIff(step, e.interval);
    hide Multiple;
  }

  lemma DueNext(envs: seq<EvalEnv>, first: bool, step: int, rest: seq<nat>, at: seq<nat>)
    requires envs != [] && (forall i | i in rest :: i < |envs| - 1)
    requires forall j: nat | j < |envs| - 1 :: j in rest <==> Due(envs[..|envs| - 1][j], first, false, step)
    requires at == if Due(envs[|envs| - 1], first, false, step) then rest + [|envs| - 1] else rest
    ensures forall j: nat | j < |envs| :: j in at <==> Due(envs[j], first, false, step)
  {
    hide Due;
    forall j: nat | j < |envs| ensures j in at <==> Due(envs[j], first, false, step) {
      if j < |envs| - 1 { assert envs[..|envs| - 1][j] == envs[j]; }
    }
  }

  /** The environments that fire are those that are due, in order. */
  lemma {:induction false} FiredPicks(envs: seq<EvalEnv>, first: bool, step: int) returns (at: seq<nat>)
    requires forall i | 0 <= i < |envs| :: 1 <= envs[i].interval
    ensures Picks(envs, at, Fired(envs, first, step))
    ensures forall j: nat | j < |envs| :: j in at <==> Due(envs[j], first, false, step)
  {
    if envs == [] {
      at := [];
    } else {
      var n := |envs| - 1;
      var rest := FiredPicks(envs[..n], first, step);
      PicksNext(envs[..n], rest, Fired(envs[..n], first, step), envs[n]);
      assert envs == envs[..n] + [envs[n]];
      FiresIff(envs[n], first, step);
      hide Due, Fires, Picks;
      at := if Fires(envs[n], first, step) then rest + [n] else rest;
      DueNext(envs, first, step, rest, at);
    }
  }

  function Names(envs: seq<EvalEnv>): (r: seq<string>)
    ensures |r| == |envs| && forall i | 0 <= i < |r| :: r[i] == envs[i].name
  {
    seq(|envs|, i requires 0 <= i < |envs| => envs[i].name)
  }

  /** The rows one round takes: the `round`-th example of every environment that still has one. */
  function Round(envs: seq<EvalEnv>, round: nat, step: int): seq<EvalRow> {
    if envs == [] then []
    else
      var e := envs[|envs| - 1];
      Round(envs[..|envs| - 1], round, step) + (if round < |e.examples| then [EvalRow(e.name, e.examples[round], step)] else [])
  }

  function Merge(envs: seq<EvalEnv>, rounds: nat, step: int): seq<EvalRow> {
    if rounds == 0 then [] else Merge(envs, rounds - 1, step) + Round(envs, rounds - 1, step)
  }

  function Longest(envs: seq<EvalEnv>): (n: nat)
    ensures forall e | e in envs :: |e.examples| <= n
  {
    if envs == [] then 0
    else
      var n, e := Longest(envs[..|envs| - 1]), envs[|envs| - 1];
      if |e.examples| > n then |e.examples| else n
  }

  /** Everything one trigger queues. */
  function Epoch(envs: seq<EvalEnv>, first: bool, skipFirst: bool, step: int): seq<EvalRow>
    requires forall i | 0 <= i < |envs| :: 1 <= envs[i].interval
  {
    if first && skipFirst then []
    else var fired := Fired(envs, first, step); Merge(fired, Longest(fired), step)
  }

  // ---------------------------------------------------------------- the merge is a sort by (round, env)

  /** How many environments have more than `round` examples. */
  function Width(envs: seq<EvalEnv>, round: nat): nat {
    if envs == [] then 0 else Width(envs[..|envs| - 1], round) + (if round < |envs[|envs| - 1].examples| then 1 else 0)
  }

  function Height(envs: seq<EvalEnv>, rounds: nat): nat {
    if rounds == 0 then 0 else Height(envs, rounds - 1) + Width(envs, rounds - 1)
  }

  /** Rows that come before example `round` of environment `j`. */
  function Place(envs: seq<EvalEnv>, round: nat, j: nat): nat
    requires j <= |envs|
  {
    Height(envs, round) + Width(envs[..j], round)
  }

  lemma {:induction false} RoundLength(envs: seq<EvalEnv>, round: nat, step: int)
    ensures |Round(envs, round, step)| == Width(envs, round)
  {
    if envs != [] { RoundLength(envs[..|envs| - 1], round, step); }
  }

  lemma {:induction false} MergeLength(envs: seq<EvalEnv>, rounds: nat, step: int)
    ensures |Merge(envs, rounds, step)| == Height(envs, rounds)
  {
    if rounds > 0 {
      MergeLength(envs, rounds - 1, step);
      RoundLength(envs, rounds - 1, step);
    }
  }

  lemma {:induction false} RoundAt(envs: seq<EvalEnv>, round: nat, step: int, j: nat)
    requires j < |envs| && round < |envs[j].examples|
    ensures Width(envs[..j], round) < Width(envs, round) == |Round(envs, round, step)|
    ensures Round(envs, round, step)[Width(envs[..j], round)] == EvalRow(envs[j].name, envs[j].examples[round], step)
  {
    RoundLength(envs, round, step);
    var n := |envs| - 1;
    RoundLength(envs[..n], round, step);
    if j < n {
      assert envs[..n][..j] == envs[..j];
      RoundAt(envs[..n], round, step, j);
    }
  }

  lemma {:induction false} HeightGrows(envs: seq<EvalEnv>, a: nat, b: nat)
    requires a <= b
    ensures Height(envs, a) <= Height(envs, b)
  {
    if a < b { HeightGrows(envs, a, b - 1); }
  }

  /** Example `round` of environment `j` sits exactly at its place. */
  lemma {:induction false} MergeAt(envs: seq<EvalEnv>, rounds: nat, step: int, round: nat, j: nat)
    requires j < |envs| && round < |envs[j].examples| && round < rounds
    ensures Place(envs, round, j) < |Merge(envs, rounds, step)|
    ensures Merge(envs, rounds, step)[Place(envs, round, j)] == EvalRow(envs[j].name, envs[j].examples[round], step)
  {
    hide Round, Width;
    MergeLength(envs, rounds - 1, step);
    if round == rounds - 1 {
      RoundAt(envs, round, step, j);
    } else {
      MergeAt(envs, rounds - 1, step, round, j);
    }
  }

  lemma {:induction false} WidthGrows(envs: seq<EvalEnv>, round: nat, i: nat, j: nat)
    requires i < j <= |envs| && round < |envs[i].examples|
    ensures Width(envs[..i], round) < Width(envs[..j], round)
    decreases j
  {
    assert envs[..j][..j - 1] == envs[..j - 1];
    if i < j - 1 { WidthGrows(envs, round, i, j - 1); }
  }

  /** Rows are ordered by example index first and by environment second, so every environment
      keeps its own order and no two rows share a place. */
  lemma PlacesIncrease(envs: seq<EvalEnv>, round: nat, j: nat, round': nat, j': nat)
    requires j < |envs| && j' < |envs| && round < |envs[j].examples| && round' < |envs[j'].examples|
    requires round < round' || (round == round' && j < j')
    ensures Place(envs, round, j) < Place(envs, round', j')
  {
    if round < round' {
      WidthGrows(envs, round, j, |envs|);
      assert envs[..|envs|] == envs;
      HeightGrows(envs, round + 1, round');
    } else {
      WidthGrows(envs, round, j, j');
    }
  }

  // ---------------------------------------------------------------- counts per epoch

  function CountEnv(rows: seq<EvalRow>, env: string, step: int): nat {
    if rows == [] then 0
    else CountEnv(rows[..|rows| - 1], env, step) + (if rows[|rows| - 1].env == env && rows[|rows| - 1].evalStep == step then 1 else 0)
  }

  lemma {:induction false} CountEnvConcat(a: seq<EvalRow>, b: seq<EvalRow>, env: string, step: int)
    ensures CountEnv(a + b, env, step) == CountEnv(a, env, step) + CountEnv(b, env, step)
  {
    if b == [] {
      assert a + b == a;
    } else {
      assert (a + b)[..|a + b| - 1] == a + b[..|b| - 1];
      CountEnvConcat(a, b[..|b| - 1], env, step);
    }
  }

  /** Examples of the environment with a name, 0 when there is none. */
  function ExamplesOf(envs: seq<EvalEnv>, env: string): nat {
    if envs == [] then 0
    else if envs[|envs| - 1].name == env then |envs[|envs| - 1].examples|
    else ExamplesOf(envs[..|envs| - 1], env)
  }

  lemma {:induction false} AbsentEnv(envs: seq<EvalEnv>, env: string, round: nat, step: int, at: int)
    requires forall i | 0 <= i < |envs| :: envs[i].name != env
    ensures CountEnv(Round(envs, round, step), env, at) == 0
  {
    if envs != [] {
      var n := |envs| - 1;
      AbsentEnv(envs[..n], env, round, step, at);
      CountEnvConcat(Round(envs[..n], round, step),
        if round < |envs[n].examples| then [EvalRow(envs[n].name, envs[n].examples[round], step)] else [], env, at);
    }
  }

  lemma {:induction false} RoundCounts(envs: seq<EvalEnv>, env: string, round: nat, step: int, at: int)
    requires ValidEnvs(envs)
    ensures CountEnv(Round(envs, round, step), env, at) == if at == step && round < ExamplesOf(envs, env) then 1 else 0
  {
    if envs != [] {
      var n := |envs| - 1;
      var tail := if round < |envs[n].examples| then [EvalRow(envs[n].name, envs[n].examples[round], step)] else [];
      CountEnvConcat(Round(envs[..n], round, step), tail, env, at);
      assert CountEnv(tail, env, at) == if tail != [] && envs[n].name == env && at == step then 1 else 0;
      if envs[n].name == env {
        AbsentEnv(envs[..n], env, round, step, at);
      } else {
        RoundCounts(envs[..n], env, round, step, at);
      }
    }
  }

  lemma {:induction false} MergeCounts(envs: seq<EvalEnv>, env: string, rounds: nat, step: int, at: int)
    requires ValidEnvs(envs)
    ensures var n := ExamplesOf(envs, env);
            CountEnv(Merge(envs, rounds, step), env, at) == if at != step then 0 else if rounds < n then rounds else n
  {
    hide Round, ValidEnvs, ExamplesOf;
    if rounds > 0 {
      MergeCounts(envs, env, rounds - 1, step, at);
      RoundCounts(envs, env, rounds - 1, step, at);
      CountEnvConcat(Merge(envs, rounds - 1, step), Round(envs, rounds - 1, step), env, at);
    }
  }

  lemma ValidSnoc(envs: seq<EvalEnv>, e: EvalEnv)
    requires ValidEnvs(envs) && 1 <= e.interval && forall x | x in envs :: x.name != e.name
    ensures ValidEnvs(envs + [e])
  {
    assert forall i | 0 <= i < |envs| :: envs[i] in envs;
  }

  lemma {:induction false} FiredValid(envs: seq<EvalEnv>, first: bool, step: int)
    requires ValidEnvs(envs)
    ensures ValidEnvs(Fired(envs, first, step))
  {
    if envs != [] {
      var n := |envs| - 1;
      assert ValidEnvs(envs[..n]) && 1 <= envs[n].interval;
      Unnamed(envs, first, step);
      hide ValidEnvs;
      FiredValid(envs[..n], first, step);
      ValidSnoc(Fired(envs[..n], first, step), envs[n]);
    }
  }

  lemma {:induction false} FiredKeeps(envs: seq<EvalEnv>, first: bool, step: int, env: string)
    requires ValidEnvs(envs)
    ensures ExamplesOf(Fired(envs, first, step), env) == 0 || ExamplesOf(Fired(envs, first, step), env) == ExamplesOf(envs, env)
  {
    if envs != [] {
      var n := |envs| - 1;
      FiredKeeps(envs[..n], first, step, env);
      if envs[n].name == env {
        NotAmong(envs[..n], env);
        NotAmong(Fired(envs[..n], first, step), env);
        hide ValidEnvs, Longest;
        assert ExamplesOf(Fired(envs[..n], first, step), env) == 0 by { Unnamed(envs, first, step); }
      }
    }
  }

  /** The last environment's name does not occur among the earlier ones. */
  lemma Unnamed(envs: seq<EvalEnv>, first: bool, step: int)
    requires ValidEnvs(envs) && envs != []
    ensures var n := |envs| - 1; forall e | e in Fired(envs[..n], first, step) :: e.name != envs[n].name
  {
    var n := |envs| - 1;
    forall e | e in Fired(envs[..n], first, step) ensures e.name != envs[n].name {
      var i :| 0 <= i < n && envs[i] == e;
    }
  }

  /** The first trigger of a fresh run fires every environment. */
  lemma {:induction false} FirstFiresAll(envs: seq<EvalEnv>, step: int)
    requires forall i | 0 <= i < |envs| :: 1 <= envs[i].interval
    ensures Fired(envs, true, step) == envs
  {
    if envs != [] {
      var n := |envs| - 1;
      FirstFiresAll(envs[..n], step);
      assert envs == envs[..n] + [envs[n]];
    }
  }

  lemma {:induction false} NotAmong(envs: seq<EvalEnv>, env: string)
    ensures ExamplesOf(envs, env) == 0 || exists e :: e in envs && e.name == env
    ensures ExamplesOf(envs, env) <= Longest(envs)
  {
    if envs != [] { NotAmong(envs[..|envs| - 1], env); }
  }

  /** One trigger queues, of every environment, either all its examples at that step or none. */
  lemma {:induction false} EpochCounts(envs: seq<EvalEnv>, first: bool, skipFirst: bool, step: int, env: string, at: int)
    requires ValidEnvs(envs)
    ensures var c := CountEnv(Epoch(envs, first, skipFirst, step), env, at);
            (c == 0 || c == ExamplesOf(envs, env)) && (at != step ==> c == 0)
  {
    var fired := Fired(envs, first, step);
    FiredValid(envs, first, step);
    FiredKeeps(envs, first, step, env);
    NotAmong(fired, env);
    MergeCounts(fired, env, Longest(fired), step, at);
  }

  lemma {:induction false} FiredExamples(envs: seq<EvalEnv>, first: bool, step: int, j: nat)
    requires ValidEnvs(envs) && j < |envs|
    ensures ExamplesOf(Fired(envs, first, step), envs[j].name) == if Fires(envs[j], first, step) then |envs[j].examples| else 0
    ensures ExamplesOf(envs, envs[j].name) == |envs[j].examples|
  {
    var n := |envs| - 1;
    assert ValidEnvs(envs[..n]);
    if j < n {
      FiredExamples(envs[..n], first, step, j);
    } else {
      Unnamed(envs, first, step);
      NotAmong(Fired(envs[..n], first, step), envs[n].name);
    }
  }

  /** One trigger queues every example of each environment that is due, and none of any other. */
  lemma {:induction false} EpochExact(envs: seq<EvalEnv>, first: bool, skipFirst: bool, step: int, j: nat)
    requires ValidEnvs(envs) && j < |envs|
    ensures CountEnv(Epoch(envs, first, skipFirst, step), envs[j].name, step)
         == if Due(envs[j], first, skipFirst, step) then |envs[j].examples| else 0
  {
    var fired := Fired(envs, first, step);
    MultipleIff(step, envs[j].interval);
    FiredExamples(envs, first, step, j);
    FiredValid(envs, first, step);
    NotAmong(fired, envs[j].name);
    MergeCounts(fired, envs[j].name, Longest(fired), step, step);
    hide Multiple, Fired, Merge, Longest, ExamplesOf, ValidEnvs;
  }

  /** Everything queued by a sequence of triggers. */
  function Queued(envs: seq<EvalEnv>, first: bool, skipFirst: bool, steps: seq<int>): seq<EvalRow>
    requires forall i | 0 <= i < |envs| :: 1 <= envs[i].interval
  {
    if steps == [] then []
    else Queued(envs, first, skipFirst, steps[..|steps| - 1])
         + Epoch(envs, first && |steps| == 1, skipFirst, steps[|steps| - 1])
  }

  ghost predicate Increasing(steps: seq<int>) { forall i, j | 0 <= i < j < |steps| :: steps[i] < steps[j] }

  lemma {:induction false} QueuedSnoc(envs: seq<EvalEnv>, first: bool, skipFirst: bool, steps: seq<int>, env: string, at: int)
    requires ValidEnvs(envs) && steps != []
    ensures var n := |steps| - 1;
            CountEnv(Queued(envs, first, skipFirst, steps), env, at)
            == CountEnv(Queued(envs, first, skipFirst, steps[..n]), env, at)
               + CountEnv(Epoch(envs, first && n == 0, skipFirst, steps[n]), env, at)
  {
    var n := |steps| - 1;
    CountEnvConcat(Queued(envs, first, skipFirst, steps[..n]), Epoch(envs, first && n == 0, skipFirst, steps[n]), env, at);
    hide Epoch, CountEnv;
  }

  lemma {:induction false} NoneQueued(envs: seq<EvalEnv>, first: bool, skipFirst: bool, steps: seq<int>, env: string, at: int)
    requires ValidEnvs(envs) && steps == []
    ensures CountEnv(Queued(envs, first, skipFirst, steps), env, at) == 0
  {
  }

  lemma IncreasingFront(steps: seq<int>)
    requires Increasing(steps) && steps != []
    ensures var n := |steps| - 1; Increasing(steps[..n]) && forall i | 0 <= i < |steps[..n]| :: steps[..n][i] != steps[n]
  {
  }

  lemma {:induction false} LaterSteps(envs: seq<EvalEnv>, first: bool, skipFirst: bool, steps: seq<int>, env: string, at: int)
    requires ValidEnvs(envs) && forall i | 0 <= i < |steps| :: steps[i] != at
    ensures CountEnv(Queued(envs, first, skipFirst, steps), env, at) == 0
  {
    if steps != [] {
      var n := |steps| - 1;
      LaterSteps(envs, first, skipFirst, steps[..n], env, at);
      EpochCounts(envs, first && n == 0, skipFirst, steps[n], env, at);
      CountEnvConcat(Queued(envs, first, skipFirst, steps[..n]), Epoch(envs, first && n == 0, skipFirst, steps[n]), env, at);
    }
  }

  /** Triggered at increasing steps, every (environment, step) epoch is queued at most once, and
      then with each of its examples. */
  lemma {:induction false} EpochsOnce(envs: seq<EvalEnv>, first: bool, skipFirst: bool, steps: seq<int>, env: string, at: int)
    requires ValidEnvs(envs) && Increasing(steps)
    ensures var c := CountEnv(Queued(envs, first, skipFirst, steps), env, at); c == 0 || c == ExamplesOf(envs, env)
  {
    hide *;
    if steps == [] {
      NoneQueued(envs, first, skipFirst, steps, env, at);
    } else {
      var n := |steps| - 1;
      EpochCounts(envs, first && n == 0, skipFirst, steps[n], env, at);
      QueuedSnoc(envs, first, skipFirst, steps, env, at);
      IncreasingFront(steps);
      if at == steps[n] {
        LaterSteps(envs, first, skipFirst, steps[..n], env, at);
      } else {
        EpochsOnce(envs, first, skipFirst, steps[..n], env, at);
      }
    }
  }

  /** Which epochs a sequence of triggers queues: those of the environments due at one of its steps. */
  lemma {:induction false} QueuedExact(envs: seq<EvalEnv>, first: bool, skipFirst: bool, steps: seq<int>, k: nat, j: nat)
    requires ValidEnvs(envs) && Increasing(steps) && k < |steps| && j < |envs|
    ensures CountEnv(Queued(envs, first, skipFirst, steps), envs[j].name, steps[k])
         == if Due(envs[j], first && k == 0, skipFirst, steps[k]) then |envs[j].examples| else 0
  {
    hide Epoch, CountEnv, Due, Queued;
    var n := |steps| - 1;
    QueuedSnoc(envs, first, skipFirst, steps, envs[j].name, steps[k]);
    if k == n {
      LaterSteps(envs, first, skipFirst, steps[..n], envs[j].name, steps[n]);
      EpochExact(envs, first && n == 0, skipFirst, steps[n], j);
    } else {
      QueuedExact(envs, first, skipFirst, steps[..n], k, j);
      EpochCounts(envs, first && n == 0, skipFirst, steps[n], envs[j].name, steps[k]);
    }
  }
}

module EvalSourceImpl {
  import opened Common
  import opened EvalSourceSpec

  class EvalSource {
    const envs: seq<EvalEnv>
    const skipFirst: bool
    const resumed: bool
    var queue: seq<EvalRow>
    var firstTrigger: bool
    ghost var steps: seq<int>
    ghost var taken: seq<EvalRow>

    /** What was taken plus what is queued is everything the triggers so far queued, in order. */
    ghost predicate Valid()
      reads this
    {
      && ValidEnvs(envs)
      && taken + queue == Queued(envs, !resumed, skipFirst, steps)
      && firstTrigger == (!resumed && steps == [])
    }

    constructor (envs: seq<EvalEnv>, skipFirst: bool, resumed: bool)
      requires ValidEnvs(envs)
      ensures Valid() && this.envs == envs && this.skipFirst == skipFirst && this.resumed == resumed
      ensures queue == [] && steps == [] && taken == []
    {
      this.envs, this.skipFirst, this.resumed := envs, skipFirst, resumed;
      queue, firstTrigger, steps, taken := [], !resumed, [], [];
    }

    method Trigger(step: int) returns (fired: seq<string>)
      requires Valid()
      modifies this
      ensures Valid() && steps == old(steps) + [step] && taken == old(taken)
      ensures queue == old(queue) + Epoch(envs, old(firstTrigger), skipFirst, step)
      ensures fired == if old(firstTrigger) && skipFirst then [] else Names(Fired(envs, old(firstTrigger), step))
      ensures forall j: nat | j < |envs| :: envs[j].name in fired <==> Due(envs[j], old(firstTrigger), skipFirst, step)
    {
      hide Queued, Epoch, Fired, Names, ValidEnvs, Due;
      QueuedNext(envs, !resumed, skipFirst, steps, step, taken, queue);
      var first := firstTrigger;
      firstTrigger := false;
      steps := steps + [step];
      var rows;
      rows, fired := Fire(envs, first, skipFirst, step);
      queue := queue + rows;
    }

    static lemma {:induction false} QueuedNext(envs: seq<EvalEnv>, first: bool, skipFirst: bool, steps: seq<int>, step: int,
                                               taken: seq<EvalRow>, queue: seq<EvalRow>)
      requires ValidEnvs(envs) && taken + queue == Queued(envs, first, skipFirst, steps)
      ensures Queued(envs, first, skipFirst, steps + [step])
           == taken + (queue + Epoch(envs, first && steps == [], skipFirst, step))
    {
      QueuedSnoc(envs, first, skipFirst, steps, step);
      hide *;
      Behind(taken, queue, Epoch(envs, first && steps == [], skipFirst, step));
    }

    static lemma {:induction false} QueuedSnoc(envs: seq<EvalEnv>, first: bool, skipFirst: bool, steps: seq<int>, step: int)
      requires ValidEnvs(envs)
      ensures Queued(envs, first, skipFirst, steps + [step])
           == Queued(envs, first, skipFirst, steps) + Epoch(envs, first && steps == [], skipFirst, step)
    {
      assert (steps + [step])[..|steps|] == steps;
      hide Epoch;
    }

    static lemma Behind<T>(a: seq<T>, b: seq<T>, c: seq<T>)
      ensures a + (b + c) == (a + b) + c
    {
    }

    static lemma {:induction false} FiredNames(envs: seq<EvalEnv>, first: bool, skipFirst: bool, step: int)
      requires ValidEnvs(envs)
      ensures var fired := if first && skipFirst then [] else Names(Fired(envs, first, step));
              forall j: nat | j < |envs| :: envs[j].name in fired <==> Due(envs[j], first, skipFirst, step)
    {
      if !(first && skipFirst) {
        var at := FiredPicks(envs, first, step);
        forall j: nat | j < |envs| ensures envs[j].name in Names(Fired(envs, first, step)) <==> Due(envs[j], first, skipFirst, step) {
          assert Due(envs[j], first, false, step) == Due(envs[j], first, skipFirst, step);
          NamedIff(envs, Fired(envs, first, step), at, j);
        }
      }
    }

    static lemma NamedIff(envs: seq<EvalEnv>, fired: seq<EvalEnv>, at: seq<nat>, j: nat)
      requires ValidEnvs(envs) && Picks(envs, at, fired) && j < |envs|
      ensures envs[j].name in Names(fired) <==> j in at
    {
      if j in at {
        var i :| 0 <= i < |at| && at[i] == j;
        assert Names(fired)[i] == envs[j].name;
      }
      if envs[j].name in Names(fired) {
        var i :| 0 <= i < |fired| && fired[i].name == envs[j].name;
        assert at[i] == j;
      }
    }

    /** The rows one trigger queues and the names it fires. */
    static method Fire(envs: seq<EvalEnv>, first: bool, skipFirst: bool, step: int) returns (rows: seq<EvalRow>, fired: seq<string>)
      requires ValidEnvs(envs)
      ensures rows == Epoch(envs, first, skipFirst, step)
      ensures fired == if first && skipFirst then [] else Names(Fired(envs, first, step))
      ensures forall j: nat | j < |envs| :: envs[j].name in fired <==> Due(envs[j], first, skipFirst, step)
    {
      FiredNames(envs, first, skipFirst, step);
      if first && skipFirst { return [], []; }
      var chosen;
      chosen, fired := Choose(envs, first, step);
      rows := Interleave(chosen, step);
    }

    static method Choose(envs: seq<EvalEnv>, first: bool, step: int) returns (chosen: seq<EvalEnv>, fired: seq<string>)
      requires forall i | 0 <= i < |envs| :: 1 <= envs[i].interval
      ensures chosen == Fired(envs, first, step) && fired == Names(chosen)
    {
      chosen, fired := [], [];
      for i := 0 to |envs|
        invariant chosen == Fired(envs[..i], first, step) && fired == Names(chosen)
      {
        assert envs[..i + 1][..i] == envs[..i];
        if first || step % envs[i].interval == 0 {
          chosen := chosen + [envs[i]];
          fired := fired + [envs[i].name];
        }
      }
      assert envs[..|envs|] == envs;
    }

    /** The round-robin merge: one example of every environment that still has one, per round. */
    static method Interleave(chosen: seq<EvalEnv>, step: int) returns (rows: seq<EvalRow>)
      ensures rows == Merge(chosen, Longest(chosen), step)
    {
      var n := 0;
      for i := 0 to |chosen|
        invariant n == Longest(chosen[..i])
      {
        assert chosen[..i + 1][..i] == chosen[..i];
        if |chosen[i].examples| > n { n := |chosen[i].examples|; }
      }
      assert chosen[..|chosen|] == chosen;
      rows := [];
      for round := 0 to n
        invariant rows == Merge(chosen, round, step)
      {
        rows := AppendRound(rows, chosen, round, step);
      }
    }

    static method AppendRound(before: seq<EvalRow>, chosen: seq<EvalEnv>, round: nat, step: int) returns (rows: seq<EvalRow>)
      ensures rows == before + Round(chosen, round, step)
    {
      rows := before;
      for j := 0 to |chosen|
        invariant rows == before + Round(chosen[..j], round, step)
      {
        assert chosen[..j + 1][..j] == chosen[..j];
        if round < |chosen[j].examples| {
          rows := rows + [EvalRow(chosen[j].name, chosen[j].examples[round], step)];
        }
      }
      assert chosen[..|chosen|] == chosen;
    }

    /** Pop the head when its permit cost fits; otherwise leave it for a later call. */
    method NextExample(available: int, cost: map<string, nat>) returns (row: Option<EvalRow>)
      requires Valid() && forall i | 0 <= i < |queue| :: queue[i].env in cost
      modifies this
      ensures Valid() && steps == old(steps) && firstTrigger == old(firstTrigger)
      ensures row.Some? <==> old(queue) != [] && cost[old(queue)[0].env] <= available
      ensures row.Some? ==> old(queue) == [row.value] + queue && taken == old(taken) + [row.value]
      ensures row.None? ==> queue == old(queue) && taken == old(taken)
    {
      if queue == [] { return None; }
      var head := queue[0];
      if cost[head.env] > available { return None; }
      assert taken + queue == taken + [head] + queue[1..];
      taken, queue := taken + [head], queue[1..];
      return Some(head);
    }
  }
}
