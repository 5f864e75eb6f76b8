/** Conservation, FIFO batching and progress of the train sink over every sequence of arrivals. */
module TrainSinkRuns {
  import opened Common
  import opened Grouping
  import opened TrainSinkSpec

  // ---------------------------------------------------------------- list lemmas

  lemma {:induction false} TokenSumConcat(a: seq<Rollout>, b: seq<Rollout>)
    ensures TokenSum(a + b) == TokenSum(a) + TokenSum(b)
  {
    if b == [] {
      assert a + b == a;
    } else {
      assert (a + b)[..|a + b| - 1] == a + b[..|b| - 1];
      TokenSumConcat(a, b[..|b| - 1]);
    }
  }

  lemma MultisetSnoc(a: seq<Rollout>, x: Rollout)
    ensures multiset(a + [x]) == multiset(a) + multiset{x}
  {
  }

  lemma SplitMembers(a: seq<Rollout>, x: Rollout, b: seq<Rollout>, c: seq<Rollout>)
    requires multiset(a) == multiset(b) + multiset(c)
    ensures multiset(a + [x]) == multiset(b + [x]) + multiset(c) == multiset(b) + multiset(c + [x])
  {
    MultisetSnoc(a, x);
    MultisetSnoc(b, x);
    MultisetSnoc(c, x);
  }

  lemma {:induction false} SplitSnoc(a: seq<Rollout>, x: Rollout, ids: set<nat>)
    ensures Inside(a + [x], ids) == if x.id in ids then Inside(a, ids) + [x] else Inside(a, ids)
    ensures Outside(a + [x], ids) == if x.id in ids then Outside(a, ids) else Outside(a, ids) + [x]
  {
    assert (a + [x])[..|a|] == a;
  }

  lemma {:induction false} SplitByIds(rs: seq<Rollout>, ids: set<nat>)
    ensures multiset(rs) == multiset(Inside(rs, ids)) + multiset(Outside(rs, ids))
  {
    if rs != [] {
      var a, x := rs[..|rs| - 1], rs[|rs| - 1];
      SplitByIds(a, ids);
      assert rs == a + [x];
      SplitSnoc(a, x, ids);
      hide *;
      SplitMembers(a, x, Inside(a, ids), Outside(a, ids));
    }
  }

  lemma {:induction false} InsideMembers(rs: seq<Rollout>, ids: set<nat>)
    ensures forall r | r in Inside(rs, ids) :: r.id in ids
  {
    if rs != [] { InsideMembers(rs[..|rs| - 1], ids); }
  }

  lemma {:induction false} NothingOutside(rs: seq<Rollout>, ids: set<nat>)
    requires forall r | r in rs :: r.id in ids
    ensures Outside(rs, ids) == []
  {
    if rs != [] { NothingOutside(rs[..|rs| - 1], ids); }
  }

  /** A larger set of retained identities leaves no more outside. */
  lemma {:induction false} OutsideShrinks(rs: seq<Rollout>, ids: set<nat>, more: set<nat>)
    requires ids <= more
    ensures |Outside(rs, more)| <= |Outside(rs, ids)|
  {
    if rs != [] { OutsideShrinks(rs[..|rs| - 1], ids, more); }
  }

  function CountId(rs: seq<Rollout>, id: nat): nat {
    if rs == [] then 0 else CountId(rs[..|rs| - 1], id) + (if rs[|rs| - 1].id == id then 1 else 0)
  }

  lemma {:induction false} CountIdConcat(a: seq<Rollout>, b: seq<Rollout>, id: nat)
    ensures CountId(a + b, id) == CountId(a, id) + CountId(b, id)
  {
    if b == [] {
      assert a + b == a;
    } else {
      assert (a + b)[..|a + b| - 1] == a + b[..|b| - 1];
      CountIdConcat(a, b[..|b| - 1], id);
    }
  }

  lemma {:induction false} CountIdZero(rs: seq<Rollout>, id: nat)
    requires forall r | r in rs :: r.id != id
    ensures CountId(rs, id) == 0
  {
    if rs != [] { CountIdZero(rs[..|rs| - 1], id); }
  }

  lemma {:induction false} KeepCounts(rs: seq<Rollout>, p: Rollout -> bool, id: nat)
    ensures CountId(Keep(rs, p), id) <= CountId(rs, id)
    ensures CountId(Drop(rs, p), id) <= CountId(rs, id)
  {
    if rs != [] {
      var a, x := rs[..|rs| - 1], rs[|rs| - 1];
      KeepCounts(a, p, id);
      if p(x) { CountIdConcat(Keep(a, p), [x], id); } else { CountIdConcat(Drop(a, p), [x], id); }
    }
  }

  lemma {:induction false} AcceptFacts(cfg: Config, spec: EnvSpec, group: seq<Rollout>, id: nat)
    ensures var queued := Accept(cfg, spec, group);
            && |queued| <= |group|
            && (forall r | r in queued :: r in group && Usable(r) && !cfg.pre(r))
            && CountId(queued, id) <= CountId(group, id)
  {
    var survivors := Keep(group, Usable);
    KeepCounts(group, Usable, id);
    KeepCounts(survivors, cfg.pre, id);
    assert CountId([], id) == 0;
  }

  // ---------------------------------------------------------------- the invariant

  ghost predicate DistinctIds(rs: seq<Rollout>) {
    forall i, j | 0 <= i < j < |rs| :: rs[i].id != rs[j].id
  }

  /** Members of one group come from one environment; the dispatcher's stamps guarantee it. */
  ghost predicate SameEnv(rs: seq<Rollout>) {
    forall a, b | a in rs && b in rs && a.gid == b.gid :: a.env == b.env
  }

  ghost predicate FromEnvs(cfg: Config, rs: seq<Rollout>) {
    forall r | r in rs :: r.env in cfg.envs
  }

  ghost predicate GroupOk(cfg: Config, g: nat, group: seq<Rollout>, arrived: seq<Rollout>) {
    && group != []
    && (forall r | r in group :: r.gid == g && r in arrived && r.env in cfg.envs)
    && group[0].env in cfg.envs
    && |group| < cfg.envs[group[0].env].groupSize
  }

  ghost predicate GroupsOk(cfg: Config, groups: map<nat, seq<Rollout>>, arrived: seq<Rollout>) {
    forall g | g in groups :: GroupOk(cfg, g, groups[g], arrived)
  }

  /** An arrival sits in at most one place: still grouping, or queued once. */
  ghost predicate Once(groups: map<nat, seq<Rollout>>, accepted: seq<Rollout>, arrived: seq<Rollout>) {
    && (forall r | r in accepted :: r in arrived)
    && (forall r | r in arrived :: CountId(accepted, r.id) + CountId(GroupAt(groups, r.gid), r.id) <= 1)
  }

  ghost predicate QueueOk(cfg: Config, pendingBatch: seq<Rollout>, pendingTokens: int, cohorts: seq<Rollout>, accepted: seq<Rollout>) {
    && cohorts + pendingBatch == accepted
    && pendingTokens == (if cfg.target.Tokens? then TokenSum(pendingBatch) else 0)
    && (forall r | r in accepted :: Usable(r) && !cfg.pre(r))
  }

  ghost predicate Small(cfg: Config) {
    cfg.target.Rollouts? && forall e | e in cfg.envs :: cfg.envs[e].groupSize <= cfg.target.n
  }

  ghost predicate Conserved(arrived: seq<Rollout>, windows: seq<Rollout>, pendingRollouts: seq<Rollout>) {
    multiset(arrived) == multiset(windows) + multiset(pendingRollouts)
  }

  ghost predicate Inv(cfg: Config, s: State) {
    && DistinctIds(s.arrived) && SameEnv(s.arrived) && FromEnvs(cfg, s.arrived)
    && GroupsOk(cfg, s.pendingGroups, s.arrived)
    && Once(s.pendingGroups, s.accepted, s.arrived)
    && QueueOk(cfg, s.pendingBatch, s.pendingTokens, s.cohorts, s.accepted)
    && Conserved(s.arrived, s.windows, s.pendingRollouts)
    && 0 <= s.lastEmpty <= Queued(cfg, s)
  }

  /** After each `add`. */
  ghost predicate Bounded(cfg: Config, s: State) {
    && |Settled(s)| < cfg.limit
    && (Small(cfg) ==> |s.pendingBatch| < cfg.target.n)
  }

  /** A legal next arrival. */
  ghost predicate Legal(cfg: Config, s: State, r: Rollout) {
    DistinctIds(s.arrived + [r]) && SameEnv(s.arrived + [r]) && r.env in cfg.envs
  }

  // ---------------------------------------------------------------- arrival

  lemma GroupWithOk(cfg: Config, s: State, r: Rollout)
    requires GroupsOk(cfg, s.pendingGroups, s.arrived) && Legal(cfg, s, r) && cfg.Valid()
    ensures var group := GroupWith(s, r);
            && (forall x | x in group :: x.gid == r.gid && x in s.arrived + [r] && x.env in cfg.envs)
            && group[0].env == r.env
            && |group| <= cfg.envs[r.env].groupSize
            && (Completes(cfg, s, r) ==> |group| == cfg.envs[r.env].groupSize)
  {
    if r.gid in s.pendingGroups {
      assert GroupOk(cfg, r.gid, s.pendingGroups[r.gid], s.arrived);
      var first := s.pendingGroups[r.gid][0];
      assert first in s.pendingGroups[r.gid];
      assert first in s.arrived + [r] && r in s.arrived + [r];
    }
  }

  lemma ArriveGroups(cfg: Config, s: State, r: Rollout, t: State)
    requires cfg.Valid() && GroupsOk(cfg, s.pendingGroups, s.arrived) && Legal(cfg, s, r)
    requires GroupWith(s, r)[0].env in cfg.envs && t == Arrive(cfg, s, r)
    ensures GroupsOk(cfg, t.pendingGroups, t.arrived)
  {
    GroupWithOk(cfg, s, r);
    forall g | g in t.pendingGroups ensures GroupOk(cfg, g, t.pendingGroups[g], t.arrived) {
      if g in s.pendingGroups { assert GroupOk(cfg, g, s.pendingGroups[g], s.arrived); }
    }
  }

  lemma {:induction false} QueueExtends(cfg: Config, pendingBatch: seq<Rollout>, pendingTokens: int, cohorts: seq<Rollout>,
                     accepted: seq<Rollout>, queued: seq<Rollout>)
    requires QueueOk(cfg, pendingBatch, pendingTokens, cohorts, accepted)
    requires forall r | r in queued :: Usable(r) && !cfg.pre(r)
    ensures QueueOk(cfg, pendingBatch + queued, pendingTokens + (if cfg.target.Tokens? then TokenSum(queued) else 0), cohorts,
                    accepted + queued)
  {
    TokenSumConcat(pendingBatch, queued);
    hide TokenSum, Usable;
    assert cohorts + (pendingBatch + queued) == (cohorts + pendingBatch) + queued;
    forall r | r in accepted + queued ensures Usable(r) && !cfg.pre(r) { assert r in accepted || r in queued; }
  }

  lemma ArriveQueue(cfg: Config, s: State, r: Rollout, t: State)
    requires QueueOk(cfg, s.pendingBatch, s.pendingTokens, s.cohorts, s.accepted) && r.env in cfg.envs
    requires GroupWith(s, r)[0].env in cfg.envs && t == Arrive(cfg, s, r)
    requires 0 <= s.lastEmpty <= Queued(cfg, s)
    ensures QueueOk(cfg, t.pendingBatch, t.pendingTokens, t.cohorts, t.accepted)
    ensures 0 <= t.lastEmpty <= Queued(cfg, t)
  {
    hide QueueOk, Accept, TokenSum;
    if Completes(cfg, s, r) {
      var group := GroupWith(s, r);
      AcceptFacts(cfg, cfg.envs[group[0].env], group, 0);
      QueueExtends(cfg, s.pendingBatch, s.pendingTokens, s.cohorts, s.accepted, Accept(cfg, cfg.envs[group[0].env], group));
    }
  }

  lemma FreshId(cfg: Config, s: State, r: Rollout, x: Rollout)
    requires Legal(cfg, s, r) && x in s.arrived
    ensures x.id != r.id
  {
    var i :| 0 <= i < |s.arrived| && s.arrived[i] == x;
    assert (s.arrived + [r])[i] == x && (s.arrived + [r])[|s.arrived|] == r;
  }

  lemma ArriveOnceAt(cfg: Config, s: State, r: Rollout, t: State, x: Rollout)
    requires cfg.Valid() && GroupsOk(cfg, s.pendingGroups, s.arrived) && Legal(cfg, s, r)
    requires Once(s.pendingGroups, s.accepted, s.arrived)
    requires GroupWith(s, r)[0].env in cfg.envs && t == Arrive(cfg, s, r) && x in t.arrived
    ensures CountId(t.accepted, x.id) + CountId(GroupAt(t.pendingGroups, x.gid), x.id) <= 1
  {
    var group, before := GroupWith(s, r), GroupAt(s.pendingGroups, r.gid);
    CountIdConcat(before, [r], x.id);
    assert CountId([r], x.id) == if r.id == x.id then 1 else 0;
    if x in s.arrived {
      FreshId(cfg, s, r, x);
    } else {
      assert x == r;
      forall y | y in s.accepted ensures y.id != r.id { FreshId(cfg, s, r, y); }
      forall y | y in before ensures y.id != r.id {
        assert GroupOk(cfg, r.gid, s.pendingGroups[r.gid], s.arrived);
        FreshId(cfg, s, r, y);
      }
      CountIdZero(s.accepted, r.id);
      CountIdZero(before, r.id);
    }
    ArriveOnceCount(cfg, s, r, t, x);
  }

  lemma ArriveOnceCount(cfg: Config, s: State, r: Rollout, t: State, x: Rollout)
    requires r.env in cfg.envs && GroupWith(s, r)[0].env in cfg.envs && t == Arrive(cfg, s, r)
    requires GroupsOk(cfg, s.pendingGroups, s.arrived) && Legal(cfg, s, r) && cfg.Valid()
    requires x in t.arrived
    requires x.gid == r.gid ==> CountId(s.accepted, x.id) + CountId(GroupWith(s, r), x.id) <= 1
    requires x.gid != r.gid ==> CountId(s.accepted, x.id) + CountId(GroupAt(s.pendingGroups, x.gid), x.id) <= 1
    ensures CountId(t.accepted, x.id) + CountId(GroupAt(t.pendingGroups, x.gid), x.id) <= 1
  {
    hide Accept, GroupsOk, Legal;
    if Completes(cfg, s, r) {
      var group := GroupWith(s, r);
      var queued := Accept(cfg, cfg.envs[group[0].env], group);
      AcceptFacts(cfg, cfg.envs[group[0].env], group, x.id);
      CountIdConcat(s.accepted, queued, x.id);
      assert CountId([], x.id) == 0;
      if x.gid != r.gid {
        GroupWithOk(cfg, s, r);
        forall y | y in queued ensures y.id != x.id { SameIdSameGid(cfg, s, r, x, y); }
        CountIdZero(queued, x.id);
      }
    }
  }

  lemma SameIdSameGid(cfg: Config, s: State, r: Rollout, x: Rollout, y: Rollout)
    requires Legal(cfg, s, r) && x in s.arrived + [r] && y in s.arrived + [r] && x.gid != y.gid
    ensures x.id != y.id
  {
    var all := s.arrived + [r];
    var i :| 0 <= i < |all| && all[i] == x;
    var j :| 0 <= j < |all| && all[j] == y;
  }

  lemma ArriveOnce(cfg: Config, s: State, r: Rollout, t: State)
    requires cfg.Valid() && GroupsOk(cfg, s.pendingGroups, s.arrived) && Legal(cfg, s, r)
    requires Once(s.pendingGroups, s.accepted, s.arrived)
    requires GroupWith(s, r)[0].env in cfg.envs && t == Arrive(cfg, s, r)
    ensures Once(t.pendingGroups, t.accepted, t.arrived)
  {
    GroupWithOk(cfg, s, r);
    AcceptFacts(cfg, cfg.envs[r.env], GroupWith(s, r), 0);
    forall x | x in t.arrived
      ensures CountId(t.accepted, x.id) + CountId(GroupAt(t.pendingGroups, x.gid), x.id) <= 1
    {
      ArriveOnceAt(cfg, s, r, t, x);
    }
  }

  lemma ArriveKeeps(cfg: Config, s: State, r: Rollout)
    requires cfg.Valid() && Inv(cfg, s) && Legal(cfg, s, r)
    ensures GroupWith(s, r)[0].env in cfg.envs && Inv(cfg, Arrive(cfg, s, r))
  {
    GroupWithOk(cfg, s, r);
    var t := Arrive(cfg, s, r);
    ArriveGroups(cfg, s, r, t);
    ArriveQueue(cfg, s, r, t);
    ArriveOnce(cfg, s, r, t);
    assert multiset(s.arrived + [r]) == multiset(s.arrived) + multiset{r};
    assert multiset(s.pendingRollouts + [r]) == multiset(s.pendingRollouts) + multiset{r};
  }

  // ---------------------------------------------------------------- batches

  function SumTo(rs: seq<Rollout>, i: nat): nat
    requires i <= |rs|
  {
    TokenSum(rs[..i])
  }

  lemma {:induction false} CutFromIs(rs: seq<Rollout>, target: nat, i: nat)
    requires i <= |rs|
    ensures CutFrom(rs, target, i) == if i == |rs| || (0 < i && SumTo(rs, i) >= target) then i else CutFrom(rs, target, i + 1)
  {
    hide TokenSum;
  }

  lemma {:induction false} ShortestBySums(rs: seq<Rollout>, target: nat, i: nat)
    requires i <= |rs| && SumTo(rs, 0) < target <= SumTo(rs, |rs|) && (0 < i ==> SumTo(rs, i - 1) < target)
    ensures var cut := CutFrom(rs, target, i); 0 < cut && SumTo(rs, cut) >= target > SumTo(rs, cut - 1)
    decreases |rs| - i
  {
    CutFromIs(rs, target, i);
    hide CutFrom, SumTo;
    if i < |rs| && (i == 0 || SumTo(rs, i) < target) { ShortestBySums(rs, target, i + 1); }
  }

  lemma {:induction false} CutIsShortest(rs: seq<Rollout>, target: nat)
    requires 1 <= target && TokenSum(rs) >= target
    ensures var cut := CutFrom(rs, target, 0);
            0 < cut && TokenSum(rs[..cut]) >= target && TokenSum(rs[..cut - 1]) < target
  {
    assert rs[..|rs|] == rs && SumTo(rs, 0) == 0;
    hide TokenSum, CutFrom;
    ShortestBySums(rs, target, 0);
  }

  /** The cohort of a ready token batch is the shortest prefix of the queue that reaches the
      target; that of a ready count batch is exactly the target. */
  lemma CutExact(cfg: Config, s: State)
    requires cfg.Valid() && QueueOk(cfg, s.pendingBatch, s.pendingTokens, s.cohorts, s.accepted) && Ready(cfg, s)
    ensures var cohort := s.pendingBatch[..Cut(cfg, s.pendingBatch)];
            && cohort != []
            && (cfg.target.Rollouts? ==> |cohort| == cfg.target.n)
            && (cfg.target.Tokens? ==> TokenSum(cohort) >= cfg.target.n && TokenSum(cohort[..|cohort| - 1]) < cfg.target.n)
  {
    if cfg.target.Tokens? {
      CutIsShortest(s.pendingBatch, cfg.target.n);
      var cut := Cut(cfg, s.pendingBatch);
      assert s.pendingBatch[..cut][..cut - 1] == s.pendingBatch[..cut - 1];
    }
  }

  lemma CohortQueue(cfg: Config, s: State, t: State)
    requires QueueOk(cfg, s.pendingBatch, s.pendingTokens, s.cohorts, s.accepted) && t == PopCohort(cfg, s)
    ensures QueueOk(cfg, t.pendingBatch, t.pendingTokens, t.cohorts, t.accepted)
    ensures s.accepted == t.accepted && 0 <= Queued(cfg, t)
  {
    var cut := Cut(cfg, s.pendingBatch);
    var cohort, rest := s.pendingBatch[..cut], s.pendingBatch[cut..];
    assert s.pendingBatch == cohort + rest;
    TokenSumConcat(cohort, rest);
    assert s.cohorts + cohort + rest == s.cohorts + (cohort + rest);
  }

  lemma PopSettledKeeps(s: State, minimum: nat)
    requires Conserved(s.arrived, s.windows, s.pendingRollouts)
    ensures var t := PopSettled(s, minimum).0;
            && t == s.(pendingRollouts := t.pendingRollouts, windows := t.windows)
            && Conserved(t.arrived, t.windows, t.pendingRollouts)
            && (|Settled(s)| >= minimum ==> Settled(t) == [])
            && PopSettled(s, minimum).1 == if |Settled(s)| < minimum then [] else Settled(s)
  {
    var ids := RetainedIds(s);
    SplitByIds(s.pendingRollouts, ids);
    InsideMembers(s.pendingRollouts, ids);
    NothingOutside(Inside(s.pendingRollouts, ids), ids);
    var t := PopSettled(s, minimum).0;
    assert RetainedIds(t) == ids;
    assert multiset(s.windows + Settled(s)) == multiset(s.windows) + multiset(Settled(s));
  }

  lemma ProcessKeeps(cfg: Config, s: State)
    requires cfg.Valid() && Inv(cfg, s)
    ensures var t := ProcessBatch(cfg, s).0;
            Inv(cfg, t) && Settled(t) == [] && t.arrived == s.arrived && t.accepted == s.accepted
            && t.pendingBatch == s.pendingBatch[Cut(cfg, s.pendingBatch)..]
  {
    hide DistinctIds, SameEnv, FromEnvs, GroupsOk, Once, QueueOk, ProcessBatch, Settled, PopSettled, Conserved;
    var u := PopCohort(cfg, s);
    CohortQueue(cfg, s, u);
    var t := ProcessBatch(cfg, s).0;
    ProcessCases(cfg, s);
    hide PopCohort;
    PopSettledKeeps(u, 1);
    PoppedAll(u);
    SettledFields(t, PopSettled(u, 1).0);
    WholeWindow(u);
    if t.pendingRollouts == [] { SettledNone(t); }
  }

  /** A ready batch takes the whole window when it ships and the settled part otherwise. */
  lemma ProcessCases(cfg: Config, s: State)
    ensures var (u, t) := (PopCohort(cfg, s), ProcessBatch(cfg, s).0);
            && t == u.(pendingRollouts := t.pendingRollouts, windows := t.windows, lastEmpty := Queued(cfg, u))
            && (|| (t.pendingRollouts == [] && t.windows == u.windows + u.pendingRollouts)
                || (t.pendingRollouts == PopSettled(u, 1).0.pendingRollouts && t.windows == PopSettled(u, 1).0.windows))
  {
    hide Cut, Drop, SamplesOf, VersionMin, Settled, Unsettled, PopCohort, TokenSum;
  }

  lemma PoppedAll(u: State)
    requires Conserved(u.arrived, u.windows, u.pendingRollouts)
    ensures Settled(PopSettled(u, 1).0) == []
  {
    PopSettledKeeps(u, 1);
    hide Settled, Conserved;
  }

  lemma WholeWindow(u: State)
    requires Conserved(u.arrived, u.windows, u.pendingRollouts)
    ensures Conserved(u.arrived, u.windows + u.pendingRollouts, [])
  {
    assert multiset(u.windows + u.pendingRollouts) == multiset(u.windows) + multiset(u.pendingRollouts);
  }

  lemma SettledNone(t: State)
    requires t.pendingRollouts == []
    ensures Settled(t) == []
  {
    hide RetainedIds;
    assert Outside([], RetainedIds(t)) == [];
  }

  /** Settledness looks at the queue, the groups and the window only. */
  lemma SettledFields(s: State, t: State)
    ensures s.pendingBatch == t.pendingBatch && s.pendingGroups == t.pendingGroups && s.pendingRollouts == t.pendingRollouts
            ==> Settled(s) == Settled(t)
  {
    if s.pendingBatch == t.pendingBatch && s.pendingGroups == t.pendingGroups {
      assert RetainedIds(s) == RetainedIds(t);
    }
  }

  lemma FlushKeeps(cfg: Config, s: State)
    requires cfg.Valid() && Inv(cfg, s)
    ensures var (t, b) := Flush(cfg, s);
            && Inv(cfg, t) && |Settled(t)| < cfg.limit
            && t == s.(pendingRollouts := t.pendingRollouts, windows := t.windows, lastEmpty := t.lastEmpty)
            && (b.None? ==> t == s)
            && (b.Some? ==> b.value.samples == [] && b.value.cohort == [] && t.lastEmpty == Queued(cfg, s)
                            && b.value.madeProgress == (Queued(cfg, s) > s.lastEmpty) && b.value.rollouts == Settled(s))
  {
    hide DistinctIds, SameEnv, FromEnvs, GroupsOk, Once, QueueOk;
    PopSettledKeeps(s, cfg.limit);
    var (t, b) := Flush(cfg, s);
    SettledFields(t, PopSettled(s, cfg.limit).0);
  }

  /** While its group is still filling, an arrival never adds a settled rollout. */
  lemma FillingSettles(cfg: Config, s: State, r: Rollout, t: State)
    requires r.env in cfg.envs && GroupWith(s, r)[0].env in cfg.envs && t == Arrive(cfg, s, r) && !Completes(cfg, s, r)
    ensures |Settled(t)| <= |Settled(s)|
  {
    var group := GroupWith(s, r);
    assert group[|group| - 1] == r && r in group;
    assert t.pendingGroups[r.gid] == group;
    assert r.id in RetainedIds(t);
    assert RetainedIds(s) <= RetainedIds(t) by { FillingRetains(cfg, s, r, t); }
    OutsideShrinks(s.pendingRollouts, RetainedIds(s), RetainedIds(t));
    assert t.pendingRollouts[..|t.pendingRollouts| - 1] == s.pendingRollouts;
  }

  lemma FillingRetains(cfg: Config, s: State, r: Rollout, t: State)
    requires r.env in cfg.envs && GroupWith(s, r)[0].env in cfg.envs && t == Arrive(cfg, s, r) && !Completes(cfg, s, r)
    ensures RetainedIds(s) <= RetainedIds(t)
  {
    forall id | id in RetainedIds(s) ensures id in RetainedIds(t) {
      if !(exists x | x in s.pendingBatch :: x.id == id) {
        var g, x :| g in s.pendingGroups && x in s.pendingGroups[g] && x.id == id;
        assert g in t.pendingGroups && x in t.pendingGroups[g];
      }
    }
  }

  // ---------------------------------------------------------------- one add

  lemma AddQueueBound(cfg: Config, s: State, r: Rollout)
    requires cfg.Valid() && Inv(cfg, s) && Legal(cfg, s, r) && Bounded(cfg, s) && Small(cfg)
    requires GroupWith(s, r)[0].env in cfg.envs
    ensures var t := Arrive(cfg, s, r);
            |t.pendingBatch| < 2 * cfg.target.n && (Ready(cfg, t) ==> |t.pendingBatch[Cut(cfg, t.pendingBatch)..]| < cfg.target.n)
  {
    GroupWithOk(cfg, s, r);
    AcceptFacts(cfg, cfg.envs[GroupWith(s, r)[0].env], GroupWith(s, r), 0);
  }

  lemma AddKeeps(cfg: Config, s: State, r: Rollout)
    requires cfg.Valid() && Inv(cfg, s) && Bounded(cfg, s) && Legal(cfg, s, r)
    ensures GroupWith(s, r)[0].env in cfg.envs
    ensures Inv(cfg, Add(cfg, s, r).0) && Bounded(cfg, Add(cfg, s, r).0) && Add(cfg, s, r).0.arrived == s.arrived + [r]
  {
    ArriveKeeps(cfg, s, r);
    var t := Arrive(cfg, s, r);
    assert t.arrived == s.arrived + [r];
    if Small(cfg) { AddQueueBound(cfg, s, r); }
    assert Add(cfg, s, r).0 == (if Ready(cfg, t) then ProcessBatch(cfg, t).0 else if Completes(cfg, s, r) then Flush(cfg, t).0 else t);
    hide Inv, ProcessBatch, Flush, Settled, Legal, Arrive, GroupWith, Completes, Small, Cut, Ready, Add;
    if Ready(cfg, t) {
      ProcessKeeps(cfg, t);
    } else if Completes(cfg, s, r) {
      FlushKeeps(cfg, t);
      NotReady(cfg, t);
    } else {
      FillingSettles(cfg, s, r, t);
      NotReady(cfg, t);
    }
  }

  lemma NotReady(cfg: Config, t: State)
    requires !Ready(cfg, t)
    ensures cfg.target.Rollouts? ==> |t.pendingBatch| < cfg.target.n
    ensures Small(cfg) ==> cfg.target.Rollouts?
  {
  }

  /** The histories are exactly what `add` returned. */
  lemma AddRecords(cfg: Config, s: State, r: Rollout)
    requires r.env in cfg.envs && GroupWith(s, r)[0].env in cfg.envs
    ensures var (t, b) := Add(cfg, s, r);
            && t.windows == s.windows + (if b.Some? then b.value.rollouts else [])
            && t.cohorts == s.cohorts + (if b.Some? then b.value.cohort else [])
  {
    assert s.windows + [] == s.windows && s.cohorts + [] == s.cohorts;
    hide Accept, Settled, SamplesOf, VersionMin;
  }

  // ---------------------------------------------------------------- whole runs

  /** Any sequence of distinct rollouts from configured environments, one environment per group. */
  ghost predicate Arrivals(cfg: Config, rs: seq<Rollout>) {
    DistinctIds(rs) && SameEnv(rs) && FromEnvs(cfg, rs)
  }

  lemma ArrivalsPrefix(cfg: Config, rs: seq<Rollout>)
    requires rs != [] && Arrivals(cfg, rs)
    ensures Arrivals(cfg, rs[..|rs| - 1])
    ensures rs[..|rs| - 1] + [rs[|rs| - 1]] == rs
  {
    assert forall r | r in rs[..|rs| - 1] :: r in rs;
  }

  /** The sink after a sequence of arrivals, and its invariant. */
  ghost function After(cfg: Config, rs: seq<Rollout>): (s: State)
    requires cfg.Valid() && Arrivals(cfg, rs)
    ensures Inv(cfg, s) && Bounded(cfg, s) && s.arrived == rs
    decreases |rs|
  {
    if rs == [] then
      assert Settled(EMPTY) == [];
      EMPTY
    else
      ArrivalsPrefix(cfg, rs);
      var s := After(cfg, rs[..|rs| - 1]);
      AddKeeps(cfg, s, rs[|rs| - 1]);
      Add(cfg, s, rs[|rs| - 1]).0
  }

  /** Cohorts followed by the queue are the acceptance sequence; no arrival is in it twice. */
  lemma {:induction false} FifoBatching(cfg: Config, rs: seq<Rollout>)
    requires cfg.Valid() && Arrivals(cfg, rs)
    ensures var s := After(cfg, rs);
            && s.cohorts + s.pendingBatch == s.accepted
            && (forall r | r in s.accepted :: r in rs && Usable(r) && !cfg.pre(r))
            && (forall r | r in rs :: CountId(s.cohorts, r.id) + CountId(s.pendingBatch, r.id) <= 1)
            && s.pendingTokens == (if cfg.target.Tokens? then TokenSum(s.pendingBatch) else 0)
            && (Small(cfg) ==> |s.pendingBatch| < cfg.target.n)
  {
    var s := After(cfg, rs);
    forall r | r in rs ensures CountId(s.cohorts, r.id) + CountId(s.pendingBatch, r.id) <= 1 {
      CountIdConcat(s.cohorts, s.pendingBatch, r.id);
    }
  }

  /** Every arrival is in exactly one returned window or still pending, and fewer than the limit
      of the pending ones are settled. */
  lemma {:induction false} WindowConservation(cfg: Config, rs: seq<Rollout>)
    requires cfg.Valid() && Arrivals(cfg, rs)
    ensures var s := After(cfg, rs);
            && multiset(rs) == multiset(s.windows) + multiset(s.pendingRollouts)
            && |Settled(s)| < cfg.limit
  {
  }

  /** A group reaches `process_group` with exactly its configured size, so the privileged-context
      barrier never raises. */
  lemma {:induction false} GroupBarrier(cfg: Config, rs: seq<Rollout>, r: Rollout)
    requires cfg.Valid() && Arrivals(cfg, rs + [r])
    requires Arrivals(cfg, rs) && r.env in cfg.envs && Completes(cfg, After(cfg, rs), r)
    ensures var group := GroupWith(After(cfg, rs), r);
            |group| == cfg.envs[r.env].groupSize && forall x | x in group :: x.gid == r.gid && x.env == r.env
  {
    var s := After(cfg, rs);
    assert Legal(cfg, s, r);
    GroupWithOk(cfg, s, r);
    forall x | x in GroupWith(s, r) ensures x.env == r.env { assert x in rs + [r] && r in rs + [r]; }
  }

  /** A token batch takes the shortest prefix of the queue that reaches the target; a count batch
      takes exactly the target. */
  lemma {:induction false} CohortExact(cfg: Config, rs: seq<Rollout>, r: Rollout)
    requires cfg.Valid() && Arrivals(cfg, rs) && Legal(cfg, After(cfg, rs), r)
    requires GroupWith(After(cfg, rs), r)[0].env in cfg.envs
    requires Ready(cfg, Arrive(cfg, After(cfg, rs), r))
    ensures var t := Arrive(cfg, After(cfg, rs), r);
            var b := Add(cfg, After(cfg, rs), r).1;
            && b.Some? && b.value.cohort <= t.pendingBatch && b.value.cohort != []
            && (cfg.target.Rollouts? ==> |b.value.cohort| == cfg.target.n)
            && (cfg.target.Tokens? ==>
                  && TokenSum(b.value.cohort) >= cfg.target.n
                  && TokenSum(b.value.cohort[..|b.value.cohort| - 1]) < cfg.target.n)
  {
    hide *;
    AddCohort(cfg, After(cfg, rs), r);
  }

  lemma {:induction false} AddCohort(cfg: Config, s: State, r: Rollout)
    requires cfg.Valid() && Inv(cfg, s) && Legal(cfg, s, r)
    requires GroupWith(s, r)[0].env in cfg.envs && Ready(cfg, Arrive(cfg, s, r))
    ensures var (t, b) := (Arrive(cfg, s, r), Add(cfg, s, r).1);
            && b.Some? && b.value.cohort <= t.pendingBatch && b.value.cohort != []
            && (cfg.target.Rollouts? ==> |b.value.cohort| == cfg.target.n)
            && (cfg.target.Tokens? ==>
                  && TokenSum(b.value.cohort) >= cfg.target.n
                  && TokenSum(b.value.cohort[..|b.value.cohort| - 1]) < cfg.target.n)
  {
    assert r.env in cfg.envs;
    hide *;
    ArriveKeeps(cfg, s, r);
    var t := Arrive(cfg, s, r);
    InvQueue(cfg, t);
    CutExact(cfg, t);
    ReadyBatch(cfg, s, r);
    TakeIsPrefix(t.pendingBatch, Cut(cfg, t.pendingBatch));
  }

  lemma InvQueue(cfg: Config, t: State)
    requires Inv(cfg, t)
    ensures QueueOk(cfg, t.pendingBatch, t.pendingTokens, t.cohorts, t.accepted)
  {
  }

  lemma TakeIsPrefix<T>(xs: seq<T>, n: nat)
    requires n <= |xs|
    ensures xs[..n] <= xs
  {
  }

  /** A ready sink's batch carries the queue's prefix up to the cut. */
  lemma ReadyBatch(cfg: Config, s: State, r: Rollout)
    requires r.env in cfg.envs && GroupWith(s, r)[0].env in cfg.envs && Ready(cfg, Arrive(cfg, s, r))
    ensures var (t, b) := (Arrive(cfg, s, r), Add(cfg, s, r).1);
            b.Some? && b.value.cohort == t.pendingBatch[..Cut(cfg, t.pendingBatch)]
  {
    hide Arrive, Cut, Drop, SamplesOf, VersionMin, PopCohort, PopSettled, Ready, TokenSum;
  }
}
