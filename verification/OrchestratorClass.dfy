/** The orchestrator's train-batch callbacks and the weight watcher's poll, updated in place. */
module OrchestratorImpl {
  import opened Common
  import opened TrainSinkSpec
  import opened OrchestratorSpec

  class Orchestrator {
    const cfg: Settings
    ghost const start: int
    var step: int
    var consecutive: nat
    var draining: bool
    var aborted: bool
    var lastWarmup: Option<int>
    ghost var sent: seq<Sent>

    ghost function Snapshot(): Orch
      reads this
    {
      Orch(step, consecutive, draining, aborted, lastWarmup, sent)
    }

    /** What every run of callbacks keeps. */
    ghost predicate Valid()
      reads this
    {
      Disciplined(cfg, start, Snapshot())
    }

    constructor (cfg: Settings, start: int)
      ensures this.cfg == cfg && this.start == start && Snapshot() == Start(start) && Valid()
    {
      this.cfg, this.start, this.step := cfg, start, start;
      consecutive, draining, aborted, lastWarmup, sent := 0, false, false, None, [];
    }

    method PassesValueWarmup(b: Batch, live: int) returns (ok: bool)
      requires cfg.warmup.Some?
      modifies this`lastWarmup
      ensures ok == PassesWarmup(cfg, b, live)
      ensures lastWarmup == if ok then None else Some(GateVersion(b, live))
    {
      var gate := live;
      if b.versionMin.Some? { gate := b.versionMin.value; }
      if gate < cfg.warmup.value {
        if Some(gate) != lastWarmup { lastWarmup := Some(gate); }
        return false;
      }
      lastWarmup := None;
      return true;
    }

    method FinalizeTrainBatch(b: Batch)
      modifies this
      ensures Snapshot() == Finalize(cfg, old(Snapshot()), b)
    {
      var shipping := step;
      if cfg.maxSteps.Some? && shipping > cfg.maxSteps.value {
        draining := true;
        return;
      }
      if b.samples == [] {
        if b.madeProgress {
          consecutive := 0;
          return;
        }
        consecutive := consecutive + 1;
        aborted := consecutive >= MAX_CONSECUTIVE_EMPTY_BATCHES;
        return;
      }
      consecutive := 0;
      sent := sent + [Sent(shipping, b)];
      step := step + 1;
      if cfg.maxSteps.Some? && shipping >= cfg.maxSteps.value { draining := true; }
    }

    /** The main loop's branch for a batch the train sink returned. */
    method OnTrainBatch(b: Batch, live: int)
      requires Valid()
      modifies this
      ensures Valid() && Snapshot() == OnBatch(cfg, old(Snapshot()), b, live)
    {
      if draining || aborted { return; }
      if b.samples != [] && cfg.warmup.Some? {
        var ok := PassesValueWarmup(b, live);
        if !ok { return; }
      }
      FinalizeTrainBatch(b);
    }
  }

  /** The newest of a start version and every published checkpoint. */
  function Newest(start: nat, published: seq<nat>): nat {
    if published == [] then start
    else
      var rest := Newest(start, published[..|published| - 1]);
      if published[|published| - 1] > rest then published[|published| - 1] else rest
  }

  lemma {:induction false} NewestIsLeastBound(start: nat, published: seq<nat>)
    ensures start <= Newest(start, published) && forall p | p in published :: p <= Newest(start, published)
    ensures Newest(start, published) == start || Newest(start, published) in published
  {
    if published != [] {
      var n := |published| - 1;
      NewestIsLeastBound(start, published[..n]);
      assert published == published[..n] + [published[n]];
    }
  }

  /** What an update does, in order: `seen` is the policy version an observer reads when notified. */
  datatype Notice =
    | Pending(next: nat, observer: nat, seen: nat)    // on_version_pending
    | Loaded(next: nat)                               // the engines have the new weights
    | Written(next: nat)                              // the policy version is written
    | Announced(next: nat, observer: nat, seen: nat)  // on_new_version

  function Pendings(next: nat, n: nat, seen: nat): (r: seq<Notice>)
    ensures |r| == n && forall i | 0 <= i < n :: r[i] == Pending(next, i, seen)
  {
    seq(n, i requires 0 <= i < n => Pending(next, i, seen))
  }

  function Announcements(next: nat, n: nat): (r: seq<Notice>)
    ensures |r| == n && forall i | 0 <= i < n :: r[i] == Announced(next, i, next)
  {
    seq(n, i requires 0 <= i < n => Announced(next, i, next))
  }

  /** One update: every observer hears of it under the old version, the weights are loaded and the
      version written, and then every observer hears of the new version. */
  function UpdateFrom(before: nat, next: nat, observers: nat): seq<Notice> {
    Pendings(next, observers, before) + [Loaded(next), Written(next)] + Announcements(next, observers)
  }

  /** Everything a sequence of polls does. */
  function History(start: nat, polls: seq<nat>, observers: nat): seq<Notice> {
    if polls == [] then []
    else
      var before, next := Newest(start, polls[..|polls| - 1]), Newest(start, polls);
      History(start, polls[..|polls| - 1], observers) + (if next > before then UpdateFrom(before, next, observers) else [])
  }

  function Phase(n: Notice): nat {
    match n
    case Pending(_, _, _) => 0
    case Loaded(_) => 1
    case Written(_) => 2
    case Announced(_, _, _) => 3
  }

  predicate NoLater(a: Notice, b: Notice) { a.next < b.next || (a.next == b.next && Phase(a) <= Phase(b)) }

  ghost predicate InOrder(h: seq<Notice>) { forall i, j | 0 <= i < j < |h| :: NoLater(h[i], h[j]) }

  lemma UpdateInOrder(before: nat, next: nat, observers: nat)
    requires before < next
    ensures var u := UpdateFrom(before, next, observers);
            && InOrder(u)
            && forall i | 0 <= i < |u| ::
                 && u[i].next == next
                 && (u[i].Pending? ==> u[i].seen == before) && (u[i].Announced? ==> u[i].seen == next)
  {
  }

  /** Over any polls, updates never interleave: versions only rise, and each is pending, loaded,
      written and announced in this order, the pending notices under an older version and the
      announcements under the new one. */
  lemma {:induction false} HistoryInOrder(start: nat, polls: seq<nat>, observers: nat)
    ensures var h := History(start, polls, observers);
            && InOrder(h)
            && forall i | 0 <= i < |h| ::
                 && start < h[i].next <= Newest(start, polls)
                 && (h[i].Pending? ==> h[i].seen < h[i].next) && (h[i].Announced? ==> h[i].seen == h[i].next)
  {
    if polls != [] {
      var n := |polls| - 1;
      HistoryInOrder(start, polls[..n], observers);
      NewestIsLeastBound(start, polls[..n]);
      var before, next := Newest(start, polls[..n]), Newest(start, polls);
      if next > before { UpdateInOrder(before, next, observers); }
      hide UpdateFrom, Newest;
    }
  }

  /** A poll found the version published, newer than all before it. */
  ghost predicate Adopted(start: nat, polls: seq<nat>, next: nat) {
    next > start && exists n :: 0 <= n < |polls| && polls[n] == next && forall m | 0 <= m < n :: polls[m] < next
  }

  ghost predicate Told(h: seq<Notice>, next: nat, observer: nat) { exists seen :: Pending(next, observer, seen) in h }

  /** What the history holds of a version: nothing of it, or its load, its write, and both notices of every observer. */
  ghost predicate Whole(h: seq<Notice>, next: nat, observers: nat, adopted: bool) {
    && (Loaded(next) in h <==> adopted) && (Written(next) in h <==> adopted)
    && (forall i: nat :: Told(h, next, i) <==> adopted && i < observers)
    && (forall i: nat :: Announced(next, i, next) in h <==> adopted && i < observers)
  }

  lemma UpdateWhole(before: nat, next: nat, observers: nat, v: nat)
    ensures Whole(UpdateFrom(before, next, observers), v, observers, v == next)
    ensures forall i, j | 0 <= i < j < |UpdateFrom(before, next, observers)| ::
              UpdateFrom(before, next, observers)[i] != UpdateFrom(before, next, observers)[j]
  {
    var u := UpdateFrom(before, next, observers);
    assert u[observers] == Loaded(next) && u[observers + 1] == Written(next);
    forall i: nat ensures Told(u, v, i) <==> v == next && i < observers {
      if i < observers { assert u[i] == Pending(next, i, before); }
    }
    forall i: nat ensures Announced(v, i, v) in u <==> v == next && i < observers {
      if i < observers { assert u[observers + 2 + i] == Announced(next, i, next); }
    }
  }

  lemma WholeConcat(a: seq<Notice>, b: seq<Notice>, next: nat, observers: nat, inA: bool, inB: bool)
    requires Whole(a, next, observers, inA) && Whole(b, next, observers, inB)
    ensures Whole(a + b, next, observers, inA || inB)
  {
    forall i: nat ensures Told(a + b, next, i) <==> Told(a, next, i) || Told(b, next, i) {
      if seen :| Pending(next, i, seen) in a { assert Pending(next, i, seen) in a + b; }
      if seen :| Pending(next, i, seen) in b { assert Pending(next, i, seen) in a + b; }
    }
    hide Told;
  }

  lemma {:induction false} AdoptedNext(start: nat, polls: seq<nat>, next: nat)
    requires polls != []
    ensures var front := polls[..|polls| - 1];
            Adopted(start, polls, next)
            <==> Adopted(start, front, next) || (next == polls[|polls| - 1] && next > Newest(start, front))
  {
    var n := |polls| - 1;
    var front := polls[..n];
    NewestIsLeastBound(start, front);
    if Adopted(start, front, next) {
      var k :| 0 <= k < n && front[k] == next && forall m | 0 <= m < k :: front[m] < next;
      assert polls[k] == next && forall m | 0 <= m < k :: polls[m] == front[m];
    }
    if Adopted(start, polls, next) {
      var k :| 0 <= k < |polls| && polls[k] == next && forall m | 0 <= m < k :: polls[m] < next;
      if k < n { assert front[k] == next && forall m | 0 <= m < k :: front[m] == polls[m]; }
      if Newest(start, front) in front {
        var m :| 0 <= m < n && front[m] == Newest(start, front);
        assert polls[m] == front[m];
      }
    }
    if next == polls[n] && next > Newest(start, front) {
      forall m | 0 <= m < n ensures polls[m] < next { assert front[m] in front; }
    }
  }

  /** Over any polls, exactly the versions newer than all before them are adopted, and each of them is loaded,
      written, and heard of twice by every observer, once each. */
  lemma {:induction false} HistoryWhole(start: nat, polls: seq<nat>, observers: nat)
    ensures var h := History(start, polls, observers);
            && (forall next: nat :: Whole(h, next, observers, Adopted(start, polls, next)))
            && (forall i, j | 0 <= i < j < |h| :: h[i] != h[j])
  {
    if polls != [] {
      var n := |polls| - 1;
      var before, next := Newest(start, polls[..n]), Newest(start, polls);
      var a := History(start, polls[..n], observers);
      var b := if next > before then UpdateFrom(before, next, observers) else [];
      HistoryWhole(start, polls[..n], observers);
      HistoryInOrder(start, polls[..n], observers);
      NewestIsLeastBound(start, polls[..n]);
      hide UpdateFrom, InOrder, Adopted;
      forall v: nat ensures Whole(a + b, v, observers, Adopted(start, polls, v)) {
        AdoptedNext(start, polls, v);
        if next > before { UpdateWhole(before, next, observers, v); }
        WholeConcat(a, b, v, observers, Adopted(start, polls[..n], v), next > before && v == next);
      }
      if next > before {
        UpdateWhole(before, next, observers, 0);
        UpdateInOrder(before, next, observers);
      }
      Apart(a, b, before);
    }
  }

  lemma Apart(a: seq<Notice>, b: seq<Notice>, bound: nat)
    requires (forall i, j | 0 <= i < j < |a| :: a[i] != a[j]) && (forall i, j | 0 <= i < j < |b| :: b[i] != b[j])
    requires (forall i | 0 <= i < |a| :: a[i].next <= bound) && forall i | 0 <= i < |b| :: b[i].next > bound
    ensures forall i, j | 0 <= i < j < |a + b| :: (a + b)[i] != (a + b)[j]
  {
  }

  /** The weight watcher: `polls` is the history of what each poll found published. */
  class WeightWatcher {
    ghost const start: nat
    const observers: nat
    var ckptStep: nat
    var version: nat
    var updates: nat
    ghost var polls: seq<nat>
    ghost var notices: seq<Notice>

    /** The adopted checkpoint and the policy version are always the newest one seen so far, and
        what happened is the history of the polls. */
    ghost predicate Valid()
      reads this
    {
      ckptStep == version == Newest(start, polls) && notices == History(start, polls, observers)
    }

    constructor (start: nat, observers: nat)
      ensures Valid() && this.start == start && this.observers == observers && updates == 0 && polls == [] && notices == []
    {
      this.start, this.observers, ckptStep, version, updates := start, observers, start, start, 0;
      polls, notices := [], [];
    }

    /** One turn of the polling loop; `latest` is the newest checkpoint on disk, 0 when there is none. */
    method Poll(latest: nat)
      requires Valid()
      modifies this
      ensures Valid() && polls == old(polls) + [latest]
      ensures if latest > old(version) then version == latest && updates == old(updates) + 1
              else version == old(version) && updates == old(updates)
      ensures notices == old(notices) + (if latest > old(version) then UpdateFrom(old(version), latest, observers) else [])
    {
      var next := if latest > version then latest else version;
      assert (polls + [latest])[..|polls|] == polls;
      ApplyPolicyUpdate(next);
      polls := polls + [latest];
    }

    /** Notify, load, write and announce; nothing when the checkpoint is already adopted. */
    method ApplyPolicyUpdate(next: nat)
      requires ckptStep == version
      modifies this`ckptStep, this`version, this`updates, this`notices
      ensures ckptStep == version == (if next > old(version) then next else old(version))
      ensures updates == old(updates) + (if next > old(version) then 1 else 0)
      ensures notices == old(notices) + (if next > old(version) then UpdateFrom(old(version), next, observers) else [])
    {
      if next <= ckptStep { return; }
      ghost var before, from := notices, version;
      for i := 0 to observers
        invariant notices == before + Pendings(next, observers, from)[..i] && version == from
      {
        notices := notices + [Pending(next, i, version)];
      }
      notices := notices + [Loaded(next)];
      updates := updates + 1;
      ckptStep := next;
      version := next;
      notices := notices + [Written(next)];
      ghost var written := notices;
      for i := 0 to observers
        invariant notices == written + Announcements(next, observers)[..i] && version == next
      {
        notices := notices + [Announced(next, i, version)];
      }
      assert Pendings(next, observers, from)[..observers] == Pendings(next, observers, from);
      assert Announcements(next, observers)[..observers] == Announcements(next, observers);
    }
  }
}
