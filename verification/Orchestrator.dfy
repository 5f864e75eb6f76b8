/** The orchestrator's train-batch handling: warmup gate, empty batches, shipping, draining. */
module OrchestratorSpec {
  import opened Common
  import opened TrainSinkSpec

  const MAX_CONSECUTIVE_EMPTY_BATCHES := 10

  /** `warmup` is the value function's update threshold, when a value function is configured. */
  datatype Settings = Settings(maxSteps: Option<int>, warmup: Option<int>)

  datatype Sent = Sent(step: int, batch: Batch)

  datatype Orch = Orch(step: int, consecutive: nat, draining: bool, aborted: bool, lastWarmup: Option<int>, sent: seq<Sent>)

  /** `start` is 1 for a fresh run and the resumed step plus one otherwise. */
  function Start(start: int): Orch { Orch(start, 0, false, false, None, []) }

  /** The value version a batch is gated on: the least shipped one, else the live evaluator's. */
  function GateVersion(b: Batch, live: int): int { if b.versionMin.Some? then b.versionMin.value else live }

  predicate PassesWarmup(cfg: Settings, b: Batch, live: int) {
    cfg.warmup.None? || GateVersion(b, live) >= cfg.warmup.value
  }

  /** `finalize_train_batch`. */
  function Finalize(cfg: Settings, o: Orch, b: Batch): Orch {
    if cfg.maxSteps.Some? && o.step > cfg.maxSteps.value then o.(draining := true)
    else if b.samples == [] then
      if b.madeProgress then o.(consecutive := 0)
      else o.(consecutive := o.consecutive + 1, aborted := o.consecutive + 1 >= MAX_CONSECUTIVE_EMPTY_BATCHES)
    else
      o.(consecutive := 0, step := o.step + 1, sent := o.sent + [Sent(o.step, b)],
         draining := o.draining || (cfg.maxSteps.Some? && o.step >= cfg.maxSteps.value))
  }

  /** The main loop's handling of a train batch; `live` is what the evaluator would report. */
  function OnBatch(cfg: Settings, o: Orch, b: Batch, live: int): Orch {
    if o.draining || o.aborted then o
    else if b.samples != [] && !PassesWarmup(cfg, b, live) then o.(lastWarmup := Some(GateVersion(b, live)))
    else if b.samples != [] && cfg.warmup.Some? then Finalize(cfg, o.(lastWarmup := None), b)
    else Finalize(cfg, o, b)
  }

  /** The step the teardown writes its checkpoint for. */
  function FinalCheckpoint(o: Orch): Option<int> { if o.step > 1 then Some(o.step - 1) else None }

  function Handle(cfg: Settings, o: Orch, bs: seq<Batch>, live: seq<int>): Orch
    requires |bs| == |live|
  {
    if bs == [] then o
    else OnBatch(cfg, Handle(cfg, o, bs[..|bs| - 1], live[..|bs| - 1]), bs[|bs| - 1], live[|bs| - 1])
  }

  // ---------------------------------------------------------------- shipment discipline

  ghost predicate Disciplined(cfg: Settings, start: int, o: Orch) {
    && o.step == start + |o.sent|
    && (forall k | 0 <= k < |o.sent| :: o.sent[k].step == start + k && o.sent[k].batch.samples != [])
    && (cfg.maxSteps.Some? ==> forall k | 0 <= k < |o.sent| :: o.sent[k].step <= cfg.maxSteps.value)
    && (!o.aborted ==> o.consecutive < MAX_CONSECUTIVE_EMPTY_BATCHES)
    && (cfg.warmup.Some? ==> forall k | 0 <= k < |o.sent| ::
          o.sent[k].batch.versionMin.Some? ==> o.sent[k].batch.versionMin.value >= cfg.warmup.value)
  }

  lemma {:induction false} ShipmentDiscipline(cfg: Settings, start: int, bs: seq<Batch>, live: seq<int>)
    requires |bs| == |live|
    ensures Disciplined(cfg, start, Handle(cfg, Start(start), bs, live))
  {
    if bs != [] {
      ShipmentDiscipline(cfg, start, bs[..|bs| - 1], live[..|bs| - 1]);
    }
  }

  /** Once draining, or aborted, nothing is ever shipped again and the step stands still. */
  lemma {:induction false} NothingAfterDrain(cfg: Settings, o: Orch, bs: seq<Batch>, live: seq<int>)
    requires |bs| == |live| && (o.draining || o.aborted)
    ensures Handle(cfg, o, bs, live) == o
  {
    if bs != [] { NothingAfterDrain(cfg, o, bs[..|bs| - 1], live[..|bs| - 1]); }
  }

  /** With a step limit, shipping the last step drains. */
  lemma {:induction false} LastStepDrains(cfg: Settings, start: int, bs: seq<Batch>, live: seq<int>)
    requires |bs| == |live| && cfg.maxSteps.Some?
    ensures var o := Handle(cfg, Start(start), bs, live);
            o.sent != [] && o.sent[|o.sent| - 1].step == cfg.maxSteps.value ==> o.draining
  {
    if bs != [] {
      LastStepDrains(cfg, start, bs[..|bs| - 1], live[..|bs| - 1]);
      ShipmentDiscipline(cfg, start, bs[..|bs| - 1], live[..|bs| - 1]);
    }
  }

  /** The final checkpoint carries the last shipped step, or the resumed one when nothing shipped. */
  lemma {:induction false} FinalCheckpointIsLast(cfg: Settings, start: int, bs: seq<Batch>, live: seq<int>)
    requires |bs| == |live| && 1 <= start
    ensures var o := Handle(cfg, Start(start), bs, live);
            if o.sent != [] then FinalCheckpoint(o) == Some(o.sent[|o.sent| - 1].step)
            else FinalCheckpoint(o) == if start > 1 then Some(start - 1) else None
  {
    ShipmentDiscipline(cfg, start, bs, live);
  }

  lemma {:induction false} LeastVersion(rs: seq<Rollout>)
    ensures forall r | r in rs && r.valueVersion.Some? :: VersionMin(rs).Some? && VersionMin(rs).value <= r.valueVersion.value
  {
    if rs != [] { LeastVersion(rs[..|rs| - 1]); }
  }

  /** A batch the sink cut and the orchestrator shipped holds no rollout scored before the warmup
      threshold: the least version is taken over exactly the shipped cohort. */
  lemma WarmupHolds(sink: Config, s: State, cfg: Settings, o: Orch, live: int)
    requires cfg.warmup.Some?
    ensures var b := ProcessBatch(sink, s).1;
            OnBatch(cfg, o, b, live).sent != o.sent ==>
              && OnBatch(cfg, o, b, live).sent == o.sent + [Sent(o.step, b)]
              && forall r | r in Drop(b.cohort, sink.post) && r.valueVersion.Some? :: r.valueVersion.value >= cfg.warmup.value
  {
    var b := ProcessBatch(sink, s).1;
    LeastVersion(Drop(b.cohort, sink.post));
    hide SamplesOf, VersionMin, PopSettled, PopCohort, Drop, Cut;
    assert o.sent + [Sent(o.step, b)] != o.sent;
  }

  /** A batch ships exactly when the run still collects, it has samples, its value version (its least one, or the
      live one when no rollout carries any) is at the threshold, and the step is within the limit. */
  ghost predicate Ships(cfg: Settings, o: Orch, b: Batch, live: int) {
    && !o.draining && !o.aborted && b.samples != []
    && (cfg.warmup.Some? ==>
          if b.versionMin.Some? then cfg.warmup.value <= b.versionMin.value else cfg.warmup.value <= live)
    && (cfg.maxSteps.Some? ==> o.step <= cfg.maxSteps.value)
  }

  /** What handling a batch does, case by case. */
  lemma BatchOutcome(cfg: Settings, o: Orch, b: Batch, live: int)
    ensures var p := OnBatch(cfg, o, b, live);
            && (Ships(cfg, o, b, live) <==> p.sent != o.sent)
            && (Ships(cfg, o, b, live) ==>
                  && p.sent == o.sent + [Sent(o.step, b)] && p.step == o.step + 1 && p.consecutive == 0 && !p.aborted
                  && (p.draining <==> cfg.maxSteps.Some? && o.step == cfg.maxSteps.value))
            && (!Ships(cfg, o, b, live) ==> p.sent == o.sent && p.step == o.step)
            && (o.draining || o.aborted ==> p == o)
            && (!o.draining && !o.aborted && cfg.maxSteps.Some? && o.step > cfg.maxSteps.value && b.samples == [] ==> p == o.(draining := true))
            && (!o.draining && !o.aborted && (cfg.maxSteps.Some? ==> o.step <= cfg.maxSteps.value) && b.samples == [] ==>
                  && !p.draining
                  && p.consecutive == (if b.madeProgress then 0 else o.consecutive + 1)
                  && (p.aborted <==> !b.madeProgress && o.consecutive + 1 >= MAX_CONSECUTIVE_EMPTY_BATCHES))
            && (!o.draining && !o.aborted && b.samples != [] && !Ships(cfg, o, b, live) ==>
                  p.consecutive == o.consecutive && !p.aborted
                  && (p.draining <==> PassesWarmup(cfg, b, live)))
            && (!o.draining && !o.aborted && b.samples != [] && cfg.warmup.Some? ==>
                  var v := if b.versionMin.Some? then b.versionMin.value else live;
                  p.lastWarmup == if cfg.warmup.value <= v then None else Some(v))
  {
    assert o.sent + [Sent(o.step, b)] != o.sent;
  }
}
