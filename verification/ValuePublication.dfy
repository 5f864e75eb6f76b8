/** Critic publication: inserting a privileged prefix into every branch, and publishing aligned
    tokens, masks and targets under consecutive rollout ids. */
module ValuePublication {
  import opened Common

  datatype PrefixError = BadPosition | TooShort | BlankPrompt | MixedBos | BosMismatch | EmptyPrefix | TooLong

  /** Tokens inserted at one stable position, 0 or 1, of every branch. */
  datatype TokenPrefix = TokenPrefix(tokens: seq<nat>, at: nat) {
    ghost predicate Valid() { at <= 1 }

    function Lift<T>(values: seq<T>, fill: T): Result<seq<T>, PrefixError> {
      if at > |values| then Err(TooShort) else Ok(values[..at] + seq(|tokens|, _ => fill) + values[at..])
    }

    function Apply(xs: seq<nat>): Result<seq<nat>, PrefixError> {
      if at > |xs| then Err(TooShort) else Ok(xs[..at] + tokens + xs[at..])
    }

    function Project<T>(values: seq<T>): Result<seq<T>, PrefixError> {
      var end := at + |tokens|;
      if end > |values| then Err(TooShort) else Ok(values[..at] + values[end..])
    }

    /** Where a position of the original sequence lands in the prefixed one. */
    function Shift(p: nat): nat { if p < at then p else p + |tokens| }

    predicate Inside(q: nat) { at <= q < at + |tokens| }
  }

  /** A prefix goes to the front or right behind the first token; any other position is refused. */
  function MakePrefix(tokens: seq<nat>, at: int): (r: Result<TokenPrefix, PrefixError>)
    ensures r.Ok? <==> 0 <= at <= 1
    ensures r.Ok? ==> r.value.Valid() && r.value.tokens == tokens && r.value.at == at
  {
    if at == 0 || at == 1 then Ok(TokenPrefix(tokens, at)) else Err(BadPosition)
  }

  /** `project` undoes `apply`. */
  lemma ProjectApply(p: TokenPrefix, xs: seq<nat>)
    ensures p.Apply(xs).Ok? <==> p.at <= |xs|
    ensures p.Apply(xs).Ok? ==> |p.Apply(xs).value| == |xs| + |p.tokens| && p.Project(p.Apply(xs).value) == Ok(xs)
  {
    if p.at <= |xs| {
      var ys := xs[..p.at] + p.tokens + xs[p.at..];
      assert ys[..p.at] == xs[..p.at] && ys[p.at + |p.tokens|..] == xs[p.at..];
      assert xs[..p.at] + xs[p.at..] == xs;
    }
  }

  /** `project` undoes `lift`, whatever the fill. */
  lemma ProjectLift<T>(p: TokenPrefix, xs: seq<T>, fill: T)
    ensures p.Lift(xs, fill).Ok? <==> p.at <= |xs|
    ensures p.Lift(xs, fill).Ok? ==> |p.Lift(xs, fill).value| == |xs| + |p.tokens| && p.Project(p.Lift(xs, fill).value) == Ok(xs)
  {
    if p.at <= |xs| {
      var ys := p.Lift(xs, fill).value;
      assert ys[..p.at] == xs[..p.at] && ys[p.at + |p.tokens|..] == xs[p.at..];
      assert xs[..p.at] + xs[p.at..] == xs;
    }
  }

  /** What sits where: shifted originals outside the prefix, the fill inside it. */
  lemma LiftAt<T>(p: TokenPrefix, xs: seq<T>, fill: T)
    requires p.at <= |xs|
    ensures var ys := p.Lift(xs, fill).value;
            && (forall i | 0 <= i < |xs| :: p.Shift(i) < |ys| && ys[p.Shift(i)] == xs[i] && !p.Inside(p.Shift(i)))
            && (forall q | 0 <= q < |ys| && p.Inside(q) :: ys[q] == fill)
  {
  }

  lemma ApplyAt(p: TokenPrefix, xs: seq<nat>)
    requires p.at <= |xs|
    ensures var ys := p.Apply(xs).value;
            && (forall i | 0 <= i < |xs| :: p.Shift(i) < |ys| && ys[p.Shift(i)] == xs[i])
            && (forall q | 0 <= q < |ys| && p.Inside(q) :: ys[q] == p.tokens[q - p.at])
  {
  }

  // ---------------------------------------------------------------- building the prefix

  datatype Sample = Sample(tokens: seq<nat>, mask: seq<bool>)

  /** A prompt as the builder sees it: absent, whitespace only, or text. */
  datatype Prompt = NoPrompt | Blank | Text

  predicate HasBos(bos: Option<nat>, xs: seq<nat>) { bos.Some? && xs != [] && xs[0] == bos.value }

  /** `_build_value_prefix`; `rendered` is what the renderer makes of the prompt. */
  function BuildPrefix(enabled: bool, seqLen: Option<nat>, samples: seq<Sample>, prompt: Prompt, rendered: seq<nat>, bos: Option<nat>)
    : Result<Option<TokenPrefix>, PrefixError>
  {
    if !enabled || seqLen.None? || samples == [] || prompt.NoPrompt? then Ok(None)
    else if prompt.Blank? then Err(BlankPrompt)
    else if exists i | 0 <= i < |samples| :: HasBos(bos, samples[i].tokens) != HasBos(bos, samples[0].tokens) then Err(MixedBos)
    else if HasBos(bos, rendered) != HasBos(bos, samples[0].tokens) then Err(BosMismatch)
    else
      var prefix := if HasBos(bos, rendered) then TokenPrefix(rendered[1..], 1) else TokenPrefix(rendered, 0);
      if prefix.tokens == [] then Err(EmptyPrefix)
      else if exists i | 0 <= i < |samples| :: |samples[i].tokens| + |prefix.tokens| > seqLen.value then Err(TooLong)
      else Ok(Some(prefix))
  }

  /** A built prefix fits every branch, and puts the whole rendered context in front of the branch
      with exactly one beginning-of-sequence token when there was one. */
  lemma PrefixFits(enabled: bool, seqLen: Option<nat>, samples: seq<Sample>, prompt: Prompt, rendered: seq<nat>, bos: Option<nat>)
    requires var r := BuildPrefix(enabled, seqLen, samples, prompt, rendered, bos); r.Ok? && r.value.Some?
    ensures var p := BuildPrefix(enabled, seqLen, samples, prompt, rendered, bos).value.value;
            && p.Valid() && seqLen.Some? && p.tokens != []
            && forall i | 0 <= i < |samples| ::
                 && p.Apply(samples[i].tokens).Ok?
                 && |p.Apply(samples[i].tokens).value| <= seqLen.value
                 && p.Apply(samples[i].tokens).value == rendered + samples[i].tokens[p.at..]
                 && (p.at == 1 <==> HasBos(bos, samples[i].tokens))
  {
    var p := BuildPrefix(enabled, seqLen, samples, prompt, rendered, bos).value.value;
    forall i | 0 <= i < |samples|
      ensures p.Apply(samples[i].tokens).Ok? && |p.Apply(samples[i].tokens).value| <= seqLen.value
           && p.Apply(samples[i].tokens).value == rendered + samples[i].tokens[p.at..] && (p.at == 1 <==> HasBos(bos, samples[i].tokens))
    {
      var xs := samples[i].tokens;
      assert HasBos(bos, xs) == HasBos(bos, rendered);
      if p.at == 1 {
        assert xs[..1] == [bos.value] && rendered == [bos.value] + rendered[1..];
        assert xs[..1] + rendered[1..] == rendered;
      } else {
        assert xs[..0] + rendered == rendered;
      }
    }
  }

  /** A branch begins with the beginning-of-sequence token. */
  ghost predicate Begins(bos: Option<nat>, xs: seq<nat>) { bos.Some? && [bos.value] <= xs }

  /** When there is a prefix at all, and when there cannot be one: exactly for text that renders to something new, under
      one beginning convention shared by every branch, that fits the critic together with the longest of them. */
  lemma BuiltIff(enabled: bool, seqLen: Option<nat>, samples: seq<Sample>, prompt: Prompt, rendered: seq<nat>, bos: Option<nat>)
    ensures var r := BuildPrefix(enabled, seqLen, samples, prompt, rendered, bos);
            var added := if Begins(bos, rendered) then |rendered| - 1 else |rendered|;
            if !enabled || seqLen.None? || samples == [] || prompt.NoPrompt? then r == Ok(None)
            else
              && (r.Ok? ==> r.value.Some?)
              && (r.Ok? <==> prompt.Text? && added > 0 && forall i | 0 <= i < |samples| ::
                    (Begins(bos, samples[i].tokens) <==> Begins(bos, rendered)) && |samples[i].tokens| + added <= seqLen.value)
  {
    BeginsIff(bos, rendered);
    forall i | 0 <= i < |samples| ensures Begins(bos, samples[i].tokens) <==> HasBos(bos, samples[i].tokens) { BeginsIff(bos, samples[i].tokens); }
    hide Begins, HasBos;
  }

  lemma BeginsIff(bos: Option<nat>, xs: seq<nat>)
    ensures Begins(bos, xs) <==> HasBos(bos, xs)
  {
  }

  // ---------------------------------------------------------------- publishing

  datatype Trajectory = Trajectory(samples: seq<Sample>, prefix: Option<TokenPrefix>, policyVersion: int)

  datatype Rollout = Rollout(trajectory: Option<Trajectory>, hasSamples: bool, valueReturns: Option<seq<seq<real>>>, valueVersion: Option<int>)

  datatype Training = Training(tokens: seq<nat>, mask: seq<bool>, targets: seq<real>)

  datatype Published = Published(samples: seq<Training>, id: nat, policyVersion: int, valueVersion: int)

  datatype PublishError = NoTargets | NoTrajectory | Unzipped | Unprefixed

  function Head<T>(xs: seq<T>, n: nat): seq<T> { if n < |xs| then xs[..n] else xs }

  function Conditioned(prefix: Option<TokenPrefix>, seqLen: nat, s: Sample, targets: seq<real>): Result<Training, PublishError> {
    if prefix.Some? then
      (match (prefix.value.Apply(s.tokens), prefix.value.Lift(s.mask, false), prefix.value.Lift(targets, 0.0))
       case (Ok(tokens), Ok(mask), Ok(lifted)) => Ok(Training(tokens, mask, lifted))
       case _ => Err(Unprefixed))
    else
      var n := if |s.tokens| < seqLen then |s.tokens| else seqLen;
      Ok(Training(s.tokens[..n], Head(s.mask, n), Head(targets, n)))
  }

  /** Tokens, mask and targets of a sample are aligned, and its prefix fits the critic. */
  ghost predicate Admissible(prefix: Option<TokenPrefix>, seqLen: nat, s: Sample, targets: seq<real>) {
    && |s.mask| == |s.tokens| == |targets|
    && (prefix.Some? ==> prefix.value.at <= |s.tokens| && |s.tokens| + |prefix.value.tokens| <= seqLen)
  }

  /** The published sample: aligned, within the critic's length, every original action kept with
      its own target, and no trainable position added. */
  ghost predicate Faithful(prefix: Option<TokenPrefix>, seqLen: nat, s: Sample, targets: seq<real>, t: Training) {
    && |t.tokens| == |t.mask| == |t.targets| <= seqLen
    && (prefix.None? ==> t.tokens <= s.tokens && t.mask <= s.mask && t.targets <= targets
                         && |t.tokens| == if |s.tokens| < seqLen then |s.tokens| else seqLen)
    && (prefix.Some? ==>
          && (forall i | 0 <= i < |s.tokens| && i < |s.mask| && i < |targets| :: var q := prefix.value.Shift(i);
                q < |t.tokens| && t.tokens[q] == s.tokens[i] && t.mask[q] == s.mask[i] && t.targets[q] == targets[i])
          && (forall q | 0 <= q < |t.tokens| && prefix.value.Inside(q) :: !t.mask[q])
          && prefix.value.Project(t.tokens) == Ok(s.tokens) && prefix.value.Project(t.mask) == Ok(s.mask)
          && prefix.value.Project(t.targets) == Ok(targets))
  }

  lemma ConditionedFaithful(prefix: Option<TokenPrefix>, seqLen: nat, s: Sample, targets: seq<real>)
    requires Admissible(prefix, seqLen, s, targets)
    ensures var r := Conditioned(prefix, seqLen, s, targets); r.Ok? && Faithful(prefix, seqLen, s, targets, r.value)
  {
    if prefix.Some? {
      var p := prefix.value;
      ProjectApply(p, s.tokens);
      ProjectLift(p, s.mask, false);
      ProjectLift(p, targets, 0.0);
      ApplyAt(p, s.tokens);
      LiftAt(p, s.mask, false);
      LiftAt(p, targets, 0.0);
    }
  }

  /** Tokens, mask and targets of every sample have the same length. */
  ghost predicate AlignedTargets(samples: seq<Sample>, targets: seq<seq<real>>) {
    |targets| == |samples| && forall i | 0 <= i < |samples| :: |samples[i].mask| == |samples[i].tokens| == |targets[i]|
  }

  /** Whatever the builder returns, prefix or none, makes aligned samples admissible under the
      length limit it was built for. */
  lemma BuiltAdmissible(enabled: bool, limit: nat, samples: seq<Sample>, prompt: Prompt, rendered: seq<nat>, bos: Option<nat>,
                        targets: seq<seq<real>>)
    requires BuildPrefix(enabled, Some(limit), samples, prompt, rendered, bos).Ok? && AlignedTargets(samples, targets)
    ensures var prefix := BuildPrefix(enabled, Some(limit), samples, prompt, rendered, bos).value;
            forall i | 0 <= i < |samples| :: Admissible(prefix, limit, samples[i], targets[i])
  {
    var prefix := BuildPrefix(enabled, Some(limit), samples, prompt, rendered, bos).value;
    if prefix.Some? { PrefixFits(enabled, Some(limit), samples, prompt, rendered, bos); }
    hide BuildPrefix;
    forall i | 0 <= i < |samples| ensures Admissible(prefix, limit, samples[i], targets[i]) {
      if prefix.Some? { ProjectApply(prefix.value, samples[i].tokens); }
    }
  }

  /** Trainable positions of a prefixed sample are exactly the shifted originals. */
  lemma NoPositionAdded(prefix: TokenPrefix, seqLen: nat, s: Sample, targets: seq<real>, q: nat)
    requires Admissible(Some(prefix), seqLen, s, targets)
    ensures var t := Conditioned(Some(prefix), seqLen, s, targets).value;
            q < |t.mask| && t.mask[q] ==> exists i | 0 <= i < |s.mask| :: prefix.Shift(i) == q && s.mask[i]
  {
    ConditionedFaithful(Some(prefix), seqLen, s, targets);
    var t := Conditioned(Some(prefix), seqLen, s, targets).value;
    if q < |t.mask| && t.mask[q] {
      var i := if q < prefix.at then q else q - |prefix.tokens|;
      assert prefix.Shift(i) == q;
    }
  }

  predicate Publishable(r: Rollout) { (r.trajectory.Some? && r.trajectory.value.samples != []) || r.hasSamples }

  function Kept(rs: seq<Rollout>): (out: seq<Rollout>)
    ensures forall r | r in out :: r in rs && Publishable(r)
  {
    if rs == [] then [] else Kept(rs[..|rs| - 1]) + (if Publishable(rs[|rs| - 1]) then [rs[|rs| - 1]] else [])
  }

  /** Kept are exactly the rollouts with a captured trajectory that has samples, or samples of their own, in order. */
  lemma {:induction false} KeptPicks(rs: seq<Rollout>) returns (at: seq<nat>)
    ensures Picks(rs, at, Kept(rs))
    ensures forall i: nat | i < |rs| :: i in at <==> rs[i].hasSamples || (rs[i].trajectory.Some? && |rs[i].trajectory.value.samples| > 0)
  {
    if rs == [] {
      at := [];
    } else {
      var n := |rs| - 1;
      at := KeptPicks(rs[..n]);
      PicksNext(rs[..n], at, Kept(rs[..n]), rs[n]);
      assert rs == rs[..n] + [rs[n]];
      if Publishable(rs[n]) { at := at + [n]; }
    }
  }

  /** Every sample of a trajectory has targets, and the prefix fits into tokens, mask and targets of each. */
  ghost predicate Fitting(t: Trajectory, targets: seq<seq<real>>) {
    && |targets| == |t.samples|
    && (t.prefix.Some? ==> forall i | 0 <= i < |t.samples| ::
          t.prefix.value.at <= |t.samples[i].tokens| && t.prefix.value.at <= |t.samples[i].mask| && t.prefix.value.at <= |targets[i]|)
  }

  lemma ConditionedIff(prefix: Option<TokenPrefix>, seqLen: nat, s: Sample, targets: seq<real>)
    ensures Conditioned(prefix, seqLen, s, targets).Ok? <==>
            (prefix.Some? ==> prefix.value.at <= |s.tokens| && prefix.value.at <= |s.mask| && prefix.value.at <= |targets|)
  {
  }

  predicate Scored(rs: seq<Rollout>) { forall r | r in rs :: r.valueReturns.Some? && r.valueVersion.Some? }

  class ValuePublisher {
    const seqLen: nat
    var nextId: nat
    ghost var published: seq<Published>

    /** Published rollout ids are consecutive from 0. */
    ghost predicate Valid()
      reads this
    {
      nextId == |published| && forall i | 0 <= i < |published| :: published[i].id == i
    }

    constructor (seqLen: nat)
      ensures Valid() && this.seqLen == seqLen && published == []
    {
      this.seqLen, nextId, published := seqLen, 0, [];
    }

    lemma AllConditioned(t: Trajectory, targets: seq<seq<real>>)
      requires |targets| == |t.samples| && forall j | 0 <= j < |t.samples| :: Conditioned(t.prefix, seqLen, t.samples[j], targets[j]).Ok?
      ensures Fitting(t, targets)
    {
      forall j | 0 <= j < |t.samples|
        ensures t.prefix.Some? ==> t.prefix.value.at <= |t.samples[j].tokens| && t.prefix.value.at <= |t.samples[j].mask|
                                   && t.prefix.value.at <= |targets[j]|
      {
        ConditionedIff(t.prefix, seqLen, t.samples[j], targets[j]);
      }
      hide Conditioned;
    }

    method Condition(t: Trajectory, targets: seq<seq<real>>) returns (r: Result<seq<Training>, PublishError>)
      ensures r.Ok? <==> Fitting(t, targets)
      ensures r.Ok? ==> |r.value| == |t.samples| == |targets| && forall i | 0 <= i < |t.samples| ::
                Conditioned(t.prefix, seqLen, t.samples[i], targets[i]) == Ok(r.value[i])
    {
      hide Conditioned;
      var out: seq<Training> := [];
      var i := 0;
      while i < |t.samples| && i < |targets|
        invariant 0 <= i <= |t.samples| && i <= |targets| && |out| == i
        invariant forall j | 0 <= j < i :: Conditioned(t.prefix, seqLen, t.samples[j], targets[j]) == Ok(out[j])
      {
        var c := Conditioned(t.prefix, seqLen, t.samples[i], targets[i]);
        ConditionedIff(t.prefix, seqLen, t.samples[i], targets[i]);
        if c.Err? { return Err(c.error); }
        out := out + [c.value];
        i := i + 1;
      }
      if |t.samples| != |targets| { return Err(Unzipped); }
      forall j | 0 <= j < |t.samples| ensures Conditioned(t.prefix, seqLen, t.samples[j], targets[j]).Ok? {}
      AllConditioned(t, targets);
      return Ok(out);
    }

    /** Publish the scored rollouts; nothing when none has targets, refused when some lack them. */
    method PublishValueRollouts(rs: seq<Rollout>) returns (error: Option<PublishError>)
      requires Valid()
      modifies this
      ensures Valid() && old(published) <= published
      ensures (forall r | r in Kept(rs) :: r.valueReturns.None?) ==> error.None? && published == old(published)
      ensures (exists r | r in Kept(rs) :: r.valueReturns.Some?) && (exists r | r in Kept(rs) :: r.valueReturns.None? || r.valueVersion.None?) ==>
                error == Some(NoTargets) && published == old(published)
      ensures Kept(rs) != [] && Scored(Kept(rs)) && (exists r | r in Kept(rs) :: r.trajectory.None?) ==>
                error == Some(NoTrajectory) && published == old(published)
      ensures Kept(rs) != [] && Scored(Kept(rs)) && (forall r | r in Kept(rs) :: r.trajectory.Some?) ==>
                (error.None? <==> forall r | r in Kept(rs) :: Fitting(r.trajectory.value, r.valueReturns.value))
      ensures error.None? && (exists r | r in Kept(rs) :: r.valueReturns.Some?) ==>
                |published| == |old(published)| + |Kept(rs)|
                && forall k | 0 <= k < |Kept(rs)| :: var (r, p) := (Kept(rs)[k], published[|old(published)| + k]);
                     Carries(r, p) && AllFaithful(r, p)
    {
      var kept := Select(rs);
      hide Kept, AllFaithful, Publishable, Fitting;
      assert kept != [] ==> kept[0] in kept;
      if forall r | r in kept :: r.valueReturns.None? { return None; }
      if exists r | r in kept :: r.valueReturns.None? || r.valueVersion.None? { return Some(NoTargets); }
      if exists r | r in kept :: r.trajectory.None? { return Some(NoTrajectory); }
      error := PublishAll(kept);
    }

    method PublishAll(kept: seq<Rollout>) returns (error: Option<PublishError>)
      requires Valid() && Scored(kept) && forall r | r in kept :: r.trajectory.Some?
      modifies this
      ensures Valid() && old(published) <= published
      ensures error.None? <==> forall r | r in kept :: Fitting(r.trajectory.value, r.valueReturns.value)
      ensures error.None? ==>
                |published| == |old(published)| + |kept|
                && forall k | 0 <= k < |kept| :: Carries(kept[k], published[|old(published)| + k]) && AllFaithful(kept[k], published[|old(published)| + k])
    {
      ghost var before := published;
      hide AllFaithful, Fitting;
      for k := 0 to |kept|
        invariant forall j | 0 <= j < k :: Fitting(kept[j].trajectory.value, kept[j].valueReturns.value)
        invariant Valid() && |published| == |before| + k && before <= published
        invariant forall j | 0 <= j < k :: Carries(kept[j], published[|before| + j]) && AllFaithful(kept[j], published[|before| + j])
      {
        assert kept[k] in kept;
        var t := kept[k].trajectory.value;
        var samples := Condition(t, kept[k].valueReturns.value);
        if samples.Err? { return Some(samples.error); }
        ghost var p := Published(samples.value, nextId, t.policyVersion, kept[k].valueVersion.value);
        CarriedFaithful(kept[k], p);
        published := published + [p];
        nextId := nextId + 1;
      }
      return None;
    }

    method Select(rs: seq<Rollout>) returns (kept: seq<Rollout>)
      ensures kept == Kept(rs)
    {
      kept := [];
      for i := 0 to |rs|
        invariant kept == Kept(rs[..i])
      {
        assert rs[..i + 1][..i] == rs[..i];
        if Publishable(rs[i]) { kept := kept + [rs[i]]; }
      }
      assert rs[..|rs|] == rs;
    }

    /** A published rollout carries its trajectory's versions and its conditioned samples. */
    ghost predicate Carries(r: Rollout, p: Published) {
      && r.trajectory.Some? && r.valueReturns.Some? && r.valueVersion.Some?
      && p.policyVersion == r.trajectory.value.policyVersion && p.valueVersion == r.valueVersion.value
      && |p.samples| == |r.trajectory.value.samples| == |r.valueReturns.value|
      && forall i | 0 <= i < |p.samples| ::
           Conditioned(r.trajectory.value.prefix, seqLen, r.trajectory.value.samples[i], r.valueReturns.value[i]) == Ok(p.samples[i])
    }

    /** Every published sample whose input was admissible is faithful to it. */
    ghost predicate AllFaithful(r: Rollout, p: Published)
      requires Carries(r, p)
    {
      var t, targets := r.trajectory.value, r.valueReturns.value;
      forall i | 0 <= i < |p.samples| ::
        Admissible(t.prefix, seqLen, t.samples[i], targets[i]) ==> Faithful(t.prefix, seqLen, t.samples[i], targets[i], p.samples[i])
    }

    lemma CarriedFaithful(r: Rollout, p: Published)
      requires Carries(r, p)
      ensures AllFaithful(r, p)
    {
      var t, targets := r.trajectory.value, r.valueReturns.value;
      hide Conditioned, Faithful, Admissible;
      forall i | 0 <= i < |p.samples| && Admissible(t.prefix, seqLen, t.samples[i], targets[i])
        ensures Faithful(t.prefix, seqLen, t.samples[i], targets[i], p.samples[i])
      {
        ConditionedFaithful(t.prefix, seqLen, t.samples[i], targets[i]);
      }
    }

    /** With the prefix the builder made for this publisher's length and aligned targets, every
        published sample of a rollout is faithful, without exception. */
    lemma PublishedFaithful(r: Rollout, p: Published, enabled: bool, prompt: Prompt, rendered: seq<nat>, bos: Option<nat>)
      requires Carries(r, p) && AlignedTargets(r.trajectory.value.samples, r.valueReturns.value)
      requires BuildPrefix(enabled, Some(seqLen), r.trajectory.value.samples, prompt, rendered, bos) == Ok(r.trajectory.value.prefix)
      ensures var t := r.trajectory.value;
              forall i | 0 <= i < |p.samples| :: Faithful(t.prefix, seqLen, t.samples[i], r.valueReturns.value[i], p.samples[i])
    {
      CarriedFaithful(r, p);
      BuiltAdmissible(enabled, seqLen, r.trajectory.value.samples, prompt, rendered, bos, r.valueReturns.value);
    }
  }
}
