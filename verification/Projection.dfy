/** The single-turn training projection: clip a linear trace to a token budget, and why clipping
    first and materializing second is the same as materializing and taking a prefix. */
module Projection {
  import opened Common
  import opened Wire
  import opened Provenance
  import Trajectories

  /** What the checks look at besides tokens: kinds of message and content, and attached streams. */
  datatype Facts = Facts(
    chatMessage: bool,      // a system, user or assistant message
    textContent: bool,      // absent, a string, or a list of text parts
    assistant: bool,
    toolCalls: bool,
    tools: bool,
    namespacedTools: bool,
    namespacedCalls: bool,
    mediaParts: bool,       // a content list with a part that is not text
    semanticParents: bool,
    creditStreams: bool,    // producer-stamped sampling or credit streams
    rendererTokens: bool,
    routedExperts: bool)

  datatype TraceNode = TraceNode(parent: Option<int>, core: Node, isContent: seq<bool>, logprobs: seq<real>, facts: Facts)

  datatype Call = Call(failed: bool, node: int)

  datatype Trace = Trace(nodes: seq<TraceNode>, calls: seq<Call>, tools: bool, namespacedTools: bool, multimodal: bool,
                         untrainableBranch: bool, projected: bool, stop: string, completed: bool, truncated: bool)

  datatype Receipt = Receipt(maxSeqLen: nat, clipped: bool, originalStop: string, originalCompleted: bool, originalTruncated: bool,
                             physicalTokens: nat, physicalSampled: nat, retainedTokens: nat, retainedSampled: nat)

  datatype Reason =
    | NoBudget | AlreadyProjected | NotOneCall | CallNotFinal | Compaction | UntrainableBranch | Multimodal | Namespaced
    | BadLabels | CreditStreams | HasTools | NotOneSampled | NotLinear | NotChat | NotText | HasToolCalls | SampledNotAssistant
    | LiveRenderer | RoutingSidecar | MaskMisaligned | LogprobsMisaligned | ContentMisaligned | SampledPrompt

  // ---------------------------------------------------------------- concatenation and clipping

  function Cat<T>(xss: seq<seq<T>>): seq<T> {
    if xss == [] then [] else Cat(xss[..|xss| - 1]) + xss[|xss| - 1]
  }

  /** How much of element `k` is kept under a budget: what the earlier elements leave. */
  function Room(before: nat, length: nat, budget: nat): (r: nat)
    ensures r <= length
  {
    var left := if before < budget then budget - before else 0;
    if length < left then length else left
  }

  /** Each element is cut to the room the budget leaves it. */
  ghost predicate Cut<T>(xss: seq<seq<T>>, yss: seq<seq<T>>, budget: nat) {
    |yss| == |xss| && forall k | 0 <= k < |xss| :: yss[k] == xss[k][..Room(|Cat(xss[..k])|, |xss[k]|, budget)]
  }

  function AtMost(n: nat, budget: nat): nat { if n < budget then n else budget }

  /** Cutting element by element is cutting the concatenation. */
  lemma {:induction false} CutIsPrefix<T>(xss: seq<seq<T>>, yss: seq<seq<T>>, budget: nat)
    requires Cut(xss, yss, budget)
    ensures Cat(yss) == Cat(xss)[..AtMost(|Cat(xss)|, budget)]
  {
    if xss != [] {
      var n := |xss| - 1;
      var xs, ys := xss[..n], yss[..n];
      assert forall k | 0 <= k < n :: xs[..k] == xss[..k];
      CutIsPrefix(xs, ys, budget);
      assert yss[n] == xss[n][..Room(|Cat(xs)|, |xss[n]|, budget)];
      PrefixOfSum(Cat(xs), xss[n], budget);
    }
  }

  lemma PrefixOfSum<T>(a: seq<T>, b: seq<T>, budget: nat)
    ensures a[..AtMost(|a|, budget)] + b[..Room(|a|, |b|, budget)] == (a + b)[..AtMost(|a + b|, budget)]
  {
  }

  // ---------------------------------------------------------------- materialization of one branch

  function TokenLists(nodes: seq<TraceNode>): (r: seq<seq<nat>>)
    ensures |r| == |nodes| && forall k | 0 <= k < |r| :: r[k] == nodes[k].core.tokens
  {
    seq(|nodes|, k requires 0 <= k < |nodes| => nodes[k].core.tokens)
  }

  function MaskLists(nodes: seq<TraceNode>): (r: seq<seq<bool>>)
    ensures |r| == |nodes| && forall k | 0 <= k < |r| :: r[k] == nodes[k].core.mask
  {
    seq(|nodes|, k requires 0 <= k < |nodes| => nodes[k].core.mask)
  }

  ghost predicate Aligned(nodes: seq<TraceNode>) {
    forall k | 0 <= k < |nodes| :: |nodes[k].core.mask| == |nodes[k].core.tokens|
  }

  ghost function VersionLists(nodes: seq<TraceNode>): (r: seq<seq<Int64>>)
    requires Aligned(nodes)
    ensures |r| == |nodes| && forall k | 0 <= k < |r| :: r[k] == NodeVersions(nodes[k].core)
  {
    seq(|nodes|, k requires 0 <= k < |nodes| => NodeVersions(nodes[k].core))
  }

  function Tokens(nodes: seq<TraceNode>): seq<nat> { Cat(TokenLists(nodes)) }
  function Mask(nodes: seq<TraceNode>): seq<bool> { Cat(MaskLists(nodes)) }
  ghost function Versions(nodes: seq<TraceNode>): seq<Int64> requires Aligned(nodes) { Cat(VersionLists(nodes)) }

  /** The encoded versions, attached only when some node has labels at all. */
  ghost function Payload(nodes: seq<TraceNode>): Option<EncodedTensor>
    requires Aligned(nodes)
  {
    if exists k | 0 <= k < |nodes| :: LabelsOf(nodes[k].core) != [] then
      (match Encode(Versions(nodes)) case Ok(p) => p case Err(_) => None)
    else None
  }

  // ---------------------------------------------------------------- projection

  /** One node cut to its first `kept` tokens. */
  function ClipNode(node: TraceNode, kept: nat): TraceNode
    requires kept <= |node.core.tokens| == |node.core.mask|
  {
    var mask := node.core.mask[..kept];
    node.(core := node.core.(tokens := node.core.tokens[..kept], mask := mask,
                             labels := if node.core.labels.None? then None else Some(ClipLabels(node.core.labels.value, Count(mask)))),
          isContent := if kept < |node.isContent| then node.isContent[..kept] else node.isContent,
          logprobs := if Count(mask) < |node.logprobs| then node.logprobs[..Count(mask)] else node.logprobs)
  }

  function ClipAll(nodes: seq<TraceNode>, budget: nat): (r: seq<TraceNode>)
    requires Aligned(nodes)
    ensures |r| == |nodes|
    ensures forall k | 0 <= k < |nodes| ::
      r[k] == ClipNode(nodes[k], Room(|Tokens(nodes[..k])|, |nodes[k].core.tokens|, budget))
  {
    seq(|nodes|, k requires 0 <= k < |nodes| => ClipNode(nodes[k], Room(|Tokens(nodes[..k])|, |nodes[k].core.tokens|, budget)))
  }

  /** Labels after clipping: exactly the first tokens' versions. */
  lemma ClipVersions(node: TraceNode, kept: nat)
    requires kept <= |node.core.tokens| == |node.core.mask|
    ensures NodeVersions(ClipNode(node, kept).core) == NodeVersions(node.core)[..kept]
  {
    var clipped := ClipNode(node, kept).core;
    var mask := node.core.mask;
    forall p | 0 <= p < kept ensures NodeVersions(clipped)[p] == NodeVersions(node.core)[p] {
      VersionAt(clipped, p);
      VersionAt(node.core, p);
      if mask[p] {
        RankPrefix(mask, kept, p);
        RankPrefix(mask, kept, kept);
        RankGrows(mask, p, kept);
        ClipStepAt(LabelsOf(node.core), Count(mask[..kept]), Rank(mask, p));
      }
    }
  }

  lemma ClipValid(node: TraceNode, kept: nat)
    requires kept <= |node.core.tokens| == |node.core.mask| && ValidLabels(node.core)
    ensures ValidLabels(ClipNode(node, kept).core)
  {
    var mask := node.core.mask;
    if node.core.labels.Some? {
      RankPrefix(mask, kept, kept);
      RankGrows(mask, kept, |mask|);
      ClipIntervals(node.core.labels.value, Count(mask), Count(mask[..kept]));
    }
  }

  lemma {:induction false} LengthsAgree(nodes: seq<TraceNode>)
    requires Aligned(nodes)
    ensures |Mask(nodes)| == |Tokens(nodes)| == |Versions(nodes)|
  {
    if nodes != [] {
      var n := |nodes| - 1;
      LengthsAgree(nodes[..n]);
      assert TokenLists(nodes)[..n] == TokenLists(nodes[..n]) && MaskLists(nodes)[..n] == MaskLists(nodes[..n]);
      assert VersionLists(nodes)[..n] == VersionLists(nodes[..n]);
    }
  }

  lemma ListsTake(nodes: seq<TraceNode>, k: nat)
    requires Aligned(nodes) && k <= |nodes|
    ensures TokenLists(nodes)[..k] == TokenLists(nodes[..k]) && |Cat(TokenLists(nodes)[..k])| == |Tokens(nodes[..k])|
    ensures |Cat(MaskLists(nodes)[..k])| == |Tokens(nodes[..k])| == |Cat(VersionLists(nodes)[..k])|
  {
    assert TokenLists(nodes)[..k] == TokenLists(nodes[..k]) && MaskLists(nodes)[..k] == MaskLists(nodes[..k]);
    assert VersionLists(nodes)[..k] == VersionLists(nodes[..k]);
    hide Cat, TokenLists, MaskLists, VersionLists;
    LengthsAgree(nodes[..k]);
  }

  /** The lists a projection cuts, cut by the same rooms. */
  lemma ProjectionCuts(nodes: seq<TraceNode>, budget: nat)
    requires Aligned(nodes)
    ensures Aligned(ClipAll(nodes, budget))
    ensures Cut(TokenLists(nodes), TokenLists(ClipAll(nodes, budget)), budget)
    ensures Cut(MaskLists(nodes), MaskLists(ClipAll(nodes, budget)), budget)
    ensures Cut(VersionLists(nodes), VersionLists(ClipAll(nodes, budget)), budget)
  {
    var clipped := ClipAll(nodes, budget);
    forall k | 0 <= k < |nodes|
      ensures |clipped[k].core.mask| == |clipped[k].core.tokens|
      ensures TokenLists(nodes)[..k] == TokenLists(nodes[..k]) && |Cat(TokenLists(nodes)[..k])| == |Tokens(nodes[..k])|
      ensures |Cat(MaskLists(nodes)[..k])| == |Tokens(nodes[..k])| == |Cat(VersionLists(nodes)[..k])|
      ensures NodeVersions(clipped[k].core) == NodeVersions(nodes[k].core)[..Room(|Tokens(nodes[..k])|, |nodes[k].core.tokens|, budget)]
    {
      ListsTake(nodes, k);
      hide TokenLists, MaskLists, VersionLists, Cat;
      ClipVersions(nodes[k], Room(|Tokens(nodes[..k])|, |nodes[k].core.tokens|, budget));
    }
  }

  /** Clipping then materializing gives exactly the budget's prefix of tokens, mask and versions. */
  lemma ProjectionCommutes(nodes: seq<TraceNode>, budget: nat)
    requires Aligned(nodes)
    ensures var (clipped, n) := (ClipAll(nodes, budget), AtMost(|Tokens(nodes)|, budget));
            && Aligned(clipped)
            && |Mask(nodes)| == |Versions(nodes)| == |Tokens(nodes)|
            && Tokens(clipped) == Tokens(nodes)[..n]
            && Mask(clipped) == Mask(nodes)[..n]
            && Versions(clipped) == Versions(nodes)[..n]
  {
    ProjectionCuts(nodes, budget);
    LengthsAgree(nodes);
    var clipped := ClipAll(nodes, budget);
    hide Cut, ClipAll, Aligned;
    CutIsPrefix(TokenLists(nodes), TokenLists(clipped), budget);
    CutIsPrefix(MaskLists(nodes), MaskLists(clipped), budget);
    CutIsPrefix(VersionLists(nodes), VersionLists(clipped), budget);
  }

  // ---------------------------------------------------------------- the decoded payload

  lemma {:induction false} VersionsFloor(nodes: seq<TraceNode>)
    requires Aligned(nodes)
    ensures forall i | 0 <= i < |Versions(nodes)| :: Versions(nodes)[i] >= -1
    ensures (forall k | 0 <= k < |nodes| :: LabelsOf(nodes[k].core) == []) ==>
              forall i | 0 <= i < |Versions(nodes)| :: Versions(nodes)[i] == -1
  {
    if nodes != [] {
      var n := |nodes| - 1;
      VersionsFloor(nodes[..n]);
      assert VersionLists(nodes)[..n] == VersionLists(nodes[..n]);
      NodeFloor(nodes[n].core);
      assert Versions(nodes) == Versions(nodes[..n]) + NodeVersions(nodes[n].core);
    }
  }

  lemma NodeFloor(node: Node)
    requires |node.mask| == |node.tokens|
    ensures forall p | 0 <= p < |node.tokens| :: NodeVersions(node)[p] >= -1
    ensures LabelsOf(node) == [] ==> forall p | 0 <= p < |node.tokens| :: NodeVersions(node)[p] == -1
  {
    hide StepAt;
  }

  /** Reading a sample's payload, absent or not, gives every token's version. */
  lemma PayloadReads(nodes: seq<TraceNode>)
    requires Aligned(nodes)
    ensures |Versions(nodes)| == |Tokens(nodes)| && Read(Payload(nodes), |Tokens(nodes)|) == Ok(Versions(nodes))
  {
    LengthsAgree(nodes);
    VersionsFloor(nodes);
    RoundTrip(Versions(nodes));
    hide Versions, Tokens, Encode, Decode;
    if !(exists k | 0 <= k < |nodes| :: LabelsOf(nodes[k].core) != []) {
      assert Versions(nodes) == seq(|Tokens(nodes)|, _ => -1);
    }
  }

  lemma ClippedValid(nodes: seq<TraceNode>, budget: nat)
    requires Aligned(nodes) && forall k | 0 <= k < |nodes| :: ValidLabels(nodes[k].core)
    ensures var clipped := ClipAll(nodes, budget); Aligned(clipped) && forall k | 0 <= k < |clipped| :: ValidLabels(clipped[k].core)
  {
    var clipped := ClipAll(nodes, budget);
    forall k | 0 <= k < |clipped| ensures ValidLabels(clipped[k].core) && |clipped[k].core.mask| == |clipped[k].core.tokens| {
      ClipValid(nodes[k], Room(|Tokens(nodes[..k])|, |nodes[k].core.tokens|, budget));
    }
  }

  // ---------------------------------------------------------------- counts and logprobs

  function SampledSum(nodes: seq<TraceNode>): nat {
    if nodes == [] then 0 else SampledSum(nodes[..|nodes| - 1]) + Count(nodes[|nodes| - 1].core.mask)
  }

  lemma {:induction false} RankConcat(a: seq<bool>, b: seq<bool>, p: nat)
    requires p <= |b|
    ensures Rank(a + b, |a| + p) == Count(a) + Rank(b, p)
  {
    if p > 0 {
      RankConcat(a, b, p - 1);
    } else {
      assert (a + b)[..|a|] == a;
      RankPrefix(a + b, |a|, |a|);
    }
  }

  /** The sum of the nodes' sampled counts is the sampled count of the branch. */
  lemma {:induction false} SampledSumIs(nodes: seq<TraceNode>)
    ensures SampledSum(nodes) == Count(Mask(nodes))
  {
    if nodes != [] {
      var n := |nodes| - 1;
      SampledSumIs(nodes[..n]);
      assert MaskLists(nodes)[..n] == MaskLists(nodes[..n]);
      var a, b := Mask(nodes[..n]), nodes[n].core.mask;
      RankConcat(a, b, |b|);
      assert Mask(nodes) == a + b;
    }
  }

  ghost predicate LogprobsAligned(nodes: seq<TraceNode>) {
    forall k | 0 <= k < |nodes| :: |nodes[k].logprobs| == Count(nodes[k].core.mask)
  }

  /** Clipping keeps one logprob per sampled token, the same ones. */
  lemma LogprobsKept(nodes: seq<TraceNode>, budget: nat)
    requires Aligned(nodes) && LogprobsAligned(nodes)
    ensures var clipped := ClipAll(nodes, budget);
            LogprobsAligned(clipped) && forall k | 0 <= k < |nodes| :: clipped[k].logprobs <= nodes[k].logprobs
  {
    var clipped := ClipAll(nodes, budget);
    forall k | 0 <= k < |nodes|
      ensures |clipped[k].logprobs| == Count(clipped[k].core.mask) && clipped[k].logprobs <= nodes[k].logprobs
    {
      var kept := Room(|Tokens(nodes[..k])|, |nodes[k].core.tokens|, budget);
      RankPrefix(nodes[k].core.mask, kept, kept);
      RankGrows(nodes[k].core.mask, kept, |nodes[k].core.mask|);
    }
  }

  // ---------------------------------------------------------------- what is accepted

  /** `validate_training_trace`, node by node. */
  ghost function NodeUnsupported(node: TraceNode): Option<Reason> {
    if node.facts.mediaParts then Some(Multimodal)
    else if node.facts.namespacedTools then Some(Namespaced)
    else if node.facts.assistant && node.facts.namespacedCalls then Some(Namespaced)
    else if !ValidLabels(node.core) then Some(BadLabels)
    else if node.facts.creditStreams then Some(CreditStreams)
    else None
  }

  ghost function NodesUnsupported(nodes: seq<TraceNode>, i: nat): Option<Reason>
    requires i <= |nodes|
    decreases |nodes| - i
  {
    if i == |nodes| then None
    else if NodeUnsupported(nodes[i]).Some? then NodeUnsupported(nodes[i])
    else NodesUnsupported(nodes, i + 1)
  }

  ghost function Unsupported(trace: Trace): Option<Reason> {
    if trace.stop == "compaction_failed" || (exists k | 0 <= k < |trace.nodes| :: trace.nodes[k].facts.semanticParents) then Some(Compaction)
    else if trace.untrainableBranch then Some(UntrainableBranch)
    else if trace.multimodal then Some(Multimodal)
    else if NodesUnsupported(trace.nodes, 0).Some? then NodesUnsupported(trace.nodes, 0)
    else if trace.namespacedTools then Some(Namespaced)
    else None
  }

  /** The projection's own checks of node `i`. */
  function NodeRejected(node: TraceNode, i: nat): Option<Reason> {
    if node.parent != (if i == 0 then None else Some(i - 1)) then Some(NotLinear)
    else if !node.facts.chatMessage then Some(NotChat)
    else if !node.facts.textContent then Some(NotText)
    else if node.facts.assistant && node.facts.toolCalls then Some(HasToolCalls)
    else if node.core.sampled && !node.facts.assistant then Some(SampledNotAssistant)
    else if node.facts.rendererTokens then Some(LiveRenderer)
    else if node.facts.routedExperts then Some(RoutingSidecar)
    else if |node.core.mask| != |node.core.tokens| then Some(MaskMisaligned)
    else if |node.logprobs| != Count(node.core.mask) then Some(LogprobsMisaligned)
    else if node.isContent != [] && |node.isContent| != |node.core.tokens| then Some(ContentMisaligned)
    else if !node.core.sampled && true in node.core.mask then Some(SampledPrompt)
    else None
  }

  function NodesRejected(nodes: seq<TraceNode>, i: nat): Option<Reason>
    requires i <= |nodes|
    decreases |nodes| - i
  {
    if i == |nodes| then None
    else if NodeRejected(nodes[i], i).Some? then NodeRejected(nodes[i], i)
    else NodesRejected(nodes, i + 1)
  }

  predicate OnlyLastSampled(nodes: seq<TraceNode>) {
    nodes != [] && forall k | 0 <= k < |nodes| :: nodes[k].core.sampled <==> k == |nodes| - 1
  }

  /** The first check that fails, in the order the checks run. */
  ghost function Rejected(trace: Trace, maxSeqLen: int): Option<Reason> {
    if maxSeqLen <= 0 then Some(NoBudget)
    else if trace.projected then Some(AlreadyProjected)
    else if trace.nodes == [] || |trace.calls| != 1 then Some(NotOneCall)
    else if trace.calls[0].failed || trace.calls[0].node != |trace.nodes| - 1 then Some(CallNotFinal)
    else if Unsupported(trace).Some? then Unsupported(trace)
    else if trace.tools || (exists k | 0 <= k < |trace.nodes| :: trace.nodes[k].facts.tools) then Some(HasTools)
    else if !OnlyLastSampled(trace.nodes) then Some(NotOneSampled)
    else NodesRejected(trace.nodes, 0)
  }

  lemma {:induction false} NoneUnsupported(nodes: seq<TraceNode>, i: nat)
    requires i <= |nodes|
    ensures NodesUnsupported(nodes, i).None? <==> forall k | i <= k < |nodes| :: NodeUnsupported(nodes[k]).None?
    decreases |nodes| - i
  {
    if i < |nodes| { NoneUnsupported(nodes, i + 1); }
  }

  lemma {:induction false} NoneRejected(nodes: seq<TraceNode>, i: nat)
    requires i <= |nodes|
    ensures NodesRejected(nodes, i).None? <==> forall k | i <= k < |nodes| :: NodeRejected(nodes[k], k).None?
    decreases |nodes| - i
  {
    if i < |nodes| { NoneRejected(nodes, i + 1); }
  }

  /** An accepted trace is what the commuting square needs: one linear branch, aligned masks,
      valid labels, aligned logprobs, and every trainable token in the final node. */
  lemma AcceptedIsLinear(trace: Trace, maxSeqLen: int)
    requires Rejected(trace, maxSeqLen).None?
    ensures Aligned(trace.nodes) && LogprobsAligned(trace.nodes)
    ensures forall k | 0 <= k < |trace.nodes| :: ValidLabels(trace.nodes[k].core)
    ensures forall k | 0 <= k < |trace.nodes| :: trace.nodes[k].parent == (if k == 0 then None else Some(k - 1))
    ensures forall k | 0 <= k < |trace.nodes| - 1 :: true !in trace.nodes[k].core.mask
  {
    NoneUnsupported(trace.nodes, 0);
    NoneRejected(trace.nodes, 0);
    hide ValidLabels, Count;
    forall k | 0 <= k < |trace.nodes| ensures NodeRejected(trace.nodes[k], k).None? && NodeUnsupported(trace.nodes[k]).None? {}
  }

  /** A node the projection can take: text only, on the chain, without side streams, everything aligned. */
  ghost predicate Projectable(nodes: seq<TraceNode>, k: nat)
    requires k < |nodes|
  {
    var node := nodes[k];
    var f := node.facts;
    && node.parent == (if k == 0 then None else Some(k - 1))
    && (node.core.sampled <==> k == |nodes| - 1) && (node.core.sampled ==> f.assistant)
    && f.chatMessage && f.textContent && !f.mediaParts && !f.semanticParents
    && !f.tools && !f.namespacedTools && (f.assistant ==> !f.toolCalls && !f.namespacedCalls)
    && !f.creditStreams && !f.rendererTokens && !f.routedExperts
    && ValidLabels(node.core) && |node.core.mask| == |node.core.tokens| && |node.logprobs| == Count(node.core.mask)
    && (node.isContent == [] || |node.isContent| == |node.core.tokens|)
    && (!node.core.sampled ==> true !in node.core.mask)
  }

  /** Exactly which traces are accepted: a positive budget, not projected before, one successful call that names the
      final node, nothing at trace level that the runtime cannot credit, and every node projectable. */
  lemma AcceptedIff(trace: Trace, maxSeqLen: int)
    ensures Rejected(trace, maxSeqLen).None? <==>
      && maxSeqLen > 0 && !trace.projected && trace.nodes != []
      && |trace.calls| == 1 && !trace.calls[0].failed && trace.calls[0].node == |trace.nodes| - 1
      && trace.stop != "compaction_failed" && !trace.untrainableBranch && !trace.multimodal && !trace.namespacedTools && !trace.tools
      && forall k: nat | k < |trace.nodes| :: Projectable(trace.nodes, k)
  {
    NoneUnsupported(trace.nodes, 0);
    NoneRejected(trace.nodes, 0);
    hide ValidLabels, Count, NodesUnsupported, NodesRejected;
    forall k: nat | k < |trace.nodes|
      ensures Projectable(trace.nodes, k) <==>
        && NodeRejected(trace.nodes[k], k).None? && NodeUnsupported(trace.nodes[k]).None?
        && !trace.nodes[k].facts.semanticParents && !trace.nodes[k].facts.tools
        && (trace.nodes[k].core.sampled <==> k == |trace.nodes| - 1)
    {
    }
    hide NodeRejected, NodeUnsupported, Projectable;
  }

  /** What the projection leaves of a node: a prefix of its tokens, the same prefix of its mask and (when present) of
      its content flags, one logprob for each sampled token kept, and everything else as it was. */
  lemma NodeProjected(trace: Trace, maxSeqLen: int, k: nat)
    requires Rejected(trace, maxSeqLen).None? && k < |trace.nodes|
    ensures Aligned(trace.nodes) && 0 <= maxSeqLen
    ensures var (a, b) := (trace.nodes[k], ClipAll(trace.nodes, maxSeqLen)[k]);
            var m := |b.core.tokens|;
            && m <= |a.core.tokens| && b.core.tokens == a.core.tokens[..m] && b.core.mask == a.core.mask[..m]
            && (if a.isContent == [] then b.isContent == [] else |a.isContent| == |a.core.tokens| && b.isContent == a.isContent[..m])
            && Count(b.core.mask) <= |a.logprobs| && b.logprobs == a.logprobs[..Count(b.core.mask)]
            && b.parent == a.parent && b.facts == a.facts && b.core.sampled == a.core.sampled
  {
    AcceptedIff(trace, maxSeqLen);
    AcceptedIsLinear(trace, maxSeqLen);
    assert Projectable(trace.nodes, k);
    hide Rejected, Tokens, ValidLabels, ClipNode, Rank, Count;
    NodeClipped(trace.nodes[k], Room(|Tokens(trace.nodes[..k])|, |trace.nodes[k].core.tokens|, maxSeqLen));
  }

  lemma NodeClipped(a: TraceNode, m: nat)
    requires m <= |a.core.tokens| == |a.core.mask| && |a.logprobs| == Count(a.core.mask)
    requires a.isContent == [] || |a.isContent| == |a.core.tokens|
    ensures var b := ClipNode(a, m);
            && |b.core.tokens| == m && b.core.tokens == a.core.tokens[..m] && b.core.mask == a.core.mask[..m]
            && (if a.isContent == [] then b.isContent == [] else b.isContent == a.isContent[..m])
            && Count(b.core.mask) <= |a.logprobs| && b.logprobs == a.logprobs[..Count(b.core.mask)]
            && b.parent == a.parent && b.facts == a.facts && b.core.sampled == a.core.sampled
  {
    RankPrefix(a.core.mask, m, m);
    RankGrows(a.core.mask, m, |a.core.mask|);
    hide ClipLabels;
  }

  // ---------------------------------------------------------------- materializing a linear trace

  /** Every node continues the one before it. */
  ghost predicate Linear(nodes: seq<TraceNode>) {
    forall k | 0 <= k < |nodes| :: nodes[k].parent == (if k == 0 then None else Some(k - 1))
  }

  /** A linear trace as the materializer's message forest. */
  ghost function Graph(nodes: seq<TraceNode>): (g: seq<Trajectories.Node>)
    requires Linear(nodes)
    ensures |g| == |nodes| && forall k | 0 <= k < |g| ::
      g[k] == Trajectories.Node(if k == 0 then None else Some(k - 1), nodes[k].core.sampled, nodes[k].core.tokens, nodes[k].core.mask)
  {
    seq(|nodes|, k requires 0 <= k < |nodes| =>
      Trajectories.Node(if k == 0 then None else Some(k - 1), nodes[k].core.sampled, nodes[k].core.tokens, nodes[k].core.mask))
  }

  ghost predicate Chain(g: seq<Trajectories.Node>) {
    forall k | 0 <= k < |g| :: g[k].parent == (if k == 0 then None else Some(k - 1))
  }

  /** The first `n` nodes in order. */
  function Upto(n: nat): (p: Trajectories.Branch)
    ensures |p| == n && forall i | 0 <= i < n :: p[i] == i
  {
    seq(n, i requires 0 <= i < n => i)
  }

  lemma {:induction false} ChainPath(g: seq<Trajectories.Node>, i: nat)
    requires Chain(g) && Trajectories.Forest(g) && i < |g|
    ensures Trajectories.Path(g, i) == Upto(i + 1)
  {
    if i > 0 { ChainPath(g, i - 1); }
  }

  lemma {:induction false} ChainBranches(g: seq<Trajectories.Node>, n: nat)
    requires Chain(g) && Trajectories.Forest(g) && n <= |g|
    ensures Trajectories.BranchesTo(g, n) == if n == |g| > 0 then [Upto(|g|)] else []
  {
    if n > 0 {
      ChainBranches(g, n - 1);
      ChainPath(g, n - 1);
      if n < |g| { assert g[n].parent == Some(n - 1); }
    }
  }

  lemma {:induction false} ChainLists(nodes: seq<TraceNode>, k: nat)
    requires Linear(nodes) && k <= |nodes|
    ensures var (g, p) := (Graph(nodes), Upto(|nodes|));
            && Trajectories.OnNodes(g, p)
            && Trajectories.TokensTo(g, p, k) == Cat(TokenLists(nodes)[..k])
            && Trajectories.MaskTo(g, [p], 0, k) == Cat(MaskLists(nodes)[..k])
  {
    if k > 0 {
      ChainLists(nodes, k - 1);
      assert TokenLists(nodes)[..k][..k - 1] == TokenLists(nodes)[..k - 1];
      assert MaskLists(nodes)[..k][..k - 1] == MaskLists(nodes)[..k - 1];
    }
  }

  /** A linear trace is one branch, and materializing it yields at most the one sample of its
      concatenated tokens and mask. */
  lemma {:induction false} LinearSamples(nodes: seq<TraceNode>)
    requires Linear(nodes)
    ensures var g := Graph(nodes);
            && Trajectories.Forest(g)
            && var bs := Trajectories.Branches(g);
               && bs == (if nodes == [] then [] else [Upto(|nodes|)])
               && (forall c | 0 <= c < |bs| :: Trajectories.OnNodes(g, bs[c]))
               && Trajectories.Samples(g, bs) ==
                    if true !in Mask(nodes) then [] else [Trajectories.Sample(0, Tokens(nodes), Mask(nodes))]
  {
    var g := Graph(nodes);
    assert Chain(g) && Trajectories.Forest(g);
    ChainBranches(g, |nodes|);
    ChainLists(nodes, |nodes|);
    assert TokenLists(nodes)[..|nodes|] == TokenLists(nodes) && MaskLists(nodes)[..|nodes|] == MaskLists(nodes);
    var bs := Trajectories.Branches(g);
    if nodes != [] {
      hide Graph, Linear, Chain, Trajectories.MaskTo, Trajectories.TokensTo, Trajectories.OnNodes, Trajectories.BranchesTo, Cat;
      assert Trajectories.MaskOf(g, bs, 0) == Mask(nodes);
      assert Trajectories.KeptTo(g, bs, 0) == [];
      assert Trajectories.KeptTo(g, bs, 1) == if true in Mask(nodes) then [0] else [];
    }
  }

  /** What the materializer makes of a linear trace. */
  ghost function Materialized(nodes: seq<TraceNode>): seq<Trajectories.Sample>
    requires Linear(nodes)
  {
    LinearSamples(nodes);
    Trajectories.Samples(Graph(nodes), Trajectories.Branches(Graph(nodes)))
  }

  /** The materializer's samples for a branch of these tokens and mask: none without a set bit. */
  function SampleOf(tokens: seq<nat>, mask: seq<bool>): seq<Trajectories.Sample> {
    if true !in mask then [] else [Trajectories.Sample(0, tokens, mask)]
  }

  lemma {:induction false} MaterializedIs(nodes: seq<TraceNode>)
    requires Linear(nodes)
    ensures Materialized(nodes) == SampleOf(Tokens(nodes), Mask(nodes))
  {
    LinearSamples(nodes);
    hide Tokens, Mask, Linear, Graph, Trajectories.Branches, Trajectories.Samples, Trajectories.Forest;
  }

  /** The commuting square, through the materializer: an accepted trace and its projection are each
      one branch; the projection's sample is the budget's prefix of the whole trace's tokens and
      mask, there is none exactly when that prefix holds no sampled token, and the versions its
      payload reads back are the same prefix of the whole trace's. */
  lemma {:induction false} ProjectedSample(trace: Trace, maxSeqLen: int)
    requires Rejected(trace, maxSeqLen).None?
    ensures 0 <= maxSeqLen && Linear(trace.nodes) && Aligned(trace.nodes)
    ensures var (nodes, clipped) := (trace.nodes, ClipAll(trace.nodes, maxSeqLen));
            var n := AtMost(|Tokens(nodes)|, maxSeqLen);
            && Linear(clipped) && Aligned(clipped) && (forall k | 0 <= k < |clipped| :: ValidLabels(clipped[k].core))
            && n <= |Mask(nodes)| && n <= |Versions(nodes)|
            && Materialized(clipped) == SampleOf(Tokens(nodes)[..n], Mask(nodes)[..n])
            && Materialized(nodes) == SampleOf(Tokens(nodes), Mask(nodes))
            && Read(Payload(clipped), n) == Ok(Versions(nodes)[..n])
            && Read(Payload(nodes), |Tokens(nodes)|) == Ok(Versions(nodes))
  {
    AcceptedIsLinear(trace, maxSeqLen);
    var nodes, clipped := trace.nodes, ClipAll(trace.nodes, maxSeqLen);
    assert Linear(nodes) && Linear(clipped);
    hide Rejected, Tokens, Mask, Versions, Payload, Read, ClipAll, Aligned, ValidLabels, Linear, Materialized, SampleOf;
    ProjectionCommutes(nodes, maxSeqLen);
    ClippedValid(nodes, maxSeqLen);
    PayloadReads(nodes);
    PayloadReads(clipped);
    MaterializedIs(nodes);
    MaterializedIs(clipped);
  }
}
