/** The projection's loops: the checks in order, then the clipping with a shrinking budget. */
module ProjectionImpl {
  import opened Common
  import opened Wire
  import opened Provenance
  import opened Projection

  method CheckNodes(nodes: seq<TraceNode>) returns (r: Option<Reason>)
    ensures r == NodesUnsupported(nodes, 0)
  {
    hide ValidLabels;
    for i := 0 to |nodes|
      invariant NodesUnsupported(nodes, 0) == NodesUnsupported(nodes, i)
    {
      var f := nodes[i].facts;
      if f.mediaParts { return Some(Multimodal); }
      if f.namespacedTools { return Some(Namespaced); }
      if f.assistant && f.namespacedCalls { return Some(Namespaced); }
      var ok := ValidateWeightVersions(nodes[i].core);
      if !ok { return Some(BadLabels); }
      if f.creditStreams { return Some(CreditStreams); }
    }
    return None;
  }

  method ValidateTrainingTrace(trace: Trace) returns (r: Option<Reason>)
    ensures r == Unsupported(trace)
  {
    if trace.stop == "compaction_failed" || exists k | 0 <= k < |trace.nodes| :: trace.nodes[k].facts.semanticParents {
      return Some(Compaction);
    }
    if trace.untrainableBranch { return Some(UntrainableBranch); }
    if trace.multimodal { return Some(Multimodal); }
    r := CheckNodes(trace.nodes);
    if r.None? && trace.namespacedTools { r := Some(Namespaced); }
  }

  method CheckLinear(nodes: seq<TraceNode>) returns (r: Option<Reason>)
    ensures r == NodesRejected(nodes, 0)
  {
    for i := 0 to |nodes|
      invariant NodesRejected(nodes, 0) == NodesRejected(nodes, i)
    {
      var reason := NodeRejected(nodes[i], i);
      if reason.Some? { return reason; }
    }
    return None;
  }

  method Check(trace: Trace, maxSeqLen: int) returns (r: Option<Reason>)
    ensures r == Rejected(trace, maxSeqLen)
  {
    hide Unsupported, NodesRejected;
    if maxSeqLen <= 0 { return Some(NoBudget); }
    if trace.projected { return Some(AlreadyProjected); }
    if trace.nodes == [] || |trace.calls| != 1 { return Some(NotOneCall); }
    if trace.calls[0].failed || trace.calls[0].node != |trace.nodes| - 1 { return Some(CallNotFinal); }
    r := ValidateTrainingTrace(trace);
    if r.Some? { return; }
    if trace.tools || exists k | 0 <= k < |trace.nodes| :: trace.nodes[k].facts.tools { return Some(HasTools); }
    if !OnlyLastSampled(trace.nodes) { return Some(NotOneSampled); }
    r := CheckLinear(trace.nodes);
  }

  lemma TokensNext(nodes: seq<TraceNode>, i: nat)
    requires i < |nodes|
    ensures |Tokens(nodes[..i + 1])| == |Tokens(nodes[..i])| + |nodes[i].core.tokens|
  {
    var a := nodes[..i + 1];
    assert TokenLists(a)[..i] == TokenLists(nodes[..i]);
  }

  method ClipOne(node: TraceNode, kept: nat) returns (clipped: TraceNode)
    requires kept <= |node.core.tokens| == |node.core.mask| && ValidLabels(node.core)
    ensures clipped == ClipNode(node, kept)
  {
    var mask := node.core.mask[..kept];
    var sampled := CountSampled(mask);
    RankPrefix(node.core.mask, kept, kept);
    RankGrows(node.core.mask, kept, |node.core.mask|);
    var labels := ClipWeightVersions(node.core, sampled);
    clipped := node.(core := node.core.(tokens := node.core.tokens[..kept], mask := mask, labels := labels.value),
                     isContent := if kept < |node.isContent| then node.isContent[..kept] else node.isContent,
                     logprobs := if sampled < |node.logprobs| then node.logprobs[..sampled] else node.logprobs);
  }

  /** Each node keeps what the budget still allows. */
  method ClipNodes(nodes: seq<TraceNode>, budget: nat) returns (clipped: seq<TraceNode>)
    requires Aligned(nodes) && forall k | 0 <= k < |nodes| :: ValidLabels(nodes[k].core)
    ensures clipped == ClipAll(nodes, budget)
  {
    hide ClipNode, ValidLabels, Tokens;
    clipped := [];
    var remaining := budget;
    assert |Tokens(nodes[..0])| == 0 by { EmptyTokens(nodes[..0]); }
    for i := 0 to |nodes|
      invariant |clipped| == i
      invariant remaining == if |Tokens(nodes[..i])| < budget then budget - |Tokens(nodes[..i])| else 0
      invariant forall k | 0 <= k < i :: clipped[k] == ClipAll(nodes, budget)[k]
    {
      TokensNext(nodes, i);
      var length := |nodes[i].core.tokens|;
      var kept := if length < remaining then length else remaining;
      var node := ClipOne(nodes[i], kept);
      clipped := clipped + [node];
      remaining := remaining - kept;
    }
  }

  lemma EmptyTokens(nodes: seq<TraceNode>)
    requires nodes == []
    ensures Tokens(nodes) == []
  {
  }

  method CountTokens(nodes: seq<TraceNode>) returns (tokens: nat, sampled: nat)
    ensures tokens == |Tokens(nodes)| && sampled == Count(Mask(nodes))
  {
    tokens, sampled := 0, 0;
    hide Tokens, Mask;
    assert |Tokens(nodes[..0])| == 0 by { EmptyTokens(nodes[..0]); }
    for i := 0 to |nodes|
      invariant tokens == |Tokens(nodes[..i])| && sampled == SampledSum(nodes[..i])
    {
      TokensNext(nodes, i);
      assert nodes[..i + 1][..i] == nodes[..i];
      var n := CountSampled(nodes[i].core.mask);
      tokens, sampled := tokens + |nodes[i].core.tokens|, sampled + n;
    }
    assert nodes[..|nodes|] == nodes;
    SampledSumIs(nodes);
  }

  /** `project_training_trace`: refused with the first failing check, or the clipped trace with a
      receipt whose counts are the real ones. */
  method ProjectTrainingTrace(trace: Trace, maxSeqLen: int) returns (r: Result<(Trace, Receipt), Reason>)
    ensures r.Err? <==> Rejected(trace, maxSeqLen).Some?
    ensures r.Err? ==> Some(r.error) == Rejected(trace, maxSeqLen)
    ensures r.Ok? ==>
      && Aligned(trace.nodes)
      && var clipped := |Tokens(trace.nodes)| > maxSeqLen;
         && r.value.0 == trace.(nodes := ClipAll(trace.nodes, maxSeqLen), projected := true,
                                stop := if clipped then "max_total_tokens" else trace.stop)
         && r.value.1 == Receipt(maxSeqLen, clipped, trace.stop, trace.completed, trace.truncated,
                                 |Tokens(trace.nodes)|, Count(Mask(trace.nodes)),
                                 |Tokens(r.value.0.nodes)|, Count(Mask(r.value.0.nodes)))
  {
    hide Rejected, Tokens, Mask, ClipAll;
    var reason := Check(trace, maxSeqLen);
    if reason.Some? { return Err(reason.value); }
    AcceptedIsLinear(trace, maxSeqLen);
    assert maxSeqLen > 0 by { Budgeted(trace, maxSeqLen); }
    var physicalTokens, physicalSampled := CountTokens(trace.nodes);
    var nodes := ClipNodes(trace.nodes, maxSeqLen);
    var clipped := physicalTokens > maxSeqLen;
    var _, retainedSampled := CountTokens(nodes);
    ProjectionCommutes(trace.nodes, maxSeqLen);
    var projected := trace.(nodes := nodes, projected := true, stop := if clipped then "max_total_tokens" else trace.stop);
    var retained := if physicalTokens < maxSeqLen then physicalTokens else maxSeqLen;
    r := Ok((projected, Receipt(maxSeqLen, clipped, trace.stop, trace.completed, trace.truncated,
                                physicalTokens, physicalSampled, retained, retainedSampled)));
  }

  lemma Budgeted(trace: Trace, maxSeqLen: int)
    requires Rejected(trace, maxSeqLen).None?
    ensures maxSeqLen > 0
  {
  }
}
