/** The context builder's loops: scanning a payload for string literals, walking up to a tool call,
    growing the shared prefix, collecting peer records and prompts. */
module ValueContextImpl {
  import opened Common
  import opened JsonText
  import opened JsonValue
  import opened JsonEscape
  import opened JsonSafe
  import opened PromptText
  import opened ValueContext
  import opened ValueContextSafety
  import opened LeaveOneOut

  // ---------------------------------------------------------------- escaping a whole payload

  /** `done` followed by what the rest of the text becomes. */
  ghost function Then(done: string, rest: Option<string>): Option<string> {
    if rest.None? then None else Some(done + rest.value)
  }

  lemma ThenThen(a: string, b: string, rest: Option<string>)
    ensures Then(a, Then(b, rest)) == Then(a + b, rest)
  {
    if rest.Some? { assert a + (b + rest.value) == a + b + rest.value; }
  }

  lemma {:induction false} EscapeCopies(tokens: seq<string>, s: string)
    requires s != [] && (s[0] != '"' || BodyLength(s[1..]).None?)
    ensures EscapeText(tokens, s) == Then([s[0]], EscapeText(tokens, s[1..]))
  {
    hide BodyLength, DecodeBody, Literal;
  }

  lemma {:induction false} EscapeReplaces(tokens: seq<string>, s: string)
    requires s != [] && s[0] == '"' && BodyLength(s[1..]).Some?
    ensures var n := BodyLength(s[1..]).value;
            var v := DecodeBody(s[1..1 + n]);
            EscapeText(tokens, s) == if v.None? then None else Then(Literal(v.value, Hits(tokens, v.value, 0)), EscapeText(tokens, s[2 + n..]))
  {
    hide BodyLength, DecodeBody, Literal, Hits;
  }

  method EscapeSpecialTokens(payload: string, special: seq<string>) returns (r: Option<string>)
    ensures r == EscapeText(ControlTokens(special), payload)
  {
    hide EscapeText, BodyLength, DecodeBody, Literal, Hits, ControlTokens;
    ghost var tokens := ControlTokens(special);
    var out: string, at: nat := [], 0;
    assert payload[0..] == payload;
    assert EscapeText(tokens, payload).Some? ==> [] + EscapeText(tokens, payload).value == EscapeText(tokens, payload).value;
    while at < |payload|
      invariant at <= |payload|
      invariant EscapeText(tokens, payload) == Then(out, EscapeText(tokens, payload[at..]))
    {
      ghost var s := payload[at..];
      var n := if payload[at] == '"' then BodyLength(payload[at + 1..]) else None;
      assert s[1..] == payload[at + 1..];
      if n.None? {
        EscapeCopies(tokens, s);
        ThenThen(out, [payload[at]], EscapeText(tokens, payload[at + 1..]));
        out := out + [payload[at]];
        at := at + 1;
      } else {
        EscapeReplaces(tokens, s);
        assert s[1..1 + n.value] == payload[at + 1..at + 1 + n.value] && s[2 + n.value..] == payload[at + 2 + n.value..];
        var v := DecodeBody(payload[at + 1..at + 1 + n.value]);
        if v.None? { return None; }
        var literal := EscapeString(special, v.value);
        ThenThen(out, literal, EscapeText(tokens, payload[at + 2 + n.value..]));
        out := out + literal;
        at := at + 2 + n.value;
      }
    }
    EscapeDone(tokens, payload[at..]);
    assert out + [] == out;
    r := Some(out);
  }

  lemma {:induction false} EscapeDone(tokens: seq<string>, s: string)
    requires s == []
    ensures EscapeText(tokens, s) == Some([])
  {
  }

  // ---------------------------------------------------------------- tool references

  method CollectCalls(cs: seq<ToolCall>, node: nat, id: string) returns (ms: seq<(nat, nat)>)
    ensures ms == CallMatches(cs, node, id, 0)
  {
    ms := [];
    for k := 0 to |cs|
      invariant CallMatches(cs, node, id, 0) == ms + CallMatches(cs, node, id, k)
    {
      if cs[k].id == id {
        assert ms + ([(node, k)] + CallMatches(cs, node, id, k + 1)) == ms + [(node, k)] + CallMatches(cs, node, id, k + 1);
        ms := ms + [(node, k)];
      }
    }
  }

  /** `_tool_call_reference`: walk up the parents, collect every match, insist on exactly one. */
  method ToolCallReference(nodes: seq<Node>, i: nat, id: string) returns (r: Result<(nat, nat), Error>)
    requires i < |nodes|
    ensures r == if |AncestorMatches(nodes, i, id)| == 1 then Ok(AncestorMatches(nodes, i, id)[0]) else Err(ToolReference)
  {
    hide AncestorMatches, CallMatches;
    var matches: seq<(nat, nat)> := [];
    var at: nat := i;
    while nodes[at].parent.Some? && 0 <= nodes[at].parent.value < at
      invariant at < |nodes|
      invariant AncestorMatches(nodes, i, id) == matches + AncestorMatches(nodes, at, id)
      decreases at
    {
      var p := nodes[at].parent.value;
      var calls := nodes[p].message.toolCalls;
      var found: seq<(nat, nat)> := [];
      if calls.Some? { found := CollectCalls(calls.value, p, id); }
      AncestorStep(nodes, at, id, found);
      assert matches + (found + AncestorMatches(nodes, p, id)) == matches + found + AncestorMatches(nodes, p, id);
      matches := matches + found;
      at := p;
    }
    AncestorsEnd(nodes, at, id);
    assert matches + [] == matches;
    return if |matches| == 1 then Ok(matches[0]) else Err(ToolReference);
  }

  lemma {:induction false} AncestorStep(nodes: seq<Node>, at: nat, id: string, found: seq<(nat, nat)>)
    requires at < |nodes| && nodes[at].parent.Some? && 0 <= nodes[at].parent.value < at
    requires var p := nodes[at].parent.value;
             var calls := nodes[p].message.toolCalls;
             found == if calls.Some? then CallMatches(calls.value, p, id, 0) else []
    ensures AncestorMatches(nodes, at, id) == found + AncestorMatches(nodes, nodes[at].parent.value, id)
  {
    hide CallMatches;
  }

  lemma {:induction false} AncestorsEnd(nodes: seq<Node>, at: nat, id: string)
    requires at < |nodes| && !(nodes[at].parent.Some? && 0 <= nodes[at].parent.value < at)
    ensures AncestorMatches(nodes, at, id) == []
  {
  }

  // ---------------------------------------------------------------- the shared prefix

  /** Grow the omitted prefix while every rollout agrees on the next unsampled node. */
  method OmittedPrefix(g: seq<Rollout>) returns (r: Result<nat, Error>)
    requires g != []
    ensures r == Shared(g, 0)
  {
    hide RecordAt;
    var omitted := 0;
    while true
      invariant Shared(g, 0) == Shared(g, omitted)
      decreases |g[0].nodes| - omitted
    {
      if exists k | 0 <= k < |g| :: Stops(g[k], omitted) { return Ok(omitted); }
      assert !Stops(g[0], omitted);
      if exists k | 0 <= k < |g| :: RecordAt(g[k], omitted).Err? { return Err(ToolReference); }
      if exists k | 0 < k < |g| :: RecordAt(g[k], omitted) != RecordAt(g[0], omitted) {
        assert SomeDiffer(g, omitted);
        return Ok(omitted);
      }
      assert !SomeDiffer(g, omitted) by { AllLikeFirst(g, omitted); }
      omitted := omitted + 1;
    }
  }

  lemma AllLikeFirst(g: seq<Rollout>, n: nat)
    requires g != [] && !SomeStops(g, n)
    requires forall k | 0 < k < |g| :: !Stops(g[k], n) && RecordAt(g[k], n) == RecordAt(g[0], n)
    ensures !SomeDiffer(g, n)
  {
    hide RecordAt;
    forall j, k | 0 <= j < |g| && 0 <= k < |g| ensures !Stops(g[j], n) && !Stops(g[k], n) && RecordAt(g[j], n) == RecordAt(g[k], n) {}
  }

  // ---------------------------------------------------------------- peers and prompts

  /** `_peer_record`: the checks in order, then one record per node. */
  method BuildPeer(r: Rollout, omitted: nat) returns (p: Result<Json, Error>)
    ensures p == PeerRecord(r, omitted)
  {
    hide RecordAt, Omission;
    if r.reward.NonFinite? { return Err(NotFinite); }
    for i := 0 to |r.nodes|
      invariant forall j | 0 <= j < i :: r.nodes[j].parent.Some? ==> 0 <= r.nodes[j].parent.value < j
    {
      if r.nodes[i].parent.Some? && !(0 <= r.nodes[i].parent.value < i) { return Err(BadParent); }
    }
    if !(exists i | 0 <= i < |r.nodes| :: r.nodes[i].sampled) { return Err(NothingSampled); }
    var ns: seq<Json> := [];
    assert NodeRecords(r, omitted, 0) == Ahead(ns, NodeRecords(r, omitted, 0)) by { AheadNothing(NodeRecords(r, omitted, 0)); }
    for i := 0 to |r.nodes|
      invariant NodeRecords(r, omitted, 0) == Ahead(ns, NodeRecords(r, omitted, i))
    {
      var head := if i < omitted then Ok(Omission(r.nodes[i])) else RecordAt(r, i);
      if head.Err? { return Err(head.error); }
      AheadOne(ns, head.value, NodeRecords(r, omitted, i + 1));
      ns := ns + [head.value];
    }
    assert ns + [] == ns;
    return Ok(Obj([Field("nodes", Arr(ns)), Field("reward", Number(RewardText(r.reward)))]));
  }

  /** Records collected so far in front of those still to come. */
  ghost function Ahead(done: seq<Json>, rest: Result<seq<Json>, Error>): Result<seq<Json>, Error> {
    if rest.Err? then rest else Ok(done + rest.value)
  }

  lemma AheadNothing(rest: Result<seq<Json>, Error>)
    ensures Ahead([], rest) == rest
  {
    if rest.Ok? { assert [] + rest.value == rest.value; }
  }

  lemma AheadOne(done: seq<Json>, x: Json, rest: Result<seq<Json>, Error>)
    ensures Ahead(done, Ahead([x], rest)) == Ahead(done + [x], rest)
  {
    if rest.Ok? { assert done + ([x] + rest.value) == done + [x] + rest.value; }
  }

  /** `group_leave_one_out_prompts`: refused with the first failing check, or one prompt per
      rollout, each built from the other rollouts' records. */
  method GroupLeaveOneOutPrompts(g: seq<Rollout>, special: seq<string>) returns (r: Result<seq<string>, Error>)
    requires forall j | 0 <= j < |g| :: PrintsReward(g[j])
    ensures r.Err? <==> Refused(g).Some?
    ensures r.Err? ==> Some(r.error) == Refused(g)
    ensures r.Ok? ==> Accepted(g) && |r.value| == |g| && forall k | 0 <= k < |g| :: PromptOf(g, k, special) == Some(r.value[k])
  {
    hide Shared, PeerRecord, PrintsReward, PromptOf;
    if |g| < 2 { return Err(TooFew); }
    if |Ids(g)| != |g| { return Err(DuplicateIds); }
    var omitted := OmittedPrefix(g);
    if omitted.Err? { return Err(omitted.error); }
    var records := CollectPeers(g, omitted.value);
    if records.Err? { return Err(records.error); }
    RefusedIff(g);
    var prompts := WritePrompts(g, special, omitted.value, records.value);
    r := Ok(prompts);
  }

  method CollectPeers(g: seq<Rollout>, omitted: nat) returns (r: Result<seq<Json>, Error>)
    ensures r.Err? <==> FirstRefusal(g, omitted, 0).Some?
    ensures r.Err? ==> Some(r.error) == FirstRefusal(g, omitted, 0)
    ensures r.Ok? ==> (forall j | 0 <= j < |g| :: PeerRecord(g[j], omitted).Ok?) && r.value == Records(g, omitted)
  {
    hide PeerRecord;
    var records: seq<Json> := [];
    for k := 0 to |g|
      invariant FirstRefusal(g, omitted, 0) == FirstRefusal(g, omitted, k)
      invariant |records| == k && forall j | 0 <= j < k :: PeerRecord(g[j], omitted) == Ok(records[j])
    {
      var p := BuildPeer(g[k], omitted);
      if p.Err? { return Err(p.error); }
      records := records + [p.value];
    }
    return Ok(records);
  }

  method WritePrompts(g: seq<Rollout>, special: seq<string>, omitted: nat, records: seq<Json>) returns (prompts: seq<string>)
    requires Accepted(g) && Shared(g, 0) == Ok(omitted) && (forall j | 0 <= j < |g| :: PrintsReward(g[j]))
    requires (forall j | 0 <= j < |g| :: PeerRecord(g[j], omitted).Ok?) && records == Records(g, omitted)
    ensures |prompts| == |g| && forall k | 0 <= k < |g| :: PromptOf(g, k, special) == Some(prompts[k])
  {
    hide Shared, PeerRecord, PrintsReward, PromptOf, Accepted, Document, EscapeText, PromptFor, Encloses, Denotes;
    prompts := [];
    for k := 0 to |g|
      invariant |prompts| == k && forall j | 0 <= j < k :: PromptOf(g, j, special) == Some(prompts[j])
    {
      var peers := records[..k] + records[k + 1..];
      PeersAre(g, k);
      PromptSafe(g, k, special);
      var payload := EscapeSpecialTokens(Print(Document(|g|, peers)), special);
      PromptIs(g, k, special, peers, payload);
      prompts := prompts + [PromptFor(IntText(|peers|), payload.value)];
    }
  }

  lemma {:induction false} PeersAre(g: seq<Rollout>, k: nat)
    requires Accepted(g) && k < |g|
    ensures Shared(g, 0).Ok? && forall j | 0 <= j < |g| :: PeerRecord(g[j], Shared(g, 0).value).Ok?
    ensures var rs := Records(g, Shared(g, 0).value); PeersOf(g, k) == rs[..k] + rs[k + 1..]
  {
    AcceptedPeers(g, k);
    hide Shared, PeerRecord, Accepted, PeersOf;
  }

  lemma {:induction false} PromptIs(g: seq<Rollout>, k: nat, special: seq<string>, peers: seq<Json>, payload: Option<string>)
    requires Accepted(g) && k < |g| && peers == PeersOf(g, k) && payload == EscapeText(ControlTokens(special), Print(Document(|g|, peers)))
    requires PromptOf(g, k, special).Some?
    ensures payload.Some? && PromptOf(g, k, special) == Some(PromptFor(IntText(|peers|), payload.value))
  {
    hide Accepted, PeersOf, Document, EscapeText, PromptFor, Print, IntText, ControlTokens;
  }
}
