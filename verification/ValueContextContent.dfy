/** What a leave-one-out prompt says: a reader of the context document, and the proof that it gives back every
    peer's reward, tree, messages, tool calls and finish reasons. */
module ValueContextContent {
  import opened Common
  import opened JsonText
  import opened JsonValue
  import opened JsonUnique
  import opened JsonEscape
  import opened JsonSafe
  import opened PromptText
  import opened ValueContext
  import opened ValueContextSafety
  import opened LeaveOneOut
  import Provenance

  // ---------------------------------------------------------------- what a rollout shows

  datatype MessageView =
    | Spoken(role: string, content: Content)
    | Assisted(content: Content, reasoning: Option<string>, calls: Option<seq<(string, string)>>)   // (name, arguments)
    | ToolResult(content: Content, name: Option<string>, callNode: int, callIndex: int)

  datatype NodeView =
    | Omitted(parent: Option<int>)
    | Shown(parent: Option<int>, sampled: bool, message: MessageView, finish: Option<string>)

  datatype PeerView = PeerView(reward: string, nodes: seq<NodeView>)

  /** Node `a` is a proper ancestor of node `i`. */
  ghost predicate Ancestor(nodes: seq<Node>, a: nat, i: nat)
    requires i < |nodes|
    decreases i
  {
    var p := nodes[i].parent;
    p.Some? && 0 <= p.value < i && (a == p.value || Ancestor(nodes, a, p.value))
  }

  /** The tool message at node `i` answers call `c` of its ancestor `a`. */
  ghost predicate Answers(nodes: seq<Node>, i: nat, a: nat, c: nat)
    requires i < |nodes|
  {
    && a < |nodes| && Ancestor(nodes, a, i) && nodes[a].message.toolCalls.Some? && c < |nodes[a].message.toolCalls.value|
    && nodes[a].message.toolCalls.value[c].id == nodes[i].message.toolCallId
  }

  /** It answers exactly one call. */
  ghost predicate AnswersOne(nodes: seq<Node>, i: nat)
    requires i < |nodes|
  {
    exists a: nat, c: nat :: Answers(nodes, i, a, c) && forall a': nat, c': nat | Answers(nodes, i, a', c') :: a' == a && c' == c
  }

  /** The finish reason of the last call that names node `i`, none when no call does. */
  ghost predicate Finishes(calls: seq<Call>, i: int, f: Option<string>) {
    || (f.None? && forall j | 0 <= j < |calls| :: calls[j].node != Some(i))
    || (exists j :: 0 <= j < |calls| && calls[j].node == Some(i) && f == calls[j].finish
                    && forall k | j < k < |calls| :: calls[k].node != Some(i))
  }

  ghost predicate ShowsMessage(v: MessageView, nodes: seq<Node>, i: nat)
    requires i < |nodes|
  {
    var m := nodes[i].message;
    if m.role == "assistant" then
      && v.Assisted? && v.content == m.content && v.reasoning == m.reasoning
      && (v.calls.Some? <==> m.toolCalls.Some?)
      && (v.calls.Some? ==> |v.calls.value| == |m.toolCalls.value| && forall c | 0 <= c < |v.calls.value| ::
            v.calls.value[c] == (m.toolCalls.value[c].name, m.toolCalls.value[c].arguments))
    else if m.role == "tool" then
      && v.ToolResult? && v.content == m.content && v.name == m.name
      && v.callNode >= 0 && v.callIndex >= 0 && Answers(nodes, i, v.callNode, v.callIndex)
    else v == Spoken(m.role, m.content)
  }

  /** Node `i` as a peer shows it: its place in the tree only, when it belongs to the shared prompt; else whole. */
  ghost predicate ShowsNode(v: NodeView, r: Rollout, i: nat, omitted: nat)
    requires i < |r.nodes|
  {
    if i < omitted then v == Omitted(r.nodes[i].parent)
    else
      && v.Shown? && v.parent == r.nodes[i].parent && v.sampled == r.nodes[i].sampled
      && ShowsMessage(v.message, r.nodes, i) && Finishes(r.calls, i, v.finish)
  }

  /** A peer's reward, with negative zero read as zero, and its nodes. */
  ghost predicate ShowsPeer(v: PeerView, r: Rollout, omitted: nat) {
    && r.reward.Finite? && v.reward == (if r.reward.text == "-0.0" then "0.0" else r.reward.text)
    && |v.nodes| == |r.nodes| && forall i: nat | i < |r.nodes| :: ShowsNode(v.nodes[i], r, i, omitted)
  }

  // ---------------------------------------------------------------- the reader

  function FieldOf(fs: seq<Field>, key: string): Json {
    if fs == [] then Null else if fs[0].key == key then fs[0].value else FieldOf(fs[1..], key)
  }

  /** The value under a key, null when there is none. */
  function Get(j: Json, key: string): Json { if j.Obj? then FieldOf(j.fields, key) else Null }

  function ItemsOf(j: Json): seq<Json> { if j.Arr? then j.items else [] }

  function ReadText(j: Json): string { if j.Str? then j.s else [] }

  function ReadOptional(j: Json): Option<string> { if j.Str? then Some(j.s) else None }

  ghost function ReadInt(j: Json): int {
    if !j.Number? || j.text == [] then 0
    else if j.text[0] == '-' then (if Provenance.Digits(j.text[1..]) then 0 - Provenance.Value(j.text[1..]) else 0)
    else if Provenance.Digits(j.text) then Provenance.Value(j.text) else 0
  }

  ghost function ReadParent(j: Json): Option<int> { if j.Null? then None else Some(ReadInt(j)) }

  function ReadPart(j: Json): Part { if Get(j, "type") == Str("text") then TextPart(ReadText(Get(j, "text"))) else ImagePart }

  function ReadContent(j: Json): Content {
    match j
    case Str(t) => Plain(t)
    case Arr(xs) => Parts(seq(|xs|, i requires 0 <= i < |xs| => ReadPart(xs[i])))
    case _ => NoContent
  }

  function ReadCalls(xs: seq<Json>): (cs: seq<(string, string)>)
    ensures |cs| == |xs| && forall i | 0 <= i < |xs| :: cs[i] == (ReadText(Get(xs[i], "name")), ReadText(Get(xs[i], "arguments")))
  {
    seq(|xs|, i requires 0 <= i < |xs| => (ReadText(Get(xs[i], "name")), ReadText(Get(xs[i], "arguments"))))
  }

  ghost function ReadMessage(j: Json): MessageView {
    var role, content := ReadText(Get(j, "role")), ReadContent(Get(j, "content"));
    if role == "assistant" then
      Assisted(content, ReadOptional(Get(j, "reasoning_content")),
               if Get(j, "tool_calls").Arr? then Some(ReadCalls(Get(j, "tool_calls").items)) else None)
    else if role == "tool" then
      ToolResult(content, ReadOptional(Get(j, "name")), ReadInt(Get(Get(j, "tool_call"), "node")), ReadInt(Get(Get(j, "tool_call"), "index")))
    else Spoken(role, content)
  }

  ghost function ReadNode(j: Json): NodeView {
    if Get(j, "shared_prompt") == Bool(true) && Get(j, "sampled") == Bool(false) then Omitted(ReadParent(Get(j, "parent")))
    else Shown(ReadParent(Get(j, "parent")), Get(j, "sampled") == Bool(true), ReadMessage(Get(j, "message")),
               ReadOptional(Get(j, "finish_reason")))
  }

  ghost function ReadPeer(j: Json): (v: PeerView)
    ensures |v.nodes| == |ItemsOf(Get(j, "nodes"))|
    ensures forall i | 0 <= i < |v.nodes| :: v.nodes[i] == ReadNode(ItemsOf(Get(j, "nodes"))[i])
  {
    var ns := ItemsOf(Get(j, "nodes"));
    PeerView(if Get(j, "reward").Number? then Get(j, "reward").text else [],
             seq(|ns|, i requires 0 <= i < |ns| => ReadNode(ns[i])))
  }

  // ---------------------------------------------------------------- reading back

  lemma IntBack(n: int)
    ensures ReadInt(Number(IntText(n))) == n
  {
    Provenance.PrintCanonical(if n < 0 then -n else n);
    hide Provenance.Print, Provenance.Value, Provenance.Canonical;
    var p := Provenance.Print(if n < 0 then -n else n);
    if n < 0 {
      assert IntText(n)[0] == '-' && IntText(n)[1..] == p;
    } else {
      assert p[0] != '-';
    }
  }

  lemma ParentBack(p: Option<int>)
    ensures ReadParent(ParentRecord(p)) == p
  {
    if p.Some? { IntBack(p.value); }
    hide IntText, ReadInt;
  }

  lemma PartBack(p: Part)
    ensures ReadPart(PartRecord(p)) == p
  {
    match p
    case TextPart(t) =>
      var fs := [Field("text", Str(t)), Field("type", Str("text"))];
      FieldAt(fs, 0);
      FieldAt(fs, 1);
    case ImagePart =>
  }

  lemma {:induction false} PartsBack(ps: seq<Part>)
    ensures |PartRecords(ps)| == |ps| && forall i | 0 <= i < |ps| :: ReadPart(PartRecords(ps)[i]) == ps[i]
  {
    if ps != [] {
      PartsBack(ps[1..]);
      PartBack(ps[0]);
      hide PartRecord, ReadPart;
    }
  }

  lemma ContentBack(c: Content)
    ensures ReadContent(ContentRecord(c)) == c
  {
    if c.Parts? {
      PartsBack(c.parts);
      hide PartRecords, ReadPart;
    }
  }

  lemma {:induction false} CallsBack(cs: seq<ToolCall>)
    ensures |CallRecords(cs)| == |cs|
    ensures forall i | 0 <= i < |cs| :: ReadCalls(CallRecords(cs))[i] == (cs[i].name, cs[i].arguments)
  {
    if cs != [] {
      CallsBack(cs[1..]);
      CallBack(cs[0]);
      hide CallRecord, Get, ReadText;
      forall i | 0 < i < |cs| ensures ReadCalls(CallRecords(cs))[i] == (cs[i].name, cs[i].arguments) {
        assert CallRecords(cs)[i] == CallRecords(cs[1..])[i - 1];
      }
    }
  }

  lemma CallBack(c: ToolCall)
    ensures ReadText(Get(CallRecord(c), "name")) == c.name && ReadText(Get(CallRecord(c), "arguments")) == c.arguments
  {
    var fs := [Field("arguments", Str(c.arguments)), Field("name", Str(c.name))];
    FieldAt(fs, 0);
    FieldAt(fs, 1);
  }

  lemma ReferenceBack(m: (nat, nat))
    ensures ReadInt(Get(Reference(m), "node")) == m.0 && ReadInt(Get(Reference(m), "index")) == m.1
  {
    IntBack(m.0);
    IntBack(m.1);
    hide IntText, ReadInt;
    var fs := [Field("index", Number(IntText(m.1))), Field("node", Number(IntText(m.0)))];
    FieldAt(fs, 0);
    FieldAt(fs, 1);
  }

  // ---------------------------------------------------------------- which call a tool message answers

  lemma {:induction false} CallsFound(cs: seq<ToolCall>, node: nat, id: string, k: nat)
    requires k <= |cs|
    ensures forall m | m in CallMatches(cs, node, id, k) :: m.0 == node && k <= m.1 < |cs| && cs[m.1].id == id
    ensures forall c: nat | k <= c < |cs| && cs[c].id == id :: (node, c) in CallMatches(cs, node, id, k)
    ensures forall i, j | 0 <= i < j < |CallMatches(cs, node, id, k)| :: CallMatches(cs, node, id, k)[i] != CallMatches(cs, node, id, k)[j]
    decreases |cs| - k
  {
    if k < |cs| {
      CallsFound(cs, node, id, k + 1);
      var rest := CallMatches(cs, node, id, k + 1);
      assert (node, k) !in rest;
      forall c: nat | k <= c < |cs| && cs[c].id == id ensures (node, c) in CallMatches(cs, node, id, k) {
        if c > k { assert (node, c) in rest; }
      }
    }
  }

  /** Calls of node `a` with the id asked for. */
  ghost predicate Named(nodes: seq<Node>, id: string, a: nat, c: nat) {
    a < |nodes| && nodes[a].message.toolCalls.Some? && c < |nodes[a].message.toolCalls.value| && nodes[a].message.toolCalls.value[c].id == id
  }

  lemma {:induction false} AncestorBelow(nodes: seq<Node>, a: nat, i: nat)
    requires i < |nodes| && Ancestor(nodes, a, i)
    ensures a < i
    decreases i
  {
    var p := nodes[i].parent.value;
    if a != p { AncestorBelow(nodes, a, p); }
  }

  lemma ConcatDistinct<T>(a: seq<T>, b: seq<T>)
    requires (forall i, j | 0 <= i < j < |a| :: a[i] != a[j]) && (forall i, j | 0 <= i < j < |b| :: b[i] != b[j])
    requires forall x | x in a :: x !in b
    ensures forall i, j | 0 <= i < j < |a + b| :: (a + b)[i] != (a + b)[j]
  {
    assert forall i | 0 <= i < |a| :: a[i] in a;
    assert forall j | 0 <= j < |b| :: b[j] in b;
  }

  /** The parent walk finds exactly the ancestral calls with the id, each once. */
  lemma {:induction false} MatchesExact(nodes: seq<Node>, i: nat, id: string)
    requires i < |nodes|
    ensures forall a: nat, c: nat :: (a, c) in AncestorMatches(nodes, i, id) <==> Ancestor(nodes, a, i) && Named(nodes, id, a, c)
    ensures forall j, k | 0 <= j < k < |AncestorMatches(nodes, i, id)| :: AncestorMatches(nodes, i, id)[j] != AncestorMatches(nodes, i, id)[k]
    decreases i
  {
    var p := nodes[i].parent;
    if p.Some? && 0 <= p.value < i {
      MatchesExact(nodes, p.value, id);
      var calls := nodes[p.value].message.toolCalls;
      if calls.Some? { CallsFound(calls.value, p.value, id, 0); }
      var here := if calls.Some? then CallMatches(calls.value, p.value, id, 0) else [];
      var rest := AncestorMatches(nodes, p.value, id);
      forall m | m in here ensures m !in rest {
        if m in rest { AncestorBelow(nodes, m.0, p.value); }
      }
      ConcatDistinct(here, rest);
      hide CallMatches, AncestorMatches;
      forall a: nat, c: nat
        ensures (a, c) in here + rest <==> Ancestor(nodes, a, i) && Named(nodes, id, a, c)
      {
        if a == p.value && Ancestor(nodes, a, p.value) { AncestorBelow(nodes, a, p.value); }
      }
      AncestorUnfold(nodes, i, id, here, rest);
    } else {
      hide Named;
    }
  }

  lemma {:induction false} AncestorUnfold(nodes: seq<Node>, i: nat, id: string, here: seq<(nat, nat)>, rest: seq<(nat, nat)>)
    requires i < |nodes| && nodes[i].parent.Some? && 0 <= nodes[i].parent.value < i && rest == AncestorMatches(nodes, nodes[i].parent.value, id)
    requires var calls := nodes[nodes[i].parent.value].message.toolCalls;
             here == if calls.Some? then CallMatches(calls.value, nodes[i].parent.value, id, 0) else []
    ensures AncestorMatches(nodes, i, id) == here + rest
  {
    hide CallMatches;
  }

  lemma OnlyOne<T>(xs: seq<T>, x: T)
    requires x in xs && (forall j | 0 <= j < |xs| :: xs[j] == x) && forall i, j | 0 <= i < j < |xs| :: xs[i] != xs[j]
    ensures |xs| == 1
  {
    assert xs[0] == xs[|xs| - 1];
  }

  /** A tool message is accepted exactly when it answers one call, and then refers to that call. */
  lemma {:induction false} ReferenceIff(nodes: seq<Node>, i: nat)
    requires i < |nodes|
    ensures var refs := AncestorMatches(nodes, i, nodes[i].message.toolCallId);
            && (|refs| == 1 <==> AnswersOne(nodes, i))
            && forall a: nat, c: nat :: (a, c) in refs <==> Answers(nodes, i, a, c)
  {
    var id := nodes[i].message.toolCallId;
    MatchesExact(nodes, i, id);
    var refs := AncestorMatches(nodes, i, id);
    forall a: nat, c: nat ensures (a, c) in refs <==> Answers(nodes, i, a, c) {
      assert (a, c) in refs <==> Ancestor(nodes, a, i) && Named(nodes, id, a, c);
    }
    hide AncestorMatches, Answers, Ancestor;
    if |refs| == 1 {
      assert (refs[0].0, refs[0].1) in refs;
      forall a: nat, c: nat | Answers(nodes, i, a, c) ensures a == refs[0].0 && c == refs[0].1 { assert (a, c) in refs; }
    }
    if AnswersOne(nodes, i) {
      var a: nat, c: nat :| Answers(nodes, i, a, c) && forall a': nat, c': nat | Answers(nodes, i, a', c') :: a' == a && c' == c;
      assert (a, c) in refs;
      forall j | 0 <= j < |refs| ensures refs[j] == (a, c) { assert (refs[j].0, refs[j].1) in refs; }
      OnlyOne(refs, (a, c));
    }
  }

  // ---------------------------------------------------------------- messages, nodes and peers read back

  lemma {:induction false} FinishBack(calls: seq<Call>, i: int)
    ensures Finishes(calls, i, FinishOf(calls, i))
  {
    if calls != [] {
      var n := |calls| - 1;
      FinishBack(calls[..n], i);
      if calls[n].node != Some(i) {
        if FinishOf(calls, i).None? && (forall j | 0 <= j < n :: calls[..n][j].node != Some(i)) {
          forall j | 0 <= j < |calls| ensures calls[j].node != Some(i) { assert j < n ==> calls[..n][j] == calls[j]; }
        } else {
          var j :| 0 <= j < n && calls[..n][j].node == Some(i) && FinishOf(calls, i) == calls[..n][j].finish
                   && forall k | j < k < n :: calls[..n][k].node != Some(i);
          forall k | j < k < |calls| ensures calls[k].node != Some(i) { assert k < n ==> calls[..n][k] == calls[k]; }
        }
      }
    }
  }

  lemma {:induction false} FieldFirst(a: Field, fs: seq<Field>, k: string)
    ensures FieldOf([a] + fs, k) == if a.key == k then a.value else FieldOf(fs, k)
  {
    assert ([a] + fs)[1..] == fs;
  }

  lemma {:induction false} FieldNext(fs: seq<Field>, gs: seq<Field>, k: string)
    requires forall i | 0 <= i < |fs| :: fs[i].key != k
    ensures FieldOf(fs + gs, k) == FieldOf(gs, k)
  {
    if fs == [] {
      assert fs + gs == gs;
    } else {
      assert (fs + gs)[1..] == fs[1..] + gs;
      FieldNext(fs[1..], gs, k);
    }
  }

  lemma {:induction false} FieldAt(fs: seq<Field>, i: nat)
    requires i < |fs| && forall j | 0 <= j < i :: fs[j].key != fs[i].key
    ensures FieldOf(fs, fs[i].key) == fs[i].value
  {
    if i > 0 { FieldAt(fs[1..], i - 1); }
  }

  lemma {:induction false} FieldAbsent(fs: seq<Field>, k: string)
    requires forall j | 0 <= j < |fs| :: fs[j].key != k
    ensures FieldOf(fs, k) == Null
  {
    if fs != [] { FieldAbsent(fs[1..], k); }
  }

  /** An assistant's record, with and without its optional fields. */
  lemma AssistantBack(content: Json, reasoning: Option<string>, calls: Option<seq<ToolCall>>)
    ensures var j := Obj([Field("content", content)]
                         + (if reasoning.Some? then [Field("reasoning_content", Str(reasoning.value))] else [])
                         + [Field("role", Str("assistant"))]
                         + (if calls.Some? then [Field("tool_calls", Arr(CallRecords(calls.value)))] else []));
            && Get(j, "content") == content && Get(j, "role") == Str("assistant")
            && ReadOptional(Get(j, "reasoning_content")) == reasoning
            && Get(j, "tool_calls") == if calls.Some? then Arr(CallRecords(calls.value)) else Null
  {
    hide CallRecords;
    var fs := [Field("content", content)]
              + (if reasoning.Some? then [Field("reasoning_content", Str(reasoning.value))] else [])
              + [Field("role", Str("assistant"))]
              + (if calls.Some? then [Field("tool_calls", Arr(CallRecords(calls.value)))] else []);
    var role := if reasoning.Some? then 2 else 1;
    FieldAt(fs, 0);
    FieldAt(fs, role);
    if reasoning.Some? { FieldAt(fs, 1); } else { FieldAbsent(fs, "reasoning_content"); }
    if calls.Some? { FieldAt(fs, role + 1); } else { FieldAbsent(fs, "tool_calls"); }
  }

  lemma ToolBack(content: Json, name: Option<string>, reference: Json)
    ensures var j := Obj([Field("content", content)] + (if name.Some? then [Field("name", Str(name.value))] else [])
                         + [Field("role", Str("tool"))] + [Field("tool_call", reference)]);
            && Get(j, "content") == content && Get(j, "role") == Str("tool")
            && ReadOptional(Get(j, "name")) == name && Get(j, "tool_call") == reference
  {
    var fs := [Field("content", content)] + (if name.Some? then [Field("name", Str(name.value))] else [])
              + [Field("role", Str("tool"))] + [Field("tool_call", reference)];
    var role := if name.Some? then 2 else 1;
    FieldAt(fs, 0);
    FieldAt(fs, role);
    FieldAt(fs, role + 1);
    if name.Some? { FieldAt(fs, 1); } else { FieldAbsent(fs, "name"); }
  }

  lemma SpokenBack(content: Json, role: string)
    ensures var j := Obj([Field("content", content), Field("role", Str(role))]); Get(j, "content") == content && Get(j, "role") == Str(role)
  {
    var fs := [Field("content", content), Field("role", Str(role))];
    FieldAt(fs, 0);
    FieldAt(fs, 1);
  }

  /** A message is read back whole. */
  lemma {:induction false} MessageBack(nodes: seq<Node>, i: nat)
    requires i < |nodes| && MessageRecord(nodes, i).Ok?
    ensures ShowsMessage(ReadMessage(MessageRecord(nodes, i).value), nodes, i)
  {
    var m := nodes[i].message;
    ContentBack(m.content);
    if m.role == "assistant" {
      AssistantBack(ContentRecord(m.content), m.reasoning, m.toolCalls);
      if m.toolCalls.Some? { CallsBack(m.toolCalls.value); }
      hide ContentRecord, ReadContent, CallRecords, Get, ReadOptional;
    } else if m.role == "tool" {
      var refs := AncestorMatches(nodes, i, m.toolCallId);
      ReferenceIff(nodes, i);
      assert (refs[0].0, refs[0].1) in refs;
      ToolBack(ContentRecord(m.content), m.name, Reference(refs[0]));
      ReferenceBack(refs[0]);
      hide ContentRecord, ReadContent, Reference, Get, ReadOptional, ReadInt, AncestorMatches, Answers;
    } else {
      SpokenBack(ContentRecord(m.content), m.role);
      hide ContentRecord, ReadContent, Get;
    }
  }

  /** A node is read back whole. */
  lemma NodeBack(r: Rollout, i: nat)
    requires i < |r.nodes| && RecordAt(r, i).Ok?
    ensures ShowsNode(ReadNode(RecordAt(r, i).value), r, i, 0)
  {
    MessageBack(r.nodes, i);
    ParentBack(r.nodes[i].parent);
    FinishBack(r.calls, i);
    hide MessageRecord, ReadMessage, ShowsMessage, ParentRecord, ReadParent, Finishes, FinishOf, ReadNode;
    NodeRead(FinishOf(r.calls, i), MessageRecord(r.nodes, i).value, ParentRecord(r.nodes[i].parent), r.nodes[i].sampled);
  }

  lemma NodeRead(finish: Option<string>, message: Json, parent: Json, sampled: bool)
    ensures ReadNode(Obj([Field("finish_reason", OptStr(finish)), Field("message", message), Field("parent", parent),
                          Field("sampled", Bool(sampled))]))
         == Shown(ReadParent(parent), sampled, ReadMessage(message), finish)
  {
    hide ReadParent, ReadMessage, FieldOf;
    var fs := [Field("finish_reason", OptStr(finish)), Field("message", message), Field("parent", parent), Field("sampled", Bool(sampled))];
    FieldAt(fs, 0);
    FieldAt(fs, 1);
    FieldAt(fs, 2);
    FieldAt(fs, 3);
    FieldAbsent(fs, "shared_prompt");
  }

  lemma OmissionBack(n: Node)
    ensures ReadNode(Omission(n)) == NodeView.Omitted(n.parent)
  {
    ParentBack(n.parent);
    hide ParentRecord, ReadParent, ReadMessage;
    var fs := Omission(n).fields;
    FieldAt(fs, 0);
    FieldAt(fs, 1);
    FieldAt(fs, 2);
  }

  lemma {:induction false} FirstBack(r: Rollout, omitted: nat, i: nat)
    requires i < |r.nodes| && NodeRecords(r, omitted, i).Ok?
    ensures NodeRecords(r, omitted, i).value != [] && ShowsNode(ReadNode(NodeRecords(r, omitted, i).value[0]), r, i, omitted)
  {
    if i < omitted { OmissionBack(r.nodes[i]); } else { NodeBack(r, i); }
    hide RecordAt, Omission, ReadNode, ShowsMessage, Finishes;
  }

  lemma {:induction false} NodesBack(r: Rollout, omitted: nat, i: nat)
    requires i <= |r.nodes| && NodeRecords(r, omitted, i).Ok?
    ensures var ns := NodeRecords(r, omitted, i).value;
            |ns| == |r.nodes| - i && forall j: nat | j < |ns| :: ShowsNode(ReadNode(ns[j]), r, i + j, omitted)
    decreases |r.nodes| - i
  {
    if i < |r.nodes| {
      hide RecordAt, Omission, ReadNode, ShowsMessage, Finishes, ShowsNode;
      NodesBack(r, omitted, i + 1);
      var rest := NodeRecords(r, omitted, i + 1).value;
      var ns := NodeRecords(r, omitted, i).value;
      assert |ns| == |rest| + 1 && ns[1..] == rest;
      FirstBack(r, omitted, i);
      forall j: nat | j < |ns| ensures ShowsNode(ReadNode(ns[j]), r, i + j, omitted) {
        if j > 0 { assert ns[j] == rest[j - 1]; }
      }
    }
  }

  /** The record of a peer is read back whole. */
  lemma {:induction false} PeerBack(r: Rollout, omitted: nat)
    requires PeerRecord(r, omitted).Ok?
    ensures ShowsPeer(ReadPeer(PeerRecord(r, omitted).value), r, omitted)
  {
    NodesBack(r, omitted, 0);
    PeerFields(r, omitted);
    hide NodeRecords, PeerRecord, ReadNode, ShowsNode, RewardText;
    var (v, ns) := (ReadPeer(PeerRecord(r, omitted).value), NodeRecords(r, omitted, 0).value);
    forall i: nat | i < |r.nodes| ensures ShowsNode(v.nodes[i], r, i, omitted) { assert v.nodes[i] == ReadNode(ns[i]); }
  }

  lemma {:induction false} PeerFields(r: Rollout, omitted: nat)
    requires PeerRecord(r, omitted).Ok?
    ensures var j := PeerRecord(r, omitted).value;
            && NodeRecords(r, omitted, 0).Ok? && Get(j, "nodes") == Arr(NodeRecords(r, omitted, 0).value)
            && r.reward.Finite? && Get(j, "reward") == Number(if r.reward.text == "-0.0" then "0.0" else r.reward.text)
  {
    hide NodeRecords;
    var fs := PeerRecord(r, omitted).value.fields;
    FieldAt(fs, 0);
    FieldAt(fs, 1);
  }

  // ---------------------------------------------------------------- which groups are accepted

  /** Every tool message of the rollout answers exactly one call. */
  ghost predicate Resolved(r: Rollout) {
    forall i: nat | i < |r.nodes| && r.nodes[i].message.role == "tool" :: AnswersOne(r.nodes, i)
  }

  lemma {:induction false} RecordOk(r: Rollout, i: nat)
    requires i < |r.nodes|
    ensures RecordAt(r, i).Ok? <==> (r.nodes[i].message.role == "tool" ==> AnswersOne(r.nodes, i))
  {
    ReferenceIff(r.nodes, i);
    hide AncestorMatches, AnswersOne, Answers, ContentRecord, CallRecords, Reference, FinishOf;
  }

  lemma {:induction false} NodesOk(r: Rollout, omitted: nat, i: nat)
    requires i <= |r.nodes|
    ensures NodeRecords(r, omitted, i).Ok? <==> forall j: nat | i <= j < |r.nodes| && omitted <= j :: RecordAt(r, j).Ok?
    decreases |r.nodes| - i
  {
    hide RecordAt, Omission;
    if i < |r.nodes| { NodesOk(r, omitted, i + 1); }
  }

  /** Up to the shared prefix every rollout has every node, and its record. */
  lemma {:induction false} SharedOk(g: seq<Rollout>, i: nat, k: nat, j: nat)
    requires g != [] && k < |g| && Shared(g, i).Ok? && i <= j < Shared(g, i).value
    ensures j < |g[k].nodes| && RecordAt(g[k], j).Ok?
    decreases |g[0].nodes| - i
  {
    hide RecordAt;
    assert !SomeStops(g, i) && !Stops(g[0], i) && !Stops(g[k], i);
    if j > i { SharedOk(g, i + 1, k, j); }
  }

  /** If every node has a record, the shared prefix is found. */
  lemma {:induction false} SharedFound(g: seq<Rollout>, i: nat)
    requires g != [] && forall k: nat, j: nat | k < |g| && j < |g[k].nodes| :: RecordAt(g[k], j).Ok?
    ensures Shared(g, i).Ok?
    decreases |g[0].nodes| - i
  {
    hide RecordAt;
    if !SomeStops(g, i) {
      assert !Stops(g[0], i);
      forall k | 0 <= k < |g| ensures !Stops(g[k], i) && RecordAt(g[k], i).Ok? {}
      if !SomeDiffer(g, i) { SharedFound(g, i + 1); }
    }
  }

  function IdList(g: seq<Rollout>): (ids: seq<string>)
    ensures |ids| == |g| && forall i | 0 <= i < |g| :: ids[i] == g[i].id
  {
    seq(|g|, i requires 0 <= i < |g| => g[i].id)
  }

  function SetOf<T>(xs: seq<T>): set<T> { set x | x in xs }

  /** A list has as many elements as its set exactly when none is repeated. */
  lemma LastDiffers<T>(xs: seq<T>)
    requires xs != []
    ensures var (a, x) := (xs[..|xs| - 1], xs[|xs| - 1]);
            (forall i, j | 0 <= i < j < |xs| :: xs[i] != xs[j]) <==> x !in SetOf(a) && forall i, j | 0 <= i < j < |a| :: a[i] != a[j]
  {
    var a, x := xs[..|xs| - 1], xs[|xs| - 1];
    assert forall i | 0 <= i < |a| :: a[i] == xs[i] && a[i] in SetOf(a);
    if x in SetOf(a) {
      var i :| 0 <= i < |a| && a[i] == x;
      assert xs[i] == xs[|xs| - 1];
    }
  }

  lemma {:induction false} AllDifferent<T>(xs: seq<T>)
    ensures |SetOf(xs)| <= |xs|
    ensures |SetOf(xs)| == |xs| <==> forall i, j | 0 <= i < j < |xs| :: xs[i] != xs[j]
  {
    if xs == [] {
      assert SetOf(xs) == {};
    } else {
      var n := |xs| - 1;
      AllDifferent(xs[..n]);
      assert xs == xs[..n] + [xs[n]];
      assert SetOf(xs) == SetOf(xs[..n]) + {xs[n]};
      LastDiffers(xs);
      hide SetOf;
    }
  }

  lemma IdsDiffer(g: seq<Rollout>)
    ensures |Ids(g)| == |g| <==> forall i, j | 0 <= i < j < |g| :: g[i].id != g[j].id
  {
    AllDifferent(IdList(g));
    forall x ensures x in Ids(g) <==> x in SetOf(IdList(g)) {
      if x in Ids(g) {
        var r :| r in g && r.id == x;
        var i :| 0 <= i < |g| && g[i] == r;
        assert IdList(g)[i] == x;
      }
    }
    assert Ids(g) == SetOf(IdList(g));
  }

  /** A rollout that can be a peer: a finite reward, parents before children, a sampled response, and tool messages
      that each answer exactly one call. */
  ghost predicate Presentable(r: Rollout) {
    && r.reward.Finite?
    && (forall i | 0 <= i < |r.nodes| :: r.nodes[i].parent.Some? ==> 0 <= r.nodes[i].parent.value < i)
    && (exists i :: 0 <= i < |r.nodes| && r.nodes[i].sampled)
    && Resolved(r)
  }

  lemma {:induction false} PeerOk(r: Rollout, omitted: nat)
    ensures PeerRecord(r, omitted).Ok? <==>
      && r.reward.Finite?
      && (forall i | 0 <= i < |r.nodes| :: r.nodes[i].parent.Some? ==> 0 <= r.nodes[i].parent.value < i)
      && (exists i :: 0 <= i < |r.nodes| && r.nodes[i].sampled)
      && forall j: nat | omitted <= j < |r.nodes| :: RecordAt(r, j).Ok?
  {
    NodesOk(r, omitted, 0);
    hide RecordAt, NodeRecords;
  }

  /** Exactly which groups get prompts: at least two rollouts, no id twice, each presentable. */
  lemma {:induction false} AcceptedExactly(g: seq<Rollout>)
    ensures Accepted(g) <==>
      && |g| >= 2 && (forall i, j | 0 <= i < j < |g| :: g[i].id != g[j].id)
      && forall k | 0 <= k < |g| :: Presentable(g[k])
  {
    IdsDiffer(g);
    hide Shared, PeerRecord, RecordAt, Ids, AnswersOne;
    if Accepted(g) {
      var n := Shared(g, 0).value;
      forall k | 0 <= k < |g| ensures Presentable(g[k]) {
        PeerOk(g[k], n);
        forall i: nat | i < |g[k].nodes| && g[k].nodes[i].message.role == "tool" ensures AnswersOne(g[k].nodes, i) {
          RecordOk(g[k], i);
          if i < n { SharedOk(g, 0, k, i); }
        }
      }
    }
    if |g| >= 2 && (forall i, j | 0 <= i < j < |g| :: g[i].id != g[j].id) && forall k | 0 <= k < |g| :: Presentable(g[k]) {
      forall k: nat, j: nat | k < |g| && j < |g[k].nodes| ensures RecordAt(g[k], j).Ok? {
        assert Presentable(g[k]);
        RecordOk(g[k], j);
      }
      SharedFound(g, 0);
      forall k | 0 <= k < |g| ensures PeerRecord(g[k], Shared(g, 0).value).Ok? {
        assert Presentable(g[k]);
        PeerOk(g[k], Shared(g, 0).value);
      }
    }
  }

  // ---------------------------------------------------------------- the shared prompt

  lemma FinishesOne(calls: seq<Call>, i: int, a: Option<string>, b: Option<string>)
    requires Finishes(calls, i, a) && Finishes(calls, i, b)
    ensures a == b
  {
  }

  lemma {:induction false} SameCalls(a: seq<ToolCall>, b: seq<ToolCall>)
    requires |a| == |b| && forall c | 0 <= c < |a| :: a[c].name == b[c].name && a[c].arguments == b[c].arguments
    ensures CallRecords(a) == CallRecords(b)
  {
    if a != [] {
      assert a[0].name == b[0].name;
      SameCalls(a[1..], b[1..]);
    }
  }

  lemma {:induction false} SameMessage(v: MessageView, a: seq<Node>, b: seq<Node>, i: nat)
    requires i < |a| && i < |b| && MessageRecord(a, i).Ok? && MessageRecord(b, i).Ok?
    requires ShowsMessage(v, a, i) && ShowsMessage(v, b, i)
    requires a[i].message.role == b[i].message.role
    ensures MessageRecord(a, i) == MessageRecord(b, i)
  {
    var m, w := a[i].message, b[i].message;
    if m.role == "assistant" {
      if m.toolCalls.Some? {
        forall c | 0 <= c < |m.toolCalls.value|
          ensures m.toolCalls.value[c].name == w.toolCalls.value[c].name && m.toolCalls.value[c].arguments == w.toolCalls.value[c].arguments
        {
          assert v.calls.value[c] == (m.toolCalls.value[c].name, m.toolCalls.value[c].arguments);
        }
        SameCalls(m.toolCalls.value, w.toolCalls.value);
      }
      hide ContentRecord, CallRecords;
    } else if m.role == "tool" {
      ReferenceIff(a, i);
      ReferenceIff(b, i);
      var x, y := AncestorMatches(a, i, m.toolCallId), AncestorMatches(b, i, w.toolCallId);
      assert (v.callNode, v.callIndex) in x && (v.callNode, v.callIndex) in y;
      hide ContentRecord, AncestorMatches, Reference, Answers, AnswersOne;
    } else {
      hide ContentRecord;
    }
  }

  /** Nodes that show the same have the same record. */
  lemma SameView(v: NodeView, r: Rollout, s: Rollout, i: nat)
    requires i < |r.nodes| && i < |s.nodes| && RecordAt(r, i).Ok? && RecordAt(s, i).Ok?
    requires ShowsNode(v, r, i, 0) && ShowsNode(v, s, i, 0)
    ensures RecordAt(r, i) == RecordAt(s, i)
  {
    SameRole(v.message, r.nodes, s.nodes, i);
    SameMessage(v.message, r.nodes, s.nodes, i);
    FinishBack(r.calls, i);
    FinishBack(s.calls, i);
    FinishesOne(r.calls, i, FinishOf(r.calls, i), v.finish);
    FinishesOne(s.calls, i, FinishOf(s.calls, i), v.finish);
    hide MessageRecord, ShowsMessage, Finishes, FinishOf;
  }

  lemma SameRole(v: MessageView, a: seq<Node>, b: seq<Node>, i: nat)
    requires i < |a| && i < |b| && ShowsMessage(v, a, i) && ShowsMessage(v, b, i)
    ensures a[i].message.role == b[i].message.role
  {
    hide Answers;
  }

  /** Node `i` belongs to the prompt all rollouts share: each has it, unsampled, next on the chain, showing the same. */
  ghost predicate CommonAt(g: seq<Rollout>, i: nat) {
    && (forall k | 0 <= k < |g| :: i < |g[k].nodes| && !g[k].nodes[i].sampled && g[k].nodes[i].parent == (if i == 0 then None else Some(i - 1)))
    && exists v: NodeView :: AllShow(g, i, v)
  }

  ghost predicate AllShow(g: seq<Rollout>, i: nat, v: NodeView)
    requires forall k | 0 <= k < |g| :: i < |g[k].nodes|
  {
    forall k | 0 <= k < |g| :: ShowsNode(v, g[k], i, 0)
  }

  lemma {:induction false} CommonIff(g: seq<Rollout>, i: nat)
    requires g != [] && forall k | 0 <= k < |g| && i < |g[k].nodes| :: RecordAt(g[k], i).Ok?
    ensures CommonAt(g, i) <==> !SomeStops(g, i) && !SomeDiffer(g, i)
  {
    hide RecordAt, ShowsNode;
    if CommonAt(g, i) {
      forall k | 0 <= k < |g| ensures !Stops(g[k], i) {}
      var v: NodeView :| AllShow(g, i, v);
      forall j, k | 0 <= j < |g| && 0 <= k < |g| ensures RecordAt(g[j], i) == RecordAt(g[k], i) {
        assert ShowsNode(v, g[j], i, 0) && ShowsNode(v, g[k], i, 0);
        SameView(v, g[j], g[k], i);
      }
    }
    if !SomeStops(g, i) && !SomeDiffer(g, i) {
      forall k | 0 <= k < |g| ensures !Stops(g[k], i) {}
      var v := ReadNode(RecordAt(g[0], i).value);
      forall k | 0 <= k < |g| ensures ShowsNode(v, g[k], i, 0) {
        NodeBack(g[k], i);
        assert RecordAt(g[k], i) == RecordAt(g[0], i);
      }
      assert AllShow(g, i, v);
    }
  }

  /** The omitted prefix is the longest one all rollouts share. */
  lemma {:induction false} SharedExact(g: seq<Rollout>, i: nat)
    requires g != [] && forall k: nat, j: nat | k < |g| && j < |g[k].nodes| :: RecordAt(g[k], j).Ok?
    ensures Shared(g, i).Ok? && i <= Shared(g, i).value
    ensures forall j: nat | i <= j < Shared(g, i).value :: CommonAt(g, j)
    ensures !CommonAt(g, Shared(g, i).value)
    decreases |g[0].nodes| - i
  {
    hide RecordAt, CommonAt;
    CommonIff(g, i);
    if !SomeStops(g, i) {
      assert !Stops(g[0], i);
      forall k | 0 <= k < |g| ensures !Stops(g[k], i) && RecordAt(g[k], i).Ok? {}
      if !SomeDiffer(g, i) { SharedExact(g, i + 1); }
    }
  }

  // ---------------------------------------------------------------- prompts

  /** The places of a list, in some order, each once. */
  ghost predicate Reorders(order: seq<nat>, n: nat) {
    |order| == n && (forall i | 0 <= i < n :: order[i] < n) && forall i, j | 0 <= i < j < n :: order[i] != order[j]
  }

  /** Place `i` first, then the places of the rest. */
  function Ahead(rest: seq<nat>, i: nat): (order: seq<nat>)
    ensures |order| == |rest| + 1 && order[0] == i
    ensures forall j | 0 <= j < |rest| :: order[j + 1] == if rest[j] < i then rest[j] else rest[j] + 1
  {
    [i] + seq(|rest|, j requires 0 <= j < |rest| => if rest[j] < i then rest[j] else rest[j] + 1)
  }

  lemma AheadReorders(rest: seq<nat>, i: nat, n: nat)
    requires Reorders(rest, n) && i <= n
    ensures Reorders(Ahead(rest, i), n + 1)
  {
    var order := Ahead(rest, i);
    forall a, b | 0 <= a < b < n + 1 ensures order[a] != order[b] {
      assert order[b] == if rest[b - 1] < i then rest[b - 1] else rest[b - 1] + 1;
      if a > 0 {
        assert order[a] == if rest[a - 1] < i then rest[a - 1] else rest[a - 1] + 1;
        assert rest[a - 1] != rest[b - 1];
      }
    }
    forall a | 0 <= a < n + 1 ensures order[a] < n + 1 {
      if a > 0 { assert order[a] == if rest[a - 1] < i then rest[a - 1] else rest[a - 1] + 1; }
    }
  }

  lemma AheadMatches<T>(xs: seq<T>, ys: seq<T>, i: nat, rest: seq<nat>)
    requires xs != [] && i < |ys| == |xs| && ys[i] == xs[0] && Reorders(rest, |xs| - 1)
    requires forall j | 0 <= j < |rest| :: xs[1..][j] == Without(ys, i)[rest[j]]
    ensures Reorders(Ahead(rest, i), |ys|) && forall j | 0 <= j < |xs| :: xs[j] == ys[Ahead(rest, i)[j]]
  {
    AheadReorders(rest, i, |xs| - 1);
    var order := Ahead(rest, i);
    forall j | 0 <= j < |xs| ensures xs[j] == ys[order[j]] {
      if j > 0 {
        assert order[j] == if rest[j - 1] < i then rest[j - 1] else rest[j - 1] + 1;
        assert xs[j] == xs[1..][j - 1] == Without(ys, i)[rest[j - 1]];
      }
    }
  }

  /** Two lists of the same elements, matched place by place. */
  lemma {:induction false} Matching<T>(xs: seq<T>, ys: seq<T>) returns (order: seq<nat>)
    requires multiset(xs) == multiset(ys)
    ensures |xs| == |ys| && Reorders(order, |ys|) && forall j | 0 <= j < |xs| :: xs[j] == ys[order[j]]
    decreases |xs|
  {
    SameLength(xs, ys);
    if xs == [] {
      order := [];
    } else {
      assert xs[0] in multiset(xs);
      assert xs[0] in multiset(ys);
      var i :| 0 <= i < |ys| && ys[i] == xs[0];
      TailMembersOf(xs);
      WithoutMembers(ys, i);
      var rest := Matching(xs[1..], Without(ys, i));
      hide Without, Reorders, Ahead;
      AheadMatches(xs, ys, i, rest);
      order := Ahead(rest, i);
    }
  }

  lemma SameLength<T>(xs: seq<T>, ys: seq<T>)
    requires multiset(xs) == multiset(ys)
    ensures |xs| == |ys|
  {
    assert |multiset(xs)| == |xs| && |multiset(ys)| == |ys|;
  }

  lemma TailMembersOf<T>(xs: seq<T>)
    requires xs != []
    ensures multiset(xs[1..]) == multiset(xs) - multiset{xs[0]}
  {
    assert xs == [xs[0]] + xs[1..];
  }

  /** All rollouts but `k`, in some order, each once. */
  ghost predicate Others(order: seq<nat>, n: nat, k: nat) {
    |order| == n - 1 && (forall i | 0 <= i < |order| :: order[i] < n && order[i] != k) && forall i, j | 0 <= i < j < |order| :: order[i] != order[j]
  }

  /** What a context document says of a group: its size, and of every rollout but `k`, once each, what it shows. */
  ghost predicate Says(doc: Json, g: seq<Rollout>, k: nat, omitted: nat, order: seq<nat>) {
    var items := ItemsOf(Get(doc, "peers"));
    && Get(doc, "schema") == Str("prime_rl.loo_group_context.v1") && ReadInt(Get(doc, "group_size")) == |g|
    && Others(order, |g|, k) && |items| == |order|
    && forall j | 0 <= j < |order| :: ShowsPeer(ReadPeer(items[j]), g[order[j]], omitted)
  }

  lemma {:induction false} DocumentFields(size: nat, peers: seq<Json>)
    ensures var doc := Document(size, peers);
            && Get(doc, "schema") == Str("prime_rl.loo_group_context.v1") && ReadInt(Get(doc, "group_size")) == size
            && Get(doc, "peers") == Arr(Sort(peers))
  {
    IntBack(size);
    hide IntText, ReadInt, Sort;
    var fs := Document(size, peers).fields;
    FieldAt(fs, 0);
    FieldAt(fs, 1);
    FieldAt(fs, 2);
  }

  /** Places among the others, as places in the group. */
  function Past(places: seq<nat>, k: nat): (order: seq<nat>)
    ensures |order| == |places| && forall j | 0 <= j < |order| :: order[j] == if places[j] < k then places[j] else places[j] + 1
  {
    seq(|places|, j requires 0 <= j < |places| => if places[j] < k then places[j] else places[j] + 1)
  }

  lemma PastOthers(places: seq<nat>, n: nat, k: nat)
    requires k < n && Reorders(places, n - 1)
    ensures Others(Past(places, k), n, k)
  {
    var order := Past(places, k);
    forall a, b | 0 <= a < b < n - 1 ensures order[a] != order[b] { assert places[a] != places[b]; }
  }

  /** Records sorted, each still the record of its rollout. */
  lemma SortedShow(g: seq<Rollout>, n: nat, k: nat, places: seq<nat>)
    requires k < |g| && forall j | 0 <= j < |g| :: PeerRecord(g[j], n).Ok?
    requires var peers := Peers(g, n, k);
             |Sort(peers)| == |peers| == |g| - 1 && Reorders(places, |peers|) && forall j | 0 <= j < |peers| :: Sort(peers)[j] == peers[places[j]]
    ensures var (peers, order) := (Peers(g, n, k), Past(places, k));
            Others(order, |g|, k) && forall j | 0 <= j < |order| :: ShowsPeer(ReadPeer(Sort(peers)[j]), g[order[j]], n)
  {
    PastOthers(places, |g|, k);
    PeersSplit(g, n, k);
    var (peers, order) := (Peers(g, n, k), Past(places, k));
    hide PeerRecord, Peers, ShowsPeer, ReadPeer, Sort, Others;
    forall j | 0 <= j < |order| ensures order[j] < |g| && ShowsPeer(ReadPeer(Sort(peers)[j]), g[order[j]], n) {
      assert Sort(peers)[j] == peers[places[j]] == Records(g, n)[order[j]];
      PeerBack(g[order[j]], n);
    }
  }

  /** The document about rollout `k` shows every other rollout. */
  lemma {:induction false} DocumentSays(g: seq<Rollout>, k: nat) returns (order: seq<nat>)
    requires Accepted(g) && k < |g|
    ensures Shared(g, 0).Ok? && Says(DocumentOf(g, k), g, k, Shared(g, 0).value, order)
  {
    AcceptedPeers(g, k);
    var n, peers := Shared(g, 0).value, PeersOf(g, k);
    SortMembers(peers);
    var places := Matching(Sort(peers), peers);
    DocumentFields(|g|, peers);
    hide Accepted, Shared, PeerRecord, Peers, PeersOf, ShowsPeer, ReadPeer, ReadInt, Get, Sort, Document, Others;
    SortedShow(g, n, k, places);
    order := Past(places, k);
    assert ItemsOf(Arr(Sort(peers))) == Sort(peers);
  }

  lemma PeersSplit(g: seq<Rollout>, n: nat, k: nat)
    requires k < |g| && forall j | 0 <= j < |g| :: PeerRecord(g[j], n).Ok?
    ensures var (all, peers) := (Records(g, n), Peers(g, n, k));
            |peers| == |g| - 1 && forall j | 0 <= j < |peers| :: peers[j] == all[if j < k then j else j + 1]
  {
    hide PeerRecord;
  }

  /** From the prompt alone: the one text its markers can enclose denotes one document, and that document gives back
      the group's size and, for every rollout but its own, once each, reward, tree, messages, tool calls and finish
      reasons, the shared prompt left out. */
  lemma PromptShows(g: seq<Rollout>, k: nat, special: seq<string>) returns (p: string, doc: Json, order: seq<nat>)
    requires Accepted(g) && k < |g| && AllPrint(g)
    ensures Tells(PromptOf(g, k, special), p, doc, g, k, order)
  {
    hide *;
    PromptEncloses(g, k, special);
    doc := DocumentOf(g, k);
    p := Enclosed(PromptOf(g, k, special), g, doc);
    order := DocumentSays(g, k);
    TellsIt(PromptOf(g, k, special), p, doc, g, k, order);
  }

  ghost predicate AllPrint(g: seq<Rollout>) { forall j | 0 <= j < |g| :: PrintsReward(g[j]) }

  /** The prompt encloses one text, which denotes one document, which says what the others of the group show. */
  ghost predicate Tells(prompt: Option<string>, p: string, doc: Json, g: seq<Rollout>, k: nat, order: seq<nat>) {
    && prompt.Some? && g != [] && Shared(g, 0).Ok? && Says(doc, g, k, Shared(g, 0).value, order)
    && Encloses(prompt.value, IntText(|g| - 1), p) && Valid(doc) && Denotes(p, doc)
  }

  lemma {:induction false} TellsIt(prompt: Option<string>, p: string, doc: Json, g: seq<Rollout>, k: nat, order: seq<nat>)
    requires prompt.Some? && g != [] && Shared(g, 0).Ok? && Says(doc, g, k, Shared(g, 0).value, order)
    requires Encloses(prompt.value, IntText(|g| - 1), p) && Valid(doc) && Denotes(p, doc)
    ensures Tells(prompt, p, doc, g, k, order)
  {
    hide Encloses, IntText, Valid, Denotes, Shared, Says;
  }

  ghost predicate Encloser(prompt: Option<string>, g: seq<Rollout>, doc: Json)
    requires g != []
  {
    prompt.Some? && exists p: string :: Encloses(prompt.value, IntText(|g| - 1), p) && Denotes(p, doc)
  }

  lemma PromptEncloses(g: seq<Rollout>, k: nat, special: seq<string>)
    requires Accepted(g) && k < |g| && AllPrint(g)
    ensures Encloser(PromptOf(g, k, special), g, DocumentOf(g, k)) && Valid(DocumentOf(g, k))
  {
    hide Accepted, PromptOf, Encloses, Denotes, Valid, PrintsReward, DocumentOf;
    PromptSafe(g, k, special);
    DocumentOfValid(g, k);
  }

  lemma Enclosed(prompt: Option<string>, g: seq<Rollout>, doc: Json) returns (p: string)
    requires g != [] && Encloser(prompt, g, doc)
    ensures prompt.Some? && Encloses(prompt.value, IntText(|g| - 1), p) && Denotes(p, doc)
  {
    hide Encloses, Denotes, IntText;
    p :| Encloses(prompt.value, IntText(|g| - 1), p) && Denotes(p, doc);
  }

  /** Two rollouts show the same as peers. */
  ghost predicate Alike(r: Rollout, omitted: nat, s: Rollout, omitted': nat) {
    exists v: PeerView :: ShowsPeer(v, r, omitted) && ShowsPeer(v, s, omitted')
  }

  lemma SameText(prompt: string, a: string, p: string, b: string, q: string)
    requires Encloses(prompt, a, p) && Encloses(prompt, b, q)
    ensures p == q
  {
    hide NoAngle, Intro, Outro;
    assert prompt == Framed(Intro(b), q, Outro());
  }

  /** The places of the peers in two groups, paired so that each pair shows the same. */
  ghost predicate Paired(g: seq<Rollout>, k: nat, h: seq<Rollout>, j: nat, a: seq<nat>, b: seq<nat>) {
    && |g| == |h| && Others(a, |g|, k) && Others(b, |h|, j) && Shared(g, 0).Ok? && Shared(h, 0).Ok?
    && forall i | 0 <= i < |a| :: Alike(g[a[i]], Shared(g, 0).value, h[b[i]], Shared(h, 0).value)
  }

  lemma {:induction false} PairedBy(doc: Json, g: seq<Rollout>, k: nat, n: nat, h: seq<Rollout>, j: nat, m: nat, a: seq<nat>, b: seq<nat>)
    requires Says(doc, g, k, n, a) && Says(doc, h, j, m, b) && Shared(g, 0) == Ok(n) && Shared(h, 0) == Ok(m)
    ensures Paired(g, k, h, j, a, b)
  {
    hide ShowsPeer, ReadPeer, ReadInt, Get, ItemsOf, Shared;
    var items := ItemsOf(Get(doc, "peers"));
    forall i | 0 <= i < |a| ensures Alike(g[a[i]], n, h[b[i]], m) {
      assert ShowsPeer(ReadPeer(items[i]), g[a[i]], n) && ShowsPeer(ReadPeer(items[i]), h[b[i]], m);
    }
  }

  /** The same prompt encloses the same text, so the documents are one. */
  lemma TellsOne(prompt: Option<string>, p: string, doc: Json, g: seq<Rollout>, k: nat, a: seq<nat>,
                 q: string, doc': Json, h: seq<Rollout>, j: nat, b: seq<nat>)
    requires Tells(prompt, p, doc, g, k, a) && Tells(prompt, q, doc', h, j, b)
    ensures Paired(g, k, h, j, a, b)
  {
    hide Encloses, IntText, Valid, Denotes, Shared, Says, Paired;
    SameText(prompt.value, IntText(|g| - 1), p, IntText(|h| - 1), q);
    DenotesOne(p, doc, doc');
    PairedBy(doc, g, k, Shared(g, 0).value, h, j, Shared(h, 0).value, a, b);
  }

  /** Nothing is lost: groups that give two rollouts the same prompt have the same size, and their peers can be paired
      so that each pair shows the same. */
  lemma SamePromptSamePeers(g: seq<Rollout>, k: nat, h: seq<Rollout>, j: nat, special: seq<string>) returns (a: seq<nat>, b: seq<nat>)
    requires Accepted(g) && k < |g| && AllPrint(g) && Accepted(h) && j < |h| && AllPrint(h)
    requires PromptOf(g, k, special) == PromptOf(h, j, special)
    ensures Paired(g, k, h, j, a, b)
  {
    hide *;
    var p, doc, q, doc';
    p, doc, a := PromptShows(g, k, special);
    q, doc', b := PromptShows(h, j, special);
    TellsOne(PromptOf(g, k, special), p, doc, g, k, a, q, doc', h, j, b);
  }
}
