/** Nothing more and nothing else: a prompt is fixed by what its peers show, its JSON is canonical, and only control
    tokens are spelled out in it. */
module ValueContextExact {
  import opened Common
  import opened JsonText
  import opened JsonValue
  import opened JsonEscape
  import opened JsonSafe
  import opened PromptText
  import opened ValueContext
  import opened ValueContextSafety
  import opened LeaveOneOut
  import opened ValueContextContent

  // ---------------------------------------------------------------- a record is fixed by what it shows

  lemma SameOmission(v: NodeView, a: Node, b: Node)
    requires v == NodeView.Omitted(a.parent) && v == NodeView.Omitted(b.parent)
    ensures Omission(a) == Omission(b)
  {
  }

  lemma {:induction false} HeadUnfold(r: Rollout, n: nat, i: nat)
    requires i < |r.nodes| && NodeRecords(r, n, i).Ok?
    ensures NodeRecords(r, n, i + 1).Ok? && (i >= n ==> RecordAt(r, i).Ok?)
    ensures NodeRecords(r, n, i).value == [if i < n then Omission(r.nodes[i]) else RecordAt(r, i).value] + NodeRecords(r, n, i + 1).value
  {
    hide RecordAt, Omission;
  }

  lemma ShownFrom(v: NodeView, r: Rollout, i: nat, n: nat)
    requires i < |r.nodes| && ShowsNode(v, r, i, n)
    ensures v.Omitted? <==> i < n
    ensures i >= n ==> ShowsNode(v, r, i, 0)
  {
    hide ShowsMessage, Finishes;
  }

  lemma {:induction false} SameNodes(v: PeerView, r: Rollout, n: nat, s: Rollout, m: nat, i: nat)
    requires ShowsPeer(v, r, n) && ShowsPeer(v, s, m) && i <= |r.nodes|
    requires NodeRecords(r, n, i).Ok? && NodeRecords(s, m, i).Ok?
    ensures NodeRecords(r, n, i) == NodeRecords(s, m, i)
    decreases |r.nodes| - i
  {
    if i < |r.nodes| {
      hide RecordAt, Omission, ShowsNode;
      HeadUnfold(r, n, i);
      HeadUnfold(s, m, i);
      SameNodes(v, r, n, s, m, i + 1);
      ShownFrom(v.nodes[i], r, i, n);
      ShownFrom(v.nodes[i], s, i, m);
      if i < n { BothOmitted(v.nodes[i], r, n, s, m, i); } else { SameView(v.nodes[i], r, s, i); }
    }
  }

  lemma BothOmitted(v: NodeView, r: Rollout, n: nat, s: Rollout, m: nat, i: nat)
    requires i < |r.nodes| && i < |s.nodes| && i < n && i < m && ShowsNode(v, r, i, n) && ShowsNode(v, s, i, m)
    ensures Omission(r.nodes[i]) == Omission(s.nodes[i])
  {
    SameOmission(v, r.nodes[i], s.nodes[i]);
  }

  lemma {:induction false} SamePeerRecord(v: PeerView, r: Rollout, n: nat, s: Rollout, m: nat)
    requires ShowsPeer(v, r, n) && ShowsPeer(v, s, m) && PeerRecord(r, n).Ok? && PeerRecord(s, m).Ok?
    ensures PeerRecord(r, n) == PeerRecord(s, m)
  {
    SameNodes(v, r, n, s, m, 0);
    hide NodeRecords, ShowsNode;
  }

  // ---------------------------------------------------------------- reordering

  /** The places below `n`. */
  function FirstPlaces(n: nat): (r: set<nat>)
    ensures |r| == n && forall x: nat :: x in r <==> x < n
  {
    if n == 0 then {} else FirstPlaces(n - 1) + {n - 1}
  }

  lemma Whole(a: set<nat>, b: set<nat>)
    requires a <= b && |a| == |b|
    ensures a == b
  {
    assert b == a + (b - a);
  }

  /** A reordering hits every place. */
  lemma PlaceOf(order: seq<nat>, n: nat, k: nat) returns (i: nat)
    requires Reorders(order, n) && k < n
    ensures i < n && order[i] == k
  {
    PlacesCount(order);
    assert forall x | x in order :: x < n;
    Whole(PlaceSet(order), FirstPlaces(n));
    assert k in PlaceSet(order);
    i :| 0 <= i < n && order[i] == k;
  }

  function Picked<T>(ys: seq<T>, order: seq<nat>): (xs: seq<T>)
    requires forall i | 0 <= i < |order| :: order[i] < |ys|
    ensures |xs| == |order| && forall i | 0 <= i < |xs| :: xs[i] == ys[order[i]]
  {
    seq(|order|, i requires 0 <= i < |order| => ys[order[i]])
  }

  lemma {:induction false} Reordered<T>(ys: seq<T>, order: seq<nat>)
    requires Reorders(order, |ys|)
    ensures multiset(Picked(ys, order)) == multiset(ys)
    decreases |ys|
  {
    if ys == [] {
      assert Picked(ys, order) == [];
    } else {
      var n := |ys| - 1;
      var i := PlaceOf(order, |ys|, n);
      var rest := LeaveOneOut.Without(order, i);
      RestReorders(order, n, i);
      hide Reorders, LeaveOneOut.Without;
      Reordered(ys[..n], rest);
      RestPicked(ys, order, i);
      assert ys == ys[..n] + [ys[n]];
    }
  }

  lemma RestReorders(order: seq<nat>, n: nat, i: nat)
    requires Reorders(order, n + 1) && i <= n && order[i] == n
    ensures Reorders(LeaveOneOut.Without(order, i), n)
  {
    var rest := LeaveOneOut.Without(order, i);
    forall j | 0 <= j < n ensures rest[j] < n { assert rest[j] == order[if j < i then j else j + 1] != order[i]; }
  }

  lemma RestPicked<T>(ys: seq<T>, order: seq<nat>, i: nat)
    requires ys != [] && Reorders(order, |ys|) && i < |order| && order[i] == |ys| - 1
    requires Reorders(LeaveOneOut.Without(order, i), |ys| - 1)
    ensures multiset(Picked(ys, order)) == multiset(Picked(ys[..|ys| - 1], LeaveOneOut.Without(order, i))) + multiset{ys[|ys| - 1]}
  {
    var n := |ys| - 1;
    WithoutMembers(Picked(ys, order), i);
    var rest := LeaveOneOut.Without(order, i);
    assert LeaveOneOut.Without(Picked(ys, order), i) == Picked(ys[..n], rest);
    hide LeaveOneOut.Without;
    assert Picked(ys, order)[i] == ys[n];
  }

  /** Places among the others of `k`, counted without it. */
  function Among(order: seq<nat>, k: nat): (r: seq<nat>)
    requires forall i | 0 <= i < |order| :: order[i] != k
    ensures |r| == |order| && forall i | 0 <= i < |r| :: r[i] == if order[i] < k then order[i] else order[i] - 1
  {
    seq(|order|, i requires 0 <= i < |order| => if order[i] < k then order[i] else order[i] - 1)
  }

  lemma AmongReorders(order: seq<nat>, n: nat, k: nat)
    requires k < n && Others(order, n, k)
    ensures Reorders(Among(order, k), n - 1)
  {
    var r := Among(order, k);
    forall i, j | 0 <= i < j < n - 1 ensures r[i] != r[j] { assert order[i] != order[j]; }
  }

  // ---------------------------------------------------------------- a prompt is fixed by what its peers show

  lemma OthersPicked<T>(all: seq<T>, peers: seq<T>, order: seq<nat>, k: nat)
    requires k < |all| && |peers| == |all| - 1 && forall j | 0 <= j < |peers| :: peers[j] == all[if j < k then j else j + 1]
    requires Others(order, |all|, k)
    ensures multiset(Picked(all, order)) == multiset(peers)
  {
    AmongReorders(order, |all|, k);
    Reordered(peers, Among(order, k));
    assert Picked(all, order) == Picked(peers, Among(order, k));
  }

  lemma PeersPicked(g: seq<Rollout>, n: nat, k: nat, order: seq<nat>)
    requires k < |g| && Others(order, |g|, k) && forall j | 0 <= j < |g| :: PeerRecord(g[j], n).Ok?
    ensures multiset(Picked(Records(g, n), order)) == multiset(Peers(g, n, k))
  {
    hide *;
    PeersSplit(g, n, k);
    OthersPicked(Records(g, n), Peers(g, n, k), order, k);
  }

  lemma AlikeRecord(r: Rollout, n: nat, s: Rollout, m: nat)
    requires Alike(r, n, s, m) && PeerRecord(r, n).Ok? && PeerRecord(s, m).Ok?
    ensures PeerRecord(r, n) == PeerRecord(s, m)
  {
    hide PeerRecord, ShowsPeer;
    var v: PeerView :| ShowsPeer(v, r, n) && ShowsPeer(v, s, m);
    SamePeerRecord(v, r, n, s, m);
  }

  lemma {:induction false} SameRecordsPicked(g: seq<Rollout>, n: nat, h: seq<Rollout>, m: nat, a: seq<nat>, b: seq<nat>)
    requires (forall j | 0 <= j < |g| :: PeerRecord(g[j], n).Ok?) && (forall j | 0 <= j < |h| :: PeerRecord(h[j], m).Ok?)
    requires |a| == |b| && (forall i | 0 <= i < |a| :: a[i] < |g| && b[i] < |h| && Alike(g[a[i]], n, h[b[i]], m))
    ensures Picked(Records(g, n), a) == Picked(Records(h, m), b)
  {
    hide PeerRecord, Alike;
    forall i | 0 <= i < |a| ensures PeerRecord(g[a[i]], n) == PeerRecord(h[b[i]], m) {
      AlikeRecord(g[a[i]], n, h[b[i]], m);
    }
  }

  /** Nothing else gets in: two rollouts whose peers can be paired so that each pair shows the same have the same
      prompt, whatever ids, tool call ids or other fields the peers have. */
  lemma {:induction false} SamePeersSamePrompt(g: seq<Rollout>, k: nat, h: seq<Rollout>, j: nat, special: seq<string>, a: seq<nat>, b: seq<nat>)
    requires Accepted(g) && k < |g| && AllPrint(g) && Accepted(h) && j < |h| && AllPrint(h) && Paired(g, k, h, j, a, b)
    ensures PromptOf(g, k, special) == PromptOf(h, j, special)
  {
    hide *;
    PairedParts(g, k, h, j, a, b);
    AcceptedPeers(g, k);
    AcceptedPeers(h, j);
    var n, m := Shared(g, 0).value, Shared(h, 0).value;
    PeersPicked(g, n, k, a);
    PeersPicked(h, m, j, b);
    SameRecordsPicked(g, n, h, m, a, b);
    AllPrints(g);
    DocumentsPermute(g, h, k, j);
    SamePrompt(g, h, k, j, special);
  }

  lemma AllPrints(g: seq<Rollout>)
    requires AllPrint(g)
    ensures forall i | 0 <= i < |g| :: PrintsReward(g[i])
  {
  }

  lemma {:induction false} PairedParts(g: seq<Rollout>, k: nat, h: seq<Rollout>, j: nat, a: seq<nat>, b: seq<nat>)
    requires g != [] && h != [] && Paired(g, k, h, j, a, b)
    ensures |g| == |h| && |a| == |b| && Others(a, |g|, k) && Others(b, |h|, j) && Shared(g, 0).Ok? && Shared(h, 0).Ok?
    ensures forall i | 0 <= i < |a| :: a[i] < |g| && b[i] < |h| && Alike(g[a[i]], Shared(g, 0).value, h[b[i]], Shared(h, 0).value)
  {
    hide Alike, Shared;
  }

  // ---------------------------------------------------------------- order

  /** `a` comes before `b`: they part at some place, where `a` has the smaller character, or `a` ends first. */
  ghost predicate Before(a: string, b: string) {
    exists k: nat :: PartAt(a, b, k)
  }

  /** Where two strings part. */
  ghost predicate PartAt(a: string, b: string, k: nat) {
    k <= |a| && k < |b| && a[..k] == b[..k] && (k == |a| || a[k] < b[k])
  }

  lemma PartNext(c: char, a: string, b: string, k: nat)
    ensures PartAt(a, b, k) <==> PartAt([c] + a, [c] + b, k + 1)
  {
    var x, y := [c] + a, [c] + b;
    if k <= |a| && k <= |b| {
      assert x[..k + 1] == [c] + a[..k] && y[..k + 1] == [c] + b[..k];
      assert x[..k + 1][1..] == a[..k] && y[..k + 1][1..] == b[..k];
    }
  }

  lemma PartFirst(a: string, b: string, k: nat)
    requires a != [] && b != [] && a[0] != b[0] && PartAt(a, b, k)
    ensures k == 0
  {
    if k > 0 { SameHead(a, b, k); }
  }

  lemma SameHead(a: string, b: string, k: nat)
    requires 0 < k <= |a| && k <= |b| && a[..k] == b[..k]
    ensures a[0] == b[0]
  {
    assert a[..k][0] == b[..k][0];
  }

  /** The order of the sort is the order of strings by character. */
  lemma {:induction false} LeqIff(a: string, b: string)
    ensures Leq(a, b) <==> a == b || Before(a, b)
  {
    if a == [] {
      if b != [] { assert PartAt(a, b, 0); }
    } else if b == [] {
    } else if a[0] != b[0] {
      if a[0] < b[0] { assert PartAt(a, b, 0); }
      forall k: nat | PartAt(a, b, k) ensures a[0] < b[0] { PartFirst(a, b, k); }
    } else {
      LeqIff(a[1..], b[1..]);
      LeqTail(a, b);
      assert a == [a[0]] + a[1..] && b == [a[0]] + b[1..];
      hide Leq, PartAt;
      forall k: nat ensures PartAt(a[1..], b[1..], k) <==> PartAt(a, b, k + 1) { PartNext(a[0], a[1..], b[1..], k); }
      if Before(a, b) {
        var k: nat :| PartAt(a, b, k);
        NotFirst(a, b, k);
        assert PartAt(a[1..], b[1..], k - 1);
      }
      if Before(a[1..], b[1..]) {
        var k: nat :| PartAt(a[1..], b[1..], k);
        assert PartAt(a, b, k + 1);
      }
    }
  }

  lemma NotFirst(a: string, b: string, k: nat)
    requires a != [] && b != [] && a[0] == b[0] && PartAt(a, b, k)
    ensures k > 0
  {
  }

  lemma {:induction false} LeqTail(a: string, b: string)
    requires a != [] && b != [] && a[0] == b[0]
    ensures Leq(a, b) == Leq(a[1..], b[1..])
  {
  }

  // ---------------------------------------------------------------- canonical JSON

  /** Every object lists its keys in ascending order, each once. */
  ghost predicate Ordered(v: Json) {
    match v
    case Arr(xs) => OrderedItems(xs)
    case Obj(fs) => Ascending(fs) && OrderedFields(fs)
    case _ => true
  }

  ghost predicate OrderedItems(xs: seq<Json>) { xs == [] || (Ordered(xs[0]) && OrderedItems(xs[1..])) }

  ghost predicate OrderedFields(fs: seq<Field>) { fs == [] || (Ordered(fs[0].value) && OrderedFields(fs[1..])) }

  ghost predicate Ascending(fs: seq<Field>) { forall i, j | 0 <= i < j < |fs| :: Before(fs[i].key, fs[j].key) }

  lemma {:induction false} ItemsOrdered(xs: seq<Json>)
    requires forall i | 0 <= i < |xs| :: Ordered(xs[i])
    ensures OrderedItems(xs)
  {
    if xs != [] { ItemsOrdered(xs[1..]); }
  }

  lemma {:induction false} FieldsOrdered(fs: seq<Field>)
    requires forall i | 0 <= i < |fs| :: Ordered(fs[i].value)
    ensures OrderedFields(fs)
  {
    if fs != [] { FieldsOrdered(fs[1..]); }
  }

  lemma ObjOrdered(fs: seq<Field>)
    requires Ascending(fs) && forall i | 0 <= i < |fs| :: Ordered(fs[i].value)
    ensures Ordered(Obj(fs))
  {
    FieldsOrdered(fs);
  }

  lemma ArrOrdered(xs: seq<Json>)
    requires forall i | 0 <= i < |xs| :: Ordered(xs[i])
    ensures Ordered(Arr(xs))
  {
    ItemsOrdered(xs);
  }

  lemma PartsAt(a: string, b: string, k: nat)
    requires k < |a| && k < |b| && a[..k] == b[..k] && a[k] < b[k]
    ensures Before(a, b)
  {
    assert PartAt(a, b, k);
  }

  /** The keys of messages and their parts, in order. */
  lemma MessageKeys()
    ensures Before("text", "type") && Before("arguments", "name") && Before("index", "node")
    ensures Before("content", "role") && Before("content", "name") && Before("content", "tool_call") && Before("name", "role") && Before("name", "tool_call") && Before("role", "tool_call")
  {
    hide Before;
    PartsAt("text", "type", 1);
    PartsAt("arguments", "name", 0);
    PartsAt("index", "node", 0);
    PartsAt("content", "role", 0);
    PartsAt("content", "name", 0);
    PartsAt("content", "tool_call", 0);
    PartsAt("name", "role", 0);
    PartsAt("name", "tool_call", 0);
    PartsAt("role", "tool_call", 0);
  }

  lemma AssistantKeys()
    ensures Before("content", "reasoning_content") && Before("content", "role") && Before("content", "tool_calls")
    ensures Before("reasoning_content", "role") && Before("reasoning_content", "tool_calls") && Before("role", "tool_calls")
  {
    hide Before;
    PartsAt("content", "reasoning_content", 0);
    PartsAt("content", "role", 0);
    PartsAt("content", "tool_calls", 0);
    PartsAt("reasoning_content", "role", 1);
    PartsAt("reasoning_content", "tool_calls", 0);
    PartsAt("role", "tool_calls", 0);
  }

  /** The keys of nodes and placeholders. */
  lemma NodeKeys()
    ensures Before("finish_reason", "message") && Before("finish_reason", "parent") && Before("finish_reason", "sampled")
    ensures Before("message", "parent") && Before("message", "sampled") && Before("parent", "sampled")
    ensures Before("parent", "shared_prompt") && Before("sampled", "shared_prompt")
  {
    hide Before;
    PartsAt("finish_reason", "message", 0);
    PartsAt("finish_reason", "parent", 0);
    PartsAt("finish_reason", "sampled", 0);
    PartsAt("message", "parent", 0);
    PartsAt("message", "sampled", 0);
    PartsAt("parent", "sampled", 0);
    PartsAt("parent", "shared_prompt", 0);
    PartsAt("sampled", "shared_prompt", 1);
  }

  /** The keys of peers and the document. */
  lemma DocumentKeys()
    ensures Before("nodes", "reward") && Before("group_size", "peers") && Before("group_size", "schema") && Before("peers", "schema")
  {
    hide Before;
    PartsAt("nodes", "reward", 0);
    PartsAt("group_size", "peers", 0);
    PartsAt("group_size", "schema", 0);
    PartsAt("peers", "schema", 0);
  }

  lemma PartOrdered(p: Part)
    ensures Ordered(PartRecord(p))
  {
    MessageKeys();
    hide Before;
    match p
    case TextPart(t) => ObjOrdered([Field("text", Str(t)), Field("type", Str("text"))]);
    case ImagePart => ObjOrdered([Field("type", Str("image_omitted"))]);
  }

  lemma {:induction false} PartsOrdered(ps: seq<Part>)
    ensures forall i | 0 <= i < |PartRecords(ps)| :: Ordered(PartRecords(ps)[i])
  {
    if ps != [] {
      PartsOrdered(ps[1..]);
      PartOrdered(ps[0]);
      hide PartRecord, Ordered;
    }
  }

  lemma ContentOrdered(c: Content)
    ensures Ordered(ContentRecord(c))
  {
    if c.Parts? {
      PartsOrdered(c.parts);
      hide PartRecords;
      ArrOrdered(PartRecords(c.parts));
    }
  }

  lemma {:induction false} CallsOrdered(cs: seq<ToolCall>)
    ensures forall i | 0 <= i < |CallRecords(cs)| :: Ordered(CallRecords(cs)[i])
  {
    if cs != [] {
      CallsOrdered(cs[1..]);
      MessageKeys();
      hide Before;
      ObjOrdered([Field("arguments", Str(cs[0].arguments)), Field("name", Str(cs[0].name))]);
      hide Ordered, Ascending;
    }
  }

  lemma ReferenceOrdered(m: (nat, nat))
    ensures Ordered(Reference(m))
  {
    MessageKeys();
    hide Before, IntText;
    ObjOrdered([Field("index", Number(IntText(m.1))), Field("node", Number(IntText(m.0)))]);
  }

  lemma AssistantOrdered(content: Json, reasoning: Option<string>, calls: Option<seq<ToolCall>>)
    requires Ordered(content) && (calls.Some? ==> Ordered(Arr(CallRecords(calls.value))))
    ensures Ordered(Obj([Field("content", content)]
                        + (if reasoning.Some? then [Field("reasoning_content", Str(reasoning.value))] else [])
                        + [Field("role", Str("assistant"))]
                        + (if calls.Some? then [Field("tool_calls", Arr(CallRecords(calls.value)))] else [])))
  {
    AssistantKeys();
    hide Before, CallRecords, OrderedItems, OrderedFields;
    ObjOrdered([Field("content", content)]
               + (if reasoning.Some? then [Field("reasoning_content", Str(reasoning.value))] else [])
               + [Field("role", Str("assistant"))]
               + (if calls.Some? then [Field("tool_calls", Arr(CallRecords(calls.value)))] else []));
  }

  lemma ToolOrdered(content: Json, name: Option<string>, reference: Json)
    requires Ordered(content) && Ordered(reference)
    ensures Ordered(Obj([Field("content", content)] + (if name.Some? then [Field("name", Str(name.value))] else [])
                        + [Field("role", Str("tool"))] + [Field("tool_call", reference)]))
  {
    MessageKeys();
    hide Before, OrderedItems, OrderedFields;
    ObjOrdered([Field("content", content)] + (if name.Some? then [Field("name", Str(name.value))] else [])
               + [Field("role", Str("tool"))] + [Field("tool_call", reference)]);
  }

  lemma {:induction false} SpokenOrdered(content: Json, role: string)
    requires Ordered(content)
    ensures Ordered(Obj([Field("content", content), Field("role", Str(role))]))
  {
    AssistantKeys();
    hide Before, OrderedItems, OrderedFields;
    ObjOrdered([Field("content", content), Field("role", Str(role))]);
  }

  lemma {:induction false} MessageOrdered(nodes: seq<Node>, i: nat)
    requires i < |nodes| && MessageRecord(nodes, i).Ok?
    ensures Ordered(MessageRecord(nodes, i).value)
  {
    var m := nodes[i].message;
    ContentOrdered(m.content);
    hide ContentRecord, CallRecords, Reference, AncestorMatches, Ordered;
    if m.role == "assistant" {
      if m.toolCalls.Some? {
        CallsOrdered(m.toolCalls.value);
        ArrOrdered(CallRecords(m.toolCalls.value));
      }
      AssistantOrdered(ContentRecord(m.content), m.reasoning, m.toolCalls);
    } else if m.role == "tool" {
      var m0 := AncestorMatches(nodes, i, m.toolCallId)[0];
      ReferenceOrdered(m0);
      ToolOrdered(ContentRecord(m.content), m.name, Reference(m0));
    } else {
      SpokenOrdered(ContentRecord(m.content), m.role);
    }
  }

  lemma {:induction false} NodeOrdered(finish: Option<string>, message: Json, parent: Option<int>, sampled: bool)
    requires Ordered(message)
    ensures Ordered(Obj([Field("finish_reason", OptStr(finish)), Field("message", message), Field("parent", ParentRecord(parent)),
                         Field("sampled", Bool(sampled))]))
  {
    NodeKeys();
    hide Before, IntText, OrderedItems, OrderedFields;
    ObjOrdered([Field("finish_reason", OptStr(finish)), Field("message", message), Field("parent", ParentRecord(parent)),
                Field("sampled", Bool(sampled))]);
  }

  lemma RecordOrdered(r: Rollout, i: nat)
    requires i < |r.nodes| && RecordAt(r, i).Ok?
    ensures Ordered(RecordAt(r, i).value)
  {
    MessageOrdered(r.nodes, i);
    hide MessageRecord, FinishOf, Ordered, ParentRecord, OptStr;
    NodeOrdered(FinishOf(r.calls, i), MessageRecord(r.nodes, i).value, r.nodes[i].parent, r.nodes[i].sampled);
  }

  lemma OmissionOrdered(n: Node)
    ensures Ordered(Omission(n))
  {
    NodeKeys();
    hide Before, IntText, OrderedItems, OrderedFields;
    ObjOrdered(Omission(n).fields);
  }

  lemma {:induction false} NodesOrdered(r: Rollout, omitted: nat, i: nat)
    requires i <= |r.nodes| && NodeRecords(r, omitted, i).Ok?
    ensures forall j | 0 <= j < |NodeRecords(r, omitted, i).value| :: Ordered(NodeRecords(r, omitted, i).value[j])
    decreases |r.nodes| - i
  {
    if i < |r.nodes| {
      hide RecordAt, Omission, Ordered;
      NodesOrdered(r, omitted, i + 1);
      if i < omitted { OmissionOrdered(r.nodes[i]); } else { RecordOrdered(r, i); }
    }
  }

  lemma PeerOrdered(r: Rollout, omitted: nat)
    requires PeerRecord(r, omitted).Ok?
    ensures Ordered(PeerRecord(r, omitted).value)
  {
    PeerFields(r, omitted);
    NodesOrdered(r, omitted, 0);
    hide *;
    var ns := NodeRecords(r, omitted, 0).value;
    ArrOrdered(ns);
    TwoFields(Arr(ns), RewardText(r.reward));
  }

  lemma {:induction false} PeerFields(r: Rollout, omitted: nat)
    requires PeerRecord(r, omitted).Ok?
    ensures NodeRecords(r, omitted, 0).Ok?
    ensures PeerRecord(r, omitted).value == Obj([Field("nodes", Arr(NodeRecords(r, omitted, 0).value)), Field("reward", Number(RewardText(r.reward)))])
  {
    hide NodeRecords, RewardText;
  }

  lemma {:induction false} TwoFields(nodes: Json, reward: string)
    requires Ordered(nodes)
    ensures Ordered(Obj([Field("nodes", nodes), Field("reward", Number(reward))]))
  {
    DocumentKeys();
    hide Before, OrderedItems, OrderedFields;
    ObjOrdered([Field("nodes", nodes), Field("reward", Number(reward))]);
  }

  lemma {:induction false} SortOrdered(xs: seq<Json>)
    requires forall i | 0 <= i < |xs| :: Ordered(xs[i])
    ensures forall i | 0 <= i < |Sort(xs)| :: Ordered(Sort(xs)[i])
  {
    SortMembers(xs);
    var ys := Sort(xs);
    hide Sort, Ordered;
    forall i | 0 <= i < |ys| ensures Ordered(ys[i]) {
      assert ys[i] in multiset(ys);
      assert ys[i] in multiset(xs);
      var j :| 0 <= j < |xs| && xs[j] == ys[i];
    }
  }

  lemma DocumentOrdered(size: nat, peers: seq<Json>)
    requires forall i | 0 <= i < |peers| :: Ordered(peers[i])
    ensures Ordered(Document(size, peers))
  {
    SortOrdered(peers);
    ArrOrdered(Sort(peers));
    DocumentKeys();
    hide Before, IntText, Sort, OrderedItems, OrderedFields;
    ObjOrdered(Document(size, peers).fields);
  }

  /** The context document is canonical: every object's keys ascend, and its peers do by their own print. */
  lemma {:induction false} DocumentCanonical(g: seq<Rollout>, k: nat)
    requires Accepted(g) && k < |g|
    ensures Ordered(DocumentOf(g, k))
    ensures var peers := ItemsOf(Get(DocumentOf(g, k), "peers"));
            forall i, j | 0 <= i < j < |peers| :: Print(peers[i]) == Print(peers[j]) || Before(Print(peers[i]), Print(peers[j]))
  {
    AcceptedPeers(g, k);
    var n := Shared(g, 0).value;
    PeersSplit(g, n, k);
    hide PeerRecord, Ordered, Document, Sort, Before, Shared, Leq, Print, Accepted;
    forall i | 0 <= i < |PeersOf(g, k)| ensures Ordered(PeersOf(g, k)[i]) { PeerOrdered(g[if i < k then i else i + 1], n); }
    DocumentOrdered(|g|, PeersOf(g, k));
    DocumentFields(|g|, PeersOf(g, k));
    SortSorted(PeersOf(g, k));
    var ys := Sort(PeersOf(g, k));
    forall i, j | 0 <= i < j < |ys| ensures Print(ys[i]) == Print(ys[j]) || Before(Print(ys[i]), Print(ys[j])) {
      LeqIff(Print(ys[i]), Print(ys[j]));
    }
  }
}
