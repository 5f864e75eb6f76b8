/** Leave-one-out critic context: what a rollout's prompt is made of. */
module ValueContext {
  import opened Common
  import opened JsonText
  import opened JsonValue
  import opened JsonUnique
  import opened JsonEscape
  import opened JsonSafe
  import opened PromptText
  import Provenance

  datatype ToolCall = ToolCall(id: string, name: string, arguments: string)

  datatype Part = TextPart(text: string) | ImagePart

  datatype Content = NoContent | Plain(text: string) | Parts(parts: seq<Part>)

  datatype Message = Message(role: string, content: Content, reasoning: Option<string>, toolCalls: Option<seq<ToolCall>>,
                             name: Option<string>, toolCallId: string)

  datatype Node = Node(parent: Option<int>, sampled: bool, message: Message)

  /** A finite reward carries its printed form. */
  datatype Reward = Finite(text: string) | NonFinite

  datatype Call = Call(node: Option<int>, finish: Option<string>)

  datatype Rollout = Rollout(id: string, reward: Reward, nodes: seq<Node>, calls: seq<Call>)

  datatype Error = TooFew | DuplicateIds | ToolReference | NotFinite | BadParent | NothingSampled

  // ---------------------------------------------------------------- records

  function IntText(n: int): string { if n < 0 then "-" + Provenance.Print(-n) else Provenance.Print(n) }

  function OptStr(s: Option<string>): Json { if s.None? then Null else Str(s.value) }

  /** The finish reason of the last call that names a node. */
  function FinishOf(calls: seq<Call>, i: int): Option<string> {
    if calls == [] then None
    else if calls[|calls| - 1].node == Some(i) then calls[|calls| - 1].finish
    else FinishOf(calls[..|calls| - 1], i)
  }

  function PartRecord(p: Part): Json {
    match p
    case TextPart(t) => Obj([Field("text", Str(t)), Field("type", Str("text"))])
    case ImagePart => Obj([Field("type", Str("image_omitted"))])
  }

  function PartRecords(ps: seq<Part>): seq<Json> { if ps == [] then [] else [PartRecord(ps[0])] + PartRecords(ps[1..]) }

  function ContentRecord(c: Content): Json {
    match c
    case NoContent => Null
    case Plain(t) => Str(t)
    case Parts(ps) => Arr(PartRecords(ps))
  }

  function CallRecord(c: ToolCall): Json { Obj([Field("arguments", Str(c.arguments)), Field("name", Str(c.name))]) }

  function CallRecords(cs: seq<ToolCall>): seq<Json> { if cs == [] then [] else [CallRecord(cs[0])] + CallRecords(cs[1..]) }

  /** Calls of one message with a given id, as (node, index) references. */
  function CallMatches(cs: seq<ToolCall>, node: nat, id: string, k: nat): seq<(nat, nat)>
    requires k <= |cs|
    decreases |cs| - k
  {
    if k == |cs| then []
    else (if cs[k].id == id then [(node, k)] else []) + CallMatches(cs, node, id, k + 1)
  }

  /** References among the ancestors of node `i`, nearest first. */
  function AncestorMatches(nodes: seq<Node>, i: nat, id: string): seq<(nat, nat)>
    requires i < |nodes|
    decreases i
  {
    var p := nodes[i].parent;
    if p.None? || !(0 <= p.value < i) then []
    else
      var calls := nodes[p.value].message.toolCalls;
      (if calls.Some? then CallMatches(calls.value, p.value, id, 0) else []) + AncestorMatches(nodes, p.value, id)
  }

  function Reference(m: (nat, nat)): Json { Obj([Field("index", Number(IntText(m.1))), Field("node", Number(IntText(m.0)))]) }

  /** A message record, keys in sorted order; a tool message must name exactly one ancestral call. */
  function MessageRecord(nodes: seq<Node>, i: nat): Result<Json, Error>
    requires i < |nodes|
  {
    var m := nodes[i].message;
    var content, role := Field("content", ContentRecord(m.content)), Field("role", Str(m.role));
    if m.role == "assistant" then
      Ok(Obj([content]
             + (if m.reasoning.Some? then [Field("reasoning_content", Str(m.reasoning.value))] else [])
             + [role]
             + (if m.toolCalls.Some? then [Field("tool_calls", Arr(CallRecords(m.toolCalls.value)))] else [])))
    else if m.role == "tool" then
      var refs := AncestorMatches(nodes, i, m.toolCallId);
      if |refs| != 1 then Err(ToolReference)
      else
        Ok(Obj([content] + (if m.name.Some? then [Field("name", Str(m.name.value))] else []) + [role]
               + [Field("tool_call", Reference(refs[0]))]))
    else Ok(Obj([content, role]))
  }

  function ParentRecord(p: Option<int>): Json { if p.None? then Null else Number(IntText(p.value)) }

  function NodeRecord(nodes: seq<Node>, i: nat, finish: Option<string>): Result<Json, Error>
    requires i < |nodes|
  {
    match MessageRecord(nodes, i)
    case Err(e) => Err(e)
    case Ok(m) => Ok(Obj([Field("finish_reason", OptStr(finish)), Field("message", m), Field("parent", ParentRecord(nodes[i].parent)),
                          Field("sampled", Bool(nodes[i].sampled))]))
  }

  function RecordAt(r: Rollout, i: nat): Result<Json, Error>
    requires i < |r.nodes|
  {
    NodeRecord(r.nodes, i, FinishOf(r.calls, i))
  }

  // ---------------------------------------------------------------- the shared prompt prefix

  /** Node `i` cannot be part of a shared prompt: missing, sampled, or off the single chain. */
  predicate Stops(r: Rollout, i: nat) {
    i >= |r.nodes| || r.nodes[i].sampled || r.nodes[i].parent != (if i == 0 then None else Some(i - 1))
  }

  predicate SomeStops(g: seq<Rollout>, i: nat) { exists k | 0 <= k < |g| :: Stops(g[k], i) }

  predicate SomeFails(g: seq<Rollout>, i: nat)
    requires !SomeStops(g, i)
  {
    exists k | 0 <= k < |g| :: RecordAt(g[k], i).Err?
  }

  predicate SomeDiffer(g: seq<Rollout>, i: nat)
    requires !SomeStops(g, i)
  {
    exists j, k | 0 <= j < |g| && 0 <= k < |g| :: RecordAt(g[j], i) != RecordAt(g[k], i)
  }

  /** Length of the prompt prefix that every rollout of the group shares, from node `i` on. */
  function Shared(g: seq<Rollout>, i: nat): Result<nat, Error>
    requires g != []
    decreases |g[0].nodes| - i
  {
    if SomeStops(g, i) then Ok(i)
    else
      assert !Stops(g[0], i);
      if SomeFails(g, i) then Err(ToolReference)
      else if SomeDiffer(g, i) then Ok(i)
      else Shared(g, i + 1)
  }

  // ---------------------------------------------------------------- peers

  /** Negative zero is written as zero. */
  function RewardText(r: Reward): string { if r.NonFinite? then [] else if r.text == "-0.0" then "0.0" else r.text }

  predicate ParentsEarlier(r: Rollout) {
    forall i | 0 <= i < |r.nodes| :: r.nodes[i].parent.Some? ==> 0 <= r.nodes[i].parent.value < i
  }

  function Omission(n: Node): Json {
    Obj([Field("parent", ParentRecord(n.parent)), Field("sampled", Bool(false)), Field("shared_prompt", Bool(true))])
  }

  /** Records of nodes `i` on, the shared prefix replaced by placeholders. */
  function NodeRecords(r: Rollout, omitted: nat, i: nat): Result<seq<Json>, Error>
    requires i <= |r.nodes|
    decreases |r.nodes| - i
  {
    if i == |r.nodes| then Ok([])
    else
      var head := if i < omitted then Ok(Omission(r.nodes[i])) else RecordAt(r, i);
      match (head, NodeRecords(r, omitted, i + 1))
      case (Ok(h), Ok(t)) => Ok([h] + t)
      case (Err(e), _) => Err(e)
      case (_, Err(e)) => Err(e)
  }

  function PeerRecord(r: Rollout, omitted: nat): Result<Json, Error> {
    if r.reward.NonFinite? then Err(NotFinite)
    else if !ParentsEarlier(r) then Err(BadParent)
    else if !(exists i | 0 <= i < |r.nodes| :: r.nodes[i].sampled) then Err(NothingSampled)
    else
      match NodeRecords(r, omitted, 0)
      case Err(e) => Err(e)
      case Ok(ns) => Ok(Obj([Field("nodes", Arr(ns)), Field("reward", Number(RewardText(r.reward)))]))
  }

  function Ids(g: seq<Rollout>): set<string> { set r | r in g :: r.id }

  /** The first check that fails for the whole group, before any prompt is built. */
  function Refused(g: seq<Rollout>): Option<Error> {
    if |g| < 2 then Some(TooFew)
    else if |Ids(g)| != |g| then Some(DuplicateIds)
    else match Shared(g, 0) case Err(e) => Some(e) case Ok(n) => FirstRefusal(g, n, 0)
  }

  function FirstRefusal(g: seq<Rollout>, omitted: nat, k: nat): Option<Error>
    requires k <= |g|
    decreases |g| - k
  {
    if k == |g| then None
    else match PeerRecord(g[k], omitted) case Err(e) => Some(e) case Ok(_) => FirstRefusal(g, omitted, k + 1)
  }

  ghost predicate Accepted(g: seq<Rollout>) {
    && |g| >= 2 && |Ids(g)| == |g| && Shared(g, 0).Ok?
    && forall k | 0 <= k < |g| :: PeerRecord(g[k], Shared(g, 0).value).Ok?
  }

  lemma {:induction false} NoRefusal(g: seq<Rollout>, omitted: nat, k: nat)
    requires k <= |g|
    ensures FirstRefusal(g, omitted, k).None? <==> forall j | k <= j < |g| :: PeerRecord(g[j], omitted).Ok?
    decreases |g| - k
  {
    hide PeerRecord;
    if k < |g| { NoRefusal(g, omitted, k + 1); }
  }

  /** The checks pass exactly for accepted groups. */
  lemma RefusedIff(g: seq<Rollout>)
    ensures Refused(g).None? <==> Accepted(g)
  {
    hide PeerRecord, Shared, FirstRefusal;
    if |g| >= 2 && |Ids(g)| == |g| && Shared(g, 0).Ok? { NoRefusal(g, Shared(g, 0).value, 0); }
  }

  // ---------------------------------------------------------------- sorting by canonical print

  predicate Leq(a: string, b: string) {
    a == [] || (b != [] && (a[0] < b[0] || (a[0] == b[0] && Leq(a[1..], b[1..]))))
  }

  function Insert(x: Json, xs: seq<Json>): seq<Json> {
    if xs == [] then [x]
    else if Leq(Print(x), Print(xs[0])) then [x] + xs
    else [xs[0]] + Insert(x, xs[1..])
  }

  function Sort(xs: seq<Json>): seq<Json> { if xs == [] then [] else Insert(xs[0], Sort(xs[1..])) }

  // ---------------------------------------------------------------- prompts

  /** Records of all rollouts but `k`. */
  function Peers(g: seq<Rollout>, omitted: nat, k: nat): seq<Json>
    requires forall j | 0 <= j < |g| :: PeerRecord(g[j], omitted).Ok?
    requires k <= |g|
  {
    var rs := Records(g, omitted);
    if k == |g| then rs else rs[..k] + rs[k + 1..]
  }

  function Records(g: seq<Rollout>, omitted: nat): (rs: seq<Json>)
    requires forall j | 0 <= j < |g| :: PeerRecord(g[j], omitted).Ok?
    ensures |rs| == |g| && forall j | 0 <= j < |g| :: rs[j] == PeerRecord(g[j], omitted).value
  {
    seq(|g|, j requires 0 <= j < |g| => PeerRecord(g[j], omitted).value)
  }

  /** The context document: the group size and the sorted peers. */
  function Document(size: nat, peers: seq<Json>): Json {
    Obj([Field("group_size", Number(IntText(size))), Field("peers", Arr(Sort(peers))),
         Field("schema", Str("prime_rl.loo_group_context.v1"))])
  }

  /** The peers of rollout `k` in an accepted group, and the document about them. */
  function PeersOf(g: seq<Rollout>, k: nat): (ps: seq<Json>)
    requires Accepted(g) && k < |g|
    ensures |ps| == |g| - 1
  {
    Peers(g, Shared(g, 0).value, k)
  }

  function DocumentOf(g: seq<Rollout>, k: nat): Json
    requires Accepted(g) && k < |g|
  {
    Document(|g|, PeersOf(g, k))
  }

  /** Rollout `k`'s prompt. */
  function PromptOf(g: seq<Rollout>, k: nat, special: seq<string>): Option<string>
    requires Accepted(g) && k < |g|
  {
    match Payload(special, DocumentOf(g, k))
    case None => None
    case Some(p) => Some(PromptFor(IntText(|PeersOf(g, k)|), p))
  }
}
