/** Prompts are framed JSON: the payload of every prompt denotes exactly the context document and
    can be recovered from the prompt. */
module ValueContextSafety {
  import opened Common
  import opened JsonText
  import opened JsonValue
  import opened JsonUnique
  import opened JsonEscape
  import opened JsonSafe
  import opened PromptText
  import opened ValueContext
  import Provenance

  // ---------------------------------------------------------------- validity of records

  lemma {:induction false} ItemsAll(xs: seq<Json>)
    ensures ValidItems(xs) <==> forall i | 0 <= i < |xs| :: Valid(xs[i])
  {
    if xs != [] {
      ItemsAll(xs[1..]);
      assert forall i | 0 <= i < |xs| :: i == 0 || xs[i] == xs[1..][i - 1];
      assert forall i | 0 <= i < |xs[1..]| :: xs[1..][i] == xs[i + 1];
    }
  }

  lemma {:induction false} FieldsAll(fs: seq<Field>)
    requires forall i | 0 <= i < |fs| :: Valid(fs[i].value)
    ensures ValidFields(fs)
  {
    if fs != [] { FieldsAll(fs[1..]); }
  }

  lemma ObjValid(fs: seq<Field>)
    requires forall i | 0 <= i < |fs| :: Valid(fs[i].value)
    ensures Valid(Obj(fs))
  {
    FieldsAll(fs);
  }

  lemma ArrValid(xs: seq<Json>)
    requires forall i | 0 <= i < |xs| :: Valid(xs[i])
    ensures Valid(Arr(xs))
  {
    ItemsAll(xs);
  }

  lemma IntTextValid(n: int)
    ensures NumberText(IntText(n)) && Free(IntText(n))
  {
    Provenance.PrintCanonical(if n < 0 then -n else n);
    hide Provenance.Print;
    var p := Provenance.Print(if n < 0 then -n else n);
    assert forall i | 0 <= i < |p| :: '0' <= p[i] <= '9';
  }

  lemma {:induction false} PartsValid(ps: seq<Part>)
    ensures forall i | 0 <= i < |PartRecords(ps)| :: Valid(PartRecords(ps)[i])
  {
    if ps != [] {
      PartsValid(ps[1..]);
      PartValid(ps[0]);
      hide PartRecord, Valid;
    }
  }

  lemma PartValid(p: Part)
    ensures Valid(PartRecord(p))
  {
    match p
    case TextPart(t) => ObjValid([Field("text", Str(t)), Field("type", Str("text"))]);
    case ImagePart => ObjValid([Field("type", Str("image_omitted"))]);
  }

  lemma ContentValid(c: Content)
    ensures Valid(ContentRecord(c))
  {
    if c.Parts? {
      PartsValid(c.parts);
      hide PartRecords;
      ArrValid(PartRecords(c.parts));
    }
  }

  lemma {:induction false} CallsValid(cs: seq<ToolCall>)
    ensures forall i | 0 <= i < |CallRecords(cs)| :: Valid(CallRecords(cs)[i])
  {
    if cs != [] {
      CallsValid(cs[1..]);
      ObjValid([Field("arguments", Str(cs[0].arguments)), Field("name", Str(cs[0].name))]);
      hide Valid;
    }
  }

  lemma ReferenceValid(m: (nat, nat))
    ensures Valid(Reference(m))
  {
    IntTextValid(m.0);
    IntTextValid(m.1);
    hide IntText;
    ObjValid([Field("index", Number(IntText(m.1))), Field("node", Number(IntText(m.0)))]);
  }

  lemma MessageValid(nodes: seq<Node>, i: nat)
    requires i < |nodes| && MessageRecord(nodes, i).Ok?
    ensures Valid(MessageRecord(nodes, i).value)
  {
    var m := nodes[i].message;
    ContentValid(m.content);
    if m.role == "assistant" && m.toolCalls.Some? {
      CallsValid(m.toolCalls.value);
      ArrValid(CallRecords(m.toolCalls.value));
    }
    if m.role == "tool" { ReferenceValid(AncestorMatches(nodes, i, m.toolCallId)[0]); }
    hide ContentRecord, CallRecords, Reference, AncestorMatches, ValidFields, ValidItems;
    ObjValid(MessageRecord(nodes, i).value.fields);
  }

  lemma RecordValid(r: Rollout, i: nat)
    requires i < |r.nodes| && RecordAt(r, i).Ok?
    ensures Valid(RecordAt(r, i).value)
  {
    MessageValid(r.nodes, i);
    if r.nodes[i].parent.Some? { IntTextValid(r.nodes[i].parent.value); }
    hide MessageRecord, IntText, FinishOf, ValidFields, ValidItems;
    ObjValid(RecordAt(r, i).value.fields);
  }

  lemma OmissionValid(n: Node)
    ensures Valid(Omission(n))
  {
    if n.parent.Some? { IntTextValid(n.parent.value); }
    hide IntText;
    ObjValid(Omission(n).fields);
  }

  lemma {:induction false} NodesValid(r: Rollout, omitted: nat, i: nat)
    requires i <= |r.nodes| && NodeRecords(r, omitted, i).Ok?
    ensures forall j | 0 <= j < |NodeRecords(r, omitted, i).value| :: Valid(NodeRecords(r, omitted, i).value[j])
    decreases |r.nodes| - i
  {
    if i < |r.nodes| {
      hide RecordAt, Omission, Valid;
      NodesValid(r, omitted, i + 1);
      if i < omitted { OmissionValid(r.nodes[i]); } else { RecordValid(r, i); }
    }
  }

  /** Finite rewards print as numbers. */
  ghost predicate PrintsReward(r: Rollout) { r.reward.Finite? ==> NumberText(r.reward.text) }

  lemma PeerValid(r: Rollout, omitted: nat)
    requires PrintsReward(r) && PeerRecord(r, omitted).Ok?
    ensures Valid(PeerRecord(r, omitted).value)
  {
    NodesValid(r, omitted, 0);
    ArrValid(NodeRecords(r, omitted, 0).value);
    hide NodeRecords, ValidItems, ValidFields;
    ObjValid(PeerRecord(r, omitted).value.fields);
  }

  // ---------------------------------------------------------------- sorting keeps the records

  lemma {:induction false} InsertMembers(x: Json, xs: seq<Json>)
    ensures multiset(Insert(x, xs)) == multiset(xs) + multiset{x}
  {
    if xs != [] {
      hide Print, Leq;
      InsertMembers(x, xs[1..]);
      assert xs == [xs[0]] + xs[1..];
    }
  }

  /** Sorting is a permutation. */
  lemma {:induction false} SortMembers(xs: seq<Json>)
    ensures multiset(Sort(xs)) == multiset(xs)
  {
    if xs != [] {
      SortMembers(xs[1..]);
      InsertMembers(xs[0], Sort(xs[1..]));
      hide Insert;
      assert xs == [xs[0]] + xs[1..];
    }
  }

  lemma {:induction false} SortedValid(xs: seq<Json>)
    requires forall i | 0 <= i < |xs| :: Valid(xs[i])
    ensures forall i | 0 <= i < |Sort(xs)| :: Valid(Sort(xs)[i])
  {
    SortMembers(xs);
    var ys := Sort(xs);
    hide Sort, Valid;
    forall i | 0 <= i < |ys| ensures Valid(ys[i]) {
      assert ys[i] in multiset(ys);
      assert ys[i] in multiset(xs);
      var j :| 0 <= j < |xs| && xs[j] == ys[i];
    }
  }

  lemma DocumentValid(size: nat, peers: seq<Json>)
    requires forall i | 0 <= i < |peers| :: Valid(peers[i])
    ensures Valid(Document(size, peers))
  {
    IntTextValid(size);
    SortedValid(peers);
    ArrValid(Sort(peers));
    hide IntText, Sort, ValidItems, ValidFields;
    ObjValid(Document(size, peers).fields);
  }

  lemma PeersValid(g: seq<Rollout>, omitted: nat, k: nat)
    requires (forall j | 0 <= j < |g| :: PeerRecord(g[j], omitted).Ok? && PrintsReward(g[j])) && k <= |g|
    ensures forall i | 0 <= i < |Peers(g, omitted, k)| :: Valid(Peers(g, omitted, k)[i])
  {
    hide PeerRecord, Valid;
    forall j | 0 <= j < |g| ensures Valid(Records(g, omitted)[j]) { PeerValid(g[j], omitted); }
  }

  // ---------------------------------------------------------------- the theorem

  /** `p` is the one text the prompt's markers can enclose, and it holds no angle bracket. */
  ghost predicate Encloses(prompt: string, count: string, p: string) {
    && prompt == PromptFor(count, p)
    && NoAngle(p)
    && forall a: string, x: string, c: string | Framed(a, x, c) == prompt :: x == p
  }

  lemma EnclosedOnce(count: string, p: string)
    requires Free(count) && NoAngle(p) && Silent(BEGIN, p) && Silent(END, p)
    ensures Encloses(PromptFor(count, p), count, p)
  {
    IntroFree(count);
    OutroFree();
    hide Framed, Intro, Outro, Free, Silent, NoAngle;
    forall a: string, x: string, c: string | Framed(a, x, c) == PromptFor(count, p) ensures x == p {
      UniqueSplit(Intro(count), p, Outro(), a, x, c);
    }
  }

  lemma DocumentOfValid(g: seq<Rollout>, k: nat)
    requires Accepted(g) && k < |g| && forall j | 0 <= j < |g| :: PrintsReward(g[j])
    ensures Valid(DocumentOf(g, k))
  {
    hide Shared, PeerRecord, PrintsReward, Document, Valid, Peers;
    PeersValid(g, Shared(g, 0).value, k);
    DocumentValid(|g|, PeersOf(g, k));
  }

  lemma {:induction false} PayloadSilent(special: seq<string>, v: Json)
    requires Valid(v)
    ensures Payload(special, v).Some? && var p := Payload(special, v).value;
            Denotes(p, v) && NoAngle(p) && Silent(BEGIN, p) && Silent(END, p)
  {
    PayloadSafe(special, v);
    hide Payload, Denotes, NoAngle, OccursAt, Valid;
  }

  /** Every accepted group has a prompt for every rollout; its payload denotes the context document
      and nothing else, holds no angle bracket, and is the only text that the prompt's markers can
      enclose. */
  lemma PromptSafe(g: seq<Rollout>, k: nat, special: seq<string>)
    requires Accepted(g) && k < |g| && forall j | 0 <= j < |g| :: PrintsReward(g[j])
    ensures PromptOf(g, k, special).Some?
    ensures exists p: string :: Encloses(PromptOf(g, k, special).value, IntText(|g| - 1), p) && Denotes(p, DocumentOf(g, k))
  {
    hide Accepted, PrintsReward, DocumentOf, PeersOf, Payload, Denotes, NoAngle, Silent, Valid, Free, IntText, Encloses, PromptFor;
    DocumentOfValid(g, k);
    PayloadSilent(special, DocumentOf(g, k));
    IntTextValid(|g| - 1);
    EnclosedOnce(IntText(|g| - 1), Payload(special, DocumentOf(g, k)).value);
  }
}
