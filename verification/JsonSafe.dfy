/** The escaped payload as a whole, and the loop that escapes one string. */
module JsonSafe {
  import opened Common
  import opened JsonText
  import opened JsonValue
  import opened JsonEscape

  // ---------------------------------------------------------------- marks outside string literals

  /** Characters outside string literals are neither angle brackets nor marker characters. */
  ghost predicate CleanMarks(ls: seq<Lexeme>) {
    forall i | 0 <= i < |ls| :: ls[i].Mark? ==> !Angle(ls[i].c) && !Keyed(ls[i].c)
  }

  lemma CleanConcat(a: seq<Lexeme>, b: seq<Lexeme>)
    requires CleanMarks(a) && CleanMarks(b)
    ensures CleanMarks(a + b)
  {
  }

  lemma {:induction false} MarksClean(s: string)
    requires forall i | 0 <= i < |s| :: !Angle(s[i]) && !Keyed(s[i])
    ensures CleanMarks(Marks(s))
  {
    if s != [] {
      MarksClean(s[1..]);
      CleanConcat([Mark(s[0])], Marks(s[1..]));
    }
  }

  lemma {:induction false} ValueClean(v: Json)
    requires Valid(v)
    ensures CleanMarks(Lexemes(v))
    decreases v
  {
    hide CleanMarks;
    match v
    case Null => MarksClean("null");
    case Bool(b) => MarksClean("true"); MarksClean("false");
    case Number(t) => MarksClean(t);
    case Str(s) => OneClean(Quoted(s));
    case Arr(xs) =>
      ItemsClean(xs);
      Wrapped(Mark('['), LexItems(xs), Mark(']'));
    case Obj(fs) =>
      FieldsClean(fs);
      Wrapped(Mark('{'), LexFields(fs), Mark('}'));
  }

  lemma OneClean(l: Lexeme)
    requires l.Mark? ==> !Angle(l.c) && !Keyed(l.c)
    ensures CleanMarks([l])
  {
  }

  lemma Wrapped(a: Lexeme, ls: seq<Lexeme>, b: Lexeme)
    requires CleanMarks(ls) && CleanMarks([a]) && CleanMarks([b])
    ensures CleanMarks([a] + (ls + [b]))
  {
    CleanConcat(ls, [b]);
    CleanConcat([a], ls + [b]);
  }

  lemma {:induction false} ItemsClean(xs: seq<Json>)
    requires ValidItems(xs)
    ensures CleanMarks(LexItems(xs)) && CleanMarks([Mark('[')]) && CleanMarks([Mark(']')])
    decreases xs
  {
    assert CleanMarks([Mark('[')]) && CleanMarks([Mark(']')]);
    if xs != [] {
      ValueClean(xs[0]);
      MoreClean(xs[1..]);
      hide CleanMarks, Lexemes, LexMore;
      CleanConcat(Lexemes(xs[0]), LexMore(xs[1..]));
    }
  }

  lemma {:induction false} MoreClean(xs: seq<Json>)
    requires ValidItems(xs)
    ensures CleanMarks(LexMore(xs))
    decreases xs
  {
    if xs != [] {
      ValueClean(xs[0]);
      MoreClean(xs[1..]);
      OneClean(Mark(','));
      hide CleanMarks, Lexemes;
      CleanConcat(Lexemes(xs[0]), LexMore(xs[1..]));
      CleanConcat([Mark(',')], Lexemes(xs[0]) + LexMore(xs[1..]));
    }
  }

  lemma FieldClean(k: string, ls: seq<Lexeme>)
    requires CleanMarks(ls)
    ensures CleanMarks([Quoted(k)] + ([Mark(':')] + ls))
  {
    OneClean(Quoted(k));
    OneClean(Mark(':'));
    hide CleanMarks;
    CleanConcat([Mark(':')], ls);
    CleanConcat([Quoted(k)], [Mark(':')] + ls);
  }

  lemma {:induction false} FieldsClean(fs: seq<Field>)
    requires ValidFields(fs)
    ensures CleanMarks(LexFields(fs)) && CleanMarks([Mark('{')]) && CleanMarks([Mark('}')])
    decreases fs
  {
    assert CleanMarks([Mark('{')]) && CleanMarks([Mark('}')]);
    if fs != [] {
      ValueClean(fs[0].value);
      RestClean(fs[1..]);
      hide CleanMarks, Lexemes, LexRest;
      CleanConcat(Lexemes(fs[0].value), LexRest(fs[1..]));
      FieldClean(fs[0].key, Lexemes(fs[0].value) + LexRest(fs[1..]));
    }
  }

  lemma {:induction false} RestClean(fs: seq<Field>)
    requires ValidFields(fs)
    ensures CleanMarks(LexRest(fs))
    decreases fs
  {
    if fs != [] {
      ValueClean(fs[0].value);
      RestClean(fs[1..]);
      OneClean(Mark(','));
      hide CleanMarks, Lexemes;
      CleanConcat(Lexemes(fs[0].value), LexRest(fs[1..]));
      FieldClean(fs[0].key, Lexemes(fs[0].value) + LexRest(fs[1..]));
      CleanConcat([Mark(',')], [Quoted(fs[0].key)] + ([Mark(':')] + (Lexemes(fs[0].value) + LexRest(fs[1..]))));
    }
  }

  // ---------------------------------------------------------------- the escaped text

  /** A string of marker characters cannot reach across any other character. */
  lemma NoSpan(m: string, x: string, c: char, y: string, q: nat)
    requires AllKeyed(m) && !Keyed(c) && OccursAt(m, x + [c] + y, q)
    ensures (q + |m| <= |x| && OccursAt(m, x, q)) || (q > |x| && OccursAt(m, y, q - |x| - 1))
  {
    var s := x + [c] + y;
    assert s[|x|] == c;
    if q <= |x| < q + |m| {
      OccursChar(m, s, q, |x| - q);
      assert false;
    } else if q + |m| <= |x| {
      assert s[q..q + |m|] == x[q..q + |m|];
    } else {
      assert s[q..q + |m|] == y[q - |x| - 1..q - |x| - 1 + |m|];
    }
  }

  lemma TextOfMark(c: char, t: string, m: string, q: nat)
    requires AllKeyed(m) && !Keyed(c) && OccursAt(m, [c] + t, q)
    ensures q > 0 && OccursAt(m, t, q - 1)
  {
    assert [] + [c] + t == [c] + t;
    NoSpan(m, [], c, t, q);
  }

  lemma TextOfLiteral(body: string, t: string, m: string, q: nat)
    requires AllKeyed(m) && OccursAt(m, ['"'] + body + ['"'] + t, q)
    ensures (q > 0 && OccursAt(m, body, q - 1)) || (q > |body| + 1 && OccursAt(m, t, q - |body| - 2))
  {
    var rest := body + ['"'] + t;
    assert ['"'] + body + ['"'] + t == ['"'] + rest;
    TextOfMark('"', rest, m, q);
    NoSpan(m, body, '"', t, q - 1);
  }

  /** One step of escaping a text that was escaped. */
  lemma {:induction false} EscapeUnfolds(tokens: seq<string>, s: string)
    requires EscapeText(tokens, s).Some?
    ensures s == [] ==> EscapeText(tokens, s).value == []
    ensures s != [] && s[0] != '"' ==> EscapeText(tokens, s[1..]).Some? && EscapeText(tokens, s).value == [s[0]] + EscapeText(tokens, s[1..]).value
    ensures s != [] && s[0] == '"' && BodyLength(s[1..]).Some? ==>
      var n := BodyLength(s[1..]).value;
      && DecodeBody(s[1..1 + n]).Some? && EscapeText(tokens, s[2 + n..]).Some?
      && var v := DecodeBody(s[1..1 + n]).value;
         EscapeText(tokens, s).value == ['"'] + EncodeBody(v, Hits(tokens, v, 0)) + ['"'] + EscapeText(tokens, s[2 + n..]).value
  {
    hide BodyLength, DecodeBody, Hits, EncodeBody;
  }

  /** No marker token survives anywhere in the escaped text. */
  lemma {:induction false} TextNoMarker(tokens: seq<string>, s: string, m: string, q: nat)
    requires Lex(s).Some? && CleanMarks(Lex(s).value) && m in tokens && AllKeyed(m)
    ensures EscapeText(tokens, s).Some? && !OccursAt(m, EscapeText(tokens, s).value, q)
    decreases |s|
  {
    hide *;
    EscapeKeepsLexemes(tokens, s);
    EscapeUnfolds(tokens, s);
    if s == [] {
      EmptyText(m, q);
    } else if s[0] != '"' {
      LexTail(s);
      if q > 0 { TextNoMarker(tokens, s[1..], m, q - 1); }
      MarkNoMarker(s[0], EscapeText(tokens, s[1..]).value, m, q);
    } else {
      LexTail(s);
      var n := BodyLength(s[1..]).value;
      var v := DecodeBody(s[1..1 + n]).value;
      var t := EscapeText(tokens, s[2 + n..]).value;
      var body := EncodeBody(v, Hits(tokens, v, 0));
      if q > |body| + 1 { TextNoMarker(tokens, s[2 + n..], m, q - |body| - 2); }
      LiteralNoMarker(tokens, v, t, m, q);
    }
  }

  lemma {:induction false} LiteralNoMarker(tokens: seq<string>, v: string, t: string, m: string, q: nat)
    requires AllKeyed(m) && m in tokens
    requires var n := |EncodeBody(v, Hits(tokens, v, 0))|; q > n + 1 ==> !OccursAt(m, t, q - n - 2)
    ensures !OccursAt(m, ['"'] + EncodeBody(v, Hits(tokens, v, 0)) + ['"'] + t, q)
  {
    var body := EncodeBody(v, Hits(tokens, v, 0));
    hide *;
    if OccursAt(m, ['"'] + body + ['"'] + t, q) {
      TextOfLiteral(body, t, m, q);
      if q > 0 { NoMarkerInBody(tokens, m, v, q - 1); }
    }
  }

  lemma MarkNoMarker(c: char, t: string, m: string, q: nat)
    requires AllKeyed(m) && !Keyed(c) && (q > 0 ==> !OccursAt(m, t, q - 1))
    ensures !OccursAt(m, [c] + t, q)
  {
    hide *;
    if OccursAt(m, [c] + t, q) { TextOfMark(c, t, m, q); }
  }

  lemma EmptyText(m: string, q: nat)
    requires AllKeyed(m)
    ensures !OccursAt(m, [], q)
  {
  }

  /** The lexemes after the first one of a text are those of its tail. */
  lemma {:induction false} LexTail(s: string)
    requires s != [] && Lex(s).Some? && CleanMarks(Lex(s).value)
    ensures s[0] != '"' ==> Lex(s[1..]).Some? && CleanMarks(Lex(s[1..]).value) && !Angle(s[0]) && !Keyed(s[0])
    ensures s[0] == '"' ==> BodyLength(s[1..]).Some? && var n := BodyLength(s[1..]).value;
              DecodeBody(s[1..1 + n]).Some? && Lex(s[2 + n..]).Some? && CleanMarks(Lex(s[2 + n..]).value)
  {
    hide *;
    if s[0] != '"' {
      LexPlain(s);
      CleanTail(Mark(s[0]), Lex(s[1..]).value);
    } else {
      LexQuoted(s);
      var n := BodyLength(s[1..]).value;
      CleanTail(Quoted(DecodeBody(s[1..1 + n]).value), Lex(s[2 + n..]).value);
    }
  }

  lemma CleanTail(l: Lexeme, rest: seq<Lexeme>)
    requires CleanMarks([l] + rest)
    ensures CleanMarks(rest) && (l.Mark? ==> !Angle(l.c) && !Keyed(l.c))
  {
    var ls := [l] + rest;
    assert ls[0] == l;
    forall i | 0 <= i < |rest| ensures rest[i].Mark? ==> !Angle(rest[i].c) && !Keyed(rest[i].c) { assert ls[i + 1] == rest[i]; }
  }

  lemma AngleConcat(a: string, b: string)
    requires NoAngle(a) && NoAngle(b)
    ensures NoAngle(a + b)
  {
  }

  lemma {:induction false} LiteralNoAngle(tokens: seq<string>, v: string)
    requires "<" in tokens && ">" in tokens
    ensures NoAngle(Literal(v, Hits(tokens, v, 0)))
  {
    forall i | 0 <= i < |v| && Angle(v[i]) ensures Hits(tokens, v, 0)[i] { AngleHit(tokens, v, i); }
    BodyNoAngle(v, Hits(tokens, v, 0));
    hide EncodeBody, Hits;
    AngleConcat(['"'], EncodeBody(v, Hits(tokens, v, 0)));
    AngleConcat(['"'] + EncodeBody(v, Hits(tokens, v, 0)), ['"']);
  }

  /** No angle bracket survives in the escaped text. */
  lemma {:induction false} TextNoAngle(tokens: seq<string>, s: string)
    requires Lex(s).Some? && CleanMarks(Lex(s).value) && "<" in tokens && ">" in tokens
    ensures EscapeText(tokens, s).Some? && NoAngle(EscapeText(tokens, s).value)
    decreases |s|
  {
    EscapeKeepsLexemes(tokens, s);
    hide BodyLength, DecodeBody, Hits, Literal;
    if s != [] {
      LexTail(s);
      if s[0] != '"' {
        TextNoAngle(tokens, s[1..]);
        assert NoAngle([s[0]]);
        AngleConcat([s[0]], EscapeText(tokens, s[1..]).value);
      } else {
        var n := BodyLength(s[1..]).value;
        var v := DecodeBody(s[1..1 + n]).value;
        TextNoAngle(tokens, s[2 + n..]);
        LiteralNoAngle(tokens, v);
        AngleConcat(Literal(v, Hits(tokens, v, 0)), EscapeText(tokens, s[2 + n..]).value);
      }
    }
  }

  /** The payload of a value: its canonical print with control strings escaped. */
  function Payload(special: seq<string>, v: Json): Option<string> { EscapeText(ControlTokens(special), Print(v)) }

  lemma MarkersKeyed()
    ensures AllKeyed(BEGIN) && AllKeyed(END)
  {
  }

  /** Escaping preserves meaning and framing, for every value and every special-token set. */
  lemma {:induction false} PayloadSafe(special: seq<string>, v: Json)
    requires Valid(v)
    ensures Payload(special, v).Some? && var p := Payload(special, v).value;
            && Denotes(p, v) && NoAngle(p)
            && forall q: nat :: !OccursAt(BEGIN, p, q) && !OccursAt(END, p, q)
  {
    PrintDenotes(v);
    ValueClean(v);
    MarkersKeyed();
    var (tokens, s) := (ControlTokens(special), Print(v));
    EscapePreserves(tokens, s, v);
    hide EscapeText, Lex, CleanMarks, NoAngle, OccursAt, Print, Lexemes, ControlTokens;
    TextNoAngle(tokens, s);
    forall q: nat ensures !OccursAt(BEGIN, EscapeText(tokens, s).value, q) && !OccursAt(END, EscapeText(tokens, s).value, q) {
      TextNoMarker(tokens, s, BEGIN, q);
      TextNoMarker(tokens, s, END, q);
    }
  }

  // ---------------------------------------------------------------- the escaping loop

  lemma {:induction false} EncodeConcat(a: string, ha: seq<bool>, b: string, hb: seq<bool>)
    requires |ha| == |a| && |hb| == |b|
    ensures EncodeBody(a + b, ha + hb) == EncodeBody(a, ha) + EncodeBody(b, hb)
  {
    hide *;
    if a == [] {
      EncodeNothing(a, ha);
      assert a + b == b && ha + hb == hb && [] + EncodeBody(b, hb) == EncodeBody(b, hb);
    } else {
      assert (a + b)[1..] == a[1..] + b && (ha + hb)[1..] == ha[1..] + hb && (a + b)[0] == a[0] && (ha + hb)[0] == ha[0];
      EncodeUnfolds(a + b, ha + hb);
      EncodeUnfolds(a, ha);
      EncodeConcat(a[1..], ha[1..], b, hb);
      Nested(Encoded(a[0], ha[0]), EncodeBody(a[1..], ha[1..]), EncodeBody(b, hb));
    }
  }

  lemma {:induction false} EncodeNothing(v: string, hits: seq<bool>)
    requires |hits| == |v| && v == []
    ensures EncodeBody(v, hits) == []
  {
  }

  /** Alternatives sorted by length, longest first. */
  ghost predicate LongestFirst(ts: seq<string>) { forall i, j | 0 <= i < j < |ts| :: |ts[i]| >= |ts[j]| }

  method SortByLength(tokens: seq<string>) returns (ts: seq<string>)
    ensures LongestFirst(ts) && multiset(ts) == multiset(tokens)
  {
    ts := [];
    for i := 0 to |tokens|
      invariant LongestFirst(ts) && multiset(ts) == multiset(tokens[..i])
    {
      var k := 0;
      while k < |ts| && |ts[k]| >= |tokens[i]|
        invariant k <= |ts| && forall j | 0 <= j < k :: |ts[j]| >= |tokens[i]|
      {
        k := k + 1;
      }
      Inserted(ts, tokens, i, k);
      ts := ts[..k] + [tokens[i]] + ts[k..];
    }
    assert tokens[..|tokens|] == tokens;
  }

  /** Putting the next token behind the longer ones keeps the order and the members. */
  lemma Inserted(ts: seq<string>, tokens: seq<string>, i: nat, k: nat)
    requires i < |tokens| && k <= |ts| && LongestFirst(ts) && multiset(ts) == multiset(tokens[..i])
    requires forall j | 0 <= j < k :: |ts[j]| >= |tokens[i]|
    requires k < |ts| ==> |ts[k]| < |tokens[i]|
    ensures var us := ts[..k] + [tokens[i]] + ts[k..]; LongestFirst(us) && multiset(us) == multiset(tokens[..i + 1])
  {
    InsertedOrder(ts, tokens[i], k);
    hide *;
    var a, b := ts[..k], ts[k..];
    assert a + b == ts;
    MultisetMiddle(a, tokens[i], b);
    NextMembers(tokens, i);
  }

  lemma NextMembers(tokens: seq<string>, i: nat)
    requires i < |tokens|
    ensures multiset(tokens[..i + 1]) == multiset(tokens[..i]) + multiset{tokens[i]}
  {
    assert tokens[..i + 1] == tokens[..i] + [tokens[i]];
  }

  lemma InsertedOrder(ts: seq<string>, t: string, k: nat)
    requires k <= |ts| && LongestFirst(ts)
    requires (forall j | 0 <= j < k :: |ts[j]| >= |t|) && (k < |ts| ==> |ts[k]| < |t|)
    ensures LongestFirst(ts[..k] + [t] + ts[k..])
  {
    var us := ts[..k] + [t] + ts[k..];
    forall i, j | 0 <= i < j < |us| ensures |us[i]| >= |us[j]| {
      assert j < k ==> us[j] == ts[j];
      assert j > k ==> us[j] == ts[j - 1];
      assert i < k ==> us[i] == ts[i];
      assert i > k ==> us[i] == ts[i - 1];
    }
  }

  lemma SameMembers(a: seq<string>, b: seq<string>, t: string)
    requires multiset(a) == multiset(b)
    ensures t in a <==> t in b
  {
    assert t in multiset(a) <==> t in multiset(b);
  }

  /** The first alternative that matches is the longest token that does. */
  method MatchAt(ts: seq<string>, ghost tokens: seq<string>, v: string, i: nat) returns (n: nat)
    requires i <= |v| && LongestFirst(ts) && multiset(ts) == multiset(tokens) && forall t | t in tokens :: t != []
    ensures n == Longest(tokens, v, i)
  {
    LongestIs(tokens, v, i);
    forall t ensures t in ts <==> t in tokens { SameMembers(ts, tokens, t); }
    hide Longest;
    for k := 0 to |ts|
      invariant forall j | 0 <= j < k :: !MatchesAt(ts[j], v, i)
    {
      if i + |ts[k]| <= |v| && v[i..i + |ts[k]|] == ts[k] {
        assert ts[k] in ts && MatchesAt(ts[k], v, i);
        return |ts[k]|;
      }
    }
    return 0;
  }

  method DumpAll(v: string) returns (s: string)
    ensures s == EncodeBody(v, NoHits(v))
  {
    s := [];
    for i := 0 to |v|
      invariant s == EncodeBody(v[..i], NoHits(v[..i]))
    {
      assert v[..i + 1] == v[..i] + [v[i]] && NoHits(v[..i + 1]) == NoHits(v[..i]) + [false];
      EncodeConcat(v[..i], NoHits(v[..i]), [v[i]], [false]);
      assert EncodeBody([v[i]], [false]) == DumpChar(v[i]) by { assert [v[i]][1..] == []; }
      s := s + DumpChar(v[i]);
    }
    assert v[..|v|] == v;
  }

  function AllHits(n: nat): (h: seq<bool>)
    ensures |h| == n
  {
    seq(n, _ => true)
  }

  method UnicodeAll(v: string) returns (s: string)
    ensures s == EncodeBody(v, AllHits(|v|))
  {
    s := [];
    for i := 0 to |v|
      invariant s == EncodeBody(v[..i], AllHits(i))
    {
      assert v[..i + 1] == v[..i] + [v[i]] && AllHits(i + 1) == AllHits(i) + [true];
      EncodeConcat(v[..i], AllHits(i), [v[i]], [true]);
      assert EncodeBody([v[i]], [true]) == UnicodeEscape(v[i]) by { assert [v[i]][1..] == []; }
      s := s + UnicodeEscape(v[i]);
    }
    assert v[..|v|] == v;
  }

  /** The text from `at` on, given that everything from `from` to `at` was left plain. */
  ghost function Pending(tokens: seq<string>, v: string, from: nat, at: nat): string
    requires from <= at <= |v|
  {
    EncodeBody(v[from..at], NoHits(v[from..at])) + EncodeBody(v[at..], Hits(tokens, v, at))
  }

  lemma HitsPlain(tokens: seq<string>, v: string, at: nat)
    requires at < |v| && Longest(tokens, v, at) == 0
    ensures Hits(tokens, v, at) == [false] + Hits(tokens, v, at + 1)
  {
    hide Longest;
  }

  lemma HitsMatch(tokens: seq<string>, v: string, at: nat)
    requires at < |v| && Longest(tokens, v, at) > 0
    ensures var n := Longest(tokens, v, at); Hits(tokens, v, at) == AllHits(n) + Hits(tokens, v, at + n)
  {
    hide Longest;
  }

  lemma NoHitsSnoc(a: string, c: char)
    ensures NoHits(a + [c]) == NoHits(a) + [false]
  {
  }

  lemma Nested(a: string, b: string, c: string)
    ensures a + b + c == a + (b + c)
  {
  }

  lemma PendingPlain(tokens: seq<string>, v: string, from: nat, at: nat)
    requires from <= at < |v| && Longest(tokens, v, at) == 0
    ensures Pending(tokens, v, from, at) == Pending(tokens, v, from, at + 1)
  {
    hide EncodeBody, Longest, NoHits, Hits;
    var c, a, b := [v[at]], v[from..at], v[at + 1..];
    assert v[at..] == c + b && v[from..at + 1] == a + c;
    HitsPlain(tokens, v, at);
    NoHitsSnoc(a, v[at]);
    EncodeConcat(c, [false], b, Hits(tokens, v, at + 1));
    EncodeConcat(a, NoHits(a), c, [false]);
    Nested(EncodeBody(a, NoHits(a)), EncodeBody(c, [false]), EncodeBody(b, Hits(tokens, v, at + 1)));
  }

  lemma {:induction false} PendingNone(tokens: seq<string>, v: string, at: nat)
    requires at <= |v|
    ensures Pending(tokens, v, at, at) == EncodeBody(v[at..], Hits(tokens, v, at))
  {
    assert v[at..at] == [] && NoHits(v[at..at]) == [] && EncodeBody([], []) == [];
    hide EncodeBody, Hits;
    assert [] + EncodeBody(v[at..], Hits(tokens, v, at)) == EncodeBody(v[at..], Hits(tokens, v, at));
  }

  lemma {:induction false} PendingHit(tokens: seq<string>, v: string, from: nat, at: nat)
    requires from <= at < |v| && Longest(tokens, v, at) > 0
    ensures var n := Longest(tokens, v, at);
            Pending(tokens, v, from, at) == EncodeBody(v[from..at], NoHits(v[from..at])) + EncodeBody(v[at..at + n], AllHits(n))
                                            + Pending(tokens, v, at + n, at + n)
  {
    hide EncodeBody, Longest, NoHits, Hits;
    var n := Longest(tokens, v, at);
    var a, b, c := v[from..at], v[at..at + n], v[at + n..];
    assert v[at..] == b + c;
    HitsMatch(tokens, v, at);
    PendingNone(tokens, v, at + n);
    EncodeConcat(b, AllHits(n), c, Hits(tokens, v, at + n));
    Nested(EncodeBody(a, NoHits(a)), EncodeBody(b, AllHits(n)), EncodeBody(c, Hits(tokens, v, at + n)));
  }

  lemma {:induction false} HitStep(whole: string, parts: string, tokens: seq<string>, v: string, from: nat, at: nat)
    requires from <= at < |v| && Longest(tokens, v, at) > 0 && whole == parts + Pending(tokens, v, from, at)
    ensures var n := Longest(tokens, v, at);
            whole == parts + EncodeBody(v[from..at], NoHits(v[from..at])) + EncodeBody(v[at..at + n], AllHits(n))
                     + Pending(tokens, v, at + n, at + n)
  {
    hide *;
    PendingHit(tokens, v, from, at);
    var n := Longest(tokens, v, at);
    var a, b, c := EncodeBody(v[from..at], NoHits(v[from..at])), EncodeBody(v[at..at + n], AllHits(n)), Pending(tokens, v, at + n, at + n);
    Nested(parts, a + b, c);
    Nested(parts, a, b);
  }

  /** `escape_string`: copy plain stretches, spell out matches. */
  method EscapeString(special: seq<string>, v: string) returns (s: string)
    ensures s == Literal(v, Hits(ControlTokens(special), v, 0))
  {
    hide EncodeBody, Longest, Hits, Pending, ControlTokens, LongestFirst;
    ghost var tokens := ControlTokens(special);
    ghost var whole := EncodeBody(v, Hits(tokens, v, 0));
    var ts := SortByLength(ControlTokens(special));
    var parts: string, offset: nat, at: nat := [], 0, 0;
    PendingNone(tokens, v, 0);
    assert v[0..] == v && [] + Pending(tokens, v, 0, 0) == Pending(tokens, v, 0, 0);
    while at < |v|
      invariant offset <= at <= |v| && whole == parts + Pending(tokens, v, offset, at)
    {
      var n := MatchAt(ts, tokens, v, at);
      if n == 0 {
        PendingPlain(tokens, v, offset, at);
        at := at + 1;
      } else {
        HitStep(whole, parts, tokens, v, offset, at);
        var plain := DumpAll(v[offset..at]);
        var spelled := UnicodeAll(v[at..at + n]);
        parts := parts + plain + spelled;
        at := at + n;
        offset := at;
      }
    }
    var plain := DumpAll(v[offset..]);
    PendingEnd(tokens, v, offset);
    s := ['"'] + (parts + plain) + ['"'];
  }

  lemma PendingEnd(tokens: seq<string>, v: string, offset: nat)
    requires offset <= |v|
    ensures Pending(tokens, v, offset, |v|) == EncodeBody(v[offset..], NoHits(v[offset..]))
  {
    assert v[|v|..] == [] && Hits(tokens, v, |v|) == [] && EncodeBody([], []) == [];
    assert v[offset..|v|] == v[offset..];
    hide EncodeBody;
    assert EncodeBody(v[offset..], NoHits(v[offset..])) + [] == EncodeBody(v[offset..], NoHits(v[offset..]));
  }
}
