/** Escaping control strings inside JSON string literals: the text still denotes the same value,
    and neither angle brackets nor the framing markers survive in it. */
module JsonEscape {
  import opened Common
  import opened JsonText
  import opened JsonValue

  const BEGIN := "BEGIN_PRIVILEGED_PEER_DATA"
  const END := "END_PRIVILEGED_PEER_DATA"

  /** The fixed control strings and the tokenizer's nonempty special tokens. */
  function ControlTokens(special: seq<string>): (r: seq<string>)
    ensures "<" in r && ">" in r && BEGIN in r && END in r
    ensures forall t | t in r :: t != [] && (t == "<" || t == ">" || t == BEGIN || t == END || t in special)
    ensures forall t | t in special && t != [] :: t in r
  {
    if special == [] then
      var r := ["<", ">", BEGIN, END];
      assert r[0] == "<" && r[1] == ">" && r[2] == BEGIN && r[3] == END;
      r
    else
      var t := special[|special| - 1];
      ControlTokens(special[..|special| - 1]) + (if t == [] then [] else [t])
  }

  predicate MatchesAt(t: string, v: string, i: nat) { i + |t| <= |v| && v[i..i + |t|] == t }

  /** Length of the longest token at position `i`, 0 when none matches. */
  function Longest(tokens: seq<string>, v: string, i: nat): (n: nat)
    requires i <= |v|
    ensures i + n <= |v|
  {
    if tokens == [] then 0
    else
      var n := Longest(tokens[..|tokens| - 1], v, i);
      var t := tokens[|tokens| - 1];
      if MatchesAt(t, v, i) && |t| > n then |t| else n
  }

  lemma {:induction false} LongestIs(tokens: seq<string>, v: string, i: nat)
    requires i <= |v|
    ensures forall t | t in tokens && MatchesAt(t, v, i) :: |t| <= Longest(tokens, v, i)
    ensures Longest(tokens, v, i) > 0 ==> exists t | t in tokens :: MatchesAt(t, v, i) && |t| == Longest(tokens, v, i)
  {
    if tokens != [] {
      var n := |tokens| - 1;
      LongestIs(tokens[..n], v, i);
      assert tokens == tokens[..n] + [tokens[n]];
    }
  }

  lemma {:induction false} TokenMatches(tokens: seq<string>, t: string, v: string, i: nat)
    requires t in tokens && t != [] && MatchesAt(t, v, i)
    ensures Longest(tokens, v, i) > 0
  {
    LongestIs(tokens, v, i);
  }

  /** Which characters fall in a match: leftmost, longest first, never overlapping. */
  function Hits(tokens: seq<string>, v: string, i: nat): (h: seq<bool>)
    requires i <= |v|
    ensures |h| == |v| - i
    decreases |v| - i
  {
    if i == |v| then []
    else
      var n := Longest(tokens, v, i);
      if n == 0 then [false] + Hits(tokens, v, i + 1) else seq(n, _ => true) + Hits(tokens, v, i + n)
  }

  /** A character left plain has no token starting at it. */
  lemma {:induction false} PlainUnmatched(tokens: seq<string>, v: string, i: nat, j: nat)
    requires i <= j < |v| && !Hits(tokens, v, i)[j - i]
    ensures Longest(tokens, v, j) == 0
    decreases |v| - i
  {
    hide Longest;
    var n := Longest(tokens, v, i);
    if n == 0 && j > i {
      PlainUnmatched(tokens, v, i + 1, j);
    } else if n > 0 {
      assert j >= i + n;
      PlainUnmatched(tokens, v, i + n, j);
    }
  }

  /** A character is spelled out only inside an occurrence of a token. */
  lemma {:induction false} HitMatched(tokens: seq<string>, v: string, i: nat, j: nat) returns (t: string, at: nat)
    requires i <= j < |v| && Hits(tokens, v, i)[j - i]
    ensures t in tokens && at <= j < at + |t| && MatchesAt(t, v, at)
    decreases |v| - i
  {
    hide Longest;
    var n := Longest(tokens, v, i);
    if n == 0 {
      assert j > i;
      t, at := HitMatched(tokens, v, i + 1, j);
    } else if j < i + n {
      LongestIs(tokens, v, i);
      at := i;
      t :| t in tokens && MatchesAt(t, v, i) && |t| == n;
    } else {
      t, at := HitMatched(tokens, v, i + n, j);
    }
  }

  /** A string is left alone exactly when no token occurs in it. */
  lemma {:induction false} LeftAloneIff(special: seq<string>, v: string)
    ensures var tokens := ControlTokens(special);
            (forall j | 0 <= j < |v| :: !Hits(tokens, v, 0)[j]) <==> forall t, i: nat | t in tokens :: !MatchesAt(t, v, i)
  {
    var tokens := ControlTokens(special);
    var h := Hits(tokens, v, 0);
    hide Hits, MatchesAt;
    if forall j | 0 <= j < |v| :: !h[j] {
      forall t, i: nat | t in tokens && MatchesAt(t, v, i) ensures false {
        Fits(t, v, i);
        PlainUnmatched(tokens, v, 0, i);
        TokenMatches(tokens, t, v, i);
      }
    }
    if forall t, i: nat | t in tokens :: !MatchesAt(t, v, i) {
      forall j | 0 <= j < |v| ensures !h[j] {
        if h[j] { var t, at := HitMatched(tokens, v, 0, j); }
      }
    }
  }

  lemma Fits(t: string, v: string, i: nat)
    requires t != [] && MatchesAt(t, v, i)
    ensures i < |v|
  {
  }

  // ---------------------------------------------------------------- the text substitution

  /** Replace every string literal by its escaped spelling; a lone quote stays, a literal that is
      not valid JSON is refused. */
  function EscapeText(tokens: seq<string>, s: string): Option<string> {
    if s == [] then Some([])
    else if s[0] != '"' then (match EscapeText(tokens, s[1..]) case Some(t) => Some([s[0]] + t) case None => None)
    else
      match BodyLength(s[1..])
      case None => (match EscapeText(tokens, s[1..]) case Some(t) => Some(['"'] + t) case None => None)
      case Some(n) =>
        match (DecodeBody(s[1..1 + n]), EscapeText(tokens, s[2 + n..]))
        case (Some(v), Some(t)) => Some(Literal(v, Hits(tokens, v, 0)) + t)
        case _ => None
  }

  /** Escaping keeps every lexeme, hence whatever value the text denotes. */
  lemma {:induction false} EscapeKeepsLexemes(tokens: seq<string>, s: string)
    requires Lex(s).Some?
    ensures EscapeText(tokens, s).Some? && Lex(EscapeText(tokens, s).value) == Lex(s)
    decreases |s|
  {
    hide Literal, BodyLength, DecodeBody, Hits;
    if s != [] {
      if s[0] != '"' {
        EscapeKeepsLexemes(tokens, s[1..]);
        LexMark(s[0], EscapeText(tokens, s[1..]).value);
      } else {
        var n := BodyLength(s[1..]).value;
        var v := DecodeBody(s[1..1 + n]).value;
        EscapeKeepsLexemes(tokens, s[2 + n..]);
        LexLiteral(v, Hits(tokens, v, 0), EscapeText(tokens, s[2 + n..]).value);
      }
    }
  }

  lemma {:induction false} EscapePreserves(tokens: seq<string>, s: string, v: Json)
    requires Denotes(s, v)
    ensures EscapeText(tokens, s).Some? && Denotes(EscapeText(tokens, s).value, v)
  {
    hide Lex, EscapeText;
    EscapeKeepsLexemes(tokens, s);
  }

  // ---------------------------------------------------------------- what cannot survive

  predicate Angle(c: char) { c == '<' || c == '>' }

  /** The characters the framing markers are made of. */
  predicate Keyed(c: char) { ('A' <= c <= 'Z') || c == '_' }

  ghost predicate AllKeyed(m: string) { m != [] && forall i | 0 <= i < |m| :: Keyed(m[i]) }

  lemma EscapeChars(n: nat, p: nat)
    requires n < 0x10000 && p < 6
    ensures !Angle(Escape4(n)[p]) && !Keyed(Escape4(n)[p])
  {
    var h := Hex4(n);
    hide Hex4;
    assert p >= 2 ==> Escape4(n)[p] == h[p - 2];
  }

  /** An escaped spelling holds neither angle brackets nor marker characters. */
  lemma EncodedChars(c: char, hit: bool, p: nat)
    requires p < |Encoded(c, hit)|
    ensures Angle(Encoded(c, hit)[p]) || Keyed(Encoded(c, hit)[p]) ==> !hit && Encoded(c, hit) == [c]
  {
    var n := c as int;
    hide Escape4;
    if hit && n >= 0x10000 {
      EscapeChars(if p < 6 then 0xD800 + (n - 0x10000) / 0x400 else 0xDC00 + (n - 0x10000) % 0x400, if p < 6 then p else p - 6);
    } else if hit || |DumpChar(c)| == 6 {
      EscapeChars(n, p);
    }
  }

  ghost predicate NoAngle(s: string) { forall i | 0 <= i < |s| :: !Angle(s[i]) }

  lemma {:induction false} BodyNoAngle(v: string, hits: seq<bool>)
    requires |hits| == |v| && forall i | 0 <= i < |v| && Angle(v[i]) :: hits[i]
    ensures NoAngle(EncodeBody(v, hits))
  {
    if v != [] {
      BodyNoAngle(v[1..], hits[1..]);
      var e := Encoded(v[0], hits[0]);
      EncodeUnfolds(v, hits);
      hide Encoded, EncodeBody;
      forall p | 0 <= p < |e| ensures !Angle(e[p]) { EncodedChars(v[0], hits[0], p); }
    }
  }

  lemma {:induction false} AngleHit(tokens: seq<string>, v: string, i: nat)
    requires "<" in tokens && ">" in tokens && i < |v| && Angle(v[i])
    ensures Hits(tokens, v, 0)[i]
  {
    var t := if v[i] == '<' then "<" else ">";
    assert v[i..i + 1] == [v[i]];
    TokenMatches(tokens, t, v, i);
    if !Hits(tokens, v, 0)[i] { PlainUnmatched(tokens, v, 0, i); }
  }

  // ---------------------------------------------------------------- markers in a body

  predicate OccursAt(m: string, s: string, q: nat) { q + |m| <= |s| && s[q..q + |m|] == m }

  /** `m` sits at position `i` of the string and all of it was left plain. */
  ghost predicate PlainAt(m: string, v: string, hits: seq<bool>, i: nat)
    requires |hits| == |v|
  {
    OccursAt(m, v, i) && forall j | i <= j < i + |m| :: !hits[j]
  }

  lemma OccursChar(m: string, s: string, q: nat, k: nat)
    requires OccursAt(m, s, q) && k < |m|
    ensures q + k < |s| && s[q + k] == m[k]
  {
    assert s[q..q + |m|][k] == m[k];
  }

  lemma {:induction false} MarkerAtFront(m: string, v: string, hits: seq<bool>)
    requires |hits| == |v| && (forall i | 0 <= i < |m| :: Keyed(m[i])) && OccursAt(m, EncodeBody(v, hits), 0)
    ensures PlainAt(m, v, hits, 0)
    decreases |m|
  {
    if m != [] {
      OccursChar(m, EncodeBody(v, hits), 0, 0);
      var e, rest := Encoded(v[0], hits[0]), EncodeBody(v[1..], hits[1..]);
      EncodeUnfolds(v, hits);
      EncodedChars(v[0], hits[0], 0);
      hide Encoded, EncodeBody;
      assert e == [v[0]] && v[0] == m[0] && !hits[0];
      assert OccursAt(m[1..], rest, 0) by {
        assert (([v[0]] + rest)[0..|m|])[1..] == rest[0..|m| - 1];
      }
      MarkerAtFront(m[1..], v[1..], hits[1..]);
      assert v[0..|m|] == [v[0]] + v[1..][0..|m| - 1];
      assert m == [m[0]] + m[1..];
      forall j | 0 <= j < |m| ensures !hits[j] { if j > 0 { assert !hits[1..][j - 1]; } }
    }
  }

  lemma {:induction false} MarkerInBody(m: string, v: string, hits: seq<bool>, q: nat) returns (i: nat)
    requires |hits| == |v| && AllKeyed(m) && OccursAt(m, EncodeBody(v, hits), q)
    ensures PlainAt(m, v, hits, i)
    decreases |v|
  {
    OccursChar(m, EncodeBody(v, hits), q, 0);
    var e, rest := Encoded(v[0], hits[0]), EncodeBody(v[1..], hits[1..]);
    EncodeUnfolds(v, hits);
    if q == 0 {
      MarkerAtFront(m, v, hits);
      i := 0;
    } else {
      hide Encoded, EncodeBody, OccursAt, PlainAt;
      if q < |e| {
        EncodedChars(v[0], hits[0], q);
        assert false;
      }
      ShiftOccurs(e, rest, m, q);
      var k := MarkerInBody(m, v[1..], hits[1..], q - |e|);
      PlainShift(m, v, hits, k);
      i := k + 1;
    }
  }

  lemma ShiftOccurs(e: string, rest: string, m: string, q: nat)
    requires OccursAt(m, e + rest, q) && q >= |e|
    ensures OccursAt(m, rest, q - |e|)
  {
    assert (e + rest)[q..q + |m|] == rest[q - |e|..q - |e| + |m|];
  }

  lemma PlainShift(m: string, v: string, hits: seq<bool>, k: nat)
    requires |hits| == |v| > 0 && PlainAt(m, v[1..], hits[1..], k)
    ensures PlainAt(m, v, hits, k + 1)
  {
    assert v[k + 1..k + 1 + |m|] == v[1..][k..k + |m|];
    forall j | k + 1 <= j < k + 1 + |m| ensures !hits[j] { assert !hits[1..][j - 1]; }
  }

  /** A token of marker characters never survives in an escaped body. */
  lemma {:induction false} NoMarkerInBody(tokens: seq<string>, m: string, v: string, q: nat)
    requires m in tokens && AllKeyed(m)
    ensures !OccursAt(m, EncodeBody(v, Hits(tokens, v, 0)), q)
  {
    if OccursAt(m, EncodeBody(v, Hits(tokens, v, 0)), q) {
      var i := MarkerInBody(m, v, Hits(tokens, v, 0), q);
      TokenMatches(tokens, m, v, i);
      PlainUnmatched(tokens, v, 0, i);
      assert false;
    }
  }
}
