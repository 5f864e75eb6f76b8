/** JSON text at the level of characters: string bodies (section 7 of RFC 8259), lexemes, values,
    and the canonical printer. */
module JsonText {
  import opened Common

  // ---------------------------------------------------------------- four hex digits

  function HexChar(d: nat): (c: char)
    requires d < 16
    ensures ('0' <= c <= '9') || ('a' <= c <= 'f')
  {
    if d < 10 then ('0' as int + d) as char else ('a' as int + (d - 10)) as char
  }

  function HexValue(c: char): Option<nat> {
    if '0' <= c <= '9' then Some(c as int - '0' as int)
    else if 'a' <= c <= 'f' then Some(c as int - 'a' as int + 10)
    else if 'A' <= c <= 'F' then Some(c as int - 'A' as int + 10)
    else None
  }

  lemma HexRound(d: nat)
    requires d < 16
    ensures HexValue(HexChar(d)) == Some(d)
  {
  }

  function Hex4(n: nat): (s: string)
    requires n < 0x10000
    ensures |s| == 4 && forall i | 0 <= i < 4 :: ('0' <= s[i] <= '9') || ('a' <= s[i] <= 'f')
  {
    var a := n / 16;
    var b := a / 16;
    [HexChar(b / 16), HexChar(b % 16), HexChar(a % 16), HexChar(n % 16)]
  }

  function Value4(a: char, b: char, c: char, d: char): (r: Option<nat>)
    ensures r.Some? ==> r.value < 0x10000
  {
    match (HexValue(a), HexValue(b), HexValue(c), HexValue(d))
    case (Some(w), Some(x), Some(y), Some(z)) => if w < 16 && x < 16 && y < 16 && z < 16 then Some(4096 * w + 256 * x + 16 * y + z) else None
    case _ => None
  }

  lemma Hex4Round(n: nat)
    requires n < 0x10000
    ensures var s := Hex4(n); Value4(s[0], s[1], s[2], s[3]) == Some(n)
  {
    var a := n / 16;
    var b := a / 16;
    HexRound(b / 16);
    HexRound(b % 16);
    HexRound(a % 16);
    HexRound(n % 16);
    hide HexChar, HexValue;
    assert n == 16 * a + n % 16 && a == 16 * b + a % 16 && b == 16 * (b / 16) + b % 16;
  }

  // ---------------------------------------------------------------- string bodies

  predicate IsHigh(n: int) { 0xD800 <= n < 0xDC00 }
  predicate IsLow(n: int) { 0xDC00 <= n < 0xE000 }

  function Escape4(n: nat): (s: string)
    requires n < 0x10000
    ensures |s| == 6
  {
    ['\\', 'u'] + Hex4(n)
  }

  /** The UTF-16 code units of a character, each as a hexadecimal escape. */
  function UnicodeEscape(c: char): (s: string)
    ensures s != []
  {
    var n := c as int;
    if n < 0x10000 then Escape4(n)
    else Escape4(0xD800 + (n - 0x10000) / 0x400) + Escape4(0xDC00 + (n - 0x10000) % 0x400)
  }

  /** How the printer writes a character: the named escapes, controls as hexadecimal, the rest as is. */
  function DumpChar(c: char): (s: string)
    ensures s != []
  {
    if c == '"' then ['\\', '"']
    else if c == '\\' then ['\\', '\\']
    else if c as int == 8 then ['\\', 'b']
    else if c as int == 9 then ['\\', 't']
    else if c as int == 10 then ['\\', 'n']
    else if c as int == 12 then ['\\', 'f']
    else if c as int == 13 then ['\\', 'r']
    else if c as int < 32 then Escape4(c as int)
    else [c]
  }

  /** The code unit a hexadecimal escape at the front of `s` names. */
  function CodeUnit(s: string): (r: Option<nat>)
    ensures r.Some? ==> |s| >= 6 && r.value < 0x10000
  {
    if |s| >= 6 && s[0] == '\\' && s[1] == 'u' then Value4(s[2], s[3], s[4], s[5]) else None
  }

  function Short(c: char): Option<char> {
    if c == '"' || c == '\\' || c == '/' then Some(c)
    else if c == 'b' then Some(8 as char)
    else if c == 't' then Some(9 as char)
    else if c == 'n' then Some(10 as char)
    else if c == 'f' then Some(12 as char)
    else if c == 'r' then Some(13 as char)
    else None
  }

  /** The character at the front of a string body and how much of the body spells it. */
  function Front(s: string): (r: Option<(char, nat)>)
    requires s != []
    ensures r.Some? ==> 1 <= r.value.1 <= |s|
  {
    if s[0] == '"' || s[0] as int < 32 then None
    else if s[0] != '\\' then Some((s[0], 1))
    else if |s| < 2 then None
    else if s[1] != 'u' then (match Short(s[1]) case Some(c) => Some((c, 2)) case None => None)
    else
      match CodeUnit(s)
      case None => None
      case Some(n) =>
        if IsLow(n) then None
        else if !IsHigh(n) then Some((n as char, 6))
        else
          match CodeUnit(s[6..])
          case None => None
          case Some(m) =>
            if IsLow(m) then Some(((0x10000 + (n - 0xD800) * 0x400 + (m - 0xDC00)) as char, 12)) else None
  }

  function DecodeBody(s: string): Option<string> {
    if s == [] then Some([])
    else
      match Front(s)
      case None => None
      case Some(p) =>
        match DecodeBody(s[p.1..])
        case None => None
        case Some(rest) => Some([p.0] + rest)
  }

  lemma Escape4Front(n: nat, t: string)
    requires n < 0x10000
    ensures CodeUnit(Escape4(n) + t) == Some(n) && (Escape4(n) + t)[6..] == t
    ensures (Escape4(n) + t)[0] == '\\' && (Escape4(n) + t)[1] == 'u'
  {
    Hex4Round(n);
    var s := Escape4(n) + t;
    assert s[2] == Hex4(n)[0] && s[3] == Hex4(n)[1] && s[4] == Hex4(n)[2] && s[5] == Hex4(n)[3];
  }

  /** A surrogate pair decodes to the character it was split from. */
  lemma PairRound(m: nat)
    requires m < 0x100000
    ensures var (hi, lo) := (0xD800 + m / 0x400, 0xDC00 + m % 0x400);
            IsHigh(hi) && IsLow(lo) && 0x10000 + (hi - 0xD800) * 0x400 + (lo - 0xDC00) == 0x10000 + m
  {
  }

  lemma PairFront(hi: nat, lo: nat, t: string)
    requires IsHigh(hi) && IsLow(lo)
    ensures Front(Escape4(hi) + (Escape4(lo) + t)) == Some(((0x10000 + (hi - 0xD800) * 0x400 + (lo - 0xDC00)) as char, 12))
  {
    Escape4Front(hi, Escape4(lo) + t);
    Escape4Front(lo, t);
    hide Escape4, CodeUnit;
  }

  lemma UnitFront(n: nat, t: string)
    requires n < 0x10000 && !IsHigh(n) && !IsLow(n)
    ensures Front(Escape4(n) + t) == Some((n as char, 6))
  {
    Escape4Front(n, t);
    hide Escape4, CodeUnit;
  }

  lemma UnicodeFront(c: char, t: string)
    ensures Front(UnicodeEscape(c) + t) == Some((c, |UnicodeEscape(c)|))
  {
    hide Escape4, CodeUnit, Front;
    var n := c as int;
    if n < 0x10000 {
      UnitFront(n, t);
    } else {
      var m := n - 0x10000;
      var hi, lo := 0xD800 + m / 0x400, 0xDC00 + m % 0x400;
      PairRound(m);
      PairFront(hi, lo, t);
      assert (Escape4(hi) + Escape4(lo)) + t == Escape4(hi) + (Escape4(lo) + t);
    }
  }

  lemma DumpFront(c: char, t: string)
    ensures Front(DumpChar(c) + t) == Some((c, |DumpChar(c)|))
  {
    var s := DumpChar(c);
    if |s| == 6 {
      UnitFront(c as int, t);
    } else if |s| == 2 {
      hide CodeUnit, Escape4;
      assert (s + t)[0] == '\\' && (s + t)[1] == s[1] && Short(s[1]) == Some(c);
    } else {
      hide CodeUnit, Escape4;
      assert (s + t)[0] == c;
    }
  }

  /** A character written with the plain or the all-hexadecimal spelling. */
  function Encoded(c: char, hit: bool): (s: string)
    ensures s != []
  {
    if hit then UnicodeEscape(c) else DumpChar(c)
  }

  function EncodeBody(v: string, hits: seq<bool>): string
    requires |hits| == |v|
  {
    if v == [] then [] else Encoded(v[0], hits[0]) + EncodeBody(v[1..], hits[1..])
  }

  lemma EncodedFront(c: char, hit: bool, t: string)
    ensures Front(Encoded(c, hit) + t) == Some((c, |Encoded(c, hit)|)) && (Encoded(c, hit) + t)[|Encoded(c, hit)|..] == t
  {
    if hit { UnicodeFront(c, t); } else { DumpFront(c, t); }
  }

  /** A spelled-out character is one or two groups of a backslash, `u` and four lower-case hexadecimal digits. */
  lemma EscapeForm(c: char)
    ensures |UnicodeEscape(c)| == if c as int < 0x10000 then 6 else 12
    ensures UnicodeForm(UnicodeEscape(c))
  {
    hide *;
    Groups(c);
    var n := c as int;
    if n < 0x10000 {
      GroupForm(n);
    } else {
      GroupForm(0xD800 + (n - 0x10000) / 0x400);
      GroupForm(0xDC00 + (n - 0x10000) % 0x400);
      FormConcat(Escape4(0xD800 + (n - 0x10000) / 0x400), Escape4(0xDC00 + (n - 0x10000) % 0x400));
    }
  }

  ghost predicate UnicodeForm(e: string) {
    forall i | 0 <= i < |e| ::
      if i % 6 == 0 then e[i] == '\\' else if i % 6 == 1 then e[i] == 'u' else '0' <= e[i] <= '9' || 'a' <= e[i] <= 'f'
  }

  lemma Groups(c: char)
    ensures var n := c as int;
            UnicodeEscape(c) == if n < 0x10000 then Escape4(n) else Escape4(0xD800 + (n - 0x10000) / 0x400) + Escape4(0xDC00 + (n - 0x10000) % 0x400)
    ensures c as int < 0x10000 || (0xD800 + (c as int - 0x10000) / 0x400 < 0x10000 && 0xDC00 + (c as int - 0x10000) % 0x400 < 0x10000)
  {
    hide Escape4;
  }

  lemma GroupForm(n: nat)
    requires n < 0x10000
    ensures |Escape4(n)| == 6 && UnicodeForm(Escape4(n))
  {
  }

  lemma FormConcat(a: string, b: string)
    requires |a| == 6 && |b| == 6 && UnicodeForm(a) && UnicodeForm(b)
    ensures UnicodeForm(a + b)
  {
    forall i | 6 <= i < 12
      ensures if i % 6 == 0 then (a + b)[i] == '\\' else if i % 6 == 1 then (a + b)[i] == 'u'
              else '0' <= (a + b)[i] <= '9' || 'a' <= (a + b)[i] <= 'f'
    {
      assert (a + b)[i] == b[i - 6];
    }
  }

  /** A character stands for itself. */
  ghost predicate Raw(c: char) { c != '"' && c != '\\' && c as int >= 32 }

  /** A printed body is the string itself exactly when it holds no quote, backslash or control character: nothing
      else, and nothing beyond ASCII, is escaped. */
  lemma {:induction false} RawIff(v: string, hits: seq<bool>)
    requires |hits| == |v| && forall i | 0 <= i < |hits| :: !hits[i]
    ensures |EncodeBody(v, hits)| >= |v|
    ensures EncodeBody(v, hits) == v <==> forall i | 0 <= i < |v| :: Raw(v[i])
    ensures (exists i :: 0 <= i < |v| && !Raw(v[i])) ==> |EncodeBody(v, hits)| > |v|
  {
    if v != [] {
      RawIff(v[1..], hits[1..]);
      var rest := EncodeBody(v[1..], hits[1..]);
      RawOne(v[0]);
      assert v == [v[0]] + v[1..];
      hide DumpChar, Raw;
      assert forall i | 0 < i < |v| :: v[i] == v[1..][i - 1];
      assert forall i | 0 <= i < |v[1..]| :: v[1..][i] == v[i + 1];
    }
  }

  lemma RawOne(c: char)
    ensures if Raw(c) then DumpChar(c) == [c] else |DumpChar(c)| > 1
  {
  }

  /** Whichever characters are spelled out, the body still says the same string. */
  lemma {:induction false} BodyRoundTrip(v: string, hits: seq<bool>)
    requires |hits| == |v|
    ensures DecodeBody(EncodeBody(v, hits)) == Some(v)
  {
    if v != [] {
      hide Encoded, Front;
      BodyRoundTrip(v[1..], hits[1..]);
      EncodedFront(v[0], hits[0], EncodeBody(v[1..], hits[1..]));
      assert [v[0]] + v[1..] == v;
    }
  }

  // ---------------------------------------------------------------- lexemes

  /** A text is a sequence of string literals and other characters. */
  datatype Lexeme = Quoted(value: string) | Mark(c: char)

  /** Length of a string body up to its closing quote: escaped characters come in pairs. */
  function BodyLength(s: string): (r: Option<nat>)
    ensures r.Some? ==> r.value < |s| && s[r.value] == '"'
  {
    if s == [] then None
    else if s[0] == '"' then Some(0)
    else if s[0] == '\\' then
      if |s| < 2 || s[1] as int == 10 then None
      else (match BodyLength(s[2..]) case Some(n) => Some(n + 2) case None => None)
    else (match BodyLength(s[1..]) case Some(n) => Some(n + 1) case None => None)
  }

  function Lex(s: string): Option<seq<Lexeme>> {
    if s == [] then Some([])
    else if s[0] != '"' then (match Lex(s[1..]) case Some(ls) => Some([Mark(s[0])] + ls) case None => None)
    else
      match BodyLength(s[1..])
      case None => None
      case Some(n) =>
        match (DecodeBody(s[1..1 + n]), Lex(s[2 + n..]))
        case (Some(v), Some(ls)) => Some([Quoted(v)] + ls)
        case _ => None
  }

  lemma {:induction false} BodyOne(c: char, t: string)
    requires c != '"' && c != '\\'
    ensures BodyLength([c] + t) == (match BodyLength(t) case Some(n) => Some(n + 1) case None => None)
  {
    assert ([c] + t)[1..] == t;
  }

  lemma {:induction false} BodyPair(c: char, t: string)
    requires c as int != 10
    ensures BodyLength(['\\', c] + t) == (match BodyLength(t) case Some(n) => Some(n + 2) case None => None)
  {
    assert (['\\', c] + t)[2..] == t;
  }

  lemma Spread(e: string, h: string, t: string)
    requires |h| == 4
    ensures e + h + t == e + ([h[0]] + ([h[1]] + ([h[2]] + ([h[3]] + t))))
  {
  }

  lemma {:induction false} BodyEscape4(n: nat, t: string)
    requires n < 0x10000
    ensures BodyLength(Escape4(n) + t) == (match BodyLength(t) case Some(k) => Some(k + 6) case None => None)
  {
    hide BodyLength, Hex4;
    var h := Hex4(n);
    Spread(['\\', 'u'], h, t);
    BodyPair('u', [h[0]] + ([h[1]] + ([h[2]] + ([h[3]] + t))));
    BodyOne(h[0], [h[1]] + ([h[2]] + ([h[3]] + t)));
    BodyOne(h[1], [h[2]] + ([h[3]] + t));
    BodyOne(h[2], [h[3]] + t);
    BodyOne(h[3], t);
  }

  lemma {:induction false} BodyDumped(c: char, t: string)
    ensures BodyLength(DumpChar(c) + t) == (match BodyLength(t) case Some(n) => Some(n + |DumpChar(c)|) case None => None)
  {
    if |DumpChar(c)| == 1 {
      BodyOne(c, t);
    } else if |DumpChar(c)| == 2 {
      assert DumpChar(c) == ['\\', DumpChar(c)[1]] && DumpChar(c)[1] as int != 10;
      hide DumpChar, BodyLength;
      BodyPair(DumpChar(c)[1], t);
    } else {
      BodyEscape4(c as int, t);
    }
  }

  lemma {:induction false} BodyEncoded(c: char, hit: bool, t: string)
    ensures BodyLength(Encoded(c, hit) + t) == (match BodyLength(t) case Some(n) => Some(n + |Encoded(c, hit)|) case None => None)
  {
    hide BodyLength, Escape4, DumpChar;
    var n := c as int;
    if hit && n >= 0x10000 {
      var hi, lo := 0xD800 + (n - 0x10000) / 0x400, 0xDC00 + (n - 0x10000) % 0x400;
      assert Encoded(c, hit) == Escape4(hi) + Escape4(lo);
      BodyEscape4(hi, Escape4(lo) + t);
      BodyEscape4(lo, t);
      assert (Escape4(hi) + Escape4(lo)) + t == Escape4(hi) + (Escape4(lo) + t);
    } else if hit {
      BodyEscape4(n, t);
    } else {
      BodyDumped(c, t);
    }
  }

  /** An encoded body followed by a quote ends exactly there. */
  lemma {:induction false} EncodedCloses(v: string, hits: seq<bool>, t: string)
    requires |hits| == |v|
    ensures BodyLength(EncodeBody(v, hits) + ['"'] + t) == Some(|EncodeBody(v, hits)|)
  {
    hide *;
    if v == [] {
      BodyEmpty(v, hits, t);
    } else {
      var rest, first := EncodeBody(v[1..], hits[1..]), Encoded(v[0], hits[0]);
      EncodeUnfolds(v, hits);
      EncodedCloses(v[1..], hits[1..], t);
      BodyEncoded(v[0], hits[0], rest + ['"'] + t);
      assert (first + rest) + ['"'] + t == first + (rest + ['"'] + t);
    }
  }

  lemma {:induction false} EncodeUnfolds(v: string, hits: seq<bool>)
    requires |hits| == |v| && v != []
    ensures EncodeBody(v, hits) == Encoded(v[0], hits[0]) + EncodeBody(v[1..], hits[1..])
  {
    hide Encoded;
  }

  lemma {:induction false} BodyEmpty(v: string, hits: seq<bool>, t: string)
    requires |hits| == |v| && v == []
    ensures EncodeBody(v, hits) == [] && BodyLength(EncodeBody(v, hits) + ['"'] + t) == Some(0)
  {
    assert EncodeBody(v, hits) + ['"'] + t == ['"'] + t;
  }

  function Literal(v: string, hits: seq<bool>): string
    requires |hits| == |v|
  {
    ['"'] + EncodeBody(v, hits) + ['"']
  }

  lemma {:induction false} LexLiteral(v: string, hits: seq<bool>, t: string)
    requires |hits| == |v|
    ensures Lex(Literal(v, hits) + t) == (match Lex(t) case Some(ls) => Some([Quoted(v)] + ls) case None => None)
  {
    var body := EncodeBody(v, hits);
    var s := Literal(v, hits) + t;
    EncodedCloses(v, hits, t);
    BodyRoundTrip(v, hits);
    LiteralParts(body, t);
    hide EncodeBody, DecodeBody, BodyLength;
    assert s == ['"'] + body + ['"'] + t;
  }

  lemma LiteralParts(body: string, t: string)
    ensures var s := ['"'] + body + ['"'] + t;
            s[0] == '"' && s[1..] == body + ['"'] + t && s[1..1 + |body|] == body && s[2 + |body|..] == t
  {
  }

  lemma {:induction false} LexMark(c: char, t: string)
    requires c != '"'
    ensures Lex([c] + t) == (match Lex(t) case Some(ls) => Some([Mark(c)] + ls) case None => None)
  {
    assert ([c] + t)[1..] == t;
  }

  /** The lexemes of a text, from its front. */
  lemma {:induction false} LexPlain(s: string)
    requires s != [] && s[0] != '"' && Lex(s).Some?
    ensures Lex(s[1..]).Some? && Lex(s).value == [Mark(s[0])] + Lex(s[1..]).value
  {
    hide BodyLength, DecodeBody;
  }

  lemma {:induction false} LexQuoted(s: string)
    requires s != [] && s[0] == '"' && Lex(s).Some?
    ensures BodyLength(s[1..]).Some? && var n := BodyLength(s[1..]).value;
            && DecodeBody(s[1..1 + n]).Some? && Lex(s[2 + n..]).Some?
            && Lex(s).value == [Quoted(DecodeBody(s[1..1 + n]).value)] + Lex(s[2 + n..]).value
  {
    hide BodyLength, DecodeBody;
  }
}
