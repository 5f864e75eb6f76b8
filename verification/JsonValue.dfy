/** JSON values, the canonical printer, and what a text denotes. */
module JsonValue {
  import opened Common
  import opened JsonText

  /** A number carries its printed form. */
  datatype Json =
    | Null
    | Bool(b: bool)
    | Number(text: string)
    | Str(s: string)
    | Arr(items: seq<Json>)
    | Obj(fields: seq<Field>)

  datatype Field = Field(key: string, value: Json)

  predicate NumberChar(c: char) { '0' <= c <= '9' || c == '+' || c == '-' || c == '.' || c == 'e' }

  predicate NumberText(s: string) { s != [] && forall i | 0 <= i < |s| :: NumberChar(s[i]) }

  /** Every number in the value is printed with number characters. */
  ghost predicate Valid(v: Json) {
    match v
    case Number(t) => NumberText(t)
    case Arr(xs) => ValidItems(xs)
    case Obj(fs) => ValidFields(fs)
    case _ => true
  }

  ghost predicate ValidItems(xs: seq<Json>) { xs == [] || (Valid(xs[0]) && ValidItems(xs[1..])) }

  ghost predicate ValidFields(fs: seq<Field>) { fs == [] || (Valid(fs[0].value) && ValidFields(fs[1..])) }

  function NoHits(s: string): (r: seq<bool>)
    ensures |r| == |s| && forall i | 0 <= i < |r| :: !r[i]
  {
    seq(|s|, _ => false)
  }

  // ---------------------------------------------------------------- printing

  /** Compact separators, keys in the order given. */
  function Print(v: Json): string {
    match v
    case Null => "null"
    case Bool(b) => if b then "true" else "false"
    case Number(t) => t
    case Str(s) => Literal(s, NoHits(s))
    case Arr(xs) => "[" + (PrintItems(xs) + "]")
    case Obj(fs) => "{" + (PrintFields(fs) + "}")
  }

  function PrintItems(xs: seq<Json>): string {
    if xs == [] then [] else Print(xs[0]) + PrintMore(xs[1..])
  }

  function PrintMore(xs: seq<Json>): string {
    if xs == [] then [] else "," + (Print(xs[0]) + PrintMore(xs[1..]))
  }

  function PrintFields(fs: seq<Field>): string {
    if fs == [] then []
    else Literal(fs[0].key, NoHits(fs[0].key)) + (":" + (Print(fs[0].value) + PrintRest(fs[1..])))
  }

  function PrintRest(fs: seq<Field>): string {
    if fs == [] then []
    else "," + (Literal(fs[0].key, NoHits(fs[0].key)) + (":" + (Print(fs[0].value) + PrintRest(fs[1..]))))
  }

  // ---------------------------------------------------------------- lexemes of a value

  function Marks(s: string): seq<Lexeme> { if s == [] then [] else [Mark(s[0])] + Marks(s[1..]) }

  function Lexemes(v: Json): seq<Lexeme> {
    match v
    case Null => Marks("null")
    case Bool(b) => if b then Marks("true") else Marks("false")
    case Number(t) => Marks(t)
    case Str(s) => [Quoted(s)]
    case Arr(xs) => [Mark('[')] + (LexItems(xs) + [Mark(']')])
    case Obj(fs) => [Mark('{')] + (LexFields(fs) + [Mark('}')])
  }

  function LexItems(xs: seq<Json>): seq<Lexeme> {
    if xs == [] then [] else Lexemes(xs[0]) + LexMore(xs[1..])
  }

  function LexMore(xs: seq<Json>): seq<Lexeme> {
    if xs == [] then [] else [Mark(',')] + (Lexemes(xs[0]) + LexMore(xs[1..]))
  }

  function LexFields(fs: seq<Field>): seq<Lexeme> {
    if fs == [] then [] else [Quoted(fs[0].key)] + ([Mark(':')] + (Lexemes(fs[0].value) + LexRest(fs[1..])))
  }

  function LexRest(fs: seq<Field>): seq<Lexeme> {
    if fs == [] then [] else [Mark(',')] + ([Quoted(fs[0].key)] + ([Mark(':')] + (Lexemes(fs[0].value) + LexRest(fs[1..]))))
  }

  /** What a text denotes: its lexemes, with string literals decoded, are the value's. */
  ghost predicate Denotes(text: string, v: Json) { Lex(text) == Some(Lexemes(v)) }

  /** `text` lexes to `front` in front of whatever follows it. */
  ghost predicate Spells(text: string, front: seq<Lexeme>) {
    forall t: string, ls: seq<Lexeme> | Lex(t) == Some(ls) :: Lex(text + t) == Some(front + ls)
  }

  lemma SpellsNothing()
    ensures Spells([], [])
  {
    forall t: string, ls: seq<Lexeme> | Lex(t) == Some(ls) ensures Lex([] + t) == Some([] + ls) {
      assert [] + t == t && [] + ls == ls;
    }
  }

  lemma SpellsConcat(a: string, la: seq<Lexeme>, b: string, lb: seq<Lexeme>)
    requires Spells(a, la) && Spells(b, lb)
    ensures Spells(a + b, la + lb)
  {
    hide Lex;
    forall t: string, ls: seq<Lexeme> | Lex(t) == Some(ls) ensures Lex(a + b + t) == Some(la + lb + ls) {
      assert Lex(b + t) == Some(lb + ls);
      assert Lex(a + (b + t)) == Some(la + (lb + ls));
      assert a + b + t == a + (b + t) && la + lb + ls == la + (lb + ls);
    }
  }

  lemma SpellsMark(c: char)
    requires c != '"'
    ensures Spells([c], [Mark(c)])
  {
    hide Lex;
    forall t: string, ls: seq<Lexeme> | Lex(t) == Some(ls) ensures Lex([c] + t) == Some([Mark(c)] + ls) { LexMark(c, t); }
  }

  lemma {:induction false} SpellsMarks(s: string)
    requires '"' !in s
    ensures Spells(s, Marks(s))
  {
    hide Spells;
    if s == [] {
      SpellsNothing();
    } else {
      SpellsMark(s[0]);
      SpellsMarks(s[1..]);
      SpellsConcat([s[0]], [Mark(s[0])], s[1..], Marks(s[1..]));
      assert s == [s[0]] + s[1..];
    }
  }

  lemma SpellsLiteral(v: string, hits: seq<bool>)
    requires |hits| == |v|
    ensures Spells(Literal(v, hits), [Quoted(v)])
  {
    hide Lex, Literal;
    forall t: string, ls: seq<Lexeme> | Lex(t) == Some(ls) ensures Lex(Literal(v, hits) + t) == Some([Quoted(v)] + ls) {
      LexLiteral(v, hits, t);
    }
  }

  lemma {:induction false} SpellsWhole(text: string, front: seq<Lexeme>)
    requires Spells(text, front)
    ensures Lex(text) == Some(front)
  {
    assert Lex([]) == Some([]);
    assert text + [] == text && front + [] == front;
  }

  // ---------------------------------------------------------------- the printer denotes its value

  lemma {:induction false} PrintSpells(v: Json)
    requires Valid(v)
    ensures Spells(Print(v), Lexemes(v))
    decreases v
  {
    hide Spells;
    match v
    case Null => SpellsMarks("null");
    case Bool(b) => SpellsMarks("true"); SpellsMarks("false");
    case Number(t) => SpellsMarks(t);
    case Str(s) => SpellsLiteral(s, NoHits(s));
    case Arr(xs) =>
      SpellsMark('[');
      SpellsMark(']');
      ItemsSpell(xs);
      SpellsConcat(PrintItems(xs), LexItems(xs), "]", [Mark(']')]);
      SpellsConcat("[", [Mark('[')], PrintItems(xs) + "]", LexItems(xs) + [Mark(']')]);
    case Obj(fs) =>
      SpellsMark('{');
      SpellsMark('}');
      FieldsSpell(fs);
      SpellsConcat(PrintFields(fs), LexFields(fs), "}", [Mark('}')]);
      SpellsConcat("{", [Mark('{')], PrintFields(fs) + "}", LexFields(fs) + [Mark('}')]);
  }

  lemma {:induction false} ItemsSpell(xs: seq<Json>)
    requires ValidItems(xs)
    ensures Spells(PrintItems(xs), LexItems(xs))
    decreases xs
  {
    hide Spells;
    if xs == [] {
      SpellsNothing();
    } else {
      PrintSpells(xs[0]);
      MoreSpell(xs[1..]);
      SpellsConcat(Print(xs[0]), Lexemes(xs[0]), PrintMore(xs[1..]), LexMore(xs[1..]));
    }
  }

  lemma {:induction false} MoreSpell(xs: seq<Json>)
    requires ValidItems(xs)
    ensures Spells(PrintMore(xs), LexMore(xs))
    decreases xs
  {
    hide Spells;
    if xs == [] {
      SpellsNothing();
    } else {
      PrintSpells(xs[0]);
      MoreSpell(xs[1..]);
      SpellsMark(',');
      SpellsConcat(Print(xs[0]), Lexemes(xs[0]), PrintMore(xs[1..]), LexMore(xs[1..]));
      SpellsConcat(",", [Mark(',')], Print(xs[0]) + PrintMore(xs[1..]), Lexemes(xs[0]) + LexMore(xs[1..]));
    }
  }

  lemma FieldSpells(k: string, p: string, lp: seq<Lexeme>)
    requires Spells(p, lp)
    ensures Spells(Literal(k, NoHits(k)) + (":" + p), [Quoted(k)] + ([Mark(':')] + lp))
  {
    hide Spells, Literal;
    SpellsMark(':');
    SpellsLiteral(k, NoHits(k));
    SpellsConcat(":", [Mark(':')], p, lp);
    SpellsConcat(Literal(k, NoHits(k)), [Quoted(k)], ":" + p, [Mark(':')] + lp);
  }

  lemma {:induction false} FieldsSpell(fs: seq<Field>)
    requires ValidFields(fs)
    ensures Spells(PrintFields(fs), LexFields(fs))
    decreases fs
  {
    hide Spells, Literal;
    if fs == [] {
      SpellsNothing();
    } else {
      PrintSpells(fs[0].value);
      RestSpell(fs[1..]);
      SpellsConcat(Print(fs[0].value), Lexemes(fs[0].value), PrintRest(fs[1..]), LexRest(fs[1..]));
      FieldSpells(fs[0].key, Print(fs[0].value) + PrintRest(fs[1..]), Lexemes(fs[0].value) + LexRest(fs[1..]));
    }
  }

  lemma {:induction false} RestSpell(fs: seq<Field>)
    requires ValidFields(fs)
    ensures Spells(PrintRest(fs), LexRest(fs))
    decreases fs
  {
    hide Spells, Literal;
    if fs == [] {
      SpellsNothing();
    } else {
      PrintSpells(fs[0].value);
      RestSpell(fs[1..]);
      SpellsMark(',');
      SpellsConcat(Print(fs[0].value), Lexemes(fs[0].value), PrintRest(fs[1..]), LexRest(fs[1..]));
      var (p, lp) := (Print(fs[0].value) + PrintRest(fs[1..]), Lexemes(fs[0].value) + LexRest(fs[1..]));
      FieldSpells(fs[0].key, p, lp);
      SpellsConcat(",", [Mark(',')], Literal(fs[0].key, NoHits(fs[0].key)) + (":" + p), [Quoted(fs[0].key)] + ([Mark(':')] + lp));
    }
  }

  /** Printing and reading back give the value. */
  lemma {:induction false} PrintDenotes(v: Json)
    requires Valid(v)
    ensures Denotes(Print(v), v)
  {
    hide Spells, Print, Lexemes, Lex;
    PrintSpells(v);
    SpellsWhole(Print(v), Lexemes(v));
  }
}
