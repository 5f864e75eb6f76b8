/** A text denotes at most one JSON value: the lexemes of values form an unambiguous code. */
module JsonUnique {
  import opened Common
  import opened JsonText
  import opened JsonValue

  /** What may follow a value. */
  predicate Ends(r: seq<Lexeme>) { r == [] || r[0] == Mark(',') || r[0] == Mark(']') || r[0] == Mark('}') }

  lemma Peel(x: Lexeme, t: seq<Lexeme>, y: Lexeme, s: seq<Lexeme>)
    requires [x] + t == [y] + s
    ensures x == y && t == s
  {
    assert ([x] + t)[0] == x && ([y] + s)[0] == y;
    assert ([x] + t)[1..] == t && ([y] + s)[1..] == s;
  }

  lemma Cancel(a: seq<Lexeme>, t: seq<Lexeme>, s: seq<Lexeme>)
    requires a + t == a + s
    ensures t == s
  {
    assert (a + t)[|a|..] == t && (a + s)[|a|..] == s;
  }

  lemma Assoc(a: seq<Lexeme>, b: seq<Lexeme>, c: seq<Lexeme>)
    ensures a + b + c == a + (b + c)
  {
  }

  /** The kind of value a first lexeme announces. */
  datatype Kind = KNull | KTrue | KFalse | KNumber | KStr | KArr | KObj | KNone

  function KindOf(l: Lexeme): Kind {
    if l.Quoted? then KStr
    else if l.c == 'n' then KNull
    else if l.c == 't' then KTrue
    else if l.c == 'f' then KFalse
    else if l.c == '[' then KArr
    else if l.c == '{' then KObj
    else if NumberChar(l.c) then KNumber
    else KNone
  }

  function Announces(v: Json): Kind {
    match v
    case Null => KNull
    case Bool(b) => if b then KTrue else KFalse
    case Number(_) => KNumber
    case Str(_) => KStr
    case Arr(_) => KArr
    case Obj(_) => KObj
  }

  lemma {:induction false} FirstLexeme(v: Json)
    requires Valid(v)
    ensures Lexemes(v) != [] && KindOf(Lexemes(v)[0]) == Announces(v) != KNone
  {
    hide LexItems, LexFields;
  }

  lemma {:induction false} FrontMark(s: string, r: seq<Lexeme>)
    requires s != [] && NumberChar(s[0])
    ensures Marks(s) + r != [] && !Ends(Marks(s) + r)
  {
    assert (Marks(s) + r)[0] == Mark(s[0]);
  }

  lemma {:induction false} MarksUnique(a: string, b: string, r: seq<Lexeme>, q: seq<Lexeme>)
    requires (forall i | 0 <= i < |a| :: NumberChar(a[i])) && (forall i | 0 <= i < |b| :: NumberChar(b[i]))
    requires Ends(r) && Ends(q) && Marks(a) + r == Marks(b) + q
    ensures a == b && r == q
    decreases |a|
  {
    if a == [] || b == [] {
      assert [] + r == r && [] + q == q;
      if a != [] {
        FrontMark(a, r);
        assert false;
      }
      if b != [] {
        FrontMark(b, q);
        assert false;
      }
    } else {
      Assoc([Mark(a[0])], Marks(a[1..]), r);
      Assoc([Mark(b[0])], Marks(b[1..]), q);
      Peel(Mark(a[0]), Marks(a[1..]) + r, Mark(b[0]), Marks(b[1..]) + q);
      MarksUnique(a[1..], b[1..], r, q);
      assert a == [a[0]] + a[1..] && b == [b[0]] + b[1..];
    }
  }

  lemma {:induction false} SameKind(v: Json, w: Json, r: seq<Lexeme>, q: seq<Lexeme>)
    requires Valid(v) && Valid(w) && Lexemes(v) + r == Lexemes(w) + q
    ensures Announces(v) == Announces(w)
  {
    hide Lexemes;
    FirstLexeme(v);
    FirstLexeme(w);
    assert (Lexemes(v) + r)[0] == Lexemes(v)[0] && (Lexemes(w) + q)[0] == Lexemes(w)[0];
  }

  lemma {:induction false} ArrShape(xs: seq<Json>, r: seq<Lexeme>)
    ensures Lexemes(Arr(xs)) + r == [Mark('[')] + (LexItems(xs) + ([Mark(']')] + r))
  {
    hide LexItems;
    Assoc([Mark('[')], LexItems(xs) + [Mark(']')], r);
    Assoc(LexItems(xs), [Mark(']')], r);
  }

  lemma {:induction false} ObjShape(fs: seq<Field>, r: seq<Lexeme>)
    ensures Lexemes(Obj(fs)) + r == [Mark('{')] + (LexFields(fs) + ([Mark('}')] + r))
  {
    hide LexFields;
    Assoc([Mark('{')], LexFields(fs) + [Mark('}')], r);
    Assoc(LexFields(fs), [Mark('}')], r);
  }

  lemma {:induction false} ValueUnique(v: Json, w: Json, r: seq<Lexeme>, q: seq<Lexeme>)
    requires Valid(v) && Valid(w) && Ends(r) && Ends(q) && Lexemes(v) + r == Lexemes(w) + q
    ensures v == w && r == q
    decreases v, 0
  {
    hide LexItems, LexFields, Marks, ValidItems, ValidFields;
    SameKind(v, w, r, q);
    match v
    case Null => Cancel(Marks("null"), r, q);
    case Bool(b) => Cancel(Lexemes(v), r, q);
    case Number(t) => MarksUnique(t, w.text, r, q);
    case Str(s) => Peel(Quoted(s), r, Quoted(w.s), q);
    case Arr(xs) =>
      ArrShape(xs, r);
      ArrShape(w.items, q);
      Peel(Mark('['), LexItems(xs) + ([Mark(']')] + r), Mark('['), LexItems(w.items) + ([Mark(']')] + q));
      ItemsUnique(xs, w.items, r, q);
    case Obj(fs) =>
      ObjShape(fs, r);
      ObjShape(w.fields, q);
      Peel(Mark('{'), LexFields(fs) + ([Mark('}')] + r), Mark('{'), LexFields(w.fields) + ([Mark('}')] + q));
      FieldsUnique(fs, w.fields, r, q);
  }

  /** After a value: the rest of the array, then its bracket. */
  lemma {:induction false} MoreEnds(xs: seq<Json>, r: seq<Lexeme>)
    ensures Ends(LexMore(xs) + ([Mark(']')] + r))
    ensures (LexMore(xs) + ([Mark(']')] + r))[0] == if xs == [] then Mark(']') else Mark(',')
  {
  }

  lemma {:induction false} ItemsShape(xs: seq<Json>, r: seq<Lexeme>)
    requires xs != []
    ensures LexItems(xs) + r == Lexemes(xs[0]) + (LexMore(xs[1..]) + r)
    ensures LexMore(xs) + r == [Mark(',')] + (Lexemes(xs[0]) + (LexMore(xs[1..]) + r))
  {
    var a, b := Lexemes(xs[0]), LexMore(xs[1..]);
    assert LexItems(xs) == a + b && LexMore(xs) == [Mark(',')] + (a + b);
    hide *;
    Assoc(a, b, r);
    Assoc([Mark(',')], a + b, r);
  }

  lemma {:induction false} NotEmptyItems(x: Json, t: seq<Lexeme>, c: char, r: seq<Lexeme>)
    requires Valid(x) && (c == ']' || c == '}')
    ensures Lexemes(x) + t != [Mark(c)] + r
  {
    FirstLexeme(x);
    hide Lexemes;
    assert (Lexemes(x) + t)[0] == Lexemes(x)[0] && ([Mark(c)] + r)[0] == Mark(c);
  }

  lemma {:induction false} ItemsUnique(xs: seq<Json>, ys: seq<Json>, r: seq<Lexeme>, q: seq<Lexeme>)
    requires ValidItems(xs) && ValidItems(ys)
    requires LexItems(xs) + ([Mark(']')] + r) == LexItems(ys) + ([Mark(']')] + q)
    ensures xs == ys && r == q
    decreases xs, 1
  {
    var (a, b) := ([Mark(']')] + r, [Mark(']')] + q);
    assert [] + a == a && [] + b == b;
    hide Lexemes, LexMore;
    if xs == [] && ys == [] {
      Peel(Mark(']'), r, Mark(']'), q);
    } else if xs == [] {
      ItemsShape(ys, b);
      NotEmptyItems(ys[0], LexMore(ys[1..]) + b, ']', r);
      assert false;
    } else if ys == [] {
      ItemsShape(xs, a);
      NotEmptyItems(xs[0], LexMore(xs[1..]) + a, ']', q);
      assert false;
    } else {
      ItemsShape(xs, a);
      ItemsShape(ys, b);
      MoreEnds(xs[1..], r);
      MoreEnds(ys[1..], q);
      ValueUnique(xs[0], ys[0], LexMore(xs[1..]) + a, LexMore(ys[1..]) + b);
      MoreUnique(xs[1..], ys[1..], r, q);
      assert xs == [xs[0]] + xs[1..] && ys == [ys[0]] + ys[1..];
    }
  }

  lemma {:induction false} MoreUnique(xs: seq<Json>, ys: seq<Json>, r: seq<Lexeme>, q: seq<Lexeme>)
    requires ValidItems(xs) && ValidItems(ys)
    requires LexMore(xs) + ([Mark(']')] + r) == LexMore(ys) + ([Mark(']')] + q)
    ensures xs == ys && r == q
    decreases xs, 1
  {
    var (a, b) := ([Mark(']')] + r, [Mark(']')] + q);
    MoreEnds(xs, r);
    MoreEnds(ys, q);
    if xs == [] {
      assert [] + a == a && [] + b == b;
      Peel(Mark(']'), r, Mark(']'), q);
    } else {
      hide Lexemes, LexMore;
      ItemsShape(xs, a);
      ItemsShape(ys, b);
      var (m, n) := (LexMore(xs[1..]) + a, LexMore(ys[1..]) + b);
      Peel(Mark(','), Lexemes(xs[0]) + m, Mark(','), Lexemes(ys[0]) + n);
      MoreEnds(xs[1..], r);
      MoreEnds(ys[1..], q);
      ValueUnique(xs[0], ys[0], m, n);
      MoreUnique(xs[1..], ys[1..], r, q);
      assert xs == [xs[0]] + xs[1..] && ys == [ys[0]] + ys[1..];
    }
  }

  lemma {:induction false} RestEnds(fs: seq<Field>, r: seq<Lexeme>)
    ensures Ends(LexRest(fs) + ([Mark('}')] + r))
    ensures (LexRest(fs) + ([Mark('}')] + r))[0] == if fs == [] then Mark('}') else Mark(',')
  {
  }

  lemma {:induction false} FieldsShape(fs: seq<Field>, r: seq<Lexeme>)
    requires fs != []
    ensures var t := Lexemes(fs[0].value) + (LexRest(fs[1..]) + r);
            && LexFields(fs) + r == [Quoted(fs[0].key)] + ([Mark(':')] + t)
            && LexRest(fs) + r == [Mark(',')] + ([Quoted(fs[0].key)] + ([Mark(':')] + t))
  {
    var (a, b, k) := (Lexemes(fs[0].value), LexRest(fs[1..]), fs[0].key);
    assert LexFields(fs) == [Quoted(k)] + ([Mark(':')] + (a + b));
    assert LexRest(fs) == [Mark(',')] + ([Quoted(k)] + ([Mark(':')] + (a + b)));
    hide *;
    Assoc(a, b, r);
    Assoc([Mark(':')], a + b, r);
    Assoc([Quoted(k)], [Mark(':')] + (a + b), r);
    Assoc([Mark(',')], [Quoted(k)] + ([Mark(':')] + (a + b)), r);
  }

  lemma NotClosing(k: string, t: seq<Lexeme>, r: seq<Lexeme>)
    ensures [Quoted(k)] + t != [Mark('}')] + r
  {
    assert ([Quoted(k)] + t)[0] == Quoted(k) && ([Mark('}')] + r)[0] == Mark('}');
  }

  lemma {:induction false} FieldsUnique(fs: seq<Field>, gs: seq<Field>, r: seq<Lexeme>, q: seq<Lexeme>)
    requires ValidFields(fs) && ValidFields(gs)
    requires LexFields(fs) + ([Mark('}')] + r) == LexFields(gs) + ([Mark('}')] + q)
    ensures fs == gs && r == q
    decreases fs, 1
  {
    var (a, b) := ([Mark('}')] + r, [Mark('}')] + q);
    assert [] + a == a && [] + b == b;
    hide Lexemes, LexRest;
    if fs == [] && gs == [] {
      Peel(Mark('}'), r, Mark('}'), q);
    } else if fs == [] {
      FieldsShape(gs, b);
      NotClosing(gs[0].key, [Mark(':')] + (Lexemes(gs[0].value) + (LexRest(gs[1..]) + b)), r);
      assert false;
    } else if gs == [] {
      FieldsShape(fs, a);
      NotClosing(fs[0].key, [Mark(':')] + (Lexemes(fs[0].value) + (LexRest(fs[1..]) + a)), q);
      assert false;
    } else {
      FieldsShape(fs, a);
      FieldsShape(gs, b);
      OneField(fs, gs, r, q);
    }
  }

  /** Two nonempty field lists with the same lexemes: same first field, then the same rest. */
  lemma {:induction false} OneField(fs: seq<Field>, gs: seq<Field>, r: seq<Lexeme>, q: seq<Lexeme>)
    requires ValidFields(fs) && ValidFields(gs) && fs != [] && gs != []
    requires [Quoted(fs[0].key)] + ([Mark(':')] + (Lexemes(fs[0].value) + (LexRest(fs[1..]) + ([Mark('}')] + r))))
          == [Quoted(gs[0].key)] + ([Mark(':')] + (Lexemes(gs[0].value) + (LexRest(gs[1..]) + ([Mark('}')] + q))))
    ensures fs == gs && r == q
    decreases fs, 0
  {
    hide Lexemes, LexRest;
    var (m, n) := (LexRest(fs[1..]) + ([Mark('}')] + r), LexRest(gs[1..]) + ([Mark('}')] + q));
    Peel(Quoted(fs[0].key), [Mark(':')] + (Lexemes(fs[0].value) + m), Quoted(gs[0].key), [Mark(':')] + (Lexemes(gs[0].value) + n));
    Peel(Mark(':'), Lexemes(fs[0].value) + m, Mark(':'), Lexemes(gs[0].value) + n);
    RestEnds(fs[1..], r);
    RestEnds(gs[1..], q);
    ValueUnique(fs[0].value, gs[0].value, m, n);
    RestUnique(fs[1..], gs[1..], r, q);
    assert fs == [fs[0]] + fs[1..] && gs == [gs[0]] + gs[1..];
  }

  lemma {:induction false} RestUnique(fs: seq<Field>, gs: seq<Field>, r: seq<Lexeme>, q: seq<Lexeme>)
    requires ValidFields(fs) && ValidFields(gs)
    requires LexRest(fs) + ([Mark('}')] + r) == LexRest(gs) + ([Mark('}')] + q)
    ensures fs == gs && r == q
    decreases fs, 1
  {
    var (a, b) := ([Mark('}')] + r, [Mark('}')] + q);
    RestEnds(fs, r);
    RestEnds(gs, q);
    if fs == [] {
      assert [] + a == a && [] + b == b;
      Peel(Mark('}'), r, Mark('}'), q);
    } else {
      hide Lexemes, LexRest;
      FieldsShape(fs, a);
      FieldsShape(gs, b);
      Peel(Mark(','), [Quoted(fs[0].key)] + ([Mark(':')] + (Lexemes(fs[0].value) + (LexRest(fs[1..]) + a))),
           Mark(','), [Quoted(gs[0].key)] + ([Mark(':')] + (Lexemes(gs[0].value) + (LexRest(gs[1..]) + b))));
      OneField(fs, gs, r, q);
    }
  }

  /** A text denotes at most one value. */
  lemma {:induction false} DenotesOne(text: string, v: Json, w: Json)
    requires Valid(v) && Valid(w) && Denotes(text, v) && Denotes(text, w)
    ensures v == w
  {
    hide Lexemes, Lex;
    assert Lexemes(v) + [] == Lexemes(v) && Lexemes(w) + [] == Lexemes(w);
    ValueUnique(v, w, [], []);
  }

  /** Printing is injective. */
  lemma {:induction false} PrintInjective(v: Json, w: Json)
    requires Valid(v) && Valid(w) && Print(v) == Print(w)
    ensures v == w
  {
    hide Denotes, Print;
    PrintDenotes(v);
    PrintDenotes(w);
    DenotesOne(Print(v), v, w);
  }
}
