/** JSON texts (RFC 8259) over UTF-16 code units: a grammar with every blank in place, and
    the parser that JSON.parse and the readers of BreakGlass agree with.

    A syntax tree prints to exactly one text; `ParseText` finds the tree of a text, and finds
    one exactly when there is one.  The blanks between tokens are a parameter: `wide` admits
    every character of the regular expression class \s, as the delivery reader does. */
module JsonText {
  import opened Domain

  type Unit = u: int | 0 <= u < 0x10000
  type Text = seq<Unit>

  const QUOTE: Unit := 34
  const BACKSLASH: Unit := 92
  const COMMA: Unit := 44
  const COLON: Unit := 58
  const OPEN_BRACKET: Unit := 91
  const CLOSE_BRACKET: Unit := 93
  const OPEN_BRACE: Unit := 123
  const CLOSE_BRACE: Unit := 125
  const MINUS: Unit := 45
  const PLUS: Unit := 43
  const POINT: Unit := 46
  const ZERO: Unit := 48
  const LETTER_U: Unit := 117
  const NULL: Text := [110, 117, 108, 108]
  const TRUE: Text := [116, 114, 117, 101]
  const FALSE: Text := [102, 97, 108, 115, 101]

  predicate IsBlank(u: Unit, wide: bool) {
    || u == 9 || u == 10 || u == 13 || u == 32
    || (wide && (u == 11 || u == 12 || u == 0xA0 || u == 0x1680 || 0x2000 <= u <= 0x200A
                 || u == 0x2028 || u == 0x2029 || u == 0x202F || u == 0x205F || u == 0x3000 || u == 0xFEFF))
  }

  predicate IsDigit(u: Unit) { 48 <= u <= 57 }

  predicate IsHexDigit(u: Unit) { 48 <= u <= 57 || 65 <= u <= 70 || 97 <= u <= 102 }

  function HexValue(u: Unit): (v: int)
    requires IsHexDigit(u)
    ensures 0 <= v < 16
  {
    if u <= 57 then u - 48 else if u <= 70 then u - 55 else u - 87
  }

  predicate AllBlank(t: Text, wide: bool) { forall u <- t :: IsBlank(u, wide) }

  predicate AllDigits(t: Text) { forall u <- t :: IsDigit(u) }

  predicate StartsWith(t: Text, u: Unit) { t != [] && t[0] == u }

  lemma Assoc(a: Text, b: Text, c: Text)
    ensures (a + b) + c == a + (b + c)
  {
  }

  // ---- String literals

  datatype Piece = Plain(unit: Unit) | Short(letter: Unit) | Hex(a: Unit, b: Unit, c: Unit, d: Unit)

  predicate IsShort(u: Unit) { u in {34, 47, 92, 98, 102, 110, 114, 116} }

  predicate PieceOk(p: Piece) {
    match p {
      case Plain(u) => u >= 32 && u != QUOTE && u != BACKSLASH
      case Short(letter) => IsShort(letter)
      case Hex(a, b, c, d) => IsHexDigit(a) && IsHexDigit(b) && IsHexDigit(c) && IsHexDigit(d)
    }
  }

  function ShowPiece(p: Piece): Text {
    match p {
      case Plain(u) => [u]
      case Short(letter) => [BACKSLASH, letter]
      case Hex(a, b, c, d) => [BACKSLASH, LETTER_U, a, b, c, d]
    }
  }

  function DecodePiece(p: Piece): Unit
    requires PieceOk(p)
  {
    match p {
      case Plain(u) => u
      case Short(letter) =>
        if letter == 98 then 8 else if letter == 102 then 12 else if letter == 110 then 10 else if letter == 114 then 13 else if letter == 116 then 9 else letter
      case Hex(a, b, c, d) => 4096 * HexValue(a) + 256 * HexValue(b) + 16 * HexValue(c) + HexValue(d)
    }
  }

  predicate PiecesOk(ps: seq<Piece>) { forall p <- ps :: PieceOk(p) }

  /** The rest of a literal after its opening quote. */
  function ShowPieces(ps: seq<Piece>): Text {
    if ps == [] then [QUOTE] else ShowPiece(ps[0]) + ShowPieces(ps[1..])
  }

  function Decode(ps: seq<Piece>): Text
    requires PiecesOk(ps)
  {
    if ps == [] then [] else [DecodePiece(ps[0])] + Decode(ps[1..])
  }

  datatype Parse<+T> = Fail | Got(value: T, rest: Text)

  lemma PiecesShow(p: Piece, ps: seq<Piece>, rest: Text)
    ensures ShowPieces([p] + ps) + rest == ShowPiece(p) + (ShowPieces(ps) + rest)
  {
    assert ([p] + ps)[1..] == ps;
    Assoc(ShowPiece(p), ShowPieces(ps), rest);
  }

  function ParsePieces(t: Text): (r: Parse<seq<Piece>>)
    ensures r.Got? ==> PiecesOk(r.value) && t == ShowPieces(r.value) + r.rest
    decreases |t|
  {
    if t == [] then Fail
    else if t[0] == QUOTE then Got([], t[1..])
    else match FirstPiece(t) {
      case Fail => Fail
      case Got(p, rest) =>
        match ParsePieces(rest) {
          case Fail => Fail
          case Got(ps, rest') =>
            PiecesShow(p, ps, rest');
            Got([p] + ps, rest')
        }
    }
  }

  function FirstPiece(t: Text): (r: Parse<Piece>)
    requires t != [] && t[0] != QUOTE
    ensures r.Got? ==> PieceOk(r.value) && t == ShowPiece(r.value) + r.rest && |r.rest| < |t|
  {
    if t[0] == BACKSLASH then
      if |t| >= 2 && IsShort(t[1]) then Got(Short(t[1]), t[2..])
      else if |t| >= 6 && t[1] == LETTER_U && PieceOk(Hex(t[2], t[3], t[4], t[5])) then Got(Hex(t[2], t[3], t[4], t[5]), t[6..])
      else Fail
    else if t[0] < 32 then Fail
    else Got(Plain(t[0]), t[1..])
  }

  lemma {:induction false} LiteralsParse(ps: seq<Piece>, rest: Text)
    requires PiecesOk(ps)
    ensures ParsePieces(ShowPieces(ps) + rest) == Got(ps, rest)
  {
    var t := ShowPieces(ps) + rest;
    if ps == [] {
      assert t[1..] == rest;
    } else {
      var tail := ShowPieces(ps[1..]) + rest;
      assert t == ShowPiece(ps[0]) + tail;
      LiteralsParse(ps[1..], rest);
      FirstPieceParses(ps[0], tail);
      assert [ps[0]] + ps[1..] == ps;
    }
  }

  lemma FirstPieceParses(p: Piece, rest: Text)
    requires PieceOk(p)
    ensures ShowPiece(p)[0] != QUOTE && FirstPiece(ShowPiece(p) + rest) == Got(p, rest)
  {
    var t := ShowPiece(p) + rest;
    assert t[|ShowPiece(p)|..] == rest;
  }

  // ---- Numbers

  datatype Sign = NoSign | PlusSign | MinusSign

  datatype Exponent = Exponent(upper: bool, sign: Sign, digits: Text)

  datatype Numeral = Numeral(negative: bool, whole: Text, fraction: Option<Text>, exponent: Option<Exponent>)

  predicate NumeralOk(n: Numeral) {
    && n.whole != [] && AllDigits(n.whole) && (n.whole[0] == ZERO ==> |n.whole| == 1)
    && (n.fraction.Some? ==> n.fraction.value != [] && AllDigits(n.fraction.value))
    && (n.exponent.Some? ==> n.exponent.value.digits != [] && AllDigits(n.exponent.value.digits))
  }

  function ShowFraction(f: Option<Text>): Text { if f.Some? then [POINT] + f.value else [] }

  function ShowSign(s: Sign): Text { match s { case NoSign => [] case PlusSign => [PLUS] case MinusSign => [MINUS] } }

  function ShowExponent(e: Option<Exponent>): Text {
    if e.Some? then [if e.value.upper then 69 else 101] + (ShowSign(e.value.sign) + e.value.digits) else []
  }

  function ShowNumeral(n: Numeral): Text {
    ShowMinus(n.negative) + (n.whole + (ShowFraction(n.fraction) + ShowExponent(n.exponent)))
  }

  function TakeDigits(t: Text): (r: Parse<Text>)
    ensures r.Got? && AllDigits(r.value) && t == r.value + r.rest && (r.rest != [] ==> !IsDigit(r.rest[0]))
  {
    if t == [] || !IsDigit(t[0]) then Got([], t)
    else var r := TakeDigits(t[1..]); Got([t[0]] + r.value, r.rest)
  }

  lemma {:induction false} DigitsParse(ds: Text, rest: Text)
    requires AllDigits(ds) && (rest != [] ==> !IsDigit(rest[0]))
    ensures TakeDigits(ds + rest) == Got(ds, rest)
  {
    if ds == [] {
      assert ds + rest == rest;
    } else {
      assert (ds + rest)[1..] == ds[1..] + rest;
      DigitsParse(ds[1..], rest);
      assert [ds[0]] + ds[1..] == ds;
    }
  }

  function ParseWhole(t: Text): (r: Parse<Text>)
    ensures r.Got? ==> r.value != [] && AllDigits(r.value) && (r.value[0] == ZERO ==> |r.value| == 1) && t == r.value + r.rest
  {
    if StartsWith(t, ZERO) then Got([ZERO], t[1..])
    else if TakeDigits(t).value == [] then Fail
    else TakeDigits(t)
  }

  function ParseFraction(t: Text): (r: Parse<Option<Text>>)
    ensures r.Got? ==> t == ShowFraction(r.value) + r.rest && (r.value.Some? ==> r.value.value != [] && AllDigits(r.value.value))
  {
    if !StartsWith(t, POINT) then Got(None, t)
    else
      var ds := TakeDigits(t[1..]);
      if ds.value == [] then Fail else Got(Some(ds.value), ds.rest)
  }

  function ParseSign(t: Text): (r: Parse<Sign>)
    ensures r.Got? && t == ShowSign(r.value) + r.rest
  {
    if StartsWith(t, PLUS) then Got(PlusSign, t[1..]) else if StartsWith(t, MINUS) then Got(MinusSign, t[1..]) else Got(NoSign, t)
  }

  function ParseExponent(t: Text): (r: Parse<Option<Exponent>>)
    ensures r.Got? ==> t == ShowExponent(r.value) + r.rest && (r.value.Some? ==> r.value.value.digits != [] && AllDigits(r.value.value.digits))
  {
    if !StartsWith(t, 69) && !StartsWith(t, 101) then Got(None, t)
    else
      var sign := ParseSign(t[1..]);
      var ds := TakeDigits(sign.rest);
      if ds.value == [] then Fail
      else
        ExponentShows(t, sign.value, ds.value, ds.rest);
        Got(Some(Exponent(t[0] == 69, sign.value, ds.value)), ds.rest)
  }

  lemma ExponentShows(t: Text, sign: Sign, ds: Text, rest: Text)
    requires t != [] && (t[0] == 69 || t[0] == 101) && t[1..] == ShowSign(sign) + (ds + rest)
    ensures t == ShowExponent(Some(Exponent(t[0] == 69, sign, ds))) + rest
  {
    Assoc(ShowSign(sign), ds, rest);
    Assoc([t[0]], ShowSign(sign) + ds, rest);
    assert t == [t[0]] + t[1..];
  }

  function ParseNumeral(t: Text): (r: Parse<Numeral>)
    ensures r.Got? ==> NumeralOk(r.value) && t == ShowNumeral(r.value) + r.rest
  {
    var negative := StartsWith(t, MINUS);
    match ParseWhole(if negative then t[1..] else t) {
      case Fail => Fail
      case Got(whole, r1) =>
        match ParseFraction(r1) {
          case Fail => Fail
          case Got(fraction, r2) =>
            match ParseExponent(r2) {
              case Fail => Fail
              case Got(exponent, r3) =>
                NumeralShows(t, Numeral(negative, whole, fraction, exponent), r3);
                Got(Numeral(negative, whole, fraction, exponent), r3)
            }
        }
    }
  }

  function ShowMinus(negative: bool): Text { if negative then [MINUS] else [] }

  lemma NumeralShows(t: Text, n: Numeral, rest: Text)
    requires n.negative ==> StartsWith(t, MINUS)
    requires (if n.negative then t[1..] else t) == n.whole + (ShowFraction(n.fraction) + (ShowExponent(n.exponent) + rest))
    ensures t == ShowNumeral(n) + rest
  {
    var f, e := ShowFraction(n.fraction), ShowExponent(n.exponent);
    Assoc(f, e, rest);
    Assoc(n.whole, f + e, rest);
    Assoc(ShowMinus(n.negative), n.whole + (f + e), rest);
    assert n.negative ==> t == [MINUS] + t[1..];
    assert [] + t == t;
  }

  /** What follows does not continue a number. */
  predicate EndsNumber(rest: Text) {
    rest != [] ==> !IsDigit(rest[0]) && rest[0] != POINT && rest[0] != 69 && rest[0] != 101
  }

  lemma SignParses(sign: Sign, ds: Text, rest: Text)
    requires ds != [] && AllDigits(ds)
    ensures ParseSign(ShowSign(sign) + (ds + rest)) == Got(sign, ds + rest)
  {
    var t := ShowSign(sign) + (ds + rest);
    assert t[|ShowSign(sign)|..] == ds + rest;
    assert (ds + rest)[0] == ds[0] && ds[0] in ds;
    assert sign.NoSign? ==> t == ds + rest;
  }

  lemma ExponentParses(e: Option<Exponent>, rest: Text)
    requires e.Some? ==> e.value.digits != [] && AllDigits(e.value.digits)
    requires EndsNumber(rest)
    ensures ParseExponent(ShowExponent(e) + rest) == Got(e, rest)
    ensures EndsFraction(ShowExponent(e) + rest)
  {
    if e.Some? {
      var sign, ds := ShowSign(e.value.sign), e.value.digits;
      var letter: Text := [if e.value.upper then 69 else 101];
      Assoc(letter, sign + ds, rest);
      Assoc(sign, ds, rest);
      var t := ShowExponent(e) + rest;
      assert t == letter + (sign + (ds + rest));
      assert t[1..] == sign + (ds + rest) && t[0] == letter[0];
      SignParses(e.value.sign, ds, rest);
      DigitsParse(ds, rest);
    } else {
      assert ShowExponent(e) + rest == rest;
    }
  }

  predicate EndsFraction(rest: Text) { rest != [] ==> !IsDigit(rest[0]) && rest[0] != POINT }

  lemma FractionParses(f: Option<Text>, rest: Text)
    requires f.Some? ==> f.value != [] && AllDigits(f.value)
    requires EndsFraction(rest)
    ensures ParseFraction(ShowFraction(f) + rest) == Got(f, rest)
    ensures ShowFraction(f) + rest != [] ==> !IsDigit((ShowFraction(f) + rest)[0])
  {
    if f.Some? {
      assert (ShowFraction(f) + rest)[1..] == f.value + rest;
      DigitsParse(f.value, rest);
    } else {
      assert ShowFraction(f) + rest == rest;
    }
  }

  lemma WholeParses(ds: Text, rest: Text)
    requires ds != [] && AllDigits(ds) && (ds[0] == ZERO ==> |ds| == 1) && (rest != [] ==> !IsDigit(rest[0]))
    ensures ParseWhole(ds + rest) == Got(ds, rest)
  {
    if ds[0] == ZERO {
      assert ds == [ZERO] && (ds + rest)[1..] == rest;
    } else {
      DigitsParse(ds, rest);
    }
  }

  lemma NumeralsParse(n: Numeral, rest: Text)
    requires NumeralOk(n) && EndsNumber(rest)
    ensures ParseNumeral(ShowNumeral(n) + rest) == Got(n, rest)
    ensures ShowNumeral(n) != [] && (ShowNumeral(n)[0] == MINUS || IsDigit(ShowNumeral(n)[0]))
  {
    var f, e := ShowFraction(n.fraction), ShowExponent(n.exponent);
    Assoc(f, e, rest);
    Assoc(n.whole, f + e, rest);
    Assoc(ShowMinus(n.negative), n.whole + (f + e), rest);
    ExponentParses(n.exponent, rest);
    FractionParses(n.fraction, e + rest);
    WholeParses(n.whole, f + (e + rest));
    MinusParses(n.negative, n.whole + (f + (e + rest)));
  }

  lemma MinusParses(negative: bool, t: Text)
    requires t != [] && IsDigit(t[0])
    ensures StartsWith(ShowMinus(negative) + t, MINUS) == negative
    ensures (if negative then (ShowMinus(negative) + t)[1..] else ShowMinus(negative) + t) == t
  {
  }

  // ---- Values

  datatype Literal = NullWord | TrueWord | FalseWord

  datatype Tree =
    | Word(literal: Literal)
    | Number(numeral: Numeral)
    | Str(pieces: seq<Piece>)
    | EmptyArray(pad: Text)
    | Arr(elements: Elements)
    | EmptyObject(pad: Text)
    | Obj(members: Members)

  datatype Element = Element(before: Text, tree: Tree, after: Text)

  datatype Elements = LastElement(e: Element) | MoreElements(e: Element, rest: Elements)

  datatype Member = Member(before: Text, key: seq<Piece>, middle: Text, e: Element)

  datatype Members = LastMember(m: Member) | MoreMembers(m: Member, rest: Members)

  function ShowLiteral(l: Literal): Text { match l { case NullWord => NULL case TrueWord => TRUE case FalseWord => FALSE } }

  function Show(c: Tree): Text {
    match c {
      case Word(l) => ShowLiteral(l)
      case Number(n) => ShowNumeral(n)
      case Str(ps) => [QUOTE] + ShowPieces(ps)
      case EmptyArray(pad) => [OPEN_BRACKET] + (pad + [CLOSE_BRACKET])
      case Arr(es) => [OPEN_BRACKET] + ShowElements(es)
      case EmptyObject(pad) => [OPEN_BRACE] + (pad + [CLOSE_BRACE])
      case Obj(ms) => [OPEN_BRACE] + ShowMembers(ms)
    }
  }

  function ShowElement(e: Element): Text { e.before + (Show(e.tree) + e.after) }

  /** The elements of an array up to and with its closing bracket. */
  function ShowElements(es: Elements): Text {
    match es {
      case LastElement(e) => ShowElement(e) + [CLOSE_BRACKET]
      case MoreElements(e, rest) => ShowElement(e) + ([COMMA] + ShowElements(rest))
    }
  }

  function ShowMember(m: Member): Text { m.before + ([QUOTE] + (ShowPieces(m.key) + (m.middle + ([COLON] + ShowElement(m.e))))) }

  function ShowMembers(ms: Members): Text {
    match ms {
      case LastMember(m) => ShowMember(m) + [CLOSE_BRACE]
      case MoreMembers(m, rest) => ShowMember(m) + ([COMMA] + ShowMembers(rest))
    }
  }

  predicate Ok(c: Tree, wide: bool) {
    match c {
      case Word(_) => true
      case Number(n) => NumeralOk(n)
      case Str(ps) => PiecesOk(ps)
      case EmptyArray(pad) => AllBlank(pad, wide)
      case Arr(es) => ElementsOk(es, wide)
      case EmptyObject(pad) => AllBlank(pad, wide)
      case Obj(ms) => MembersOk(ms, wide)
    }
  }

  predicate ElementOk(e: Element, wide: bool) { AllBlank(e.before, wide) && Ok(e.tree, wide) && AllBlank(e.after, wide) }

  predicate ElementsOk(es: Elements, wide: bool) { ElementOk(es.e, wide) && (es.MoreElements? ==> ElementsOk(es.rest, wide)) }

  predicate MemberOk(m: Member, wide: bool) {
    AllBlank(m.before, wide) && PiecesOk(m.key) && AllBlank(m.middle, wide) && ElementOk(m.e, wide)
  }

  predicate MembersOk(ms: Members, wide: bool) { MemberOk(ms.m, wide) && (ms.MoreMembers? ==> MembersOk(ms.rest, wide)) }

  // ---- The parser

  function TakeBlanks(t: Text, wide: bool): (r: Parse<Text>)
    ensures r.Got? && AllBlank(r.value, wide) && t == r.value + r.rest && (r.rest != [] ==> !IsBlank(r.rest[0], wide))
  {
    if t == [] || !IsBlank(t[0], wide) then Got([], t)
    else var r := TakeBlanks(t[1..], wide); Got([t[0]] + r.value, r.rest)
  }

  function ParseValue(t: Text, wide: bool): (r: Parse<Tree>)
    ensures r.Got? ==> Ok(r.value, wide) && t == Show(r.value) + r.rest && |r.rest| < |t|
    decreases |t|, 0
  {
    if t == [] then Fail
    else if t[0] == QUOTE then
      match ParsePieces(t[1..]) {
        case Fail => Fail
        case Got(ps, rest) => Assoc([QUOTE], ShowPieces(ps), rest); Got(Str(ps), rest)
      }
    else if t[0] == OPEN_BRACKET then ParseArray(t, wide)
    else if t[0] == OPEN_BRACE then ParseObject(t, wide)
    else if NULL <= t then Got(Word(NullWord), t[4..])
    else if TRUE <= t then Got(Word(TrueWord), t[4..])
    else if FALSE <= t then Got(Word(FalseWord), t[5..])
    else match ParseNumeral(t) {
      case Fail => Fail
      case Got(n, rest) => Got(Number(n), rest)
    }
  }

  function ParseArray(t: Text, wide: bool): (r: Parse<Tree>)
    requires StartsWith(t, OPEN_BRACKET)
    ensures r.Got? ==> Ok(r.value, wide) && t == Show(r.value) + r.rest && |r.rest| < |t|
    decreases |t| - 1, 3
  {
    var pad := TakeBlanks(t[1..], wide);
    assert t == [OPEN_BRACKET] + t[1..];
    if StartsWith(pad.rest, CLOSE_BRACKET) then
      EmptyShows(OPEN_BRACKET, pad.value, CLOSE_BRACKET, pad.rest);
      Got(EmptyArray(pad.value), pad.rest[1..])
    else match ParseElements(t[1..], wide) {
      case Fail => Fail
      case Got(es, rest) => Assoc([OPEN_BRACKET], ShowElements(es), rest); Got(Arr(es), rest)
    }
  }

  function ParseObject(t: Text, wide: bool): (r: Parse<Tree>)
    requires StartsWith(t, OPEN_BRACE)
    ensures r.Got? ==> Ok(r.value, wide) && t == Show(r.value) + r.rest && |r.rest| < |t|
    decreases |t| - 1, 3
  {
    var pad := TakeBlanks(t[1..], wide);
    assert t == [OPEN_BRACE] + t[1..];
    if StartsWith(pad.rest, CLOSE_BRACE) then
      EmptyShows(OPEN_BRACE, pad.value, CLOSE_BRACE, pad.rest);
      Got(EmptyObject(pad.value), pad.rest[1..])
    else match ParseMembers(t[1..], wide) {
      case Fail => Fail
      case Got(ms, rest) => Assoc([OPEN_BRACE], ShowMembers(ms), rest); Got(Obj(ms), rest)
    }
  }

  lemma EmptyShows(open: Unit, pad: Text, close: Unit, t: Text)
    requires StartsWith(t, close)
    ensures [open] + (pad + t) == ([open] + (pad + [close])) + t[1..]
  {
    assert t == [close] + t[1..];
    Assoc(pad, [close], t[1..]);
    Assoc([open], pad + [close], t[1..]);
  }

  function ParseElement(t: Text, wide: bool): (r: Parse<Element>)
    ensures r.Got? ==> ElementOk(r.value, wide) && t == ShowElement(r.value) + r.rest && |r.rest| < |t|
    decreases |t|, 1
  {
    var before := TakeBlanks(t, wide);
    match ParseValue(before.rest, wide) {
      case Fail => Fail
      case Got(c, rest) =>
        var after := TakeBlanks(rest, wide);
        Assoc(Show(c), after.value, after.rest);
        Assoc(before.value, Show(c) + after.value, after.rest);
        Got(Element(before.value, c, after.value), after.rest)
    }
  }

  function ParseElements(t: Text, wide: bool): (r: Parse<Elements>)
    ensures r.Got? ==> ElementsOk(r.value, wide) && t == ShowElements(r.value) + r.rest && |r.rest| < |t|
    decreases |t|, 2
  {
    match ParseElement(t, wide) {
      case Fail => Fail
      case Got(e, rest) =>
        if StartsWith(rest, CLOSE_BRACKET) then
          LastElementShows(t, e, rest);
          Got(LastElement(e), rest[1..])
        else if StartsWith(rest, COMMA) then
          match ParseElements(rest[1..], wide) {
            case Fail => Fail
            case Got(es, rest') => MoreElementsShow(t, e, rest, es, rest'); Got(MoreElements(e, es), rest')
          }
        else Fail
    }
  }

  lemma LastElementShows(t: Text, e: Element, rest: Text)
    requires t == ShowElement(e) + rest && StartsWith(rest, CLOSE_BRACKET)
    ensures t == ShowElements(LastElement(e)) + rest[1..]
  {
    hide ShowElement;
    assert rest == [CLOSE_BRACKET] + rest[1..];
    Assoc(ShowElement(e), [CLOSE_BRACKET], rest[1..]);
  }

  lemma MoreElementsShow(t: Text, e: Element, rest: Text, es: Elements, rest': Text)
    requires t == ShowElement(e) + rest && StartsWith(rest, COMMA) && rest[1..] == ShowElements(es) + rest'
    ensures t == ShowElements(MoreElements(e, es)) + rest'
  {
    hide ShowElement;
    assert rest == [COMMA] + rest[1..];
    Assoc([COMMA], ShowElements(es), rest');
    Assoc(ShowElement(e), [COMMA] + ShowElements(es), rest');
  }

  function ParseMember(t: Text, wide: bool): (r: Parse<Member>)
    ensures r.Got? ==> MemberOk(r.value, wide) && t == ShowMember(r.value) + r.rest && |r.rest| < |t|
    decreases |t|, 1
  {
    var before := TakeBlanks(t, wide);
    if !StartsWith(before.rest, QUOTE) then Fail
    else match ParsePieces(before.rest[1..]) {
      case Fail => Fail
      case Got(key, r1) =>
        var middle := TakeBlanks(r1, wide);
        if !StartsWith(middle.rest, COLON) then Fail
        else match ParseElement(middle.rest[1..], wide) {
          case Fail => Fail
          case Got(e, r2) =>
            var m := Member(before.value, key, middle.value, e);
            MemberShows(m, r2);
            HeadAndTail(before.rest, QUOTE);
            HeadAndTail(middle.rest, COLON);
            Got(m, r2)
        }
    }
  }

  lemma HeadAndTail(t: Text, u: Unit)
    requires StartsWith(t, u)
    ensures t == [u] + t[1..]
  {
  }

  lemma MemberShows(m: Member, rest: Text)
    ensures ShowMember(m) + rest
         == m.before + ([QUOTE] + (ShowPieces(m.key) + (m.middle + ([COLON] + (ShowElement(m.e) + rest)))))
  {
    var e := [COLON] + ShowElement(m.e);
    var mid := m.middle + e;
    var key := ShowPieces(m.key) + mid;
    Assoc([COLON], ShowElement(m.e), rest);
    Assoc(m.middle, e, rest);
    Assoc(ShowPieces(m.key), mid, rest);
    Assoc([QUOTE], key, rest);
    Assoc(m.before, [QUOTE] + key, rest);
  }

  function ParseMembers(t: Text, wide: bool): (r: Parse<Members>)
    ensures r.Got? ==> MembersOk(r.value, wide) && t == ShowMembers(r.value) + r.rest && |r.rest| < |t|
    decreases |t|, 2
  {
    match ParseMember(t, wide) {
      case Fail => Fail
      case Got(m, rest) =>
        if StartsWith(rest, CLOSE_BRACE) then
          assert rest == [CLOSE_BRACE] + rest[1..];
          Assoc(ShowMember(m), [CLOSE_BRACE], rest[1..]);
          Got(LastMember(m), rest[1..])
        else if StartsWith(rest, COMMA) then
          match ParseMembers(rest[1..], wide) {
            case Fail => Fail
            case Got(ms, rest') =>
              assert rest == [COMMA] + rest[1..];
              Assoc([COMMA], ShowMembers(ms), rest');
              Assoc(ShowMember(m), [COMMA] + ShowMembers(ms), rest');
              Got(MoreMembers(m, ms), rest')
          }
        else Fail
    }
  }

  /** A JSON text is one value with blanks around it. */
  function ParseText(t: Text, wide: bool): (r: Option<Element>)
    ensures r.Some? ==> ElementOk(r.value, wide) && t == ShowElement(r.value)
  {
    match ParseElement(t, wide) {
      case Fail => None
      case Got(e, rest) =>
        assert ShowElement(e) + [] == ShowElement(e);
        if rest == [] then Some(e) else None
    }
  }

  // ---- It finds every tree

  lemma {:induction false} BlanksParse(pad: Text, rest: Text, wide: bool)
    requires AllBlank(pad, wide) && (rest != [] ==> !IsBlank(rest[0], wide))
    ensures TakeBlanks(pad + rest, wide) == Got(pad, rest)
  {
    if pad == [] {
      assert pad + rest == rest;
    } else {
      assert (pad + rest)[1..] == pad[1..] + rest;
      BlanksParse(pad[1..], rest, wide);
      assert [pad[0]] + pad[1..] == pad;
    }
  }

  /** What may follow an element. */
  predicate Delimits(rest: Text) { rest != [] ==> rest[0] == COMMA || rest[0] == CLOSE_BRACKET || rest[0] == CLOSE_BRACE }

  lemma FirstUnit(c: Tree, wide: bool)
    requires Ok(c, wide)
    ensures Show(c) != [] && !IsBlank(Show(c)[0], wide) && Show(c)[0] != CLOSE_BRACKET && Show(c)[0] != CLOSE_BRACE
    ensures c.Number? ==> Show(c)[0] == MINUS || IsDigit(Show(c)[0])
  {
    if c.Number? {
      NumeralsParse(c.numeral, []);
    }
  }

  lemma AfterBlanks(after: Text, rest: Text, wide: bool)
    requires AllBlank(after, wide) && Delimits(rest)
    ensures EndsNumber(after + rest)
  {
    if after != [] {
      assert (after + rest)[0] == after[0] && after[0] in after;
    } else {
      assert after + rest == rest;
    }
  }

  lemma {:induction false} ValuesParse(c: Tree, rest: Text, wide: bool)
    requires Ok(c, wide) && (c.Number? ==> EndsNumber(rest))
    ensures ParseValue(Show(c) + rest, wide) == Got(c, rest)
    decreases c, 0
  {
    hide Show, ShowElements, ShowMembers, ParseValue, ParseElements, ParseMembers, ElementsOk, MembersOk;
    match c {
      case Arr(es) =>
        ElementsParse(es, rest, wide);
        ArrayParses(es, rest, wide);
      case Obj(ms) =>
        MembersParse(ms, rest, wide);
        ObjectParses(ms, rest, wide);
      case _ => ScalarParses(c, rest, wide);
    }
  }

  lemma ScalarParses(c: Tree, rest: Text, wide: bool)
    requires !c.Arr? && !c.Obj? && Ok(c, wide) && (c.Number? ==> EndsNumber(rest))
    ensures ParseValue(Show(c) + rest, wide) == Got(c, rest)
  {
    hide ParseElements, ParseMembers, ParsePieces, ParseNumeral, TakeBlanks, ShowPieces, ShowNumeral;
    var t := Show(c) + rest;
    FirstUnit(c, wide);
    assert t[0] == Show(c)[0];
    match c {
      case Word(l) => assert t[|ShowLiteral(l)|..] == rest;
      case Number(n) => NumeralsParse(n, rest);
      case Str(ps) =>
        assert t[1..] == ShowPieces(ps) + rest;
        LiteralsParse(ps, rest);
      case EmptyArray(pad) => EmptyParses(OPEN_BRACKET, pad, CLOSE_BRACKET, rest, wide);
      case EmptyObject(pad) => EmptyParses(OPEN_BRACE, pad, CLOSE_BRACE, rest, wide);
    }
  }

  lemma ArrayParses(es: Elements, rest: Text, wide: bool)
    requires ElementsOk(es, wide) && ParseElements(ShowElements(es) + rest, wide) == Got(es, rest)
    ensures ParseValue(Show(Arr(es)) + rest, wide) == Got(Arr(es), rest)
  {
    hide ShowElements, ParseElements, ElementsOk, TakeBlanks;
    var t := Show(Arr(es)) + rest;
    assert t[0] == OPEN_BRACKET && t[1..] == ShowElements(es) + rest;
    ElementsOpen(es, rest, wide);
  }

  lemma ObjectParses(ms: Members, rest: Text, wide: bool)
    requires MembersOk(ms, wide) && ParseMembers(ShowMembers(ms) + rest, wide) == Got(ms, rest)
    ensures ParseValue(Show(Obj(ms)) + rest, wide) == Got(Obj(ms), rest)
  {
    hide ShowMembers, ParseMembers, MembersOk, TakeBlanks;
    var t := Show(Obj(ms)) + rest;
    assert t[0] == OPEN_BRACE && t[1..] == ShowMembers(ms) + rest;
    MembersOpen(ms, rest, wide);
  }

  lemma EmptyParses(open: Unit, pad: Text, close: Unit, rest: Text, wide: bool)
    requires AllBlank(pad, wide) && !IsBlank(close, wide)
    ensures
      var t := ([open] + (pad + [close])) + rest;
      && TakeBlanks(t[1..], wide) == Got(pad, [close] + rest)
      && ([close] + rest)[1..] == rest
  {
    Assoc([open], pad + [close], rest);
    Assoc(pad, [close], rest);
    assert ([open] + (pad + ([close] + rest)))[1..] == pad + ([close] + rest);
    BlanksParse(pad, [close] + rest, wide);
  }

  /** Elements never start with the bracket of an empty array. */
  lemma ElementsOpen(es: Elements, rest: Text, wide: bool)
    requires ElementsOk(es, wide)
    ensures !StartsWith(TakeBlanks(ShowElements(es) + rest, wide).rest, CLOSE_BRACKET)
  {
    var c := es.e.tree;
    FirstUnit(c, wide);
    var tail := if es.LastElement? then [CLOSE_BRACKET] else [COMMA] + ShowElements(es.rest);
    Assoc(ShowElement(es.e), tail, rest);
    Assoc(es.e.before, Show(c) + es.e.after, tail + rest);
    var t := (Show(c) + es.e.after) + (tail + rest);
    assert t[0] == Show(c)[0];
    BlanksParse(es.e.before, t, wide);
  }

  lemma MembersOpen(ms: Members, rest: Text, wide: bool)
    requires MembersOk(ms, wide)
    ensures !StartsWith(TakeBlanks(ShowMembers(ms) + rest, wide).rest, CLOSE_BRACE)
  {
    var tail := if ms.LastMember? then [CLOSE_BRACE] else [COMMA] + ShowMembers(ms.rest);
    Assoc(ShowMember(ms.m), tail, rest);
    MemberShows(ms.m, tail + rest);
    BlanksParse(ms.m.before, [QUOTE] + (ShowPieces(ms.m.key) + (ms.m.middle + ([COLON] + (ShowElement(ms.m.e) + (tail + rest))))), wide);
  }

  lemma {:induction false} ElementParses(e: Element, rest: Text, wide: bool)
    requires ElementOk(e, wide) && Delimits(rest)
    ensures ParseElement(ShowElement(e) + rest, wide) == Got(e, rest)
    decreases e, 0
  {
    FirstUnit(e.tree, wide);
    Assoc(e.before, Show(e.tree) + e.after, rest);
    Assoc(Show(e.tree), e.after, rest);
    BlanksParse(e.before, Show(e.tree) + (e.after + rest), wide);
    AfterBlanks(e.after, rest, wide);
    ValuesParse(e.tree, e.after + rest, wide);
    BlanksParse(e.after, rest, wide);
  }

  lemma {:induction false} ElementsParse(es: Elements, rest: Text, wide: bool)
    requires ElementsOk(es, wide)
    ensures ParseElements(ShowElements(es) + rest, wide) == Got(es, rest)
    decreases es, 0
  {
    hide ParseElement, ShowElement, ElementOk, Show, ParseValue;
    match es {
      case LastElement(e) =>
        Assoc(ShowElement(e), [CLOSE_BRACKET], rest);
        ElementParses(e, [CLOSE_BRACKET] + rest, wide);
        assert ([CLOSE_BRACKET] + rest)[1..] == rest;
      case MoreElements(e, es') =>
        Assoc(ShowElement(e), [COMMA] + ShowElements(es'), rest);
        Assoc([COMMA], ShowElements(es'), rest);
        ElementParses(e, [COMMA] + (ShowElements(es') + rest), wide);
        assert ([COMMA] + (ShowElements(es') + rest))[1..] == ShowElements(es') + rest;
        ElementsParse(es', rest, wide);
    }
  }

  lemma {:induction false} MemberParses(m: Member, rest: Text, wide: bool)
    requires MemberOk(m, wide) && Delimits(rest)
    ensures ParseMember(ShowMember(m) + rest, wide) == Got(m, rest)
    decreases m, 0
  {
    var t4 := ShowElement(m.e) + rest;
    var t3 := [COLON] + t4;
    var t2 := m.middle + t3;
    var t1 := [QUOTE] + (ShowPieces(m.key) + t2);
    MemberShows(m, rest);
    BlanksParse(m.before, t1, wide);
    assert t1[1..] == ShowPieces(m.key) + t2;
    LiteralsParse(m.key, t2);
    BlanksParse(m.middle, t3, wide);
    assert t3[1..] == t4;
    ElementParses(m.e, rest, wide);
  }

  lemma {:induction false} MembersParse(ms: Members, rest: Text, wide: bool)
    requires MembersOk(ms, wide)
    ensures ParseMembers(ShowMembers(ms) + rest, wide) == Got(ms, rest)
    decreases ms, 0
  {
    hide ParseMember, ShowMember, MemberOk, Show, ShowElement, ParseValue, ParseElement;
    match ms {
      case LastMember(m) =>
        Assoc(ShowMember(m), [CLOSE_BRACE], rest);
        MemberParses(m, [CLOSE_BRACE] + rest, wide);
        assert ([CLOSE_BRACE] + rest)[1..] == rest;
      case MoreMembers(m, ms') =>
        Assoc(ShowMember(m), [COMMA] + ShowMembers(ms'), rest);
        Assoc([COMMA], ShowMembers(ms'), rest);
        MemberParses(m, [COMMA] + (ShowMembers(ms') + rest), wide);
        assert ([COMMA] + (ShowMembers(ms') + rest))[1..] == ShowMembers(ms') + rest;
        MembersParse(ms', rest, wide);
    }
  }

  /** The parser and the grammar agree: a text parses to a tree exactly when that tree is
      well formed and prints to the text.  So no text has two trees. */
  lemma ParsingIsExact(t: Text, e: Element, wide: bool)
    ensures ParseText(t, wide) == Some(e) <==> ElementOk(e, wide) && ShowElement(e) == t
  {
    if ElementOk(e, wide) && ShowElement(e) == t {
      assert ShowElement(e) + [] == t;
      ElementParses(e, [], wide);
    }
  }
}
