/** `Buffer.from(text, "utf8")` on UTF-16 texts, and why the canonical form can be signed:
    it contains no lone surrogate, and on such texts the encoding loses nothing. */
module Utf8 {
  import opened Domain
  import opened JsonText
  import opened Canonical

  type Byte = b: int | 0 <= b < 256

  /** Every surrogate is half of a pair. */
  predicate Paired(t: Text) {
    t == [] ||
    (if IsHigh(t[0]) then |t| >= 2 && IsLow(t[1]) && Paired(t[2..]) else !IsLow(t[0]) && Paired(t[1..]))
  }

  function Low6(n: int): Byte
    requires 0 <= n
  {
    128 + n % 64
  }

  /** One Unicode scalar value. */
  function EncodePoint(p: int): seq<Byte>
    requires 0 <= p < 0x11_0000
  {
    if p < 0x80 then [p]
    else if p < 0x800 then [192 + p / 64, Low6(p)]
    else if p < 0x1_0000 then [224 + p / 4096, Low6(p / 64), Low6(p)]
    else [240 + p / 262144, Low6(p / 4096), Low6(p / 64), Low6(p)]
  }

  function PairPoint(high: Unit, low: Unit): (p: int)
    requires IsHigh(high) && IsLow(low)
    ensures 0x1_0000 <= p < 0x11_0000
  {
    0x1_0000 + (high - 0xD800) * 0x400 + (low - 0xDC00)
  }

  const REPLACEMENT := 0xFFFD

  /** A lone surrogate is encoded as U+FFFD. */
  function Encode(t: Text): seq<Byte> {
    if t == [] then []
    else if |t| >= 2 && IsHigh(t[0]) && IsLow(t[1]) then EncodePoint(PairPoint(t[0], t[1])) + Encode(t[2..])
    else EncodePoint(if IsSurrogate(t[0]) then REPLACEMENT else t[0]) + Encode(t[1..])
  }

  // ---- Decoding

  function Lead(b: Byte): nat { if b < 192 then 1 else if b < 224 then 2 else if b < 240 then 3 else 4 }

  lemma PointsAreRecovered(p: int, q: int)
    requires 0 <= p < 0x11_0000 && 0 <= q < 0x11_0000
    ensures |EncodePoint(p)| == Lead(EncodePoint(p)[0])
    ensures EncodePoint(p) == EncodePoint(q) ==> p == q
  {
    var a, b := p / 64, q / 64;
    var c, d := a / 64, b / 64;
    assert p / 4096 == c && q / 4096 == d;
    assert p / 262144 == c / 64 && q / 262144 == d / 64;
    if EncodePoint(p) == EncodePoint(q) {
      var x, y := EncodePoint(p), EncodePoint(q);
      assert x[0] == y[0] && x[|x| - 1] == y[|y| - 1];
      if |x| > 2 {
        assert x[1] == y[1] && x[|x| - 2] == y[|y| - 2];
      }
    }
  }

  lemma SplitPoints(p: int, s: seq<Byte>, q: int, t: seq<Byte>)
    requires 0 <= p < 0x11_0000 && 0 <= q < 0x11_0000
    requires EncodePoint(p) + s == EncodePoint(q) + t
    ensures p == q && s == t
  {
    PointsAreRecovered(p, q);
    PointsAreRecovered(q, p);
    var x, y := EncodePoint(p), EncodePoint(q);
    assert (x + s)[0] == x[0] && (y + t)[0] == y[0];
    assert x == (x + s)[..|x|] && y == (y + t)[..|x|];
    assert s == (x + s)[|x|..] && t == (y + t)[|x|..];
  }

  function FirstPoint(t: Text): (p: int)
    requires t != []
    ensures 0 <= p < 0x11_0000
  {
    if |t| >= 2 && IsHigh(t[0]) && IsLow(t[1]) then PairPoint(t[0], t[1]) else if IsSurrogate(t[0]) then REPLACEMENT else t[0]
  }

  function AfterFirst(t: Text): Text
    requires t != []
  {
    if |t| >= 2 && IsHigh(t[0]) && IsLow(t[1]) then t[2..] else t[1..]
  }

  /** On texts without lone surrogates the encoding is injective. */
  lemma {:induction false} EncodingIsInjective(s: Text, t: Text)
    requires Paired(s) && Paired(t) && Encode(s) == Encode(t)
    ensures s == t
  {
    if s == [] || t == [] {
      if s != [] { PointsAreRecovered(FirstPoint(s), 0); }
      if t != [] { PointsAreRecovered(FirstPoint(t), 0); }
    } else {
      SplitPoints(FirstPoint(s), Encode(AfterFirst(s)), FirstPoint(t), Encode(AfterFirst(t)));
      EncodingIsInjective(AfterFirst(s), AfterFirst(t));
      SamePoint(s, t);
    }
  }

  lemma SamePoint(s: Text, t: Text)
    requires s != [] && t != [] && Paired(s) && Paired(t) && FirstPoint(s) == FirstPoint(t) && AfterFirst(s) == AfterFirst(t)
    ensures s == t
  {
    if IsHigh(s[0]) {
      assert s == [s[0], s[1]] + s[2..];
    } else {
      assert s == [s[0]] + s[1..];
    }
    if IsHigh(t[0]) {
      assert t == [t[0], t[1]] + t[2..];
    } else {
      assert t == [t[0]] + t[1..];
    }
  }

  /** Without that, different texts are signed alike. */
  lemma LoneSurrogatesCollide()
    ensures Encode([0xD800]) == Encode([0xDBFF]) && !Paired([0xD800])
  {
    var high: Text, other: Text := [0xD800], [0xDBFF];
    assert high[1..] == [] && other[1..] == [];
  }

  // ---- The canonical form has none

  lemma {:induction false} PairedConcat(s: Text, t: Text)
    requires Paired(s) && Paired(t)
    ensures Paired(s + t)
  {
    if s == [] {
      assert s + t == t;
    } else if IsHigh(s[0]) {
      assert (s + t)[2..] == s[2..] + t;
      PairedConcat(s[2..], t);
    } else {
      assert (s + t)[1..] == s[1..] + t;
      PairedConcat(s[1..], t);
    }
  }

  predicate Simple(t: Text) { forall u <- t :: !IsSurrogate(u) }

  lemma {:induction false} SimpleIsPaired(t: Text)
    requires Simple(t)
    ensures Paired(t)
  {
    if t != [] {
      assert t[0] in t && forall u <- t[1..] :: u in t;
      SimpleIsPaired(t[1..]);
    }
  }

  lemma {:induction false} LiteralsArePaired(t: Text)
    ensures Paired(ShowPieces(Stringify(t)))
  {
    var ps := Stringify(t);
    if t == [] {
      assert Paired([QUOTE]);
    } else if |t| >= 2 && IsHigh(t[0]) && IsLow(t[1]) {
      LiteralsArePaired(t[2..]);
      var rest := ShowPieces(Stringify(t[2..]));
      assert ps[1..][1..] == Stringify(t[2..]) && ps[1..] == [Plain(t[1])] + Stringify(t[2..]);
      assert ShowPieces(ps[1..]) == [t[1]] + rest;
      assert ShowPieces(ps) == [t[0]] + ([t[1]] + rest);
      assert ShowPieces(ps)[2..] == rest;
    } else {
      LiteralsArePaired(t[1..]);
      assert ps[1..] == Stringify(t[1..]);
      FirstPieceIsSimple(t);
      SimpleIsPaired(ShowPiece(ps[0]));
      PairedConcat(ShowPiece(ps[0]), ShowPieces(ps[1..]));
    }
  }

  lemma FirstPieceIsSimple(t: Text)
    requires t != [] && !(|t| >= 2 && IsHigh(t[0]) && IsLow(t[1]))
    ensures Simple(ShowPiece(Stringify(t)[0]))
  {
    hide HexEscape, EscapeUnit;
    var p := Stringify(t)[0];
    assert p.Plain? ==> DecodePiece(p) == p.unit;
    EscapesAreSimple(p);
  }

  lemma EscapesAreSimple(p: Piece)
    requires PieceOk(p) && (p.Plain? ==> !IsSurrogate(p.unit))
    ensures Simple(ShowPiece(p))
  {
  }

  lemma DigitsAreSimple(n: Numeral)
    requires NumeralOk(n)
    ensures Simple(ShowNumeral(n))
  {
    var f, e := ShowFraction(n.fraction), ShowExponent(n.exponent);
    assert Simple(f) && Simple(e);
    assert Simple(f + e);
    assert Simple(n.whole + (f + e));
  }

  lemma {:induction false} PrintsArePaired(v: Json)
    requires ValueOk(v)
    ensures Paired(Show(TreeOf(v)))
    decreases v, 0
  {
    match v {
      case VNumber(n) => DigitsAreSimple(n); SimpleIsPaired(ShowNumeral(n));
      case VText(t) => LiteralsArePaired(t); PairedConcat([QUOTE], ShowPieces(Stringify(t)));
      case VList(items) =>
        if items.Item? {
          ItemsArePaired(items);
          PairedConcat([OPEN_BRACKET], ShowElements(ElementsOf(items)));
        } else {
          SimpleIsPaired(Show(TreeOf(v)));
        }
      case VObject(f) =>
        if f.Field? {
          FieldsArePaired(f);
          PairedConcat([OPEN_BRACE], ShowMembers(MembersOf(f)));
        } else {
          SimpleIsPaired(Show(TreeOf(v)));
        }
      case _ => SimpleIsPaired(Show(TreeOf(v)));
    }
  }

  lemma TidyShows(c: Tree)
    ensures ShowElement(Tidy(c)) == Show(c)
  {
    assert [] + (Show(c) + []) == Show(c);
  }

  lemma {:induction false} ItemsArePaired(items: Items)
    requires items.Item? && ItemsOk(items)
    ensures Paired(ShowElements(ElementsOf(items)))
    decreases items, 0
  {
    var e := Tidy(TreeOf(items.head));
    TidyShows(e.tree);
    PrintsArePaired(items.head);
    if items.tail.NoItems? {
      PairedConcat(ShowElement(e), [CLOSE_BRACKET]);
    } else {
      ItemsArePaired(items.tail);
      PairedConcat([COMMA], ShowElements(ElementsOf(items.tail)));
      PairedConcat(ShowElement(e), [COMMA] + ShowElements(ElementsOf(items.tail)));
    }
  }

  lemma {:induction false} FieldsArePaired(f: Fields)
    requires f.Field? && FieldsOk(f)
    ensures Paired(ShowMembers(MembersOf(f)))
    decreases f, 0
  {
    var m := MembersOf(f).m;
    MemberIsPaired(f);
    if f.rest.NoFields? {
      PairedConcat(ShowMember(m), [CLOSE_BRACE]);
    } else {
      FieldsArePaired(f.rest);
      PairedConcat([COMMA], ShowMembers(MembersOf(f.rest)));
      PairedConcat(ShowMember(m), [COMMA] + ShowMembers(MembersOf(f.rest)));
    }
  }

  lemma {:induction false} MemberIsPaired(f: Fields)
    requires f.Field? && FieldsOk(f)
    ensures Paired(ShowMember(MembersOf(f).m))
    decreases f.value, 1
  {
    var m := MembersOf(f).m;
    PrintsArePaired(f.value);
    TidyShows(m.e.tree);
    LiteralsArePaired(f.key);
    var value := [COLON] + ShowElement(m.e);
    PairedConcat([COLON], ShowElement(m.e));
    assert m.middle + value == value && m.before + ([QUOTE] + (ShowPieces(m.key) + value)) == [QUOTE] + (ShowPieces(m.key) + value);
    PairedConcat(ShowPieces(m.key), value);
    PairedConcat([QUOTE], ShowPieces(m.key) + value);
  }

  /** No canonical text contains a lone surrogate, whatever strings the value holds. */
  lemma CanonicalTextIsPaired(v: Json)
    requires ValueOk(v)
    ensures Paired(Canonicalize(v))
  {
    SortingKeeps(v);
    PrintsArePaired(Sorted(v));
    TidyShows(TreeOf(Sorted(v)));
  }
}
