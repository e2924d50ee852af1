/** `parseStrictJson` of winner/runtime/integrity.ts: JSON.parse, then a scan of the same text
    that refuses repeated member names. */
module StrictJson {
  import opened Domain
  import opened JsonText
  import opened Canonical

  // ---- No object names a member twice

  predicate NoRepeats(c: Tree)
    requires Ok(c, true)
  {
    match c {
      case Arr(es) => ElementsDistinct(es)
      case Obj(ms) => MembersDistinct(ms, {})
      case _ => true
    }
  }

  predicate ElementsDistinct(es: Elements)
    requires ElementsOk(es, true)
  {
    assert ElementOk(es.e, true);
    NoRepeats(es.e.tree) && (es.MoreElements? ==> ElementsDistinct(es.rest))
  }

  /** The decoded names are new, given those seen before. */
  predicate MembersDistinct(ms: Members, seen: set<Text>)
    requires MembersOk(ms, true)
  {
    assert MemberOk(ms.m, true);
    assert ElementOk(ms.m.e, true);
    var key := Decode(ms.m.key);
    key !in seen && NoRepeats(ms.m.e.tree) && (ms.MoreMembers? ==> MembersDistinct(ms.rest, seen + {key}))
  }

  /** That is: the value it stands for has every property once, at every depth. */
  lemma {:induction false} NoRepeatsMeansOk(c: Tree)
    requires Ok(c, true)
    ensures NoRepeats(c) <==> ValueOk(ValueOf(c))
    decreases c, 0
  {
    match c {
      case Arr(es) => ElementsDistinctMeansOk(es);
      case Obj(ms) => MembersDistinctMeansOk(ms, {});
      case _ =>
    }
  }

  lemma {:induction false} ElementsDistinctMeansOk(es: Elements)
    requires ElementsOk(es, true)
    ensures ElementsDistinct(es) <==> ItemsOk(ItemsOf(es))
    decreases es, 0
  {
    assert ElementOk(es.e, true);
    NoRepeatsMeansOk(es.e.tree);
    if es.MoreElements? {
      ElementsDistinctMeansOk(es.rest);
    }
  }

  lemma {:induction false} MembersDistinctMeansOk(ms: Members, seen: set<Text>)
    requires MembersOk(ms, true)
    ensures MembersDistinct(ms, seen) <==> FieldsOk(FieldsOf(ms)) && forall k <- seen :: !Has(FieldsOf(ms), k)
    decreases ms, 0
  {
    assert MemberOk(ms.m, true);
    assert ElementOk(ms.m.e, true);
    var key := Decode(ms.m.key);
    NoRepeatsMeansOk(ms.m.e.tree);
    if ms.MoreMembers? {
      MembersDistinctMeansOk(ms.rest, seen + {key});
      var f := FieldsOf(ms.rest);
      assert forall k :: Has(FieldsOf(ms), k) <==> k == key || Has(f, k);
      assert (forall k <- seen + {key} :: !Has(f, k)) <==> !Has(f, key) && forall k <- seen :: !Has(f, k);
    } else {
      assert forall k :: Has(FieldsOf(ms), k) <==> k == key;
    }
  }

  // ---- Narrow blanks are wide blanks

  lemma {:induction false} NarrowIsWide(c: Tree)
    requires Ok(c, false)
    ensures Ok(c, true)
    decreases c, 0
  {
    match c {
      case Arr(es) => NarrowElements(es);
      case Obj(ms) => NarrowMembers(ms);
      case _ =>
    }
  }

  lemma {:induction false} NarrowElements(es: Elements)
    requires ElementsOk(es, false)
    ensures ElementsOk(es, true)
    decreases es, 0
  {
    assert ElementOk(es.e, false);
    NarrowIsWide(es.e.tree);
    assert ElementOk(es.e, true);
    if es.MoreElements? {
      NarrowElements(es.rest);
    }
  }

  lemma {:induction false} NarrowMembers(ms: Members)
    requires MembersOk(ms, false)
    ensures MembersOk(ms, true)
    decreases ms, 0
  {
    assert MemberOk(ms.m, false);
    assert ElementOk(ms.m.e, false);
    NarrowIsWide(ms.m.e.tree);
    assert ElementOk(ms.m.e, true);
    assert MemberOk(ms.m, true);
    if ms.MoreMembers? {
      NarrowMembers(ms.rest);
    }
  }

  // ---- The scan

  /** The regular expression for a number: a fraction or an exponent that is not complete is
      not taken. */
  function SkipNumber(t: Text): (r: Option<Text>)
    ensures r.Some? ==> |r.value| < |t|
  {
    match ParseWhole(if StartsWith(t, MINUS) then t[1..] else t) {
      case Fail => None
      case Got(_, r1) =>
        var r2 := if ParseFraction(r1).Got? then ParseFraction(r1).rest else r1;
        Some(if ParseExponent(r2).Got? then ParseExponent(r2).rest else r2)
    }
  }

  lemma NumbersAreSkipped(n: Numeral, rest: Text)
    requires NumeralOk(n) && EndsNumber(rest)
    ensures SkipNumber(ShowNumeral(n) + rest) == Some(rest)
  {
    NumeralsParse(n, rest);
  }

  /** The scan for the closing quote skips whatever follows a backslash. */
  function LiteralEnd(t: Text): (r: Option<Text>)
    ensures r.Some? ==> |r.value| < |t|
    decreases |t|
  {
    if t == [] then None
    else if t[0] == BACKSLASH then (if |t| < 2 then None else LiteralEnd(t[2..]))
    else if t[0] == QUOTE then Some(t[1..])
    else if t[0] < 32 then None
    else LiteralEnd(t[1..])
  }

  /** It finds the end of every literal that JSON.parse accepts. */
  lemma {:induction false} LiteralsEnd(ps: seq<Piece>, rest: Text)
    requires PiecesOk(ps)
    ensures LiteralEnd(ShowPieces(ps) + rest) == Some(rest)
  {
    var t := ShowPieces(ps) + rest;
    if ps == [] {
      assert t[1..] == rest;
    } else {
      var tail := ShowPieces(ps[1..]) + rest;
      LiteralsEnd(ps[1..], rest);
      Assoc(ShowPiece(ps[0]), ShowPieces(ps[1..]), rest);
      PiecesAreSkipped(ps[0], tail);
    }
  }

  lemma PiecesAreSkipped(p: Piece, tail: Text)
    requires PieceOk(p)
    ensures LiteralEnd(ShowPiece(p) + tail) == LiteralEnd(tail)
  {
    var t := ShowPiece(p) + tail;
    match p {
      case Plain(_) => assert t[1..] == tail;
      case Short(_) => assert t[2..] == tail;
      case Hex(a, b, c, d) =>
        assert t[2..] == [a] + ([b] + ([c] + ([d] + tail)));
        DigitIsSkipped(a, [b] + ([c] + ([d] + tail)));
        DigitIsSkipped(b, [c] + ([d] + tail));
        DigitIsSkipped(c, [d] + tail);
        DigitIsSkipped(d, tail);
    }
  }

  lemma DigitIsSkipped(u: Unit, tail: Text)
    requires IsHexDigit(u)
    ensures LiteralEnd([u] + tail) == LiteralEnd(tail)
  {
    assert ([u] + tail)[1..] == tail;
  }

  /** JSON.parse on the slice that holds one literal. */
  function LiteralText(literal: Text): Option<Text> {
    if !StartsWith(literal, QUOTE) then None
    else match ParsePieces(literal[1..]) {
      case Fail => None
      case Got(ps, rest) => if rest == [] then Some(Decode(ps)) else None
    }
  }

  function SkipBlanks(t: Text): (r: Text)
    ensures |r| <= |t|
  {
    TakeBlanks(t, true).rest
  }

  /** Behind an element or a member: the end of the container, or a comma and blanks. */
  function Delimiter(t: Text, close: Unit): (r: Parse<bool>)
    ensures r.Got? ==> |r.rest| < |t|
  {
    var w := SkipBlanks(t);
    if StartsWith(w, close) then Got(true, w[1..])
    else if !StartsWith(w, COMMA) then Fail
    else Got(false, SkipBlanks(w[1..]))
  }

  /** What `valueEnd` leaves; None where it throws. */
  function ScanValue(t: Text): (r: Option<Text>)
    ensures r.Some? ==> |r.value| < |t|
    decreases |t|, 0
  {
    var u := SkipBlanks(t);
    if u == [] then None
    else if u[0] == OPEN_BRACE then
      var v := SkipBlanks(u[1..]);
      if StartsWith(v, CLOSE_BRACE) then Some(v[1..]) else ScanMembers(v, {})
    else if u[0] == OPEN_BRACKET then
      var v := SkipBlanks(u[1..]);
      if StartsWith(v, CLOSE_BRACKET) then Some(v[1..]) else ScanElements(v)
    else ScanScalar(u)
  }

  function ScanScalar(u: Text): (r: Option<Text>)
    requires u != []
    ensures r.Some? ==> |r.value| < |u|
  {
    if u[0] == QUOTE then LiteralEnd(u[1..])
    else if TRUE <= u then Some(u[4..])
    else if FALSE <= u then Some(u[5..])
    else if NULL <= u then Some(u[4..])
    else SkipNumber(u)
  }

  function ScanElements(t: Text): (r: Option<Text>)
    ensures r.Some? ==> |r.value| < |t|
    decreases |t|, 1
  {
    match ScanValue(t) {
      case None => None
      case Some(rest) =>
        match Delimiter(rest, CLOSE_BRACKET) {
          case Fail => None
          case Got(closed, w) => if closed then Some(w) else ScanElements(w)
        }
    }
  }

  /** A member name: where its literal ends, and JSON.parse on the literal. */
  function ScanKey(t: Text): (r: Parse<Text>)
    ensures r.Got? ==> |r.rest| < |t|
  {
    if !StartsWith(t, QUOTE) || LiteralEnd(t[1..]).None? then Fail
    else
      var rest := LiteralEnd(t[1..]).value;
      match LiteralText(t[..|t| - |rest|]) {
        case None => Fail
        case Some(key) => Got(key, rest)
      }
  }

  function ScanMembers(t: Text, keys: set<Text>): (r: Option<Text>)
    ensures r.Some? ==> |r.value| < |t|
    decreases |t|, 1
  {
    match ScanKey(t) {
      case Fail => None
      case Got(key, rest) =>
        if key in keys then None
        else
          var m := SkipBlanks(rest);
          if !StartsWith(m, COLON) then None
          else match ScanValue(m[1..]) {
            case None => None
            case Some(v) =>
              match Delimiter(v, CLOSE_BRACE) {
                case Fail => None
                case Got(closed, w) => if closed then Some(w) else ScanMembers(w, keys + {key})
              }
          }
    }
  }

  // ---- The scan refuses exactly the repeated names

  lemma NarrowPad(pad: Text, rest: Text)
    requires AllBlank(pad, false) && (rest != [] ==> !IsBlank(rest[0], true))
    ensures SkipBlanks(pad + rest) == rest
  {
    BlanksParse(pad, rest, true);
  }

  lemma {:induction false} ScanIsExact(pad: Text, c: Tree, rest: Text)
    requires AllBlank(pad, false) && Ok(c, false) && Ok(c, true) && EndsNumber(rest)
    ensures ScanValue(pad + (Show(c) + rest)) == if NoRepeats(c) then Some(rest) else None
    decreases c, 0
  {
    hide ScanElements, ScanMembers, TakeBlanks, LiteralEnd, SkipNumber, ShowElements, ShowMembers, ShowPieces, ShowNumeral;
    var u := Show(c) + rest;
    FirstUnit(c, true);
    assert u[0] == Show(c)[0];
    NarrowPad(pad, u);
    match c {
      case Word(l) => assert u[|ShowLiteral(l)|..] == rest;
      case Number(n) => NumbersAreSkipped(n, rest);
      case Str(ps) =>
        assert u[1..] == ShowPieces(ps) + rest;
        LiteralsEnd(ps, rest);
      case EmptyArray(p) => EmptyScans(OPEN_BRACKET, p, CLOSE_BRACKET, rest);
      case EmptyObject(p) => EmptyScans(OPEN_BRACE, p, CLOSE_BRACE, rest);
      case Arr(es) =>
        assert u[1..] == ShowElements(es) + rest;
        ElementsScan(es, rest);
      case Obj(ms) =>
        assert u[1..] == ShowMembers(ms) + rest;
        MembersScan(ms, rest, {});
    }
  }

  lemma EmptyScans(open: Unit, pad: Text, close: Unit, rest: Text)
    requires AllBlank(pad, false) && !IsBlank(close, true)
    ensures
      var u := ([open] + (pad + [close])) + rest;
      SkipBlanks(u[1..]) == [close] + rest && ([close] + rest)[1..] == rest
  {
    Assoc([open], pad + [close], rest);
    Assoc(pad, [close], rest);
    assert ([open] + (pad + ([close] + rest)))[1..] == pad + ([close] + rest);
    NarrowPad(pad, [close] + rest);
  }

  /** One element and the blanks around it, when something delimits it. */
  lemma {:induction false} ElementScans(e: Element, rest: Text)
    requires ElementOk(e, false) && ElementOk(e, true) && Delimits(rest) && rest != []
    ensures
      var v := ScanValue(SkipBlanks(ShowElement(e) + rest));
      if NoRepeats(e.tree) then v.Some? && SkipBlanks(v.value) == rest else v.None?
    ensures ScanValue(ShowElement(e) + rest) == ScanValue(SkipBlanks(ShowElement(e) + rest))
    ensures !StartsWith(SkipBlanks(ShowElement(e) + rest), CLOSE_BRACKET)
    decreases e, 0
  {
    FirstUnit(e.tree, true);
    var u := Show(e.tree) + (e.after + rest);
    Assoc(e.before, Show(e.tree) + e.after, rest);
    Assoc(Show(e.tree), e.after, rest);
    assert u[0] == Show(e.tree)[0];
    NarrowPad(e.before, u);
    AfterBlanks(e.after, rest, false);
    ScanIsExact([], e.tree, e.after + rest);
    assert [] + u == u;
    NarrowPad([], u);
    NarrowPad(e.after, rest);
  }

  lemma {:induction false} ElementsScan(es: Elements, rest: Text)
    requires ElementsOk(es, false) && ElementsOk(es, true)
    ensures
      var t := SkipBlanks(ShowElements(es) + rest);
      && !StartsWith(t, CLOSE_BRACKET)
      && ScanElements(t) == if ElementsDistinct(es) then Some(rest) else None
    decreases es, 0
  {
    assert ElementOk(es.e, false) && ElementOk(es.e, true);
    match es {
      case LastElement(e) =>
        Assoc(ShowElement(e), [CLOSE_BRACKET], rest);
        ElementScans(e, [CLOSE_BRACKET] + rest);
        assert ([CLOSE_BRACKET] + rest)[1..] == rest;
      case MoreElements(e, es') =>
        Assoc(ShowElement(e), [COMMA] + ShowElements(es'), rest);
        Assoc([COMMA], ShowElements(es'), rest);
        ElementScans(e, [COMMA] + (ShowElements(es') + rest));
        assert ([COMMA] + (ShowElements(es') + rest))[1..] == ShowElements(es') + rest;
        ElementsScan(es', rest);
    }
  }

  lemma KeyIsRead(ps: seq<Piece>, rest: Text)
    requires PiecesOk(ps)
    ensures ScanKey([QUOTE] + (ShowPieces(ps) + rest)) == Got(Decode(ps), rest)
  {
    var t := [QUOTE] + (ShowPieces(ps) + rest);
    assert t[1..] == ShowPieces(ps) + rest;
    LiteralsEnd(ps, rest);
    var literal := t[..|t| - |rest|];
    assert literal == [QUOTE] + ShowPieces(ps);
    LiteralIsRead(ps);
  }

  lemma LiteralIsRead(ps: seq<Piece>)
    requires PiecesOk(ps)
    ensures LiteralText([QUOTE] + ShowPieces(ps)) == Some(Decode(ps))
  {
    var literal := [QUOTE] + ShowPieces(ps);
    assert literal[1..] == ShowPieces(ps);
    assert ShowPieces(ps) + [] == ShowPieces(ps);
    LiteralsParse(ps, []);
  }

  lemma {:induction false} MembersScan(ms: Members, rest: Text, keys: set<Text>)
    requires MembersOk(ms, false) && MembersOk(ms, true)
    ensures
      var t := SkipBlanks(ShowMembers(ms) + rest);
      && !StartsWith(t, CLOSE_BRACE)
      && ScanMembers(t, keys) == if MembersDistinct(ms, keys) then Some(rest) else None
    decreases ms, 0
  {
    hide ScanValue, ScanElements, TakeBlanks, ScanKey, ShowElement, ShowMember, ShowPieces;
    var m := ms.m;
    assert MemberOk(m, false) && MemberOk(m, true);
    assert ElementOk(m.e, false) && ElementOk(m.e, true);
    var tail := if ms.LastMember? then [CLOSE_BRACE] + rest else [COMMA] + (ShowMembers(ms.rest) + rest);
    var t3 := [COLON] + (ShowElement(m.e) + tail);
    var t2 := m.middle + t3;
    var t1 := [QUOTE] + (ShowPieces(m.key) + t2);
    if ms.LastMember? {
      Assoc(ShowMember(m), [CLOSE_BRACE], rest);
    } else {
      Assoc(ShowMember(m), [COMMA] + ShowMembers(ms.rest), rest);
      Assoc([COMMA], ShowMembers(ms.rest), rest);
      assert tail[1..] == ShowMembers(ms.rest) + rest;
      MembersScan(ms.rest, rest, keys + {Decode(m.key)});
    }
    MemberShows(m, tail);
    NarrowPad(m.before, t1);
    KeyIsRead(m.key, t2);
    NarrowPad(m.middle, t3);
    assert t3[1..] == ShowElement(m.e) + tail;
    ElementScans(m.e, tail);
    assert ms.LastMember? ==> tail[1..] == rest;
  }

  lemma DropDrops(t: Text, i: nat, n: nat)
    requires i + n <= |t|
    ensures t[i..][n..] == t[i + n..]
  {
  }

  lemma SliceIsTake(t: Text, i: nat, j: nat)
    requires i <= j <= |t|
    ensures t[i..j] == t[i..][..j - i]
  {
  }

  class Scanner {
    const text: Text
    var offset: nat

    constructor (text: Text)
      ensures this.text == text && offset == 0
    {
      this.text := text;
      offset := 0;
    }

    ghost function Left(): Text
      requires offset <= |text|
      reads this
    {
      text[offset..]
    }

    method Whitespace()
      requires offset <= |text|
      modifies this`offset
      ensures old(offset) <= offset <= |text| && Left() == TakeBlanks(old(Left()), true).rest
    {
      while offset < |text| && IsBlank(text[offset], true)
        invariant old(offset) <= offset <= |text| && TakeBlanks(Left(), true).rest == TakeBlanks(old(Left()), true).rest
      {
        assert Left()[1..] == text[offset + 1..];
        offset := offset + 1;
      }
    }

    /** From an opening quote to behind the closing one; false where the source throws. */
    method StringEnd() returns (ok: bool)
      requires offset <= |text|
      modifies this`offset
      ensures offset <= |text|
      ensures ok <==> old(StartsWith(Left(), QUOTE) && LiteralEnd(Left()[1..]).Some?)
      ensures ok ==> old(offset) < offset && Left() == old(LiteralEnd(Left()[1..]).value)
    {
      if offset >= |text| || text[offset] != QUOTE {
        return false;
      }
      offset := offset + 1;
      assert Left() == old(Left())[1..];
      while offset < |text|
        invariant old(offset) < offset <= |text| && LiteralEnd(Left()) == old(LiteralEnd(Left()[1..]))
      {
        ghost var t := Left();
        var character := text[offset];
        offset := offset + 1;
        assert Left() == t[1..];
        if character == BACKSLASH {
          if offset >= |text| {
            return false;
          }
          offset := offset + 1;
          assert Left() == t[2..];
        } else if character == QUOTE {
          return true;
        } else if character < 32 {
          return false;
        }
      }
      return false;
    }

    method DelimiterEnd(close: Unit) returns (closed: bool, ok: bool)
      requires offset <= |text|
      modifies this`offset
      ensures offset <= |text|
      ensures ok <==> old(Delimiter(Left(), close)).Got?
      ensures ok ==> old(offset) < offset && old(Delimiter(Left(), close)) == Got(closed, Left())
    {
      hide TakeBlanks;
      Whitespace();
      if offset >= |text| {
        return false, false;
      }
      DropDrops(text, offset, 1);
      if text[offset] == close {
        offset := offset + 1;
        return true, true;
      }
      if text[offset] != COMMA {
        return false, false;
      }
      offset := offset + 1;
      Whitespace();
      return false, true;
    }

    /** Behind the opening bracket of a container: is it closed at once? */
    method OpeningEnd(close: Unit) returns (closed: bool)
      requires offset < |text|
      modifies this`offset
      ensures old(offset) < offset <= |text|
      ensures closed <==> old(StartsWith(SkipBlanks(Left()[1..]), close))
      ensures Left() == if closed then old(SkipBlanks(Left()[1..])[1..]) else old(SkipBlanks(Left()[1..]))
    {
      hide TakeBlanks;
      DropDrops(text, offset, 1);
      offset := offset + 1;
      Whitespace();
      if offset < |text| && text[offset] == close {
        DropDrops(text, offset, 1);
        offset := offset + 1;
        return true;
      }
      return false;
    }

    /** One value; false where the source throws. */
    method ValueEnd() returns (ok: bool)
      requires offset <= |text|
      modifies this`offset
      ensures offset <= |text|
      ensures ok <==> old(ScanValue(Left())).Some?
      ensures ok ==> old(offset) < offset && Left() == old(ScanValue(Left())).value
      decreases |text| - offset, 0
    {
      hide ScanElements, ScanMembers, TakeBlanks, ScanScalar;
      Whitespace();
      if offset == |text| {
        return false;
      }
      var character := text[offset];
      if character == OPEN_BRACE {
        var closed := OpeningEnd(CLOSE_BRACE);
        if closed {
          return true;
        }
        ok := MembersEnd();
      } else if character == OPEN_BRACKET {
        var closed := OpeningEnd(CLOSE_BRACKET);
        if closed {
          return true;
        }
        ok := ElementsEnd();
      } else {
        ok := ScalarEnd();
      }
    }

    /** A string, a word or a number. */
    method ScalarEnd() returns (ok: bool)
      requires offset < |text|
      modifies this`offset
      ensures offset <= |text|
      ensures ok <==> old(ScanScalar(Left())).Some?
      ensures ok ==> old(offset) < offset && Left() == old(ScanScalar(Left())).value
    {
      hide LiteralEnd, SkipNumber;
      if text[offset] == QUOTE {
        ok := StringEnd();
      } else if TRUE <= text[offset..] {
        DropDrops(text, offset, 4);
        offset := offset + 4;
        ok := true;
      } else if FALSE <= text[offset..] {
        DropDrops(text, offset, 5);
        offset := offset + 5;
        ok := true;
      } else if NULL <= text[offset..] {
        DropDrops(text, offset, 4);
        offset := offset + 4;
        ok := true;
      } else {
        var number := SkipNumber(text[offset..]);
        if number.None? {
          return false;
        }
        NumberIsPrefix(text[offset..]);
        DropDrops(text, offset, |text| - offset - |number.value|);
        offset := |text| - |number.value|;
        ok := true;
      }
    }

    method KeyEnd() returns (key: Option<Text>)
      requires offset <= |text|
      modifies this`offset
      ensures offset <= |text|
      ensures key.Some? <==> old(ScanKey(Left())).Got?
      ensures key.Some? ==> old(offset) < offset && old(ScanKey(Left())) == Got(key.value, Left())
    {
      hide LiteralEnd, LiteralText;
      var start := offset;
      var closed := StringEnd();
      if !closed {
        return None;
      }
      SliceIsTake(text, start, offset);
      return LiteralText(text[start..offset]);
    }

    /** The members of an object up to its closing brace. */
    method MembersEnd() returns (ok: bool)
      requires offset <= |text|
      modifies this`offset
      ensures offset <= |text|
      ensures ok <==> old(ScanMembers(Left(), {})).Some?
      ensures ok ==> old(offset) < offset && Left() == old(ScanMembers(Left(), {})).value
      decreases |text| - offset, 1
    {
      hide ScanValue, ScanElements, TakeBlanks, ScanKey, Delimiter;
      var keys: set<Text> := {};
      while true
        invariant old(offset) <= offset <= |text|
        invariant ScanMembers(Left(), keys) == old(ScanMembers(Left(), {}))
        decreases |text| - offset
      {
        var key := KeyEnd();
        if key.None? || key.value in keys {
          return false;
        }
        Whitespace();
        if offset >= |text| || text[offset] != COLON {
          return false;
        }
        DropDrops(text, offset, 1);
        offset := offset + 1;
        var valued := ValueEnd();
        if !valued {
          return false;
        }
        var closed, delimited := DelimiterEnd(CLOSE_BRACE);
        if !delimited || closed {
          return delimited;
        }
        keys := keys + {key.value};
      }
    }

    /** The elements of an array up to its closing bracket. */
    method ElementsEnd() returns (ok: bool)
      requires offset <= |text|
      modifies this`offset
      ensures offset <= |text|
      ensures ok <==> old(ScanElements(Left())).Some?
      ensures ok ==> old(offset) < offset && Left() == old(ScanElements(Left())).value
      decreases |text| - offset, 1
    {
      hide ScanValue, ScanMembers, TakeBlanks, LiteralEnd, Delimiter;
      while true
        invariant old(offset) <= offset <= |text|
        invariant ScanElements(Left()) == old(ScanElements(Left()))
        decreases |text| - offset
      {
        var valued := ValueEnd();
        if !valued {
          return false;
        }
        var closed, delimited := DelimiterEnd(CLOSE_BRACKET);
        if !delimited || closed {
          return delimited;
        }
      }
    }
  }

  predicate IsSuffix(r: Text, t: Text) { |r| <= |t| && r == t[|t| - |r|..] }

  lemma RestIsSuffix(value: Text, rest: Text)
    ensures IsSuffix(rest, value + rest)
  {
  }

  lemma SuffixIsTransitive(a: Text, b: Text, c: Text)
    requires IsSuffix(a, b) && IsSuffix(b, c)
    ensures IsSuffix(a, c)
  {
  }

  lemma NumberIsPrefix(t: Text)
    requires SkipNumber(t).Some?
    ensures IsSuffix(SkipNumber(t).value, t)
  {
    hide ParseWhole, ParseFraction, ParseExponent, ShowFraction, ShowExponent, IsSuffix;
    var t0 := if StartsWith(t, MINUS) then t[1..] else t;
    var whole, r1 := ParseWhole(t0).value, ParseWhole(t0).rest;
    var fraction := ParseFraction(r1);
    var r2 := if fraction.Got? then fraction.rest else r1;
    var exponent := ParseExponent(r2);
    RestIsSuffix([], t);
    assert [] + t == t;
    if StartsWith(t, MINUS) {
      assert t == [MINUS] + t0;
      RestIsSuffix([MINUS], t0);
    }
    RestIsSuffix(whole, r1);
    SuffixIsTransitive(r1, t0, t);
    if fraction.Got? {
      RestIsSuffix(ShowFraction(fraction.value), r2);
      SuffixIsTransitive(r2, r1, t);
    }
    if exponent.Got? {
      RestIsSuffix(ShowExponent(exponent.value), exponent.rest);
      SuffixIsTransitive(exponent.rest, r2, t);
    }
  }

  // ---- parseStrictJson

  /** None where the source throws. */
  method ParseStrictJson(text: Text) returns (r: Option<Json>)
    ensures r.Some? <==> exists e :: ElementOk(e, false) && ShowElement(e) == text && Ok(e.tree, true) && NoRepeats(e.tree)
    ensures r.Some? ==> ValueOk(r.value)
    ensures forall e :: r.Some? && ElementOk(e, false) && ShowElement(e) == text ==> Ok(e.tree, true) && r.value == ValueOf(e.tree)
  {
    var parsed := ParseText(text, false);
    if parsed.None? {
      forall e ensures !(ElementOk(e, false) && ShowElement(e) == text) {
        ParsingIsExact(text, e, false);
      }
      return None;
    }
    var e := parsed.value;
    OneTree(text, e);
    NarrowIsWide(e.tree);
    TextScans(e);
    NoRepeatsMeansOk(e.tree);
    var scanner := new Scanner(text);
    assert scanner.Left() == text;
    var ok := scanner.ValueEnd();
    if !ok {
      return None;
    }
    scanner.Whitespace();
    if scanner.offset != |text| {
      return None;
    }
    return Some(ValueOf(e.tree));
  }

  lemma OneTree(text: Text, e: Element)
    requires ParseText(text, false) == Some(e)
    ensures forall other :: ElementOk(other, false) && ShowElement(other) == text ==> other == e
  {
    forall other ensures ElementOk(other, false) && ShowElement(other) == text ==> other == e {
      ParsingIsExact(text, other, false);
    }
  }

  lemma TextScans(e: Element)
    requires ElementOk(e, false) && Ok(e.tree, true)
    ensures var v := ScanValue(ShowElement(e)); if NoRepeats(e.tree) then v.Some? && SkipBlanks(v.value) == [] else v.None?
  {
    AfterBlanks(e.after, [], false);
    assert e.after + [] == e.after;
    ScanIsExact(e.before, e.tree, e.after);
    NarrowPad(e.after, []);
  }

  /** Parsing undoes canonicalize: the text it prints for a value is accepted and stands for
      the same value, up to the order of properties. */
  lemma CanonicalTextIsStrict(v: Json)
    requires ValueOk(v)
    ensures
      var e := Tidy(TreeOf(Sorted(v)));
      && ElementOk(e, false) && ShowElement(e) == Canonicalize(v) && Ok(e.tree, true) && NoRepeats(e.tree)
      && Same(v, ValueOf(e.tree))
  {
    SortedIsSame(v);
    TreesMeanTheirValue(Sorted(v));
    NoRepeatsMeansOk(TreeOf(Sorted(v)));
  }
}
