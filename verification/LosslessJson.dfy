/** The delivery reader of winner/c2/github-delivery-json.ts: a JSON parser of its own that
    keeps the digits of every number named `id`.

    Two of its habits differ from JSON.parse.  Between tokens it skips every character of the
    class \s.  And it builds its objects by assignment, so a member named __proto__ meets the
    setter every plain object inherits: it is no property, it changes the prototype, and it may
    repeat.  A prototype of null takes the setter away, and so does an object that has lost its
    own; from then on __proto__ is a name like any other. */
module LosslessJson {
  import opened Domain
  import opened JsonText
  import opened Canonical
  import opened StrictJson

  const ID: Text := [105, 100]
  const PROTO: Text := [95, 95, 112, 114, 111, 116, 111, 95, 95]

  /** A number outside `id` is the double its numeral names; `Token` holds source digits. */
  datatype Loose =
    | LooseNull
    | LooseBool(truth: bool)
    | LooseNumber(numeral: Numeral)
    | Token(digits: Text)
    | LooseText(text: Text)
    | LooseList(items: seq<Loose>)
    | LooseObject(built: PlainObject)

  datatype PlainObject = PlainObject(own: seq<Property>, proto: Prototype)

  datatype Property = Property(key: Text, value: Loose)

  datatype Prototype =
    | Standard
    | Absent
    | Inherits(value: Loose)

  const EMPTY := PlainObject([], Standard)

  predicate Owns(own: seq<Property>, key: Text) { exists p <- own :: p.key == key }

  /** Does the chain still lead to the setter of __proto__?  The object that holds the digits of
      an `id` has no prototype. */
  predicate HasSetter(proto: Prototype) {
    match proto {
      case Standard => true
      case Absent => false
      case Inherits(v) => v.LooseList? || (v.LooseObject? && HasSetter(v.built.proto))
    }
  }

  /** What the setter does: numbers, texts and truth values change nothing. */
  function Inherited(proto: Prototype, value: Loose): Prototype {
    match value {
      case LooseNull => Absent
      case LooseList(_) => Inherits(value)
      case LooseObject(_) => Inherits(value)
      case Token(_) => Inherits(value)
      case _ => proto
    }
  }

  /** Assignment to an object that does not own the key. */
  function Assigned(o: PlainObject, key: Text, value: Loose): PlainObject {
    if key == PROTO && HasSetter(o.proto) then PlainObject(o.own, Inherited(o.proto, value))
    else PlainObject(o.own + [Property(key, value)], o.proto)
  }

  // ---- Numbers that are not finite

  function Natural(digits: Text): nat
    requires AllDigits(digits)
  {
    if digits == [] then 0
    else
      var last: int := digits[|digits| - 1];
      assert IsDigit(last);
      Natural(digits[..|digits| - 1]) * 10 + (last - 48)
  }

  function Power(base: nat, n: nat): nat { if n == 0 then 1 else base * Power(base, n - 1) }

  /** Half a unit past the largest double: from here on Number() gives Infinity. */
  function Limit(): nat { 9007199254740991 * Power(2, 971) + Power(2, 970) }

  predicate Overflows(n: Numeral)
    requires NumeralOk(n)
  {
    var fraction := if n.fraction.Some? then n.fraction.value else [];
    var exponent := if n.exponent.Some? then Natural(n.exponent.value.digits) else 0;
    var scale := (if n.exponent.Some? && n.exponent.value.sign.MinusSign? then -exponent else exponent) - |fraction|;
    var mantissa := Natural(n.whole + fraction);
    if scale >= 0 then mantissa * Power(10, scale) >= Limit() else mantissa >= Limit() * Power(10, -scale)
  }

  // ---- The reader as a function

  function NumberValue(n: Numeral, id: bool): Option<Loose>
    requires NumeralOk(n)
  {
    if id then Some(Token(ShowNumeral(n))) else if Overflows(n) then None else Some(LooseNumber(n))
  }

  function ReadString(t: Text): (r: Parse<Text>)
    ensures r.Got? ==> |r.rest| < |t|
  {
    ScanKey(t)
  }

  function ReadNumber(t: Text, id: bool): (r: Parse<Loose>)
    ensures r.Got? ==> |r.rest| < |t|
  {
    match ParseNumeral(t) {
      case Fail => Fail
      case Got(n, rest) =>
        match NumberValue(n, id) {
          case None => Fail
          case Some(v) => Got(v, rest)
        }
    }
  }

  function ReadScalar(u: Text, id: bool): (r: Parse<Loose>)
    requires u != []
    ensures r.Got? ==> |r.rest| < |u|
  {
    if u[0] == QUOTE then
      match ReadString(u) {
        case Fail => Fail
        case Got(s, rest) => Got(LooseText(s), rest)
      }
    else if TRUE <= u then Got(LooseBool(true), u[4..])
    else if FALSE <= u then Got(LooseBool(false), u[5..])
    else if NULL <= u then Got(LooseNull, u[4..])
    else if u[0] == MINUS || IsDigit(u[0]) then ReadNumber(u, id)
    else Fail
  }

  function ReadValue(t: Text, id: bool): (r: Parse<Loose>)
    ensures r.Got? ==> |r.rest| < |t|
    decreases |t|, 0
  {
    var u := SkipBlanks(t);
    if u == [] then Fail
    else if u[0] == OPEN_BRACE then
      var v := SkipBlanks(u[1..]);
      if StartsWith(v, CLOSE_BRACE) then Got(LooseObject(EMPTY), v[1..])
      else match ReadMembers(v, EMPTY) {
        case Fail => Fail
        case Got(o, rest) => Got(LooseObject(o), rest)
      }
    else if u[0] == OPEN_BRACKET then
      var v := SkipBlanks(u[1..]);
      if StartsWith(v, CLOSE_BRACKET) then Got(LooseList([]), v[1..])
      else match ReadElements(v, []) {
        case Fail => Fail
        case Got(items, rest) => Got(LooseList(items), rest)
      }
    else ReadScalar(u, id)
  }

  function ReadElements(t: Text, items: seq<Loose>): (r: Parse<seq<Loose>>)
    ensures r.Got? ==> |r.rest| < |t|
    decreases |t|, 1
  {
    match ReadValue(t, false) {
      case Fail => Fail
      case Got(v, rest) =>
        var w := SkipBlanks(rest);
        if StartsWith(w, CLOSE_BRACKET) then Got(items + [v], w[1..])
        else if !StartsWith(w, COMMA) then Fail
        else ReadElements(w[1..], items + [v])
    }
  }

  function ReadMembers(t: Text, o: PlainObject): (r: Parse<PlainObject>)
    ensures r.Got? ==> |r.rest| < |t|
    decreases |t|, 1
  {
    match ReadString(SkipBlanks(t)) {
      case Fail => Fail
      case Got(key, r1) =>
        if Owns(o.own, key) then Fail
        else
          var m := SkipBlanks(r1);
          if !StartsWith(m, COLON) then Fail
          else match ReadValue(m[1..], key == ID) {
            case Fail => Fail
            case Got(v, r2) =>
              var w := SkipBlanks(r2);
              if StartsWith(w, CLOSE_BRACE) then Got(Assigned(o, key, v), w[1..])
              else if !StartsWith(w, COMMA) then Fail
              else ReadMembers(w[1..], Assigned(o, key, v))
          }
    }
  }

  function ReadText(raw: Text): Option<Loose> {
    match ReadValue(raw, false) {
      case Fail => None
      case Got(v, rest) => if SkipBlanks(rest) == [] then Some(v) else None
    }
  }

  // ---- What a tree becomes, and when it is refused

  predicate Admits(c: Tree, id: bool)
    requires Ok(c, true)
  {
    match c {
      case Number(n) => NumberValue(n, id).Some?
      case Arr(es) => ElementsAdmit(es)
      case Obj(ms) => ValuesAdmit(ms) && NamesAdmit(ms, {}, true)
      case _ => true
    }
  }

  predicate ElementsAdmit(es: Elements)
    requires ElementsOk(es, true)
  {
    assert ElementOk(es.e, true);
    Admits(es.e.tree, false) && (es.MoreElements? ==> ElementsAdmit(es.rest))
  }

  predicate ValuesAdmit(ms: Members)
    requires MembersOk(ms, true)
  {
    assert MemberOk(ms.m, true);
    assert ElementOk(ms.m.e, true);
    Admits(ms.m.e.tree, Decode(ms.m.key) == ID) && (ms.MoreMembers? ==> ValuesAdmit(ms.rest))
  }

  /** No name is owned already; __proto__ is owned only where the setter is gone. */
  predicate NamesAdmit(ms: Members, owned: set<Text>, setter: bool)
    requires MembersOk(ms, true)
  {
    assert MemberOk(ms.m, true);
    var key := Decode(ms.m.key);
    key !in owned && (ms.MoreMembers? ==> NamesAdmit(ms.rest, owned + Stored(key, setter), setter && !SeversSetter(ms.m)))
  }

  function Stored(key: Text, setter: bool): set<Text> { if key == PROTO && setter then {} else {key} }

  /** As a value of __proto__, does the tree take the setter away? */
  predicate Severs(c: Tree)
    requires Ok(c, true)
  {
    c == Word(NullWord) || (c.Obj? && SomeSevers(c.members))
  }

  predicate SeversSetter(m: Member)
    requires MemberOk(m, true)
  {
    assert ElementOk(m.e, true);
    Decode(m.key) == PROTO && Severs(m.e.tree)
  }

  predicate SomeSevers(ms: Members)
    requires MembersOk(ms, true)
  {
    assert MemberOk(ms.m, true);
    SeversSetter(ms.m) || (ms.MoreMembers? && SomeSevers(ms.rest))
  }

  function Loosen(c: Tree, id: bool): Loose
    requires Ok(c, true) && Admits(c, id)
  {
    match c {
      case Word(l) => (match l { case NullWord => LooseNull case TrueWord => LooseBool(true) case FalseWord => LooseBool(false) })
      case Number(n) => NumberValue(n, id).value
      case Str(ps) => LooseText(Decode(ps))
      case EmptyArray(_) => LooseList([])
      case Arr(es) => LooseList(LoosenElements(es))
      case EmptyObject(_) => LooseObject(EMPTY)
      case Obj(ms) => LooseObject(Built(ms, EMPTY))
    }
  }

  function LoosenElements(es: Elements): seq<Loose>
    requires ElementsOk(es, true) && ElementsAdmit(es)
  {
    assert ElementOk(es.e, true);
    [Loosen(es.e.tree, false)] + (if es.LastElement? then [] else LoosenElements(es.rest))
  }

  function Built(ms: Members, o: PlainObject): PlainObject
    requires MembersOk(ms, true) && ValuesAdmit(ms)
  {
    assert MemberOk(ms.m, true);
    assert ElementOk(ms.m.e, true);
    var key := Decode(ms.m.key);
    var o' := Assigned(o, key, Loosen(ms.m.e.tree, key == ID));
    if ms.LastMember? then o' else Built(ms.rest, o')
  }

  // ---- The setter and the own properties of what is built

  predicate Cuts(v: Loose) { v.LooseNull? || v.Token? || (v.LooseObject? && !HasSetter(v.built.proto)) }

  lemma AssignmentCuts(o: PlainObject, key: Text, v: Loose)
    ensures HasSetter(Assigned(o, key, v).proto) <==> HasSetter(o.proto) && !(key == PROTO && Cuts(v))
  {
  }

  /** The setter is lost exactly where the text says so. */
  lemma {:induction false} SeveringCuts(c: Tree)
    requires Ok(c, true) && Admits(c, false)
    ensures Cuts(Loosen(c, false)) <==> Severs(c)
    decreases c, 0
  {
    if c.Obj? {
      SetterStays(c.members, EMPTY);
    }
  }

  lemma {:induction false} SetterStays(ms: Members, o: PlainObject)
    requires MembersOk(ms, true) && ValuesAdmit(ms)
    ensures HasSetter(Built(ms, o).proto) <==> HasSetter(o.proto) && !SomeSevers(ms)
    decreases ms, 1
  {
    hide Assigned, Loosen, Severs, Cuts, HasSetter, Admits;
    assert MemberOk(ms.m, true);
    assert ElementOk(ms.m.e, true);
    MemberSevers(ms.m);
    var key := Decode(ms.m.key);
    var v := Loosen(ms.m.e.tree, key == ID);
    AssignmentCuts(o, key, v);
    if ms.MoreMembers? {
      SetterStays(ms.rest, Assigned(o, key, v));
    }
  }

  predicate Admitted(m: Member) {
    && MemberOk(m, true)
    && ElementOk(m.e, true)
    && Admits(m.e.tree, Decode(m.key) == ID)
  }

  function ValueIn(m: Member): Loose
    requires Admitted(m)
  {
    Loosen(m.e.tree, Decode(m.key) == ID)
  }

  lemma {:induction false} MemberSevers(m: Member)
    requires Admitted(m)
    ensures Decode(m.key) == PROTO && Cuts(ValueIn(m)) <==> SeversSetter(m)
    decreases m, 1
  {
    hide Loosen, Severs, Cuts, Admits;
    if Decode(m.key) == PROTO {
      ProtoIsNotId();
      SeveringCuts(m.e.tree);
    }
  }

  lemma ProtoIsNotId()
    ensures PROTO != ID
  {
    assert |PROTO| != |ID|;
  }

  /** The members that become properties: all but the __proto__s up to the first that severs. */
  function Kept(ms: Members, setter: bool): seq<Property>
    requires MembersOk(ms, true) && ValuesAdmit(ms)
  {
    assert MemberOk(ms.m, true);
    assert ElementOk(ms.m.e, true);
    assert Admitted(ms.m);
    var key := Decode(ms.m.key);
    var first := if key == PROTO && setter then [] else [Property(key, ValueIn(ms.m))];
    if ms.LastMember? then first else first + Kept(ms.rest, setter && !SeversSetter(ms.m))
  }

  lemma {:induction false} OwnIsKept(ms: Members, o: PlainObject)
    requires MembersOk(ms, true) && ValuesAdmit(ms)
    ensures Built(ms, o).own == o.own + Kept(ms, HasSetter(o.proto))
    decreases ms
  {
    hide Loosen, Severs, Cuts, HasSetter, Admits;
    assert MemberOk(ms.m, true);
    assert ElementOk(ms.m.e, true);
    MemberSevers(ms.m);
    var key := Decode(ms.m.key);
    var v := ValueIn(ms.m);
    AssignmentCuts(o, key, v);
    var o' := Assigned(o, key, v);
    var first: seq<Property> := if key == PROTO && HasSetter(o.proto) then [] else [Property(key, v)];
    assert o'.own == o.own + first;
    if ms.MoreMembers? {
      OwnIsKept(ms.rest, o');
      var rest := Kept(ms.rest, HasSetter(o'.proto));
      assert (o.own + first) + rest == o.own + (first + rest);
    }
  }

  // ---- The reader and the grammar agree

  lemma StringsAgree(t: Text)
    ensures ReadString(t) == if !StartsWith(t, QUOTE) then Fail
                             else match ParsePieces(t[1..]) { case Fail => Fail case Got(ps, rest) => Got(Decode(ps), rest) }
  {
    hide ParsePieces, LiteralEnd, LiteralText, ScanKey;
    if StartsWith(t, QUOTE) {
      HeadAndTail(t, QUOTE);
      if ParsePieces(t[1..]).Got? {
        KeyIsRead(ParsePieces(t[1..]).value, ParsePieces(t[1..]).rest);
      } else if ReadString(t).Got? {
        ReadStringsParse(t);
      }
    } else {
      NoQuoteNoString(t);
    }
  }

  lemma ReadStringsParse(t: Text)
    requires StartsWith(t, QUOTE) && ReadString(t).Got?
    ensures ParsePieces(t[1..]).Got?
  {
    hide ParsePieces, LiteralEnd;
    var rest := LiteralEnd(t[1..]).value;
    var literal := t[..|t| - |rest|];
    var ps := ParsePieces(literal[1..]).value;
    EndIsSuffix(t[1..]);
    AppendNothing(ShowPieces(ps));
    SplitLiteral(t, rest);
    LiteralsParse(ps, rest);
  }

  lemma AppendNothing(t: Text)
    ensures t + [] == t
  {
  }

  lemma SplitLiteral(t: Text, rest: Text)
    requires t != [] && IsSuffix(rest, t[1..])
    ensures t[1..] == t[..|t| - |rest|][1..] + rest
  {
  }

  lemma {:induction false} EndIsSuffix(t: Text)
    requires LiteralEnd(t).Some?
    ensures IsSuffix(LiteralEnd(t).value, t)
    decreases |t|
  {
    if t[0] == BACKSLASH {
      EndIsSuffix(t[2..]);
      assert t == t[..2] + t[2..];
      RestIsSuffix(t[..2], t[2..]);
      SuffixIsTransitive(LiteralEnd(t).value, t[2..], t);
    } else if t[0] == QUOTE {
      assert t == t[..1] + t[1..];
      RestIsSuffix(t[..1], t[1..]);
    } else {
      EndIsSuffix(t[1..]);
      assert t == t[..1] + t[1..];
      RestIsSuffix(t[..1], t[1..]);
      SuffixIsTransitive(LiteralEnd(t).value, t[1..], t);
    }
  }

  function Loosened(p: Parse<Tree>, id: bool): Parse<Loose>
    requires p.Got? ==> Ok(p.value, true)
  {
    match p { case Fail => Fail case Got(c, rest) => if Admits(c, id) then Got(Loosen(c, id), rest) else Fail }
  }

  function LoosenedElements(p: Parse<Elements>, items: seq<Loose>): Parse<seq<Loose>>
    requires p.Got? ==> ElementsOk(p.value, true)
  {
    match p { case Fail => Fail case Got(es, rest) => if ElementsAdmit(es) then Got(items + LoosenElements(es), rest) else Fail }
  }

  function LoosenedMembers(p: Parse<Members>, o: PlainObject, owned: set<Text>): Parse<PlainObject>
    requires p.Got? ==> MembersOk(p.value, true)
  {
    match p {
      case Fail => Fail
      case Got(ms, rest) => if ValuesAdmit(ms) && NamesAdmit(ms, owned, HasSetter(o.proto)) then Got(Built(ms, o), rest) else Fail
    }
  }

  lemma ScalarsAgree(u: Text, id: bool)
    requires u != [] && u[0] != OPEN_BRACE && u[0] != OPEN_BRACKET
    ensures ReadScalar(u, id) == Loosened(ParseValue(u, true), id)
  {
    hide ReadString, ParsePieces, ParseNumeral, ParseArray, ParseObject, NumberValue, ShowNumeral;
    if u[0] == QUOTE {
      StringsAgree(u);
    } else if !(NULL <= u || TRUE <= u || FALSE <= u) && u[0] != MINUS && !IsDigit(u[0]) {
      NumeralsStart(u);
    }
  }

  lemma NumeralsStart(u: Text)
    requires u != [] && u[0] != MINUS && !IsDigit(u[0])
    ensures ParseNumeral(u).Fail?
  {
  }

  lemma SkippedStays(t: Text)
    ensures SkipBlanks(SkipBlanks(t)) == SkipBlanks(t)
  {
  }

  lemma {:induction false} ValuesAgree(t: Text, id: bool)
    ensures ReadValue(t, id) == Loosened(ParseValue(SkipBlanks(t), true), id)
    decreases |t|, 0
  {
    hide ReadScalar, ReadElements, ReadMembers, ParseElements, ParseMembers, ParsePieces, ParseNumeral, TakeBlanks;
    var u := SkipBlanks(t);
    if u != [] {
      if u[0] == OPEN_BRACE {
        OpeningAgrees(u, CLOSE_BRACE);
        MembersAgree(u[1..], EMPTY, {});
        SkippedMembers(u[1..], EMPTY);
      } else if u[0] == OPEN_BRACKET {
        OpeningAgrees(u, CLOSE_BRACKET);
        ElementsAgree(u[1..], []);
        SkippedElements(u[1..], []);
        NothingBeforeElements(ParseElements(u[1..], true));
      } else {
        ScalarsAgree(u, id);
      }
    }
  }

  lemma NothingBeforeElements(p: Parse<Elements>)
    requires p.Got? ==> ElementsOk(p.value, true)
    ensures p.Got? && ElementsAdmit(p.value) ==> LoosenedElements(p, []) == Got(LoosenElements(p.value), p.rest)
  {
    if p.Got? && ElementsAdmit(p.value) {
      assert [] + LoosenElements(p.value) == LoosenElements(p.value);
    }
  }

  lemma OpeningAgrees(u: Text, close: Unit)
    requires u != []
    ensures SkipBlanks(u[1..]) == TakeBlanks(u[1..], true).rest
  {
  }

  lemma SkippedValue(t: Text, id: bool)
    ensures ReadValue(SkipBlanks(t), id) == ReadValue(t, id)
  {
    hide ReadElements, ReadMembers, ReadScalar, TakeBlanks;
    SkippedStays(t);
  }

  lemma SkippedElements(t: Text, items: seq<Loose>)
    ensures ReadElements(SkipBlanks(t), items) == ReadElements(t, items)
  {
    hide ReadValue, SkipBlanks;
    SkippedValue(t, false);
  }

  lemma SkippedMembers(t: Text, o: PlainObject)
    ensures ReadMembers(SkipBlanks(t), o) == ReadMembers(t, o)
  {
    hide ReadValue, SkipBlanks, ReadString;
    SkippedStays(t);
  }

  lemma AppendElements(items: seq<Loose>, v: Loose, p: Parse<Elements>)
    requires p.Got? ==> ElementsOk(p.value, true)
    ensures p.Got? && ElementsAdmit(p.value) ==>
              LoosenedElements(p, items + [v]) == Got(items + ([v] + LoosenElements(p.value)), p.rest)
  {
    if p.Got? && ElementsAdmit(p.value) {
      assert (items + [v]) + LoosenElements(p.value) == items + ([v] + LoosenElements(p.value));
    }
  }

  lemma {:induction false} ElementsAgree(t: Text, items: seq<Loose>)
    ensures ReadElements(t, items) == LoosenedElements(ParseElements(t, true), items)
    decreases |t|, 1
  {
    hide ReadValue, ReadMembers, ParseValue, ParseMembers, ParsePieces, TakeBlanks, Admits, Loosen;
    ValuesAgree(t, false);
    var v := ReadValue(t, false);
    if v.Got? {
      var w := SkipBlanks(v.rest);
      assert [v.value] + [] == [v.value];
      if StartsWith(w, COMMA) {
        ElementsAgree(w[1..], items + [v.value]);
        AppendElements(items, v.value, ParseElements(w[1..], true));
      }
    }
  }

  ghost predicate OwnsExactly(o: PlainObject, owned: set<Text>) { forall k :: Owns(o.own, k) <==> k in owned }

  lemma AssignmentStores(o: PlainObject, key: Text, v: Loose, owned: set<Text>)
    requires OwnsExactly(o, owned)
    ensures OwnsExactly(Assigned(o, key, v), owned + Stored(key, HasSetter(o.proto)))
  {
    hide HasSetter;
    var o' := Assigned(o, key, v);
    forall k ensures Owns(o'.own, k) <==> k in owned + Stored(key, HasSetter(o.proto)) {
      if Owns(o.own, k) {
        var p :| p in o.own && p.key == k;
        assert p in o'.own;
      } else if k == key && Stored(key, HasSetter(o.proto)) != {} {
        assert Property(key, v) in o'.own;
      }
    }
  }

  /** The name and the colon of a member, read and parsed. */
  lemma MemberIsRead(t: Text)
    ensures
      var key := ReadString(SkipBlanks(t));
      var p := ParseMember(t, true);
      if key.Fail? || !StartsWith(SkipBlanks(key.rest), COLON) then p.Fail?
      else
        var e := ParseElement(SkipBlanks(key.rest)[1..], true);
        p.Got? == e.Got? && (p.Got? ==> Decode(p.value.key) == key.value && p.value.e == e.value && p.rest == e.rest)
  {
    hide ReadString, ParseElement, ParsePieces, TakeBlanks, Decode;
    StringsAgree(SkipBlanks(t));
  }

  /** And its value. */
  lemma ElementIsRead(t: Text, id: bool)
    requires ReadValue(t, id) == Loosened(ParseValue(SkipBlanks(t), true), id)
    ensures
      var v := ReadValue(t, id);
      var e := ParseElement(t, true);
      && (v.Got? <==> e.Got? && Ok(e.value.tree, true) && Admits(e.value.tree, id))
      && (v.Got? ==> v.value == Loosen(e.value.tree, id) && SkipBlanks(v.rest) == e.rest)
  {
    hide ReadValue, ParseValue, TakeBlanks, Loosen, Admits;
  }

  /** One assignment, and the rest of the members. */
  lemma MemberIsAssigned(ms: Members, o: PlainObject, owned: set<Text>, rest: Text)
    requires MembersOk(ms, true) && Admitted(ms.m) && Decode(ms.m.key) !in owned
    ensures
      var key := Decode(ms.m.key);
      LoosenedMembers(Got(ms, rest), o, owned) ==
        if ms.LastMember? then Got(Assigned(o, key, ValueIn(ms.m)), rest)
        else LoosenedMembers(Got(ms.rest, rest), Assigned(o, key, ValueIn(ms.m)), owned + Stored(key, HasSetter(o.proto)))
  {
    hide Assigned, Loosen, Severs, Cuts, HasSetter, Admits, Decode, Stored;
    MemberSevers(ms.m);
    AssignmentCuts(o, Decode(ms.m.key), ValueIn(ms.m));
  }

  lemma {:induction false} MembersAgree(t: Text, o: PlainObject, owned: set<Text>)
    requires OwnsExactly(o, owned)
    ensures ReadMembers(t, o) == LoosenedMembers(ParseMembers(t, true), o, owned)
    decreases |t|, 1
  {
    hide ReadString, ReadValue, ReadElements, ParseValue, ParseElements, ParseElement, ParseMember, ParsePieces, TakeBlanks, SkipBlanks, Owns, Assigned, HasSetter, Severs, Stored, Decode, Loosen, Admits, Ok, Built;
    MemberIsRead(t);
    var key := ReadString(SkipBlanks(t));
    if key.Got? && StartsWith(SkipBlanks(key.rest), COLON) {
      var m := SkipBlanks(key.rest)[1..];
      ValuesAgree(m, key.value == ID);
      ElementIsRead(m, key.value == ID);
      var v := ReadValue(m, key.value == ID);
      if v.Got? && !Owns(o.own, key.value) {
        var w := SkipBlanks(v.rest);
        AssignmentStores(o, key.value, v.value, owned);
        if StartsWith(w, COMMA) {
          MembersAgree(w[1..], Assigned(o, key.value, v.value), owned + Stored(key.value, HasSetter(o.proto)));
        }
        var p := ParseMembers(t, true);
        if p.Got? {
          MemberIsAssigned(p.value, o, owned, p.rest);
        }
      }
    }
  }

  /** The reader accepts a text exactly when it is a JSON text over the wide blanks in which no
      object is given a name it owns already and no number outside `id` overflows; and what it
      returns is that tree with its members assigned in turn and the digits of `id` kept. */
  lemma ReadingIsExact(raw: Text, v: Loose)
    ensures ReadText(raw) == Some(v) <==>
            exists e :: ElementOk(e, true) && ShowElement(e) == raw && Ok(e.tree, true) && Admits(e.tree, false) && Loosen(e.tree, false) == v
  {
    hide ReadValue, ParseValue, Loosen, Admits, ShowElement, TakeBlanks;
    ValuesAgree(raw, false);
    var parsed := ParseText(raw, true);
    TextIsValue(raw);
    if parsed.Some? {
      OneWideTree(raw, parsed.value);
    } else {
      forall e ensures !(ElementOk(e, true) && ShowElement(e) == raw) {
        ParsingIsExact(raw, e, true);
      }
    }
  }

  lemma TextIsValue(raw: Text)
    ensures
      var p := ParseValue(SkipBlanks(raw), true);
      && (ParseText(raw, true).Some? <==> p.Got? && SkipBlanks(p.rest) == [])
      && (ParseText(raw, true).Some? ==> ParseText(raw, true).value.tree == p.value)
  {
    hide ParseValue, TakeBlanks, ShowElement;
  }

  lemma OneWideTree(text: Text, e: Element)
    requires ParseText(text, true) == Some(e)
    ensures ElementOk(e, true) && ShowElement(e) == text && Ok(e.tree, true)
    ensures forall other :: ElementOk(other, true) && ShowElement(other) == text ==> other == e
  {
    forall other ensures ElementOk(other, true) && ShowElement(other) == text ==> other == e {
      ParsingIsExact(text, other, true);
    }
  }

  // ---- The reader

  function NumberOf(token: Text): Option<Loose> {
    match ParseNumeral(token) { case Fail => None case Got(n, _) => NumberValue(n, false) }
  }

  function Result<T>(p: Parse<T>): Option<T> { match p { case Fail => None case Got(v, _) => Some(v) } }

  function AfterDigits(t: Text): Text { TakeDigits(t).rest }

  lemma DigitSkipped(t: Text)
    requires t != [] && IsDigit(t[0])
    ensures AfterDigits(t[1..]) == AfterDigits(t)
  {
  }

  lemma NoDigitAhead(t: Text)
    requires t == [] || !IsDigit(t[0])
    ensures AfterDigits(t) == t
  {
  }

  class LosslessJsonReader {
    const input: Text
    var index: nat

    constructor (input: Text)
      ensures this.input == input && index == 0
    {
      this.input := input;
      index := 0;
    }

    ghost function Left(): Text
      requires index <= |input|
      reads this
    {
      input[index..]
    }

    predicate At(u: Unit)
      requires index <= |input|
      reads this
      ensures At(u) <==> StartsWith(Left(), u)
    {
      index < |input| && input[index] == u
    }

    method Advance(n: nat)
      requires index + n <= |input|
      modifies this`index
      ensures index == old(index) + n && Left() == old(Left()[n..])
    {
      DropDrops(input, index, n);
      index := index + n;
    }

    method Whitespace()
      requires index <= |input|
      modifies this`index
      ensures old(index) <= index <= |input| && Left() == old(SkipBlanks(Left()))
    {
      while index < |input| && IsBlank(input[index], true)
        invariant old(index) <= index <= |input| && SkipBlanks(Left()) == old(SkipBlanks(Left()))
      {
        Advance(1);
      }
    }

    method String() returns (r: Option<Text>)
      requires index <= |input| && At(QUOTE)
      modifies this`index
      ensures index <= |input| && r == old(Result(ReadString(Left())))
      ensures r.Some? ==> old(index) < index && old(ReadString(Left())) == Got(r.value, Left())
    {
      hide LiteralText;
      var start := index;
      Advance(1);
      var escaped := false;
      while index < |input|
        invariant old(index) < index <= |input|
        invariant old(LiteralEnd(Left()[1..])) ==
                  if !escaped then LiteralEnd(Left()) else if Left() == [] then None else LiteralEnd(Left()[1..])
      {
        var character := input[index];
        Advance(1);
        if escaped {
          escaped := false;
        } else if character == BACKSLASH {
          escaped := true;
        } else if character == QUOTE {
          SliceIsTake(input, start, index);
          return LiteralText(input[start..index]);
        } else if character < 32 {
          return None;
        }
      }
      return None;
    }

    predicate AtDigit()
      requires index <= |input|
      reads this
    {
      index < |input| && IsDigit(input[index])
    }

    method Digits()
      requires index <= |input|
      modifies this`index
      ensures old(index) <= index <= |input| && Left() == old(TakeDigits(Left()).rest)
    {
      hide TakeDigits;
      while index < |input| && IsDigit(input[index])
        invariant old(index) <= index <= |input| && AfterDigits(Left()) == old(AfterDigits(Left()))
      {
        DigitSkipped(Left());
        Advance(1);
      }
      NoDigitAhead(Left());
    }

    /** One digit at least; false where the source throws. */
    method SomeDigits() returns (ok: bool)
      requires index <= |input|
      modifies this`index
      ensures old(index) <= index <= |input| && Left() == old(TakeDigits(Left()).rest)
      ensures ok <==> old(TakeDigits(Left()).value) != []
    {
      ok := AtDigit();
      Digits();
    }

    method Whole() returns (ok: bool)
      requires index <= |input|
      modifies this`index
      ensures old(index) <= index <= |input|
      ensures ok <==> old(ParseWhole(Left())).Got?
      ensures ok ==> Left() == old(ParseWhole(Left())).rest
    {
      if At(ZERO) {
        Advance(1);
        return true;
      }
      ok := SomeDigits();
    }

    method Fraction() returns (ok: bool)
      requires index <= |input|
      modifies this`index
      ensures old(index) <= index <= |input|
      ensures ok <==> old(ParseFraction(Left())).Got?
      ensures ok ==> Left() == old(ParseFraction(Left())).rest
    {
      if At(POINT) {
        Advance(1);
        ok := SomeDigits();
        return ok;
      }
      return true;
    }

    method ExponentPart() returns (ok: bool)
      requires index <= |input|
      modifies this`index
      ensures old(index) <= index <= |input|
      ensures ok <==> old(ParseExponent(Left())).Got?
      ensures ok ==> Left() == old(ParseExponent(Left())).rest
    {
      if At(69) || At(101) {
        Advance(1);
        if At(PLUS) || At(MINUS) {
          Advance(1);
        }
        ok := SomeDigits();
        return ok;
      }
      return true;
    }

    method NumberEnd() returns (ok: bool)
      requires index <= |input|
      modifies this`index
      ensures old(index) <= index <= |input|
      ensures ok <==> old(ParseNumeral(Left())).Got?
      ensures ok ==> Left() == old(ParseNumeral(Left())).rest
    {
      hide ParseWhole, ParseFraction, ParseExponent, ShowNumeral;
      if At(MINUS) {
        Advance(1);
      }
      var whole := Whole();
      if !whole {
        return false;
      }
      var fraction := Fraction();
      if !fraction {
        return false;
      }
      ok := ExponentPart();
    }

    method Number(id: bool) returns (r: Option<Loose>)
      requires index <= |input|
      modifies this`index
      ensures index <= |input| && r == old(Result(ReadNumber(Left(), id)))
      ensures r.Some? ==> old(index) < index && old(ReadNumber(Left(), id)) == Got(r.value, Left())
    {
      hide ParseNumeral, ShowNumeral, NumberValue;
      var start := index;
      var ended := NumberEnd();
      if !ended {
        return None;
      }
      SliceIsTake(input, start, index);
      TokenIsNumeral(input[start..], Left());
      var token := input[start..index];
      if id {
        return Some(Token(token));
      }
      return NumberOf(token);
    }

    method Scalar(id: bool) returns (r: Option<Loose>)
      requires index < |input|
      modifies this`index
      ensures index <= |input| && r == old(Result(ReadScalar(Left(), id)))
      ensures r.Some? ==> old(index) < index && old(ReadScalar(Left(), id)) == Got(r.value, Left())
    {
      hide ReadString, ReadNumber;
      if input[index] == QUOTE {
        var text := String();
        return if text.Some? then Some(LooseText(text.value)) else None;
      }
      if TRUE <= input[index..] {
        Advance(4);
        return Some(LooseBool(true));
      }
      if FALSE <= input[index..] {
        Advance(5);
        return Some(LooseBool(false));
      }
      if NULL <= input[index..] {
        Advance(4);
        return Some(LooseNull);
      }
      if input[index] == MINUS || IsDigit(input[index]) {
        r := Number(id);
        return r;
      }
      return None;
    }

    method Value(id: bool) returns (r: Option<Loose>)
      requires index <= |input|
      modifies this`index
      ensures index <= |input| && r == old(Result(ReadValue(Left(), id)))
      ensures r.Some? ==> old(index) < index && old(ReadValue(Left(), id)) == Got(r.value, Left())
      decreases |input| - index, 0
    {
      hide ReadScalar, ReadElements, ReadMembers, TakeBlanks, ReadString, ReadNumber;
      Whitespace();
      if index == |input| {
        return None;
      }
      if input[index] == OPEN_BRACE {
        var closed := Opening(CLOSE_BRACE);
        if closed {
          return Some(LooseObject(EMPTY));
        }
        var built := Members();
        return if built.Some? then Some(LooseObject(built.value)) else None;
      }
      if input[index] == OPEN_BRACKET {
        var closed := Opening(CLOSE_BRACKET);
        if closed {
          return Some(LooseList([]));
        }
        var items := Elements();
        return if items.Some? then Some(LooseList(items.value)) else None;
      }
      r := Scalar(id);
    }

    /** Behind the opening bracket of a container: is it closed at once? */
    method Opening(close: Unit) returns (closed: bool)
      requires index < |input|
      modifies this`index
      ensures old(index) < index <= |input|
      ensures closed <==> old(StartsWith(SkipBlanks(Left()[1..]), close))
      ensures Left() == if closed then old(SkipBlanks(Left()[1..])[1..]) else old(SkipBlanks(Left()[1..]))
    {
      hide TakeBlanks;
      Advance(1);
      Whitespace();
      closed := At(close);
      if closed {
        Advance(1);
      }
    }

    /** The loop of `object`. */
    method Members() returns (r: Option<PlainObject>)
      requires index <= |input|
      modifies this`index
      ensures index <= |input| && r == old(Result(ReadMembers(Left(), EMPTY)))
      ensures r.Some? ==> old(index) < index && old(ReadMembers(Left(), EMPTY)) == Got(r.value, Left())
      decreases |input| - index, 1
    {
      hide ReadValue, ReadElements, ReadString, TakeBlanks;
      var result := EMPTY;
      while true
        invariant old(index) <= index <= |input|
        invariant ReadMembers(Left(), result) == old(ReadMembers(Left(), EMPTY))
        decreases |input| - index
      {
        Whitespace();
        if !At(QUOTE) {
          NoQuoteNoString(Left());
          return None;
        }
        var key := String();
        if key.None? || Owns(result.own, key.value) {
          return None;
        }
        Whitespace();
        if !At(COLON) {
          return None;
        }
        Advance(1);
        var value := Value(key.value == ID);
        if value.None? {
          return None;
        }
        result := Assigned(result, key.value, value.value);
        Whitespace();
        if At(CLOSE_BRACE) {
          Advance(1);
          return Some(result);
        }
        if !At(COMMA) {
          return None;
        }
        Advance(1);
      }
    }

    /** The loop of `array`. */
    method Elements() returns (r: Option<seq<Loose>>)
      requires index <= |input|
      modifies this`index
      ensures index <= |input| && r == old(Result(ReadElements(Left(), [])))
      ensures r.Some? ==> old(index) < index && old(ReadElements(Left(), [])) == Got(r.value, Left())
      decreases |input| - index, 1
    {
      hide ReadValue, ReadMembers, TakeBlanks;
      var result: seq<Loose> := [];
      while true
        invariant old(index) <= index <= |input|
        invariant ReadElements(Left(), result) == old(ReadElements(Left(), []))
        decreases |input| - index
      {
        var value := Value(false);
        if value.None? {
          return None;
        }
        result := result + [value.value];
        Whitespace();
        if At(CLOSE_BRACKET) {
          Advance(1);
          return Some(result);
        }
        if !At(COMMA) {
          return None;
        }
        Advance(1);
      }
    }
  }

  lemma NoQuoteNoString(t: Text)
    requires !StartsWith(t, QUOTE)
    ensures ReadString(t).Fail?
  {
  }

  /** None where the source throws. */
  method ParseLosslessGithubJson(raw: Text) returns (r: Option<Loose>)
    ensures r == ReadText(raw)
    ensures r.Some? <==> exists e :: ElementOk(e, true) && ShowElement(e) == raw && Ok(e.tree, true) && Admits(e.tree, false) && Some(Loosen(e.tree, false)) == r
  {
    hide ReadValue, Loosen, Admits, TakeBlanks;
    var reader := new LosslessJsonReader(raw);
    assert reader.Left() == raw;
    r := reader.Value(false);
    if r.Some? {
      reader.Whitespace();
      ReadingIsExact(raw, r.value);
      if reader.index != |raw| {
        return None;
      }
    }
  }

  lemma TokenIsNumeral(t: Text, rest: Text)
    requires ParseNumeral(t).Got? && ParseNumeral(t).rest == rest
    ensures |rest| <= |t|
    ensures t[..|t| - |rest|] == ShowNumeral(ParseNumeral(t).value)
    ensures ParseNumeral(ShowNumeral(ParseNumeral(t).value)) == Got(ParseNumeral(t).value, [])
    ensures NumberValue(ParseNumeral(t).value, true) == Some(Token(ShowNumeral(ParseNumeral(t).value)))
  {
    hide ParseWhole, ParseFraction, ParseExponent, ShowNumeral, ParseNumeral;
    var n := ParseNumeral(t).value;
    assert ShowNumeral(n) + [] == ShowNumeral(n);
    NumeralsParse(n, []);
  }

  // ---- Reading undoes printing

  function LooseOf(v: Json, id: bool): Loose {
    match v {
      case VNull => LooseNull
      case VBool(truth) => LooseBool(truth)
      case VNumber(n) => if id then Token(ShowNumeral(n)) else LooseNumber(n)
      case VText(t) => LooseText(t)
      case VList(items) => LooseList(LooseItems(items))
      case VObject(f) => LooseObject(PlainObject(LooseFields(f), Standard))
    }
  }

  function LooseItems(items: Items): seq<Loose> {
    if items.NoItems? then [] else [LooseOf(items.head, false)] + LooseItems(items.tail)
  }

  function LooseFields(f: Fields): (ps: seq<Property>)
    ensures |ps| == Count(f)
  {
    if f.NoFields? then [] else [Property(f.key, LooseOf(f.value, f.key == ID))] + LooseFields(f.rest)
  }

  /** Every number outside `id` is a double. */
  predicate Finite(v: Json, id: bool)
    requires ValueOk(v)
  {
    match v {
      case VNumber(n) => id || !Overflows(n)
      case VList(items) => FiniteItems(items)
      case VObject(f) => FiniteFields(f)
      case _ => true
    }
  }

  predicate FiniteItems(items: Items)
    requires ItemsOk(items)
  {
    items.Item? ==> Finite(items.head, false) && FiniteItems(items.tail)
  }

  predicate FiniteFields(f: Fields)
    requires FieldsOk(f)
  {
    f.Field? ==> Finite(f.value, f.key == ID) && FiniteFields(f.rest)
  }

  /** No object has a property named __proto__. */
  predicate ProtoFree(v: Json) {
    match v {
      case VList(items) => ProtoFreeItems(items)
      case VObject(f) => ProtoFreeFields(f)
      case _ => true
    }
  }

  predicate ProtoFreeItems(items: Items) { items.Item? ==> ProtoFree(items.head) && ProtoFreeItems(items.tail) }

  predicate ProtoFreeFields(f: Fields) { f.Field? ==> f.key != PROTO && ProtoFree(f.value) && ProtoFreeFields(f.rest) }

  lemma {:induction false} PrintedValuesRead(v: Json, id: bool)
    requires ValueOk(v) && Ok(TreeOf(v), true)
    ensures Admits(TreeOf(v), id) <==> Finite(v, id)
    ensures Finite(v, id) ==> (Loosen(TreeOf(v), id) == LooseOf(v, id) <==> ProtoFree(v))
    decreases v, 0
  {
    match v {
      case VText(t) => StringifyDecodes(t);
      case VList(items) => if items.Item? { PrintedItemsRead(items); }
      case VObject(f) => if f.Field? { PrintedObjectsRead(f); }
      case _ =>
    }
  }

  lemma {:induction false} PrintedItemsRead(items: Items)
    requires items.Item? && ItemsOk(items) && ElementsOk(ElementsOf(items), true)
    ensures ElementsAdmit(ElementsOf(items)) <==> FiniteItems(items)
    ensures FiniteItems(items) ==> (LoosenElements(ElementsOf(items)) == LooseItems(items) <==> ProtoFreeItems(items))
    decreases items, 0
  {
    var es := ElementsOf(items);
    assert ElementOk(es.e, true);
    PrintedValuesRead(items.head, false);
    if items.tail.Item? {
      PrintedItemsRead(items.tail);
      if FiniteItems(items) {
        ConsEqual(Loosen(es.e.tree, false), LoosenElements(es.rest), LooseOf(items.head, false), LooseItems(items.tail));
      }
    } else if FiniteItems(items) {
      ConsEqual(Loosen(es.e.tree, false), [], LooseOf(items.head, false), []);
    }
  }

  lemma ConsEqual<T>(x: T, xs: seq<T>, y: T, ys: seq<T>)
    ensures [x] + xs == [y] + ys <==> x == y && xs == ys
  {
    assert ([x] + xs)[0] == x && ([x] + xs)[1..] == xs;
    assert ([y] + ys)[0] == y && ([y] + ys)[1..] == ys;
  }

  lemma {:induction false} PrintedObjectsRead(f: Fields)
    requires f.Field? && FieldsOk(f) && MembersOk(MembersOf(f), true)
    ensures ValuesAdmit(MembersOf(f)) && NamesAdmit(MembersOf(f), {}, true) <==> FiniteFields(f)
    ensures FiniteFields(f) ==> (Built(MembersOf(f), EMPTY) == PlainObject(LooseFields(f), Standard) <==> ProtoFreeFields(f))
    decreases f, 1
  {
    hide LooseFields, ProtoFreeFields, FiniteFields, Kept;
    PrintedNamesAdmit(f, {}, true);
    PrintedFieldsRead(f, true);
    if FiniteFields(f) {
      OwnIsKept(MembersOf(f), EMPTY);
      assert [] + Kept(MembersOf(f), true) == Kept(MembersOf(f), true);
      if ProtoFreeFields(f) {
        PrototypeStays(f, EMPTY);
      }
    }
  }

  lemma {:induction false} PrototypeStays(f: Fields, o: PlainObject)
    requires f.Field? && FieldsOk(f) && MembersOk(MembersOf(f), true) && ValuesAdmit(MembersOf(f)) && ProtoFreeFields(f)
    ensures Built(MembersOf(f), o).proto == o.proto
    decreases f
  {
    hide Loosen, Admits;
    StringifyDecodes(f.key);
    var ms := MembersOf(f);
    assert MemberOk(ms.m, true);
    assert ElementOk(ms.m.e, true);
    assert Admitted(ms.m);
    if f.rest.Field? {
      PrototypeStays(f.rest, Assigned(o, f.key, Loosen(ms.m.e.tree, f.key == ID)));
    }
  }

  lemma {:induction false} PrintedNamesAdmit(f: Fields, owned: set<Text>, setter: bool)
    requires f.Field? && FieldsOk(f) && MembersOk(MembersOf(f), true) && forall k :: Has(f, k) ==> k !in owned
    ensures NamesAdmit(MembersOf(f), owned, setter)
    decreases f
  {
    var ms := MembersOf(f);
    assert MemberOk(ms.m, true);
    StringifyDecodes(f.key);
    if f.rest.Field? {
      assert forall k :: Has(f.rest, k) ==> Has(f, k) && k != f.key;
      PrintedNamesAdmit(f.rest, owned + Stored(f.key, setter), setter && !SeversSetter(ms.m));
    }
  }

  /** One field, printed and read: dropped or kept, with its value. */
  lemma FirstIsKept(f: Fields, setter: bool)
    requires f.Field? && FieldsOk(f) && MembersOk(MembersOf(f), true)
    ensures Ok(TreeOf(f.value), true) && ValueOk(f.value)
    ensures f.rest.Field? ==> FieldsOk(f.rest) && MembersOk(MembersOf(f.rest), true)
    ensures ValuesAdmit(MembersOf(f)) <==>
            Admits(TreeOf(f.value), f.key == ID) && (f.rest.Field? ==> ValuesAdmit(MembersOf(f.rest)))
    ensures ValuesAdmit(MembersOf(f)) ==>
              Kept(MembersOf(f), setter) ==
                (if f.key == PROTO && setter then [] else [Property(f.key, Loosen(TreeOf(f.value), f.key == ID))])
                + (if f.rest.Field? then Kept(MembersOf(f.rest), setter && !(f.key == PROTO && Severs(TreeOf(f.value)))) else [])
  {
    hide Admits, Loosen, Severs, TreeOf, Has, ValueOk, Stringify, Decode;
    var ms := MembersOf(f);
    assert MemberOk(ms.m, true);
    assert ElementOk(ms.m.e, true);
    StringifyDecodes(f.key);
    TidyTree(TreeOf(f.value));
    assert forall ps: seq<Property> :: ps + [] == ps;
  }

  /** Behind a setter that is gone stands no __proto__ here, as no name repeats. */
  lemma {:induction false} PrintedFieldsRead(f: Fields, setter: bool)
    requires f.Field? && FieldsOk(f) && MembersOk(MembersOf(f), true)
    requires setter || !Has(f, PROTO)
    ensures ValuesAdmit(MembersOf(f)) <==> FiniteFields(f)
    ensures FiniteFields(f) ==>
              && |Kept(MembersOf(f), setter)| <= Count(f)
              && (Kept(MembersOf(f), setter) == LooseFields(f) <==> ProtoFreeFields(f))
    decreases f, 0
  {
    hide Admits, Loosen, Finite, ProtoFree, LooseOf, Severs, Kept, ValuesAdmit, MembersOf, TreeOf, MembersOk, Ok, ValueOk;
    FirstIsKept(f, setter);
    PrintedValuesRead(f.value, f.key == ID);
    var setter' := setter && !(f.key == PROTO && Severs(TreeOf(f.value)));
    if f.rest.Field? {
      PrintedFieldsRead(f.rest, setter');
    }
    if FiniteFields(f) {
      var value := Loosen(TreeOf(f.value), f.key == ID);
      var rest := if f.rest.Field? then Kept(MembersOf(f.rest), setter') else [];
      ConsEqual(Property(f.key, value), rest, Property(f.key, LooseOf(f.value, f.key == ID)), LooseFields(f.rest));
      assert [] + rest == rest;
    }
  }

  /** Reading what was printed gives the value back, exactly when it names no property
      __proto__ and its numbers outside `id` are doubles.  The digits of a number named `id`
      come back as they were printed, at any length. */
  lemma ReadingUndoesPrinting(v: Json)
    requires ValueOk(v)
    ensures ReadText(Print(v)) == Some(LooseOf(v, false)) <==> Finite(v, false) && ProtoFree(v)
  {
    hide ReadText, Admits, Loosen, Finite, ProtoFree, LooseOf, ShowElement, TreeOf, ElementOk, ParseText, ValueOk;
    PrintingParses(v, true);
    PrintedValuesRead(v, false);
    OneWideTree(Print(v), Tidy(TreeOf(v)));
    ReadingIsExact(Print(v), LooseOf(v, false));
  }

  // ---- A repeated __proto__

  /** No two members but __proto__s have one name. */
  predicate OthersDistinct(ms: Members, seen: set<Text>)
    requires MembersOk(ms, true)
  {
    assert MemberOk(ms.m, true);
    var key := Decode(ms.m.key);
    (key == PROTO || key !in seen) && (ms.MoreMembers? ==> OthersDistinct(ms.rest, seen + ({key} - {PROTO})))
  }

  predicate NamesDistinct(ms: Members, seen: set<Text>)
    requires MembersOk(ms, true)
  {
    assert MemberOk(ms.m, true);
    var key := Decode(ms.m.key);
    key !in seen && (ms.MoreMembers? ==> NamesDistinct(ms.rest, seen + {key}))
  }

  /** The members named __proto__. */
  function Protos(ms: Members): nat
    requires MembersOk(ms, true)
  {
    assert MemberOk(ms.m, true);
    (if Decode(ms.m.key) == PROTO then 1 else 0) + (if ms.MoreMembers? then Protos(ms.rest) else 0)
  }

  /** Those behind the first that takes the setter away; all of them when it is gone already. */
  function LateProtos(ms: Members, setter: bool): (n: nat)
    requires MembersOk(ms, true)
    ensures n <= Protos(ms)
  {
    assert MemberOk(ms.m, true);
    (if Decode(ms.m.key) == PROTO && !setter then 1 else 0)
    + (if ms.MoreMembers? then LateProtos(ms.rest, setter && !SeversSetter(ms.m)) else 0)
  }

  lemma {:induction false} AdmittedNames(ms: Members, owned: set<Text>, setter: bool)
    requires MembersOk(ms, true)
    requires PROTO in owned ==> !setter
    ensures NamesAdmit(ms, owned, setter) <==>
            OthersDistinct(ms, owned - {PROTO}) && LateProtos(ms, setter) + |owned * {PROTO}| <= 1
    decreases ms
  {
    hide Decode, SeversSetter;
    assert MemberOk(ms.m, true);
    var key := Decode(ms.m.key);
    OneProto(owned);
    if ms.MoreMembers? {
      var owned' := owned + Stored(key, setter);
      OneProto(owned');
      assert owned' - {PROTO} == (owned - {PROTO}) + ({key} - {PROTO});
      AdmittedNames(ms.rest, owned', setter && !SeversSetter(ms.m));
    }
  }

  lemma OneProto(names: set<Text>)
    ensures |names * {PROTO}| == if PROTO in names then 1 else 0
  {
    assert names * {PROTO} == if PROTO in names then {PROTO} else {};
  }

  lemma {:induction false} DistinctNames(ms: Members, seen: set<Text>)
    requires MembersOk(ms, true)
    ensures NamesDistinct(ms, seen) <==> OthersDistinct(ms, seen - {PROTO}) && Protos(ms) + |seen * {PROTO}| <= 1
    decreases ms
  {
    hide Decode;
    assert MemberOk(ms.m, true);
    var key := Decode(ms.m.key);
    OneProto(seen);
    if ms.MoreMembers? {
      OneProto(seen + {key});
      assert (seen + {key}) - {PROTO} == (seen - {PROTO}) + ({key} - {PROTO});
      DistinctNames(ms.rest, seen + {key});
    }
  }

  /** When repeated names go unnoticed: exactly when the only name that repeats is __proto__ and
      at most one of them stands behind the first that takes the setter away. */
  lemma ProtoMayRepeat(ms: Members)
    requires MembersOk(ms, true)
    ensures NamesAdmit(ms, {}, true) && !NamesDistinct(ms, {}) <==>
            OthersDistinct(ms, {}) && LateProtos(ms, true) <= 1 < Protos(ms)
    ensures NamesDistinct(ms, {}) ==> NamesAdmit(ms, {}, true)
  {
    hide NamesAdmit, NamesDistinct, OthersDistinct, Protos, LateProtos;
    assert {} - {PROTO} == {} && |{} * {PROTO}| == 0;
    AdmittedNames(ms, {}, true);
    DistinctNames(ms, {});
  }

  predicate NamesProto(m: Member) { Admitted(m) && Decode(m.key) == PROTO }

  /** Two members named __proto__, with any values, are accepted.  The object owns the second
      exactly when the first takes the setter away. */
  lemma SecondProto(m: Member, n: Member)
    requires NamesProto(m) && NamesProto(n)
    ensures
      var c := Obj(MoreMembers(m, LastMember(n)));
      var r := ReadText(ShowElement(Tidy(c)));
      && Ok(c, true) && r.Some? && r.value.LooseObject?
      && r.value.built.own == if SeversSetter(m) then [Property(PROTO, ValueIn(n))] else []
  {
    hide Admits, Loosen, Severs, ElementOk, ReadText, ShowElement, Tidy;
    ProtoIsNotId();
    var ms := MoreMembers(m, LastMember(n));
    assert MembersOk(LastMember(n), true) && MembersOk(ms, true);
    assert ValuesAdmit(LastMember(n)) && ValuesAdmit(ms);
    assert NamesAdmit(LastMember(n), {} + Stored(PROTO, true), !SeversSetter(m));
    assert NamesAdmit(ms, {}, true);
    AdmitsObject(ms);
    TidyReads(Obj(ms));
    OwnIsKept(ms, EMPTY);
    assert HasSetter(EMPTY.proto);
    assert Kept(LastMember(n), !SeversSetter(m)) == if SeversSetter(m) then [Property(PROTO, ValueIn(n))] else [];
  }

  lemma AdmitsObject(ms: Members)
    requires MembersOk(ms, true) && ValuesAdmit(ms)
    ensures Ok(Obj(ms), true)
    ensures Admits(Obj(ms), false) <==> NamesAdmit(ms, {}, true)
    ensures NamesAdmit(ms, {}, true) ==> Loosen(Obj(ms), false) == LooseObject(Built(ms, EMPTY))
  {
  }

  lemma NamesOfThree(m: Member, n: Member, l: Member)
    requires NamesProto(m) && NamesProto(n) && NamesProto(l)
    ensures MembersOk(MoreMembers(m, MoreMembers(n, LastMember(l))), true)
    ensures NamesAdmit(MoreMembers(m, MoreMembers(n, LastMember(l))), {}, true) <==> !SeversSetter(m)
  {
    hide Admits, Severs, ElementOk, Decode;
    var ms := MoreMembers(m, MoreMembers(n, LastMember(l)));
    assert MembersOk(ms.rest.rest, true) && MembersOk(ms.rest, true) && MembersOk(ms, true);
    var first := {} + Stored(PROTO, true);
    var second := first + Stored(PROTO, !SeversSetter(m));
    assert NamesAdmit(ms.rest.rest, second, !SeversSetter(m) && !SeversSetter(n)) <==> PROTO !in second;
    assert NamesAdmit(ms.rest, first, !SeversSetter(m)) <==> PROTO !in second;
  }

  /** Of three, the last is a duplicate exactly when the first takes the setter away. */
  lemma ThirdProto(m: Member, n: Member, l: Member)
    requires NamesProto(m) && NamesProto(n) && NamesProto(l)
    ensures
      var c := Obj(MoreMembers(m, MoreMembers(n, LastMember(l))));
      Ok(c, true) && (ReadText(ShowElement(Tidy(c))).Some? <==> !SeversSetter(m))
  {
    hide Admits, Loosen, Severs, ElementOk, ReadText, ShowElement, Tidy;
    ProtoIsNotId();
    var ms := MoreMembers(m, MoreMembers(n, LastMember(l)));
    assert MembersOk(LastMember(l), true) && MembersOk(ms.rest, true) && MembersOk(ms, true);
    assert ValuesAdmit(LastMember(l)) && ValuesAdmit(ms.rest) && ValuesAdmit(ms);
    AdmitsObject(ms);
    TidyReads(Obj(ms));
    NamesOfThree(m, n, l);
  }

  /** The tidy text of a tree is read exactly when the tree is admitted. */
  lemma TidyReads(c: Tree)
    requires Ok(c, true)
    ensures ReadText(ShowElement(Tidy(c))) == if Admits(c, false) then Some(Loosen(c, false)) else None
  {
    hide Admits, Loosen, ReadText, ShowElement, ElementOk, Tidy, ParseText;
    TidyIsOk(c, true);
    TidyTree(c);
    var text := ShowElement(Tidy(c));
    ParsingIsExact(text, Tidy(c), true);
    OneWideTree(text, Tidy(c));
    if Admits(c, false) {
      ReadingIsExact(text, Loosen(c, false));
    } else if ReadText(text).Some? {
      ReadingIsExact(text, ReadText(text).value);
    }
  }

  lemma TidyTree(c: Tree)
    ensures Tidy(c).tree == c
  {
  }
}
