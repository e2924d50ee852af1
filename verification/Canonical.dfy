/** `canonicalize` of winner/runtime/integrity.ts over JSON values.

    A number is represented by the numeral JSON.stringify prints for it, so that two numbers
    are equal exactly when their numerals are. */
module Canonical {
  import opened Domain
  import opened JsonText

  datatype Json =
    | VNull
    | VBool(truth: bool)
    | VNumber(numeral: Numeral)
    | VText(text: Text)
    | VList(items: Items)
    | VObject(fields: Fields)

  datatype Items = NoItems | Item(head: Json, tail: Items)

  /** The own enumerable properties in the order Object.keys lists them. */
  datatype Fields = NoFields | Field(key: Text, value: Json, rest: Fields)

  predicate Has(f: Fields, key: Text) { f.Field? && (f.key == key || Has(f.rest, key)) }

  function Get(f: Fields, key: Text): Json
    requires Has(f, key)
  {
    if f.key == key then f.value else Get(f.rest, key)
  }

  function Count(f: Fields): nat { if f.NoFields? then 0 else 1 + Count(f.rest) }

  /** What a value can be: numbers print as numerals and no object has a property twice. */
  predicate ValueOk(v: Json) {
    match v {
      case VNumber(n) => NumeralOk(n)
      case VList(items) => ItemsOk(items)
      case VObject(f) => FieldsOk(f)
      case _ => true
    }
  }

  predicate ItemsOk(items: Items) { items.Item? ==> ValueOk(items.head) && ItemsOk(items.tail) }

  predicate FieldsOk(f: Fields) { f.Field? ==> ValueOk(f.value) && !Has(f.rest, f.key) && FieldsOk(f.rest) }

  /** Equal up to the order of properties, at every depth. */
  predicate Same(a: Json, b: Json) {
    match a {
      case VList(items) => b.VList? && SameItems(items, b.items)
      case VObject(f) => b.VObject? && Count(f) == Count(b.fields) && Within(f, b.fields)
      case _ => a == b
    }
  }

  predicate SameItems(a: Items, b: Items) {
    match a {
      case NoItems => b.NoItems?
      case Item(head, tail) => b.Item? && Same(head, b.head) && SameItems(tail, b.tail)
    }
  }

  predicate Within(f: Fields, g: Fields) {
    f.Field? ==> Has(g, f.key) && Same(f.value, Get(g, f.key)) && Within(f.rest, g)
  }

  // ---- JSON.stringify of a string

  predicate IsHigh(u: Unit) { 0xD800 <= u <= 0xDBFF }
  predicate IsLow(u: Unit) { 0xDC00 <= u <= 0xDFFF }
  predicate IsSurrogate(u: Unit) { 0xD800 <= u <= 0xDFFF }

  function LowerHex(v: int): (u: Unit)
    requires 0 <= v < 16
    ensures IsHexDigit(u) && HexValue(u) == v
  {
    if v < 10 then 48 + v else 87 + v
  }

  function HexEscape(u: Unit): (p: Piece)
    ensures p.Hex? && PieceOk(p) && DecodePiece(p) == u
  {
    var q := u / 16;
    var r := q / 16;
    Hex(LowerHex(r / 16), LowerHex(r % 16), LowerHex(q % 16), LowerHex(u % 16))
  }

  function EscapeUnit(u: Unit): (p: Piece)
    requires !IsSurrogate(u)
    ensures PieceOk(p) && DecodePiece(p) == u
  {
    if u == QUOTE || u == BACKSLASH then Short(u)
    else if u == 8 then Short(98)
    else if u == 12 then Short(102)
    else if u == 10 then Short(110)
    else if u == 13 then Short(114)
    else if u == 9 then Short(116)
    else if u < 32 then HexEscape(u)
    else Plain(u)
  }

  /** A surrogate pair stays as it is; a lone surrogate is escaped. */
  function Stringify(t: Text): (ps: seq<Piece>)
    ensures PiecesOk(ps)
  {
    if t == [] then []
    else if |t| >= 2 && IsHigh(t[0]) && IsLow(t[1]) then [Plain(t[0]), Plain(t[1])] + Stringify(t[2..])
    else if IsSurrogate(t[0]) then [HexEscape(t[0])] + Stringify(t[1..])
    else [EscapeUnit(t[0])] + Stringify(t[1..])
  }

  lemma {:induction false} StringifyDecodes(t: Text)
    ensures Decode(Stringify(t)) == t
  {
    if t != [] {
      var ps := Stringify(t);
      if |t| >= 2 && IsHigh(t[0]) && IsLow(t[1]) {
        StringifyDecodes(t[2..]);
        assert ps[1..][1..] == Stringify(t[2..]);
        assert t == [t[0]] + ([t[1]] + t[2..]);
      } else {
        StringifyDecodes(t[1..]);
        assert ps[1..] == Stringify(t[1..]);
      }
    }
  }

  // ---- Printing in the order of the properties

  function Tidy(c: Tree): Element { Element([], c, []) }

  function TreeOf(v: Json): Tree {
    match v {
      case VNull => Word(NullWord)
      case VBool(truth) => Word(if truth then TrueWord else FalseWord)
      case VNumber(n) => Number(n)
      case VText(t) => Str(Stringify(t))
      case VList(items) => if items.NoItems? then EmptyArray([]) else Arr(ElementsOf(items))
      case VObject(f) => if f.NoFields? then EmptyObject([]) else Obj(MembersOf(f))
    }
  }

  function ElementsOf(items: Items): Elements
    requires items.Item?
  {
    var e := Tidy(TreeOf(items.head));
    if items.tail.NoItems? then LastElement(e) else MoreElements(e, ElementsOf(items.tail))
  }

  function MembersOf(f: Fields): Members
    requires f.Field?
  {
    var m := Member([], Stringify(f.key), [], Tidy(TreeOf(f.value)));
    if f.rest.NoFields? then LastMember(m) else MoreMembers(m, MembersOf(f.rest))
  }

  function Print(v: Json): Text { ShowElement(Tidy(TreeOf(v))) }

  // ---- What a tree means

  function ValueOf(c: Tree): Json
    requires Ok(c, true)
  {
    match c {
      case Word(l) => (match l { case NullWord => VNull case TrueWord => VBool(true) case FalseWord => VBool(false) })
      case Number(n) => VNumber(n)
      case Str(ps) => VText(Decode(ps))
      case EmptyArray(_) => VList(NoItems)
      case Arr(es) => VList(ItemsOf(es))
      case EmptyObject(_) => VObject(NoFields)
      case Obj(ms) => VObject(FieldsOf(ms))
    }
  }

  function ItemsOf(es: Elements): Items
    requires ElementsOk(es, true)
  {
    assert ElementOk(es.e, true);
    Item(ValueOf(es.e.tree), if es.LastElement? then NoItems else ItemsOf(es.rest))
  }

  function FieldsOf(ms: Members): Fields
    requires MembersOk(ms, true)
  {
    assert MemberOk(ms.m, true);
    assert ElementOk(ms.m.e, true);
    Field(Decode(ms.m.key), ValueOf(ms.m.e.tree), if ms.LastMember? then NoFields else FieldsOf(ms.rest))
  }

  lemma {:induction false} TreesMeanTheirValue(v: Json)
    requires ValueOk(v)
    ensures Ok(TreeOf(v), false) && Ok(TreeOf(v), true) && ValueOf(TreeOf(v)) == v
    decreases v, 0
  {
    match v {
      case VText(t) => StringifyDecodes(t);
      case VList(items) => if items.Item? { ElementsMeanTheirItems(items); }
      case VObject(f) => if f.Field? { MembersMeanTheirFields(f); }
      case _ =>
    }
  }

  lemma {:induction false} ElementsMeanTheirItems(items: Items)
    requires items.Item? && ItemsOk(items)
    ensures ElementsOk(ElementsOf(items), false) && ElementsOk(ElementsOf(items), true) && ItemsOf(ElementsOf(items)) == items
    decreases items, 0
  {
    TreesMeanTheirValue(items.head);
    if items.tail.Item? {
      ElementsMeanTheirItems(items.tail);
    }
  }

  lemma {:induction false} MembersMeanTheirFields(f: Fields)
    requires f.Field? && FieldsOk(f)
    ensures MembersOk(MembersOf(f), false) && MembersOk(MembersOf(f), true) && FieldsOf(MembersOf(f)) == f
    decreases f, 0
  {
    TreesMeanTheirValue(f.value);
    StringifyDecodes(f.key);
    if f.rest.Field? {
      MembersMeanTheirFields(f.rest);
    }
  }

  lemma TidyIsOk(c: Tree, wide: bool)
    requires Ok(c, wide)
    ensures ElementOk(Tidy(c), wide)
  {
  }

  /** Printing is undone by parsing, so no two values print alike. */
  lemma PrintingParses(v: Json, wide: bool)
    requires ValueOk(v)
    ensures ParseText(Print(v), wide) == Some(Tidy(TreeOf(v))) && Ok(TreeOf(v), true) && ValueOf(TreeOf(v)) == v
  {
    hide ShowElement, ParseText, TreeOf, ValueOf, ElementOk, Ok, Tidy;
    TreesMeanTheirValue(v);
    if wide {
      TidyIsOk(TreeOf(v), true);
      ParsingIsExact(Print(v), Tidy(TreeOf(v)), true);
    } else {
      TidyIsOk(TreeOf(v), false);
      ParsingIsExact(Print(v), Tidy(TreeOf(v)), false);
    }
  }

  // ---- Sorting the properties

  /** The order of Array.prototype.sort on strings: by code units. */
  predicate Before(a: Text, b: Text) {
    if b == [] then false
    else if a == [] then true
    else if a[0] != b[0] then a[0] < b[0]
    else Before(a[1..], b[1..])
  }

  /** Up to `k` the two agree, and there `a` ends or has the smaller unit. */
  predicate SmallerAt(a: Text, b: Text, k: nat) {
    k <= |a| && k < |b| && a[..k] == b[..k] && (k == |a| || a[k] < b[k])
  }

  ghost predicate Smaller(a: Text, b: Text) { exists k: nat :: SmallerAt(a, b, k) }

  /** The order is ascending, by the first unit that differs; a proper prefix comes first. */
  lemma {:induction false} BeforeMeansSmaller(a: Text, b: Text)
    ensures Before(a, b) <==> Smaller(a, b)
    decreases |a|
  {
    if b != [] && (a == [] || a[0] != b[0]) {
      assert a != [] && a[0] > b[0] ==> forall k: nat :: SmallerAt(a, b, k) ==> k == 0 || a[..k][0] == b[..k][0];
      assert Before(a, b) ==> SmallerAt(a, b, 0);
    } else if b != [] {
      BeforeMeansSmaller(a[1..], b[1..]);
      if k: nat :| SmallerAt(a, b, k) {
        assert k > 0;
        assert a[1..][..k - 1] == a[..k][1..] && b[1..][..k - 1] == b[..k][1..];
        assert SmallerAt(a[1..], b[1..], k - 1);
      }
      if k: nat :| SmallerAt(a[1..], b[1..], k) {
        assert a[..k + 1] == [a[0]] + a[1..][..k] && b[..k + 1] == [b[0]] + b[1..][..k];
        assert SmallerAt(a, b, k + 1);
      }
    }
  }

  lemma {:induction false} OrderIsTotal(a: Text, b: Text)
    ensures a == b || Before(a, b) || Before(b, a)
    ensures !(Before(a, b) && Before(b, a)) && !Before(a, a)
  {
    if a != [] && b != [] && a[0] == b[0] {
      OrderIsTotal(a[1..], b[1..]);
    }
    if a != [] {
      OrderIsTotal(a[1..], a[1..]);
    }
  }

  lemma {:induction false} OrderIsTransitive(a: Text, b: Text, c: Text)
    requires Before(a, b) && Before(b, c)
    ensures Before(a, c)
  {
    if a != [] && a[0] == b[0] && b[0] == c[0] {
      OrderIsTransitive(a[1..], b[1..], c[1..]);
    }
  }

  function Insert(key: Text, value: Json, f: Fields): Fields {
    if f.NoFields? || Before(key, f.key) then Field(key, value, f) else Field(f.key, f.value, Insert(key, value, f.rest))
  }

  /** The value with the properties of every object sorted. */
  function Sorted(v: Json): Json {
    match v {
      case VList(items) => VList(SortedItems(items))
      case VObject(f) => VObject(SortedFields(f))
      case _ => v
    }
  }

  function SortedItems(items: Items): Items {
    if items.NoItems? then NoItems else Item(Sorted(items.head), SortedItems(items.tail))
  }

  function SortedFields(f: Fields): Fields {
    if f.NoFields? then NoFields else Insert(f.key, Sorted(f.value), SortedFields(f.rest))
  }

  function Canonicalize(v: Json): Text { Print(Sorted(v)) }

  predicate Ascending(f: Fields) {
    f.Field? ==> Ascending(f.rest) && (f.rest.Field? ==> Before(f.key, f.rest.key))
  }

  lemma {:induction false} InsertInserts(key: Text, value: Json, f: Fields)
    requires !Has(f, key)
    ensures var g := Insert(key, value, f);
            && Count(g) == Count(f) + 1 && Has(g, key) && Get(g, key) == value
            && (forall k :: Has(g, k) <==> k == key || Has(f, k))
            && (forall k :: Has(f, k) ==> Get(g, k) == Get(f, k))
            && (FieldsOk(f) && ValueOk(value) ==> FieldsOk(g))
            && (Ascending(f) ==> Ascending(g))
  {
    if f.Field? && !Before(key, f.key) {
      InsertInserts(key, value, f.rest);
      OrderIsTotal(key, f.key);
    }
  }

  lemma {:induction false} SortingKeeps(v: Json)
    requires ValueOk(v)
    ensures ValueOk(Sorted(v))
    decreases v, 0
  {
    match v {
      case VList(items) => SortingKeepsItems(items);
      case VObject(f) => SortingKeepsFields(f);
      case _ =>
    }
  }

  lemma {:induction false} SortingKeepsItems(items: Items)
    requires ItemsOk(items)
    ensures ItemsOk(SortedItems(items))
    decreases items, 0
  {
    if items.Item? {
      SortingKeeps(items.head);
      SortingKeepsItems(items.tail);
    }
  }

  lemma {:induction false} SortingKeepsFields(f: Fields)
    requires FieldsOk(f)
    ensures var g := SortedFields(f);
            && FieldsOk(g) && Ascending(g) && Count(g) == Count(f)
            && (forall k :: Has(g, k) <==> Has(f, k))
            && (forall k :: Has(f, k) ==> Get(g, k) == Sorted(Get(f, k)))
    decreases f, 0
  {
    if f.Field? {
      SortingKeeps(f.value);
      SortingKeepsFields(f.rest);
      InsertInserts(f.key, Sorted(f.value), SortedFields(f.rest));
    }
  }

  function Names(f: Fields): seq<Text> { if f.NoFields? then [] else [f.key] + Names(f.rest) }

  /** At every depth the names of an object ascend. */
  ghost predicate InOrder(v: Json) {
    match v {
      case VList(items) => ItemsInOrder(items)
      case VObject(f) => FieldsInOrder(f) && forall i, j | 0 <= i < j < |Names(f)| :: Smaller(Names(f)[i], Names(f)[j])
      case _ => true
    }
  }

  ghost predicate ItemsInOrder(items: Items) { items.Item? ==> InOrder(items.head) && ItemsInOrder(items.tail) }

  ghost predicate FieldsInOrder(f: Fields) { f.Field? ==> InOrder(f.value) && FieldsInOrder(f.rest) }

  lemma {:induction false} AscendingNames(f: Fields, i: nat, j: nat)
    requires Ascending(f) && i < j < |Names(f)|
    ensures Before(Names(f)[i], Names(f)[j])
    decreases f
  {
    if i > 0 {
      AscendingNames(f.rest, i - 1, j - 1);
    } else if j > 1 {
      AscendingNames(f.rest, 0, j - 1);
      OrderIsTransitive(f.key, f.rest.key, Names(f)[j]);
    }
  }

  lemma NamesAscend(f: Fields)
    requires Ascending(f)
    ensures forall i, j | 0 <= i < j < |Names(f)| :: Smaller(Names(f)[i], Names(f)[j])
  {
    forall i, j | 0 <= i < j < |Names(f)| ensures Smaller(Names(f)[i], Names(f)[j]) {
      AscendingNames(f, i, j);
      BeforeMeansSmaller(Names(f)[i], Names(f)[j]);
    }
  }

  lemma {:induction false} InsertKeepsOrder(key: Text, value: Json, f: Fields)
    requires InOrder(value) && FieldsInOrder(f)
    ensures FieldsInOrder(Insert(key, value, f))
  {
    if f.Field? && !Before(key, f.key) {
      InsertKeepsOrder(key, value, f.rest);
    }
  }

  /** What is printed canonically is a value whose objects list their names ascending, at every
      depth. */
  lemma {:induction false} SortingOrders(v: Json)
    requires ValueOk(v)
    ensures InOrder(Sorted(v))
    decreases v, 0
  {
    match v {
      case VList(items) => SortingOrdersItems(items);
      case VObject(f) =>
        SortingOrdersFields(f);
        SortingKeepsFields(f);
        NamesAscend(SortedFields(f));
      case _ =>
    }
  }

  lemma {:induction false} SortingOrdersItems(items: Items)
    requires ItemsOk(items)
    ensures ItemsInOrder(SortedItems(items))
    decreases items, 0
  {
    if items.Item? {
      SortingOrders(items.head);
      SortingOrdersItems(items.tail);
    }
  }

  lemma {:induction false} SortingOrdersFields(f: Fields)
    requires FieldsOk(f)
    ensures FieldsInOrder(SortedFields(f))
    decreases f, 0
  {
    if f.Field? {
      SortingOrders(f.value);
      SortingOrdersFields(f.rest);
      InsertKeepsOrder(f.key, Sorted(f.value), SortedFields(f.rest));
    }
  }

  // ---- Equal normal forms mean equal values, and conversely

  lemma {:induction false} SortedAlikeIsSame(a: Json, b: Json)
    requires ValueOk(a) && ValueOk(b) && Sorted(a) == Sorted(b)
    ensures Same(a, b)
    decreases a, 0
  {
    match a {
      case VList(items) => SortedAlikeItems(items, b.items);
      case VObject(f) =>
        SortingKeepsFields(f);
        SortingKeepsFields(b.fields);
        SortedAlikeFields(f, f, b.fields);
      case _ =>
    }
  }

  lemma {:induction false} SortedAlikeItems(a: Items, b: Items)
    requires ItemsOk(a) && ItemsOk(b) && SortedItems(a) == SortedItems(b)
    ensures SameItems(a, b)
    decreases a, 0
  {
    if a.Item? {
      SortedAlikeIsSame(a.head, b.head);
      SortedAlikeItems(a.tail, b.tail);
    }
  }

  lemma {:induction false} SortedAlikeFields(part: Fields, f: Fields, g: Fields)
    requires FieldsOk(part) && FieldsOk(f) && FieldsOk(g) && SortedFields(f) == SortedFields(g)
    requires forall k :: Has(part, k) ==> Has(f, k) && Get(f, k) == Get(part, k)
    ensures Within(part, g)
    decreases part, 0
  {
    if part.Field? {
      SortingKeepsFields(f);
      SortingKeepsFields(g);
      assert Get(f, part.key) == part.value;
      GetIsOk(g, part.key);
      SortedAlikeIsSame(part.value, Get(g, part.key));
      assert forall k :: Has(part.rest, k) ==> k != part.key;
      SortedAlikeFields(part.rest, f, g);
    }
  }

  lemma {:induction false} GetIsOk(f: Fields, key: Text)
    requires FieldsOk(f) && Has(f, key)
    ensures ValueOk(Get(f, key))
  {
    if f.key != key {
      GetIsOk(f.rest, key);
    }
  }

  lemma {:induction false} SameSortsAlike(a: Json, b: Json)
    requires ValueOk(a) && ValueOk(b) && Same(a, b)
    ensures Sorted(a) == Sorted(b)
    decreases a, 0
  {
    match a {
      case VList(items) => SameItemsSortAlike(items, b.items);
      case VObject(f) =>
        SortingKeepsFields(f);
        SortingKeepsFields(b.fields);
        WithinSortsAlike(f, b.fields);
        AscendingAlike(SortedFields(f), SortedFields(b.fields));
      case _ =>
    }
  }

  lemma {:induction false} SameItemsSortAlike(a: Items, b: Items)
    requires ItemsOk(a) && ItemsOk(b) && SameItems(a, b)
    ensures SortedItems(a) == SortedItems(b)
    decreases a, 0
  {
    if a.Item? {
      SameSortsAlike(a.head, b.head);
      SameItemsSortAlike(a.tail, b.tail);
    }
  }

  lemma {:induction false} WithinSortsAlike(f: Fields, g: Fields)
    requires FieldsOk(f) && FieldsOk(g) && Within(f, g)
    ensures forall k :: Has(f, k) ==> Has(g, k) && Sorted(Get(f, k)) == Sorted(Get(g, k))
    decreases f, 0
  {
    if f.Field? {
      GetIsOk(g, f.key);
      SameSortsAlike(f.value, Get(g, f.key));
      WithinSortsAlike(f.rest, g);
    }
  }

  lemma {:induction false} FirstIsLeast(f: Fields, k: Text)
    requires f.Field? && Ascending(f) && Has(f, k)
    ensures k == f.key || Before(f.key, k)
  {
    if k != f.key {
      FirstIsLeast(f.rest, k);
      if k != f.rest.key {
        OrderIsTransitive(f.key, f.rest.key, k);
      }
    }
  }

  lemma {:induction false} RestComesLater(f: Fields, k: Text)
    requires f.Field? && Ascending(f) && Has(f.rest, k)
    ensures Before(f.key, k)
  {
    FirstIsLeast(f.rest, k);
    if k != f.rest.key {
      OrderIsTransitive(f.key, f.rest.key, k);
    }
  }

  lemma FirstIsOnce(f: Fields)
    requires f.Field? && Ascending(f)
    ensures !Has(f.rest, f.key)
  {
    OrderIsTotal(f.key, f.key);
    if Has(f.rest, f.key) {
      RestComesLater(f, f.key);
    }
  }

  function Keys(f: Fields): set<Text> { if f.NoFields? then {} else {f.key} + Keys(f.rest) }

  lemma {:induction false} KeysAreCounted(f: Fields)
    requires Ascending(f)
    ensures forall k :: k in Keys(f) <==> Has(f, k)
    ensures |Keys(f)| == Count(f)
  {
    if f.Field? {
      KeysAreCounted(f.rest);
      FirstIsOnce(f);
    }
  }

  /** Two sorted lists with the same number of properties, one's among the other's, are equal. */
  lemma {:induction false} AscendingAlike(f: Fields, g: Fields)
    requires Ascending(f) && Ascending(g) && Count(f) == Count(g)
    requires forall k :: Has(f, k) ==> Has(g, k) && Get(f, k) == Get(g, k)
    ensures f == g
  {
    if f.Field? {
      KeysAreCounted(f);
      KeysAreCounted(g);
      SubsetOfSameSize(Keys(f), Keys(g));
      assert Has(f, f.key) && Has(g, g.key);
      assert g.key in Keys(g) && Has(f, g.key) && Has(g, f.key);
      FirstIsLeast(f, g.key);
      FirstIsLeast(g, f.key);
      OrderIsTotal(f.key, g.key);
      KeysAreCounted(f.rest);
      FirstIsOnce(f);
      AscendingAlike(f.rest, g.rest);
    }
  }

  lemma {:induction false} SubsetOfSameSize<T>(a: set<T>, b: set<T>)
    requires a <= b && |a| == |b|
    ensures a == b
    decreases |a|
  {
    if a != {} {
      var x :| x in a;
      SubsetOfSameSize(a - {x}, b - {x});
      assert a == (a - {x}) + {x} && b == (b - {x}) + {x};
    }
  }

  // ---- The promises of canonicalize

  /** Equal output means equal values at every depth, up to the order of properties; and that
      order, wherever the value came from, never shows in the output. */
  lemma CanonicalFormIsExact(a: Json, b: Json)
    requires ValueOk(a) && ValueOk(b)
    ensures Canonicalize(a) == Canonicalize(b) <==> Same(a, b)
  {
    SortingKeeps(a);
    SortingKeeps(b);
    if Canonicalize(a) == Canonicalize(b) {
      PrintingParses(Sorted(a), false);
      PrintingParses(Sorted(b), false);
      SortedAlikeIsSame(a, b);
    }
    if Same(a, b) {
      SameSortsAlike(a, b);
    }
  }

  lemma {:induction false} SortedIsSame(v: Json)
    requires ValueOk(v)
    ensures ValueOk(Sorted(v)) && Sorted(Sorted(v)) == Sorted(v) && Same(v, Sorted(v))
    decreases v, 0
  {
    SortingKeeps(v);
    match v {
      case VList(items) => SortedItemsAreSorted(items);
      case VObject(f) =>
        SortingKeepsFields(f);
        SortingKeepsFields(SortedFields(f));
        SortedFieldsAreSorted(f);
        AscendingAlike(SortedFields(SortedFields(f)), SortedFields(f));
      case _ =>
    }
    SortedAlikeIsSame(v, Sorted(v));
  }

  lemma {:induction false} SortedItemsAreSorted(items: Items)
    requires ItemsOk(items)
    ensures SortedItems(SortedItems(items)) == SortedItems(items)
    decreases items, 0
  {
    if items.Item? {
      SortedIsSame(items.head);
      SortedItemsAreSorted(items.tail);
    }
  }

  lemma {:induction false} SortedFieldsAreSorted(f: Fields)
    requires FieldsOk(f)
    ensures forall k :: Has(f, k) ==> Sorted(Sorted(Get(f, k))) == Sorted(Get(f, k))
    decreases f, 0
  {
    if f.Field? {
      SortedIsSame(f.value);
      SortedFieldsAreSorted(f.rest);
    }
  }
}
