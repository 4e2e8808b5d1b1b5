/** JSON.stringify on canonical values, and its injectivity. */
module JsonText {
  import opened Prelude
  import opened CanonicalJson
  import opened CanonicalValue

  const QUOTE: Unit := 0x22
  const COMMA: Unit := 0x2c
  const COLON: Unit := 0x3a
  const BACKSLASH: Unit := 0x5c
  const OPEN_ARRAY: Unit := 0x5b
  const CLOSE_ARRAY: Unit := 0x5d
  const OPEN_OBJECT: Unit := 0x7b
  const CLOSE_OBJECT: Unit := 0x7d
  const NULL: Text := [0x6e, 0x75, 0x6c, 0x6c]
  const TRUE: Text := [0x74, 0x72, 0x75, 0x65]
  const FALSE: Text := [0x66, 0x61, 0x6c, 0x73, 0x65]

  // --- strings ---

  predicate High(u: Unit) {
    0xd800 <= u <= 0xdbff
  }

  predicate Low(u: Unit) {
    0xdc00 <= u <= 0xdfff
  }

  /** The letter of a two-character escape. */
  function Letter(u: Unit): Option<Unit> {
    match u
    case 0x22 => Some(0x22)
    case 0x5c => Some(0x5c)
    case 0x08 => Some(0x62)
    case 0x0c => Some(0x66)
    case 0x0a => Some(0x6e)
    case 0x0d => Some(0x72)
    case 0x09 => Some(0x74)
    case _ => None
  }

  function Hex(n: int): Unit
    requires 0 <= n < 16
  {
    if n < 10 then 0x30 + n else 0x57 + n
  }

  /** Control characters and lone surrogates are written as \uXXXX. */
  predicate ByNumber(u: Unit) {
    Letter(u).None? && (u < 0x20 || High(u) || Low(u))
  }

  /** One code unit that is not the first half of a surrogate pair. */
  function EscapeUnit(u: Unit): Text {
    if Letter(u).Some? then [BACKSLASH, Letter(u).value]
    else if ByNumber(u) then [BACKSLASH, 0x75, Hex(u / 16 / 16 / 16), Hex(u / 16 / 16 % 16), Hex(u / 16 % 16),
                              Hex(u % 16)]
    else [u]
  }

  predicate StartsWithPair(s: Text) {
    |s| > 1 && High(s[0]) && Low(s[1])
  }

  function Escape(s: Text): Text
    decreases s
  {
    if s == [] then []
    else if StartsWithPair(s) then [s[0], s[1]] + Escape(s[2..])
    else EscapeUnit(s[0]) + Escape(s[1..])
  }

  function Quoted(s: Text): Text {
    [QUOTE] + Escape(s) + [QUOTE]
  }

  // --- values ---

  function Print(v: Json): Text
    decreases v
  {
    match v
    case Null => NULL
    case NonFinite => NULL
    case NonJson => []
    case Boolean(b) => if b then TRUE else FALSE
    case Number(token) => token
    case Str(text) => Quoted(text)
    case Arr(items) => [OPEN_ARRAY] + PrintItems(items) + [CLOSE_ARRAY]
    case Obj(fields) => [OPEN_OBJECT] + PrintFields(fields) + [CLOSE_OBJECT]
  }

  function PrintItems(items: Items): Text
    decreases items
  {
    match items
    case NoItem => []
    case Item(head, tail) => Print(head) + (if tail.NoItem? then [] else [COMMA]) + PrintItems(tail)
  }

  function PrintFields(fields: Fields): Text
    decreases fields
  {
    match fields
    case NoField => []
    case Field(k, v, rest) =>
      Quoted(k) + [COLON] + Print(v) + (if rest.NoField? then [] else [COMMA]) + PrintFields(rest)
  }

  /** The characters of a number: digits, sign, point and exponent. */
  predicate NumberUnit(u: Unit) {
    Digit(u) || u == 0x2b || u == 0x2d || u == 0x2e || u == 0x65
  }

  /** A printed number starts with a digit or a minus sign. */
  predicate Token(t: Text) {
    t != [] && (Digit(t[0]) || t[0] == 0x2d) && forall i | 0 <= i < |t| :: NumberUnit(t[i])
  }

  /** A JSON value whose numbers carry tokens. */
  predicate Printable(v: Json)
    decreases v
  {
    match v
    case NonFinite => false
    case NonJson => false
    case Number(token) => Token(token)
    case Arr(items) => PrintableItems(items)
    case Obj(fields) => PrintableFields(fields)
    case _ => true
  }

  predicate PrintableItems(items: Items)
    decreases items
  {
    items.Item? ==> Printable(items.head) && PrintableItems(items.tail)
  }

  predicate PrintableFields(fields: Fields)
    decreases fields
  {
    fields.Field? ==> Printable(fields.value) && PrintableFields(fields.rest)
  }

  // --- a printed string can be read back in front of anything ---

  /** The first unit of an escaped string is never a bare quote. */
  lemma EscapeStart(s: Text)
    requires s != []
    ensures Escape(s) != [] && Escape(s)[0] != QUOTE
  {
  }

  lemma HexInjective(u: Unit, v: Unit)
    requires Hex(u / 16 / 16 / 16) == Hex(v / 16 / 16 / 16) && Hex(u / 16 / 16 % 16) == Hex(v / 16 / 16 % 16)
    requires Hex(u / 16 % 16) == Hex(v / 16 % 16) && Hex(u % 16) == Hex(v % 16)
    ensures u == v
  {
    assert u / 16 / 16 == v / 16 / 16;
    assert u / 16 == v / 16;
  }

  /** Two escaped units in front of two texts: if the whole is equal, so are the units and the texts. */
  lemma UnitSplits(u: Unit, v: Unit, r: Text, q: Text)
    requires EscapeUnit(u) + r == EscapeUnit(v) + q
    ensures u == v && r == q
  {
    var a, b := EscapeUnit(u) + r, EscapeUnit(v) + q;
    assert a[0] == EscapeUnit(u)[0] && b[0] == EscapeUnit(v)[0];
    if a[0] == BACKSLASH {
      assert a[1] == EscapeUnit(u)[1] && b[1] == EscapeUnit(v)[1];
      if ByNumber(u) && ByNumber(v) {
        assert a[2] == Hex(u / 16 / 16 / 16) && b[2] == Hex(v / 16 / 16 / 16);
        assert a[3] == Hex(u / 16 / 16 % 16) && b[3] == Hex(v / 16 / 16 % 16);
        assert a[4] == Hex(u / 16 % 16) && b[4] == Hex(v / 16 % 16);
        assert a[5] == Hex(u % 16) && b[5] == Hex(v % 16);
        HexInjective(u, v);
      }
    }
    assert r == a[|EscapeUnit(u)|..] && q == b[|EscapeUnit(v)|..];
  }

  /** A pair is written raw, a unit that could be mistaken for its first half is not. */
  lemma PairOrUnit(s: Text, t: Text, r: Text, q: Text)
    requires s != [] && t != [] && Escape(s) + r == Escape(t) + q
    ensures StartsWithPair(s) <==> StartsWithPair(t)
  {
    assert (Escape(s) + r)[0] == Escape(s)[0] && (Escape(t) + q)[0] == Escape(t)[0];
  }

  predicate StartsWithQuote(t: Text) {
    t != [] && t[0] == QUOTE
  }

  lemma EmptySplits(t: Text, a: Text, b: Text)
    requires StartsWithQuote(a) && a == Escape(t) + b
    ensures t == []
  {
    if t != [] {
      EscapeStart(t);
    }
  }

  lemma TwoSplit(a: Text, b: Text, x: Text, y: Text)
    requires |a| == |b| && a + x == b + y
    ensures a == b && x == y
  {
    assert a == (a + x)[..|a|] && b == (b + y)[..|b|];
    assert x == (a + x)[|a|..] && y == (b + y)[|b|..];
  }

  lemma EscapePair(s: Text, a: Text)
    requires StartsWithPair(s)
    ensures Escape(s) + a == s[..2] + (Escape(s[2..]) + a)
  {
  }

  lemma EscapeOne(s: Text, a: Text)
    requires s != [] && !StartsWithPair(s)
    ensures Escape(s) + a == EscapeUnit(s[0]) + (Escape(s[1..]) + a)
  {
  }

  /** Two escaped strings up to their closing quotes: if the whole is equal, so are the strings and what
      follows them. */
  lemma {:induction false} EscapeSplits(s: Text, t: Text, a: Text, b: Text)
    requires StartsWithQuote(a) && StartsWithQuote(b)
    requires Escape(s) + a == Escape(t) + b
    ensures s == t && a == b
    decreases |s|
  {
    if s == [] {
      assert Escape(s) + a == a;
      EmptySplits(t, a, b);
      assert Escape(t) + b == b;
    } else if t == [] {
      assert Escape(t) + b == b;
      EmptySplits(s, b, a);
    } else {
      PairOrUnit(s, t, a, b);
      if StartsWithPair(s) {
        EscapePair(s, a);
        EscapePair(t, b);
        TwoSplit(s[..2], t[..2], Escape(s[2..]) + a, Escape(t[2..]) + b);
        EscapeSplits(s[2..], t[2..], a, b);
        assert s == s[..2] + s[2..] && t == t[..2] + t[2..];
      } else {
        EscapeOne(s, a);
        EscapeOne(t, b);
        UnitSplits(s[0], t[0], Escape(s[1..]) + a, Escape(t[1..]) + b);
        EscapeSplits(s[1..], t[1..], a, b);
        assert s == [s[0]] + s[1..] && t == [t[0]] + t[1..];
      }
    }
  }

  lemma QuotedSplits(s: Text, t: Text, r: Text, q: Text)
    requires Quoted(s) + r == Quoted(t) + q
    ensures s == t && r == q
  {
    var a, b := [QUOTE] + r, [QUOTE] + q;
    assert Quoted(s) + r == [QUOTE] + (Escape(s) + a) && Quoted(t) + q == [QUOTE] + (Escape(t) + b);
    TwoSplit([QUOTE], [QUOTE], Escape(s) + a, Escape(t) + b);
    EscapeSplits(s, t, a, b);
    TwoSplit([QUOTE], [QUOTE], r, q);
  }

  // --- a printed value can be read back in front of a delimiter ---

  predicate Delimiter(u: Unit) {
    u == COMMA || u == CLOSE_ARRAY || u == CLOSE_OBJECT
  }

  predicate Ends(r: Text) {
    r != [] ==> Delimiter(r[0])
  }

  /** What the first unit of a printed value says about it. */
  predicate Starts(v: Json, u: Unit) {
    match v
    case Null => u == 0x6e
    case Boolean(b) => u == if b then 0x74 else 0x66
    case Number(token) => Digit(u) || u == 0x2d
    case Str(text) => u == QUOTE
    case Arr(items) => u == OPEN_ARRAY
    case Obj(fields) => u == OPEN_OBJECT
    case _ => false
  }

  lemma PrintStarts(v: Json, r: Text)
    requires Printable(v)
    ensures Print(v) != [] && (Print(v) + r)[0] == Print(v)[0] && Starts(v, Print(v)[0]) && !Delimiter(Print(v)[0])
  {
  }

  lemma Meets(x: Text, y: Text, r: Text, q: Text)
    requires x + r == y + q && |x| < |y|
    ensures r != [] && r[0] == y[|x|]
  {
    assert (x + r)[|x|] == r[0] && (y + q)[|x|] == y[|x|];
  }

  lemma TokenShorter(x: Text, y: Text, r: Text, q: Text)
    requires Token(y) && Ends(r) && x + r == y + q
    ensures |x| >= |y|
  {
    if |x| < |y| {
      Meets(x, y, r, q);
    }
  }

  lemma TokenSplits(x: Text, y: Text, r: Text, q: Text)
    requires Token(x) && Token(y) && Ends(r) && Ends(q) && x + r == y + q
    ensures x == y && r == q
  {
    TokenShorter(x, y, r, q);
    TokenShorter(y, x, q, r);
    TwoSplit(x, y, r, q);
  }

  lemma {:induction false} PrintSplits(a: Json, b: Json, r: Text, q: Text)
    requires Printable(a) && Printable(b) && Ends(r) && Ends(q)
    requires Print(a) + r == Print(b) + q
    ensures a == b && r == q
    decreases a
  {
    PrintStarts(a, r);
    PrintStarts(b, q);
    match a
    case Number(token) => TokenSplits(token, b.token, r, q);
    case Str(text) => QuotedSplits(text, b.text, r, q);
    case Arr(items) =>
      Bracket(OPEN_ARRAY, PrintItems(items), CLOSE_ARRAY, r);
      Bracket(OPEN_ARRAY, PrintItems(b.items), CLOSE_ARRAY, q);
      TwoSplit([OPEN_ARRAY], [OPEN_ARRAY], PrintItems(items) + ([CLOSE_ARRAY] + r),
               PrintItems(b.items) + ([CLOSE_ARRAY] + q));
      ItemsSplit(items, b.items, [CLOSE_ARRAY] + r, [CLOSE_ARRAY] + q);
      TwoSplit([CLOSE_ARRAY], [CLOSE_ARRAY], r, q);
    case Obj(fields) =>
      Bracket(OPEN_OBJECT, PrintFields(fields), CLOSE_OBJECT, r);
      Bracket(OPEN_OBJECT, PrintFields(b.fields), CLOSE_OBJECT, q);
      TwoSplit([OPEN_OBJECT], [OPEN_OBJECT], PrintFields(fields) + ([CLOSE_OBJECT] + r),
               PrintFields(b.fields) + ([CLOSE_OBJECT] + q));
      FieldsSplit(fields, b.fields, [CLOSE_OBJECT] + r, [CLOSE_OBJECT] + q);
      TwoSplit([CLOSE_OBJECT], [CLOSE_OBJECT], r, q);
    case _ =>
      TwoSplit(Print(a), Print(b), r, q);
  }

  lemma Bracket(left: Unit, body: Text, right: Unit, r: Text)
    ensures [left] + body + [right] + r == [left] + (body + ([right] + r))
  {
  }

  /** What follows the first item, up to the end of the array and beyond. */
  function AfterItem(tail: Items, a: Text): Text {
    if tail.NoItem? then a else [COMMA] + (PrintItems(tail) + a)
  }

  lemma ItemsFrom(items: Items, a: Text)
    requires items.Item?
    ensures PrintItems(items) + a == Print(items.head) + AfterItem(items.tail, a)
  {
  }

  lemma {:induction false} ItemsSplit(x: Items, y: Items, a: Text, b: Text)
    requires PrintableItems(x) && PrintableItems(y) && a != [] && b != [] && a[0] == b[0] == CLOSE_ARRAY
    requires PrintItems(x) + a == PrintItems(y) + b
    ensures x == y && a == b
    decreases x
  {
    assert x.NoItem? ==> PrintItems(x) + a == a;
    assert y.NoItem? ==> PrintItems(y) + b == b;
    if x.Item? && y.Item? {
      ItemsFrom(x, a);
      ItemsFrom(y, b);
      PrintSplits(x.head, y.head, AfterItem(x.tail, a), AfterItem(y.tail, b));
      if x.tail.Item? && y.tail.Item? {
        TwoSplit([COMMA], [COMMA], PrintItems(x.tail) + a, PrintItems(y.tail) + b);
        ItemsSplit(x.tail, y.tail, a, b);
      }
    } else if x.Item? {
      ItemsFrom(x, a);
      PrintStarts(x.head, AfterItem(x.tail, a));
    } else if y.Item? {
      ItemsFrom(y, b);
      PrintStarts(y.head, AfterItem(y.tail, b));
    } else {
      TwoSplit([], [], a, b);
    }
  }

  function AfterField(rest: Fields, a: Text): Text {
    if rest.NoField? then a else [COMMA] + (PrintFields(rest) + a)
  }

  lemma FieldsFrom(fields: Fields, a: Text)
    requires fields.Field?
    ensures PrintFields(fields) + a == Quoted(fields.key)
      + ([COLON] + (Print(fields.value) + AfterField(fields.rest, a)))
  {
    var comma := if fields.rest.NoField? then [] else [COMMA];
    Regroup(Quoted(fields.key), Print(fields.value), comma, PrintFields(fields.rest), a);
  }

  lemma Regroup(key: Text, value: Text, comma: Text, rest: Text, a: Text)
    ensures key + [COLON] + value + comma + rest + a == key + ([COLON] + (value + (comma + (rest + a))))
  {
  }

  lemma FieldsStart(fields: Fields, r: Text)
    requires fields.Field?
    ensures PrintFields(fields) != [] && (PrintFields(fields) + r)[0] == QUOTE
  {
  }

  lemma {:induction false} FieldsSplit(x: Fields, y: Fields, a: Text, b: Text)
    requires PrintableFields(x) && PrintableFields(y) && a != [] && b != [] && a[0] == b[0] == CLOSE_OBJECT
    requires PrintFields(x) + a == PrintFields(y) + b
    ensures x == y && a == b
    decreases x
  {
    assert x.NoField? ==> PrintFields(x) + a == a;
    assert y.NoField? ==> PrintFields(y) + b == b;
    if x.Field? && y.Field? {
      FieldsFrom(x, a);
      FieldsFrom(y, b);
      var s, t := Print(x.value) + AfterField(x.rest, a), Print(y.value) + AfterField(y.rest, b);
      QuotedSplits(x.key, y.key, [COLON] + s, [COLON] + t);
      TwoSplit([COLON], [COLON], s, t);
      PrintSplits(x.value, y.value, AfterField(x.rest, a), AfterField(y.rest, b));
      if x.rest.Field? && y.rest.Field? {
        TwoSplit([COMMA], [COMMA], PrintFields(x.rest) + a, PrintFields(y.rest) + b);
        FieldsSplit(x.rest, y.rest, a, b);
      }
    } else if x.Field? {
      FieldsStart(x, a);
    } else if y.Field? {
      FieldsStart(y, b);
    } else {
      TwoSplit([], [], a, b);
    }
  }

  /** JSON.stringify is injective on JSON values. */
  lemma PrintInjective(a: Json, b: Json)
    requires Printable(a) && Printable(b) && Print(a) == Print(b)
    ensures a == b
  {
    assert Print(a) + [] == Print(a) && Print(b) + [] == Print(b);
    PrintSplits(a, b, [], []);
  }

  // --- the canonical text ---

  lemma {:induction false} PrintableLookups(fields: Fields)
    requires UniqueKeys(fields) && forall k | Has(fields, k) :: Printable(Lookup(fields, k).value)
    ensures PrintableFields(fields)
    decreases fields
  {
    if fields.Field? {
      assert Has(fields, fields.key);
      forall k | Has(fields.rest, k)
        ensures Printable(Lookup(fields.rest, k).value)
      {
        assert Has(fields, k) && Lookup(fields, k) == Lookup(fields.rest, k);
      }
      PrintableLookups(fields.rest);
    }
  }

  lemma {:induction false} CanonicalIsPrintable(v: Json)
    requires Keyed(v) && Printable(v)
    ensures Printable(Canonical(v))
    decreases v
  {
    match v
    case Arr(items) => CanonicalItemsArePrintable(items);
    case Obj(fields) =>
      var arranged := Arrange(CanonicalFields(fields));
      CanonicalObject(fields, []);
      OrderedIsUnique(arranged);
      forall k | Has(arranged, k)
        ensures Printable(Lookup(arranged, k).value)
      {
        CanonicalObject(fields, k);
        CanonicalFieldIsPrintable(fields, k);
      }
      PrintableLookups(arranged);
    case _ =>
  }

  lemma {:induction false} CanonicalItemsArePrintable(items: Items)
    requires KeyedItems(items) && PrintableItems(items)
    ensures PrintableItems(CanonicalItems(items))
    decreases items
  {
    if items.Item? {
      CanonicalIsPrintable(items.head);
      CanonicalItemsArePrintable(items.tail);
    }
  }

  lemma {:induction false} CanonicalFieldIsPrintable(fields: Fields, k: Text)
    requires KeyedFields(fields) && PrintableFields(fields) && Has(fields, k)
    ensures Printable(Canonical(Lookup(fields, k).value))
    decreases fields
  {
    if fields.key == k {
      CanonicalIsPrintable(fields.value);
    } else {
      CanonicalFieldIsPrintable(fields.rest, k);
    }
  }

  /** canonicalJson of the dispatcher; None where it throws. */
  function CanonicalText(v: Json): Option<Text> {
    var checked := Checked(v);
    if checked.None? then None else Some(Print(checked.value))
  }

  /** Two JSON values have the same canonical text if and only if they are equal up to key order. */
  lemma CanonicalTextIff(a: Json, b: Json)
    requires Keyed(a) && Keyed(b) && Printable(a) && Printable(b)
    ensures CanonicalText(a).Some? && CanonicalText(b).Some?
    ensures CanonicalText(a) == CanonicalText(b) <==> Same(a, b)
  {
    PrintableIsJson(a);
    PrintableIsJson(b);
    CheckedIff(a);
    CheckedIff(b);
    CanonicalIsPrintable(a);
    CanonicalIsPrintable(b);
    CanonicalIff(a, b);
    if Print(Canonical(a)) == Print(Canonical(b)) {
      PrintInjective(Canonical(a), Canonical(b));
    }
  }

  lemma {:induction false} PrintableIsJson(v: Json)
    requires Printable(v)
    ensures IsJson(v)
    decreases v
  {
    match v
    case Arr(items) => PrintableItemsAreJson(items);
    case Obj(fields) => PrintableFieldsAreJson(fields);
    case _ =>
  }

  lemma {:induction false} PrintableItemsAreJson(items: Items)
    requires PrintableItems(items)
    ensures ItemsAreJson(items)
    decreases items
  {
    if items.Item? {
      PrintableIsJson(items.head);
      PrintableItemsAreJson(items.tail);
    }
  }

  lemma {:induction false} PrintableFieldsAreJson(fields: Fields)
    requires PrintableFields(fields)
    ensures FieldsAreJson(fields)
    decreases fields
  {
    if fields.Field? {
      PrintableIsJson(fields.value);
      PrintableFieldsAreJson(fields.rest);
    }
  }
}
