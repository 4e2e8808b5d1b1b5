/** Reading JSON text back, by the grammar of RFC 8259 (without blanks, which JSON.stringify never writes). */
module JsonReader {
  import opened Prelude
  import opened CanonicalJson
  import opened CanonicalValue
  import opened JsonText
  import opened LooseJson

  /** The code units of an ASCII text. */
  function Ascii(s: string): Text {
    seq(|s|, i requires 0 <= i < |s| => if s[i] as int < 0x80 then s[i] as int else 0x3f)
  }

  datatype Read<+T> = Read(value: T, rest: Text)

  // --- strings, section 7 ---

  function HexValue(u: Unit): (n: Option<int>)
    ensures n.Some? ==> 0 <= n.value < 16
  {
    if 0x30 <= u <= 0x39 then Some(u - 0x30)
    else if 0x61 <= u <= 0x66 then Some(u - 0x61 + 10)
    else if 0x41 <= u <= 0x46 then Some(u - 0x41 + 10)
    else None
  }

  /** What a backslash and a letter stand for. */
  function Unescaped(u: Unit): Option<Unit> {
    if u == 0x22 || u == 0x5c || u == 0x2f then Some(u)
    else if u == 0x62 then Some(0x08)
    else if u == 0x66 then Some(0x0c)
    else if u == 0x6e then Some(0x0a)
    else if u == 0x72 then Some(0x0d)
    else if u == 0x74 then Some(0x09)
    else None
  }

  /** The unit that an escape stands for, and how long the escape is. */
  function EscapeAt(t: Text): Option<Read<Unit>> {
    if |t| < 2 || t[0] != 0x5c then None
    else if t[1] == 0x75 then
      if |t| < 6 || HexValue(t[2]).None? || HexValue(t[3]).None? || HexValue(t[4]).None? || HexValue(t[5]).None?
        then None
      else Some(Read(((HexValue(t[2]).value * 16 + HexValue(t[3]).value) * 16 + HexValue(t[4]).value) * 16
                     + HexValue(t[5]).value, t[6..]))
    else if Unescaped(t[1]).None? then None
    else Some(Read(Unescaped(t[1]).value, t[2..]))
  }

  /** The rest of a string after its opening quote. A control character must be escaped. */
  function ReadString(t: Text): (r: Option<Read<Text>>)
    ensures r.Some? ==> |r.value.rest| < |t|
    decreases |t|
  {
    if t == [] then None
    else if t[0] == 0x22 then Some(Read([], t[1..]))
    else if t[0] == 0x5c then
      var e := EscapeAt(t);
      if e.None? then None else
        var more := ReadString(e.value.rest);
        if more.None? then None else Some(Read([e.value.value] + more.value.value, more.value.rest))
    else if t[0] < 0x20 then None
    else
      var more := ReadString(t[1..]);
      if more.None? then None else Some(Read([t[0]] + more.value.value, more.value.rest))
  }

  // --- values ---

  predicate StartsWith(t: Text, start: Text) {
    |start| <= |t| && t[..|start|] == start
  }

  function NumberLength(t: Text): (n: nat)
    ensures n <= |t|
  {
    if t == [] || !(0x30 <= t[0] <= 0x39 || t[0] == 0x2b || t[0] == 0x2d || t[0] == 0x2e || t[0] == 0x65) then 0
    else 1 + NumberLength(t[1..])
  }

  function ReadValue(t: Text): (r: Option<Read<Json>>)
    ensures r.Some? ==> |r.value.rest| < |t|
    decreases |t|, 1
  {
    if StartsWith(t, Ascii("null")) then Some(Read(Null, t[4..]))
    else if StartsWith(t, Ascii("true")) then Some(Read(Boolean(true), t[4..]))
    else if StartsWith(t, Ascii("false")) then Some(Read(Boolean(false), t[5..]))
    else if t == [] then None
    else if t[0] == 0x22 then
      var s := ReadString(t[1..]);
      if s.None? then None else Some(Read(Str(s.value.value), s.value.rest))
    else if t[0] == 0x5b then
      if |t| > 1 && t[1] == 0x5d then Some(Read(Arr(NoItem), t[2..])) else
        var items := ReadItems(t[1..]);
        if items.None? then None else Some(Read(Arr(items.value.value), items.value.rest))
    else if t[0] == 0x7b then
      if |t| > 1 && t[1] == 0x7d then Some(Read(Obj(NoField), t[2..])) else
        var fields := ReadFields(t[1..]);
        if fields.None? then None else Some(Read(Obj(fields.value.value), fields.value.rest))
    else if 0x30 <= t[0] <= 0x39 || t[0] == 0x2d then
      Some(Read(Number(t[..NumberLength(t)]), t[NumberLength(t)..]))
    else None
  }

  /** Items up to the closing bracket. */
  function ReadItems(t: Text): (r: Option<Read<Items>>)
    ensures r.Some? ==> |r.value.rest| < |t|
    decreases |t|, 2
  {
    var v := ReadValue(t);
    if v.None? || v.value.rest == [] then None
    else if v.value.rest[0] == 0x5d then Some(Read(Item(v.value.value, NoItem), v.value.rest[1..]))
    else if v.value.rest[0] != 0x2c then None
    else
      var more := ReadItems(v.value.rest[1..]);
      if more.None? then None else Some(Read(Item(v.value.value, more.value.value), more.value.rest))
  }

  /** Members up to the closing brace. */
  function ReadFields(t: Text): (r: Option<Read<Fields>>)
    ensures r.Some? ==> |r.value.rest| < |t|
    decreases |t|, 2
  {
    if t == [] || t[0] != 0x22 then None else
      var k := ReadString(t[1..]);
      if k.None? || k.value.rest == [] || k.value.rest[0] != 0x3a then None else
        var v := ReadValue(k.value.rest[1..]);
        if v.None? || v.value.rest == [] then None
        else if v.value.rest[0] == 0x7d then Some(Read(Field(k.value.value, v.value.value, NoField), v.value.rest[1..]))
        else if v.value.rest[0] != 0x2c then None
        else
          var more := ReadFields(v.value.rest[1..]);
          if more.None? then None
          else Some(Read(Field(k.value.value, v.value.value, more.value.value), more.value.rest))
  }

  // --- what is printed reads back ---

  lemma HexReads(n: int)
    requires 0 <= n < 16
    ensures HexValue(Hex(n)) == Some(n)
  {
  }

  /** Seven units have a two-character escape, the other control characters and the halves of surrogate pairs one
      of six with small letters; every other unit stands for itself. */
  lemma EscapeForms(u: Unit)
    ensures
      var e := EscapeUnit(u);
      if u == 0x22 || u == 0x5c || u == 0x08 || u == 0x09 || u == 0x0a || u == 0x0c || u == 0x0d then |e| == 2
      else if u < 0x20 || 0xd800 <= u <= 0xdfff then |e| == 6 && forall i | 2 <= i < 6 :: !(0x41 <= e[i] <= 0x46)
      else e == [u]
  {
  }

  /** An escaped unit is read as the unit. */
  lemma UnitReads(u: Unit, r: Text)
    requires EscapeUnit(u)[0] == BACKSLASH
    ensures EscapeAt(EscapeUnit(u) + r) == Some(Read(u, r))
  {
    var t := EscapeUnit(u) + r;
    if Letter(u).Some? {
      assert t[2..] == r;
    } else {
      HexReads(u / 16 / 16 / 16);
      HexReads(u / 16 / 16 % 16);
      HexReads(u / 16 % 16);
      HexReads(u % 16);
      assert t[6..] == r;
      assert t[2] == Hex(u / 16 / 16 / 16) && t[3] == Hex(u / 16 / 16 % 16) && t[4] == Hex(u / 16 % 16)
        && t[5] == Hex(u % 16);
      HexDigits(u);
    }
  }

  lemma HexDigits(u: Unit)
    ensures ((u / 16 / 16 / 16 * 16 + u / 16 / 16 % 16) * 16 + u / 16 % 16) * 16 + u % 16 == u
  {
  }

  lemma OneReads(u: Unit, r: Text, s: Text, rest: Text)
    requires ReadString(r) == Some(Read(s, rest))
    ensures ReadString(EscapeUnit(u) + r) == Some(Read([u] + s, rest))
  {
    var t := EscapeUnit(u) + r;
    if EscapeUnit(u)[0] == BACKSLASH {
      UnitReads(u, r);
      assert t[0] == BACKSLASH;
    } else {
      assert t[0] == u && t[1..] == r;
    }
  }

  lemma RawReads(u: Unit, r: Text, s: Text, rest: Text)
    requires ReadString(r) == Some(Read(s, rest)) && u >= 0x20 && u != 0x22 && u != 0x5c
    ensures ReadString([u] + r) == Some(Read([u] + s, rest))
  {
    assert ([u] + r)[1..] == r;
  }

  lemma PairReads(s: Text, after: Text, rest: Text)
    requires StartsWithPair(s) && ReadString(after) == Some(Read(s[2..], rest))
    ensures ReadString(s[..2] + after) == Some(Read(s, rest))
  {
    RawReads(s[1], after, s[2..], rest);
    RawReads(s[0], [s[1]] + after, [s[1]] + s[2..], rest);
    assert s[..2] + after == [s[0]] + ([s[1]] + after);
    assert s == [s[0]] + ([s[1]] + s[2..]);
  }

  lemma SingleReads(s: Text, after: Text, rest: Text)
    requires s != [] && ReadString(after) == Some(Read(s[1..], rest))
    ensures ReadString(EscapeUnit(s[0]) + after) == Some(Read(s, rest))
  {
    OneReads(s[0], after, s[1..], rest);
    assert s == [s[0]] + s[1..];
  }

  lemma NothingReads(rest: Text)
    ensures ReadString(Escape([]) + ([QUOTE] + rest)) == Some(Read([], rest))
  {
    var t := [QUOTE] + rest;
    assert Escape([]) + t == t && t[0] == 0x22 && t[1..] == rest;
  }

  lemma {:induction false} EscapeReads(s: Text, rest: Text)
    ensures ReadString(Escape(s) + ([QUOTE] + rest)) == Some(Read(s, rest))
    decreases |s|
  {
    if s == [] {
      NothingReads(rest);
    } else if StartsWithPair(s) {
      EscapeReads(s[2..], rest);
      EscapePair(s, [QUOTE] + rest);
      PairReads(s, Escape(s[2..]) + ([QUOTE] + rest), rest);
    } else {
      EscapeReads(s[1..], rest);
      EscapeOne(s, [QUOTE] + rest);
      SingleReads(s, Escape(s[1..]) + ([QUOTE] + rest), rest);
    }
  }

  lemma QuotedReads(s: Text, rest: Text)
    ensures (Quoted(s) + rest)[0] == QUOTE && ReadString((Quoted(s) + rest)[1..]) == Some(Read(s, rest))
  {
    EscapeReads(s, rest);
    assert (Quoted(s) + rest)[1..] == Escape(s) + ([QUOTE] + rest);
  }

  lemma {:induction false} TokenLength(token: Text, r: Text)
    requires (forall i | 0 <= i < |token| :: NumberUnit(token[i])) && Ends(r)
    ensures NumberLength(token + r) == |token|
    decreases token
  {
    if token != [] {
      assert (token + r)[1..] == token[1..] + r;
      TokenLength(token[1..], r);
    } else {
      assert token + r == r;
    }
  }

  lemma StartFirst(t: Text, start: Text)
    ensures start != [] && StartsWith(t, start) ==> t != [] && t[0] == start[0]
  {
    if start != [] && StartsWith(t, start) {
      assert t[..|start|][0] == t[0];
    }
  }

  lemma NotALiteral(t: Text)
    requires t != [] && t[0] != 0x6e && t[0] != 0x74 && t[0] != 0x66
    ensures !StartsWith(t, Ascii("null")) && !StartsWith(t, Ascii("true")) && !StartsWith(t, Ascii("false"))
  {
    StartFirst(t, Ascii("null"));
    StartFirst(t, Ascii("true"));
    StartFirst(t, Ascii("false"));
  }

  lemma LiteralReads(v: Json, r: Text)
    requires v.Null? || v.Boolean?
    ensures ReadValue(Print(v) + r) == Some(Read(v, r))
  {
    var t := Print(v) + r;
    assert NULL == Ascii("null") && TRUE == Ascii("true") && FALSE == Ascii("false");
    assert t[..|Print(v)|] == Print(v) && t[|Print(v)|..] == r;
    if v.Boolean? {
      assert t[..4][0] == t[0];
      if !v.value {
        assert Ascii("null")[0] == 0x6e && Ascii("true")[0] == 0x74;
      }
    }
  }

  lemma NumberReads(token: Text, r: Text)
    requires Token(token) && Ends(r)
    ensures ReadValue(token + r) == Some(Read(Number(token), r))
  {
    var t := token + r;
    assert t[0] == token[0];
    NotALiteral(t);
    TokenLength(token, r);
    assert t[..|token|] == token && t[|token|..] == r;
  }

  lemma TextReads(text: Text, r: Text)
    ensures ReadValue(Quoted(text) + r) == Some(Read(Str(text), r))
  {
    QuotedReads(text, r);
    NotALiteral(Quoted(text) + r);
  }

  /** Round trip: whatever is printed for a JSON value is read as that value, and what follows it is left. */
  lemma {:induction false} PrintReads(v: Json, r: Text)
    requires Printable(v) && Ends(r)
    ensures ReadValue(Print(v) + r) == Some(Read(v, r))
    decreases v
  {
    match v
    case Number(token) => NumberReads(token, r);
    case Str(text) => TextReads(text, r);
    case Arr(items) =>
      if items.Item? {
        ItemsRead(items, r);
      }
      ArrayReads(items, r);
    case Obj(fields) =>
      if fields.Field? {
        FieldsRead(fields, r);
      }
      ObjectReads(fields, r);
    case _ => LiteralReads(v, r);
  }

  lemma ArrayReads(items: Items, r: Text)
    requires PrintableItems(items)
    requires items.Item? ==> ReadItems(PrintItems(items) + ([CLOSE_ARRAY] + r)) == Some(Read(items, r))
    ensures ReadValue(Print(Arr(items)) + r) == Some(Read(Arr(items), r))
  {
    var t := Print(Arr(items)) + r;
    Bracket(OPEN_ARRAY, PrintItems(items), CLOSE_ARRAY, r);
    NotALiteral(t);
    if items.NoItem? {
      assert t[2..] == r;
    } else {
      assert t[1..] == PrintItems(items) + ([CLOSE_ARRAY] + r);
      ItemsStart(items, [CLOSE_ARRAY] + r);
    }
  }

  lemma ObjectReads(fields: Fields, r: Text)
    requires PrintableFields(fields)
    requires fields.Field? ==> ReadFields(PrintFields(fields) + ([CLOSE_OBJECT] + r)) == Some(Read(fields, r))
    ensures ReadValue(Print(Obj(fields)) + r) == Some(Read(Obj(fields), r))
  {
    var t := Print(Obj(fields)) + r;
    Bracket(OPEN_OBJECT, PrintFields(fields), CLOSE_OBJECT, r);
    NotALiteral(t);
    if fields.NoField? {
      assert t[2..] == r;
    } else {
      assert t[1..] == PrintFields(fields) + ([CLOSE_OBJECT] + r);
      FieldsStart(fields, [CLOSE_OBJECT] + r);
    }
  }

  lemma ItemsStart(items: Items, r: Text)
    requires items.Item? && PrintableItems(items)
    ensures PrintItems(items) != [] && (PrintItems(items) + r)[0] != CLOSE_ARRAY
  {
    ItemsFrom(items, r);
    PrintStarts(items.head, AfterItem(items.tail, r));
  }

  lemma {:induction false} ItemsRead(items: Items, r: Text)
    requires items.Item? && PrintableItems(items)
    ensures ReadItems(PrintItems(items) + ([CLOSE_ARRAY] + r)) == Some(Read(items, r))
    decreases items
  {
    var end := [CLOSE_ARRAY] + r;
    var after := AfterItem(items.tail, end);
    ItemsFrom(items, end);
    PrintReads(items.head, after);
    if items.tail.Item? {
      ItemsRead(items.tail, r);
      assert after[1..] == PrintItems(items.tail) + end;
    } else {
      assert after[1..] == r;
    }
  }

  lemma {:induction false} FieldsRead(fields: Fields, r: Text)
    requires fields.Field? && PrintableFields(fields)
    ensures ReadFields(PrintFields(fields) + ([CLOSE_OBJECT] + r)) == Some(Read(fields, r))
    decreases fields
  {
    var end := [CLOSE_OBJECT] + r;
    var after := AfterField(fields.rest, end);
    FieldsFrom(fields, end);
    var colon := [COLON] + (Print(fields.value) + after);
    QuotedReads(fields.key, colon);
    assert colon[1..] == Print(fields.value) + after;
    PrintReads(fields.value, after);
    if fields.rest.Field? {
      FieldsRead(fields.rest, r);
      assert after[1..] == PrintFields(fields.rest) + end;
    } else {
      assert after[1..] == r;
    }
  }

  // --- no half of a surrogate pair is written alone ---

  ghost predicate WellPaired(t: Text)
    decreases |t|
  {
    t == [] || if High(t[0]) then |t| > 1 && Low(t[1]) && WellPaired(t[2..]) else !Low(t[0]) && WellPaired(t[1..])
  }

  lemma {:induction false} PairedConcat(a: Text, b: Text)
    requires WellPaired(a) && WellPaired(b)
    ensures WellPaired(a + b)
    decreases |a|
  {
    if a == [] {
      assert a + b == b;
    } else if High(a[0]) {
      assert (a + b)[2..] == a[2..] + b;
      PairedConcat(a[2..], b);
    } else {
      assert (a + b)[1..] == a[1..] + b;
      PairedConcat(a[1..], b);
    }
  }

  predicate Plain(t: Text) {
    forall i | 0 <= i < |t| :: !High(t[i]) && !Low(t[i])
  }

  lemma {:induction false} PlainIsPaired(t: Text)
    requires Plain(t)
    ensures WellPaired(t)
  {
    if t != [] {
      PlainIsPaired(t[1..]);
    }
  }

  lemma {:induction false} EscapeIsPaired(s: Text)
    ensures WellPaired(Escape(s))
    decreases |s|
  {
    if s != [] {
      if StartsWithPair(s) {
        EscapeIsPaired(s[2..]);
        assert Escape(s)[2..] == Escape(s[2..]);
      } else {
        EscapeIsPaired(s[1..]);
        PlainIsPaired(EscapeUnit(s[0]));
        PairedConcat(EscapeUnit(s[0]), Escape(s[1..]));
      }
    }
  }

  lemma QuotedIsPaired(s: Text)
    ensures WellPaired(Quoted(s))
  {
    EscapeIsPaired(s);
    PlainIsPaired([QUOTE]);
    PairedConcat([QUOTE], Escape(s));
    PairedConcat([QUOTE] + Escape(s), [QUOTE]);
  }

  /** The printed text is well-formed UTF-16, whatever the strings in the value are. */
  lemma {:induction false} PrintIsPaired(v: Json)
    requires Printable(v)
    ensures WellPaired(Print(v))
    decreases v
  {
    match v
    case Str(text) => QuotedIsPaired(text);
    case Arr(items) =>
      ItemsArePaired(items);
      Wrapped(OPEN_ARRAY, PrintItems(items), CLOSE_ARRAY);
    case Obj(fields) =>
      FieldsArePaired(fields);
      Wrapped(OPEN_OBJECT, PrintFields(fields), CLOSE_OBJECT);
    case _ => PlainIsPaired(Print(v));
  }

  lemma Wrapped(left: Unit, body: Text, right: Unit)
    requires WellPaired(body) && Plain([left]) && Plain([right])
    ensures WellPaired([left] + body + [right])
  {
    PlainIsPaired([left]);
    PlainIsPaired([right]);
    PairedConcat([left], body);
    PairedConcat([left] + body, [right]);
  }

  lemma {:induction false} ItemsArePaired(items: Items)
    requires PrintableItems(items)
    ensures WellPaired(PrintItems(items))
    decreases items
  {
    if items.Item? {
      PrintIsPaired(items.head);
      ItemsArePaired(items.tail);
      var comma := if items.tail.NoItem? then [] else [COMMA];
      PlainIsPaired(comma);
      PairedConcat(Print(items.head), comma);
      PairedConcat(Print(items.head) + comma, PrintItems(items.tail));
    }
  }

  lemma {:induction false} FieldsArePaired(fields: Fields)
    requires PrintableFields(fields)
    ensures WellPaired(PrintFields(fields))
    decreases fields
  {
    if fields.Field? {
      QuotedIsPaired(fields.key);
      PrintIsPaired(fields.value);
      FieldsArePaired(fields.rest);
      var comma := if fields.rest.NoField? then [] else [COMMA];
      PlainIsPaired([COLON]);
      PlainIsPaired(comma);
      PairedConcat(Quoted(fields.key), [COLON]);
      PairedConcat(Quoted(fields.key) + [COLON], Print(fields.value));
      PairedConcat(Quoted(fields.key) + [COLON] + Print(fields.value), comma);
      PairedConcat(Quoted(fields.key) + [COLON] + Print(fields.value) + comma, PrintFields(fields.rest));
    }
  }

  // --- what the unchecked form writes ---

  function ItemAt(items: Items, i: nat): Option<Json> {
    if items.NoItem? then None else if i == 0 then Some(items.head) else ItemAt(items.tail, i - 1)
  }

  /** What stands for an item of an array: null for what is not finite or not JSON. */
  ghost function Written(v: Json): Json {
    if v.NonFinite? || v.NonJson? then Null else Clean(v).value
  }

  lemma {:induction false} CleanItemAt(items: Items, i: nat)
    ensures ItemAt(CleanItems(items), i)
      == if ItemAt(items, i).None? then None else Some(Written(ItemAt(items, i).value))
  {
    if items.Item? && i > 0 {
      CleanItemAt(items.tail, i - 1);
    }
  }

  /** JSON.stringify, and with it the unchecked canonical form, writes nothing for a value that is not JSON and null
      for a number that is not finite; in an array both become null; a property that is not JSON is left out; all
      else is written as it is. */
  lemma CleanMeans(v: Json)
    requires Keyed(v)
    ensures Clean(v).None? <==> v == NonJson
    ensures v == NonFinite ==> Clean(v) == Some(Null)
    ensures v.Null? || v.Boolean? || v.Number? || v.Str? ==> Clean(v) == Some(v)
    ensures v.Arr? ==> Clean(v).Some? && Clean(v).value.Arr? && forall i: nat ::
      ItemAt(Clean(v).value.items, i) == if ItemAt(v.items, i).None? then None
        else Some(Written(ItemAt(v.items, i).value))
    ensures v.Obj? ==> Clean(v).Some? && Clean(v).value.Obj? && forall k ::
      Lookup(Clean(v).value.fields, k) ==
        if !Has(v.fields, k) || Lookup(v.fields, k).value == NonJson then None
          else Some(Written(Lookup(v.fields, k).value))
  {
    if v.Arr? {
      forall i: nat
        ensures ItemAt(Clean(v).value.items, i)
          == if ItemAt(v.items, i).None? then None else Some(Written(ItemAt(v.items, i).value))
      {
        CleanItemAt(v.items, i);
      }
    } else if v.Obj? {
      forall k
        ensures Lookup(Clean(v).value.fields, k) ==
          if !Has(v.fields, k) || Lookup(v.fields, k).value == NonJson then None
          else Some(Written(Lookup(v.fields, k).value))
      {
        CleanLookup(v.fields, k);
      }
    }
  }

  /** The text of the unchecked form reads as the canonical value of what is written. */
  lemma CanonicalStringReads(v: Json)
    requires Keyed(v) && Clean(v).Some? && Printable(Clean(v).value)
    ensures CanonicalString(v).Some?
    ensures ReadValue(CanonicalString(v).value) == Some(Read(Canonical(Clean(v).value), []))
  {
    CleanCanonical(v);
    CleanKeyed(v);
    CanonicalIsPrintable(Clean(v).value);
    PrintReads(Canonical(Clean(v).value), []);
    assert CanonicalString(v).value + [] == CanonicalString(v).value;
  }

  /** And that of the checked form as the canonical value. */
  lemma CanonicalTextReads(v: Json)
    requires Keyed(v) && Printable(v)
    ensures CanonicalText(v).Some? && ReadValue(CanonicalText(v).value) == Some(Read(Canonical(v), []))
  {
    PrintableIsJson(v);
    CheckedIff(v);
    CanonicalIsPrintable(v);
    PrintReads(Canonical(v), []);
    assert CanonicalText(v).value + [] == CanonicalText(v).value;
  }
}
