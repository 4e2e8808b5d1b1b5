/** Canonical JSON: the key order of a JavaScript object, the canonical value, and equality up to the
    order of keys. Text is a sequence of UTF-16 code units. */
module CanonicalJson {
  import opened Prelude

  type Unit = u: int | 0 <= u < 0x10000
  type Text = seq<Unit>

  /** A JavaScript value as JSON.stringify sees it. A finite number is represented by the token that is
      printed for it; an object lists its own properties in their order. */
  datatype Json =
    | Null
    | Boolean(value: bool)
    | Number(token: Text)
    | Str(text: Text)
    | Arr(items: Items)
    | Obj(fields: Fields)
    | NonFinite
    | NonJson

  datatype Items = NoItem | Item(head: Json, tail: Items)

  datatype Fields = NoField | Field(key: Text, value: Json, rest: Fields)

  // --- the order of keys ---

  /** The default order of sort: by code units. */
  predicate LexBefore(a: Text, b: Text)
    decreases a
  {
    b != [] && (a == [] || a[0] < b[0] || (a[0] == b[0] && LexBefore(a[1..], b[1..])))
  }

  predicate Digit(u: Unit) {
    0x30 <= u <= 0x39
  }

  const LAST_INDEX: Text := [0x34, 0x32, 0x39, 0x34, 0x39, 0x36, 0x37, 0x32, 0x39, 0x34]

  /** An array index: a decimal numeral without leading zeros, at most 4294967294. */
  predicate IsIndex(key: Text) {
    && key != [] && (forall i | 0 <= i < |key| :: Digit(key[i]))
    && (key[0] == 0x30 ==> |key| == 1)
    && (|key| < |LAST_INDEX| || (|key| == |LAST_INDEX| && !LexBefore(LAST_INDEX, key)))
  }

  /** Numerals without leading zeros: the shorter is the smaller, then the digits decide. */
  predicate IndexBefore(a: Text, b: Text) {
    |a| < |b| || (|a| == |b| && LexBefore(a, b))
  }

  /** The order in which sorted keys end up in an object: indices first, by value. */
  predicate KeyBefore(a: Text, b: Text) {
    if IsIndex(a) then !IsIndex(b) || IndexBefore(a, b) else !IsIndex(b) && LexBefore(a, b)
  }

  lemma {:induction false} LexTotal(a: Text, b: Text)
    ensures LexBefore(a, b) || LexBefore(b, a) || a == b
    ensures !(LexBefore(a, b) && LexBefore(b, a)) && (a == b ==> !LexBefore(a, b))
    decreases a
  {
    if a != [] && b != [] && a[0] == b[0] {
      LexTotal(a[1..], b[1..]);
      assert a == [a[0]] + a[1..] && b == [b[0]] + b[1..];
    }
  }

  lemma {:induction false} LexTransitive(a: Text, b: Text, c: Text)
    requires LexBefore(a, b) && LexBefore(b, c)
    ensures LexBefore(a, c)
    decreases a
  {
    if a != [] && a[0] == b[0] && b[0] == c[0] {
      LexTransitive(a[1..], b[1..], c[1..]);
    }
  }

  lemma KeyTotal(a: Text, b: Text)
    ensures KeyBefore(a, b) || KeyBefore(b, a) || a == b
    ensures !(KeyBefore(a, b) && KeyBefore(b, a)) && (a == b ==> !KeyBefore(a, b))
  {
    LexTotal(a, b);
  }

  lemma KeyTransitive(a: Text, b: Text, c: Text)
    requires KeyBefore(a, b) && KeyBefore(b, c)
    ensures KeyBefore(a, c)
  {
    if LexBefore(a, b) && LexBefore(b, c) {
      LexTransitive(a, b, c);
    }
  }

  // --- objects ---

  function Lookup(fields: Fields, key: Text): Option<Json> {
    match fields
    case NoField => None
    case Field(k, v, rest) => if k == key then Some(v) else Lookup(rest, key)
  }

  predicate Has(fields: Fields, key: Text) {
    Lookup(fields, key).Some?
  }

  predicate UniqueKeys(fields: Fields) {
    match fields
    case NoField => true
    case Field(k, v, rest) => !Has(rest, k) && UniqueKeys(rest)
  }

  ghost predicate AllAfter(key: Text, fields: Fields) {
    forall k | Has(fields, k) :: KeyBefore(key, k)
  }

  /** The properties are in the order of an object built from sorted keys. */
  ghost predicate Ordered(fields: Fields) {
    match fields
    case NoField => true
    case Field(k, v, rest) => AllAfter(k, rest) && Ordered(rest)
  }

  /** Object.keys(value).sort() */
  function InsertSorted(key: Text, value: Json, fields: Fields): Fields {
    match fields
    case NoField => Field(key, value, NoField)
    case Field(k, v, rest) =>
      if LexBefore(k, key) then Field(k, v, InsertSorted(key, value, rest)) else Field(key, value, fields)
  }

  function SortKeys(fields: Fields): Fields {
    match fields
    case NoField => NoField
    case Field(k, v, rest) => InsertSorted(k, v, SortKeys(rest))
  }

  /** Object.fromEntries: other keys keep their order, indices come first by value. */
  function Place(key: Text, value: Json, fields: Fields): Fields {
    match fields
    case NoField => Field(key, value, NoField)
    case Field(k, v, rest) =>
      if IsIndex(k) && (!IsIndex(key) || IndexBefore(k, key)) then Field(k, v, Place(key, value, rest))
      else Field(key, value, fields)
  }

  function FromEntries(fields: Fields): Fields {
    match fields
    case NoField => NoField
    case Field(k, v, rest) => Place(k, v, FromEntries(rest))
  }

  function Arrange(fields: Fields): Fields {
    FromEntries(SortKeys(fields))
  }

  ghost predicate LexSorted(fields: Fields) {
    match fields
    case NoField => true
    case Field(k, v, rest) => (forall key | Has(rest, key) :: LexBefore(k, key)) && LexSorted(rest)
  }

  lemma {:induction false} InsertLookup(key: Text, value: Json, fields: Fields, k: Text)
    requires !Has(fields, key)
    ensures Lookup(InsertSorted(key, value, fields), k) == if k == key then Some(value) else Lookup(fields, k)
    decreases fields
  {
    if fields.Field? {
      InsertLookup(key, value, fields.rest, k);
    }
  }

  lemma {:induction false} SortLookup(fields: Fields, k: Text)
    requires UniqueKeys(fields)
    ensures Lookup(SortKeys(fields), k) == Lookup(fields, k)
    decreases fields
  {
    if fields.Field? {
      SortLookup(fields.rest, k);
      SortLookup(fields.rest, fields.key);
      InsertLookup(fields.key, fields.value, SortKeys(fields.rest), k);
    }
  }

  lemma {:induction false} InsertKeepsSorted(key: Text, value: Json, fields: Fields)
    requires LexSorted(fields) && !Has(fields, key)
    ensures LexSorted(InsertSorted(key, value, fields))
    decreases fields
  {
    if fields.Field? {
      LexTotal(fields.key, key);
      if LexBefore(fields.key, key) {
        InsertKeepsSorted(key, value, fields.rest);
        forall k | Has(InsertSorted(key, value, fields.rest), k)
          ensures LexBefore(fields.key, k)
        {
          InsertLookup(key, value, fields.rest, k);
        }
      } else {
        forall k | Has(fields, k)
          ensures LexBefore(key, k)
        {
          if k != fields.key {
            LexTransitive(key, fields.key, k);
          }
        }
      }
    }
  }

  lemma {:induction false} SortSorts(fields: Fields)
    requires UniqueKeys(fields)
    ensures LexSorted(SortKeys(fields))
    decreases fields
  {
    if fields.Field? {
      SortSorts(fields.rest);
      SortLookup(fields.rest, fields.key);
      InsertKeepsSorted(fields.key, fields.value, SortKeys(fields.rest));
    }
  }

  lemma {:induction false} PlaceLookup(key: Text, value: Json, fields: Fields, k: Text)
    requires !Has(fields, key)
    ensures Lookup(Place(key, value, fields), k) == if k == key then Some(value) else Lookup(fields, k)
    decreases fields
  {
    if fields.Field? {
      PlaceLookup(key, value, fields.rest, k);
    }
  }

  lemma {:induction false} FromEntriesLookup(fields: Fields, k: Text)
    requires LexSorted(fields)
    ensures Lookup(FromEntries(fields), k) == Lookup(fields, k)
    decreases fields
  {
    if fields.Field? {
      FromEntriesLookup(fields.rest, k);
      FromEntriesLookup(fields.rest, fields.key);
      LexTotal(fields.key, fields.key);
      PlaceLookup(fields.key, fields.value, FromEntries(fields.rest), k);
    }
  }

  lemma {:induction false} PlaceKeepsOrder(key: Text, value: Json, fields: Fields)
    requires Ordered(fields) && !Has(fields, key)
    requires forall k | Has(fields, k) :: LexBefore(key, k)
    ensures Ordered(Place(key, value, fields))
    decreases fields
  {
    if fields.Field? {
      assert Has(fields, fields.key);
      KeyTotal(fields.key, key);
      if IsIndex(fields.key) && (!IsIndex(key) || IndexBefore(fields.key, key)) {
        forall k | Has(fields.rest, k)
          ensures LexBefore(key, k) && Has(fields, k)
        {
          KeyTotal(fields.key, k);
        }
        PlaceKeepsOrder(key, value, fields.rest);
        forall k | Has(Place(key, value, fields.rest), k)
          ensures KeyBefore(fields.key, k)
        {
          PlaceLookup(key, value, fields.rest, k);
        }
      } else {
        forall k | Has(fields, k)
          ensures KeyBefore(key, k)
        {
          if k != fields.key {
            KeyTransitive(key, fields.key, k);
          }
        }
      }
    }
  }

  lemma {:induction false} FromEntriesOrders(fields: Fields)
    requires LexSorted(fields)
    ensures Ordered(FromEntries(fields))
    decreases fields
  {
    if fields.Field? {
      FromEntriesOrders(fields.rest);
      var rest := FromEntries(fields.rest);
      forall k
        ensures Has(rest, k) == Has(fields.rest, k)
      {
        FromEntriesLookup(fields.rest, k);
      }
      LexTotal(fields.key, fields.key);
      PlaceKeepsOrder(fields.key, fields.value, rest);
    }
  }

  lemma ArrangeLookup(fields: Fields, k: Text)
    requires UniqueKeys(fields)
    ensures Lookup(Arrange(fields), k) == Lookup(fields, k)
  {
    SortSorts(fields);
    SortLookup(fields, k);
    FromEntriesLookup(SortKeys(fields), k);
  }

  lemma ArrangeOrders(fields: Fields)
    requires UniqueKeys(fields)
    ensures Ordered(Arrange(fields))
  {
    SortSorts(fields);
    FromEntriesOrders(SortKeys(fields));
  }

  /** An ordered object is determined by what it maps its keys to. */
  lemma {:induction false} OrderedUnique(a: Fields, b: Fields)
    requires Ordered(a) && Ordered(b)
    requires forall k :: Lookup(a, k) == Lookup(b, k)
    ensures a == b
    decreases a
  {
    match a
    case NoField =>
      assert b.Field? ==> Lookup(b, b.key) == Lookup(a, b.key);
    case Field(k, v, rest) =>
      assert Lookup(b, k) == Lookup(a, k) == Some(v);
      assert Lookup(a, b.key) == Lookup(b, b.key);
      KeyTotal(k, b.key);
      assert k == b.key;
      KeyTotal(k, k);
      forall key
        ensures Lookup(rest, key) == Lookup(b.rest, key)
      {
        assert Lookup(a, key) == Lookup(b, key);
        if key == k {
          assert !Has(rest, k) && !Has(b.rest, k);
        }
      }
      OrderedUnique(rest, b.rest);
  }

  lemma {:induction false} OrderedIsUnique(fields: Fields)
    requires Ordered(fields)
    ensures UniqueKeys(fields)
    decreases fields
  {
    if fields.Field? {
      KeyTotal(fields.key, fields.key);
      OrderedIsUnique(fields.rest);
    }
  }
}
