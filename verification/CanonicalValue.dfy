/** The canonical value: what it keeps, when it exists, and that it decides equality up to key order. */
module CanonicalValue {
  import opened Prelude
  import opened CanonicalJson

  /** canonicalJsonValue: arrays item by item, objects with their keys sorted, all else unchanged. */
  function Canonical(v: Json): Json
    decreases v
  {
    match v
    case Arr(items) => Arr(CanonicalItems(items))
    case Obj(fields) => Obj(Arrange(CanonicalFields(fields)))
    case _ => v
  }

  function CanonicalItems(items: Items): Items
    decreases items
  {
    match items
    case NoItem => NoItem
    case Item(head, tail) => Item(Canonical(head), CanonicalItems(tail))
  }

  function CanonicalFields(fields: Fields): Fields
    decreases fields
  {
    match fields
    case NoField => NoField
    case Field(k, v, rest) => Field(k, Canonical(v), CanonicalFields(rest))
  }

  /** canonicalValue: the same, but a non-finite number or a value outside JSON is refused. */
  function Checked(v: Json): Option<Json>
    decreases v
  {
    match v
    case NonFinite => None
    case NonJson => None
    case Arr(items) => var r := CheckedItems(items); if r.None? then None else Some(Arr(r.value))
    case Obj(fields) => var r := CheckedFields(fields); if r.None? then None else Some(Obj(Arrange(r.value)))
    case _ => Some(v)
  }

  function CheckedItems(items: Items): Option<Items>
    decreases items
  {
    match items
    case NoItem => Some(NoItem)
    case Item(head, tail) =>
      var h := Checked(head);
      if h.None? then None else
        var t := CheckedItems(tail);
        if t.None? then None else Some(Item(h.value, t.value))
  }

  function CheckedFields(fields: Fields): Option<Fields>
    decreases fields
  {
    match fields
    case NoField => Some(NoField)
    case Field(k, v, rest) =>
      var h := Checked(v);
      if h.None? then None else
        var t := CheckedFields(rest);
        if t.None? then None else Some(Field(k, h.value, t.value))
  }

  /** Every object has distinct keys, as a JavaScript object does. */
  predicate Keyed(v: Json)
    decreases v
  {
    match v
    case Arr(items) => KeyedItems(items)
    case Obj(fields) => UniqueKeys(fields) && KeyedFields(fields)
    case _ => true
  }

  predicate KeyedItems(items: Items)
    decreases items
  {
    items.Item? ==> Keyed(items.head) && KeyedItems(items.tail)
  }

  predicate KeyedFields(fields: Fields)
    decreases fields
  {
    fields.Field? ==> Keyed(fields.value) && KeyedFields(fields.rest)
  }

  /** No non-finite number and nothing outside JSON, at any depth. */
  predicate IsJson(v: Json)
    decreases v
  {
    match v
    case NonFinite => false
    case NonJson => false
    case Arr(items) => ItemsAreJson(items)
    case Obj(fields) => FieldsAreJson(fields)
    case _ => true
  }

  predicate ItemsAreJson(items: Items)
    decreases items
  {
    items.Item? ==> IsJson(items.head) && ItemsAreJson(items.tail)
  }

  predicate FieldsAreJson(fields: Fields)
    decreases fields
  {
    fields.Field? ==> IsJson(fields.value) && FieldsAreJson(fields.rest)
  }

  /** The checked form exists exactly for JSON values, and then it is the canonical one. */
  lemma {:induction false} CheckedIff(v: Json)
    ensures Checked(v) == if IsJson(v) then Some(Canonical(v)) else None
    decreases v
  {
    match v
    case Arr(items) => CheckedItemsIff(items);
    case Obj(fields) => CheckedFieldsIff(fields);
    case _ =>
  }

  lemma {:induction false} CheckedItemsIff(items: Items)
    ensures CheckedItems(items) == if ItemsAreJson(items) then Some(CanonicalItems(items)) else None
    decreases items
  {
    if items.Item? {
      CheckedIff(items.head);
      CheckedItemsIff(items.tail);
    }
  }

  lemma {:induction false} CheckedFieldsIff(fields: Fields)
    ensures CheckedFields(fields) == if FieldsAreJson(fields) then Some(CanonicalFields(fields)) else None
    decreases fields
  {
    if fields.Field? {
      CheckedIff(fields.value);
      CheckedFieldsIff(fields.rest);
    }
  }

  // --- equality up to the order of keys ---

  /** Equal up to the order of the keys of objects, at any depth. */
  predicate Same(a: Json, b: Json)
    decreases a
  {
    match a
    case Arr(items) => b.Arr? && SameItems(items, b.items)
    case Obj(fields) => b.Obj? && SameFields(fields, b.fields) && KeysIn(b.fields, fields)
    case _ => a == b
  }

  predicate SameItems(a: Items, b: Items)
    decreases a
  {
    match a
    case NoItem => b.NoItem?
    case Item(head, tail) => b.Item? && Same(head, b.head) && SameItems(tail, b.tail)
  }

  /** b has every key of a, with the same value. */
  predicate SameFields(a: Fields, b: Fields)
    decreases a
  {
    match a
    case NoField => true
    case Field(k, v, rest) => Has(b, k) && Same(v, Lookup(b, k).value) && SameFields(rest, b)
  }

  predicate KeysIn(a: Fields, b: Fields) {
    a.Field? ==> Has(b, a.key) && KeysIn(a.rest, b)
  }

  lemma {:induction false} KeysInIff(a: Fields, b: Fields)
    ensures KeysIn(a, b) <==> forall k | Has(a, k) :: Has(b, k)
    decreases a
  {
    if a.Field? {
      KeysInIff(a.rest, b);
      if forall k | Has(a, k) :: Has(b, k) {
        assert Has(a, a.key);
        assert forall k | Has(a.rest, k) :: Has(a, k);
      }
    }
  }

  lemma {:induction false} CanonicalLookup(fields: Fields, k: Text)
    ensures Lookup(CanonicalFields(fields), k) == if Has(fields, k) then Some(Canonical(Lookup(fields, k).value))
      else None
    decreases fields
  {
    if fields.Field? {
      CanonicalLookup(fields.rest, k);
    }
  }

  lemma {:induction false} CanonicalUniqueKeys(fields: Fields)
    ensures UniqueKeys(CanonicalFields(fields)) == UniqueKeys(fields)
    decreases fields
  {
    if fields.Field? {
      CanonicalUniqueKeys(fields.rest);
      CanonicalLookup(fields.rest, fields.key);
    }
  }

  /** What a canonical object maps a key to. */
  lemma CanonicalObject(fields: Fields, k: Text)
    requires UniqueKeys(fields)
    ensures Ordered(Arrange(CanonicalFields(fields)))
    ensures Lookup(Arrange(CanonicalFields(fields)), k)
      == if Has(fields, k) then Some(Canonical(Lookup(fields, k).value)) else None
  {
    CanonicalUniqueKeys(fields);
    ArrangeLookup(CanonicalFields(fields), k);
    ArrangeOrders(CanonicalFields(fields));
    CanonicalLookup(fields, k);
  }

  lemma {:induction false} KeyedLookup(fields: Fields, k: Text)
    requires KeyedFields(fields) && Has(fields, k)
    ensures Keyed(Lookup(fields, k).value)
    decreases fields
  {
    if fields.key != k {
      KeyedLookup(fields.rest, k);
    }
  }

  /** Two values have the same canonical value if and only if they are equal up to key order. */
  lemma {:induction false} CanonicalIff(a: Json, b: Json)
    requires Keyed(a) && Keyed(b)
    ensures Canonical(a) == Canonical(b) <==> Same(a, b)
    decreases a
  {
    if a.Arr? && b.Arr? {
      CanonicalItemsIff(a.items, b.items);
    } else if a.Obj? && b.Obj? {
      CanonicalFieldsIff(a.fields, b.fields);
      KeysInIff(b.fields, a.fields);
      CanonicalObjectsIff(a.fields, b.fields);
    }
  }

  lemma {:induction false} CanonicalItemsIff(a: Items, b: Items)
    requires KeyedItems(a) && KeyedItems(b)
    ensures CanonicalItems(a) == CanonicalItems(b) <==> SameItems(a, b)
    decreases a
  {
    if a.Item? && b.Item? {
      CanonicalIff(a.head, b.head);
      CanonicalItemsIff(a.tail, b.tail);
    }
  }

  ghost predicate SameAt(a: Fields, b: Fields, k: Text) {
    Has(a, k) ==> Has(b, k) && Canonical(Lookup(a, k).value) == Canonical(Lookup(b, k).value)
  }

  lemma {:induction false} CanonicalFieldsIff(a: Fields, b: Fields)
    requires UniqueKeys(a) && KeyedFields(a) && KeyedFields(b)
    ensures SameFields(a, b) <==> forall k :: SameAt(a, b, k)
    decreases a
  {
    if a.Field? {
      CanonicalFieldsIff(a.rest, b);
      if Has(b, a.key) {
        KeyedLookup(b, a.key);
        CanonicalIff(a.value, Lookup(b, a.key).value);
      }
      assert SameAt(a, b, a.key) <==> Has(b, a.key) && Canonical(a.value) == Canonical(Lookup(b, a.key).value);
      forall k
        ensures k != a.key ==> (SameAt(a, b, k) <==> SameAt(a.rest, b, k))
        ensures k == a.key ==> SameAt(a.rest, b, k)
      {
      }
      if forall k :: SameAt(a, b, k) {
        assert SameAt(a, b, a.key);
        forall k
          ensures SameAt(a.rest, b, k)
        {
          assert SameAt(a, b, k);
        }
      }
    }
  }

  lemma CanonicalObjectsIff(a: Fields, b: Fields)
    requires UniqueKeys(a) && UniqueKeys(b)
    ensures Arrange(CanonicalFields(a)) == Arrange(CanonicalFields(b))
      <==> (forall k :: SameAt(a, b, k)) && (forall k | Has(b, k) :: Has(a, k))
  {
    var x, y := Arrange(CanonicalFields(a)), Arrange(CanonicalFields(b));
    forall k
      ensures Ordered(x) && Ordered(y)
      ensures Lookup(x, k) == Lookup(y, k) <==> SameAt(a, b, k) && (Has(b, k) ==> Has(a, k))
    {
      CanonicalObject(a, k);
      CanonicalObject(b, k);
    }
    if (forall k :: SameAt(a, b, k)) && (forall k | Has(b, k) :: Has(a, k)) {
      CanonicalObject(a, []);
      CanonicalObject(b, []);
      forall k
        ensures Lookup(x, k) == Lookup(y, k)
      {
        assert SameAt(a, b, k);
      }
      OrderedUnique(x, y);
    }
  }

  // --- canonicalising twice ---

  /** Every object has its keys in the canonical order. */
  ghost predicate Tidy(v: Json)
    decreases v
  {
    match v
    case Arr(items) => TidyItems(items)
    case Obj(fields) => Ordered(fields) && TidyFields(fields)
    case _ => true
  }

  ghost predicate TidyItems(items: Items)
    decreases items
  {
    items.Item? ==> Tidy(items.head) && TidyItems(items.tail)
  }

  ghost predicate TidyFields(fields: Fields)
    decreases fields
  {
    fields.Field? ==> Tidy(fields.value) && TidyFields(fields.rest)
  }

  lemma {:induction false} TidyStays(v: Json)
    requires Tidy(v)
    ensures Canonical(v) == v && Keyed(v)
    decreases v
  {
    match v
    case Arr(items) => TidyItemsStay(items);
    case Obj(fields) =>
      TidyFieldsStay(fields);
      OrderedIsUnique(fields);
      ArrangeOrders(fields);
      forall k
        ensures Lookup(Arrange(fields), k) == Lookup(fields, k)
      {
        ArrangeLookup(fields, k);
      }
      OrderedUnique(Arrange(fields), fields);
    case _ =>
  }

  lemma {:induction false} TidyItemsStay(items: Items)
    requires TidyItems(items)
    ensures CanonicalItems(items) == items && KeyedItems(items)
    decreases items
  {
    if items.Item? {
      TidyStays(items.head);
      TidyItemsStay(items.tail);
    }
  }

  lemma {:induction false} TidyFieldsStay(fields: Fields)
    requires TidyFields(fields)
    ensures CanonicalFields(fields) == fields && KeyedFields(fields)
    decreases fields
  {
    if fields.Field? {
      TidyStays(fields.value);
      TidyFieldsStay(fields.rest);
    }
  }

  lemma {:induction false} TidyFromLookups(fields: Fields)
    requires UniqueKeys(fields) && forall k | Has(fields, k) :: Tidy(Lookup(fields, k).value)
    ensures TidyFields(fields)
    decreases fields
  {
    if fields.Field? {
      assert Has(fields, fields.key);
      forall k | Has(fields.rest, k)
        ensures Tidy(Lookup(fields.rest, k).value)
      {
        assert Has(fields, k) && Lookup(fields, k) == Lookup(fields.rest, k);
      }
      TidyFromLookups(fields.rest);
    }
  }

  lemma {:induction false} CanonicalIsTidy(v: Json)
    requires Keyed(v)
    ensures Tidy(Canonical(v))
    decreases v
  {
    match v
    case Arr(items) => CanonicalItemsAreTidy(items);
    case Obj(fields) =>
      var arranged := Arrange(CanonicalFields(fields));
      CanonicalObject(fields, []);
      OrderedIsUnique(arranged);
      forall k | Has(arranged, k)
        ensures Tidy(Lookup(arranged, k).value)
      {
        CanonicalObject(fields, k);
        CanonicalFieldIsTidy(fields, k);
      }
      TidyFromLookups(arranged);
    case _ =>
  }

  lemma {:induction false} CanonicalItemsAreTidy(items: Items)
    requires KeyedItems(items)
    ensures TidyItems(CanonicalItems(items))
    decreases items
  {
    if items.Item? {
      CanonicalIsTidy(items.head);
      CanonicalItemsAreTidy(items.tail);
    }
  }

  lemma {:induction false} CanonicalFieldIsTidy(fields: Fields, k: Text)
    requires KeyedFields(fields) && Has(fields, k)
    ensures Tidy(Canonical(Lookup(fields, k).value))
    decreases fields
  {
    if fields.key == k {
      CanonicalIsTidy(fields.value);
    } else {
      CanonicalFieldIsTidy(fields.rest, k);
    }
  }

  /** Canonicalising is idempotent, and the canonical value is the value up to key order. */
  lemma Idempotent(v: Json)
    requires Keyed(v)
    ensures Canonical(Canonical(v)) == Canonical(v)
    ensures Same(v, Canonical(v))
  {
    CanonicalIsTidy(v);
    TidyStays(Canonical(v));
    CanonicalIff(v, Canonical(v));
  }
}
