/** canonicalJsonString, which does not refuse anything: JSON.stringify writes a non-finite number as
    null, drops a property that is no JSON value and writes such an array item as null. */
module LooseJson {
  import opened Prelude
  import opened CanonicalJson
  import opened CanonicalValue
  import opened JsonText

  /** What JSON.stringify writes in place of a value; None where it writes nothing. */
  function Clean(v: Json): Option<Json>
    decreases v
  {
    match v
    case NonFinite => Some(Null)
    case NonJson => None
    case Arr(items) => Some(Arr(CleanItems(items)))
    case Obj(fields) => Some(Obj(CleanFields(fields)))
    case _ => Some(v)
  }

  function CleanItems(items: Items): Items
    decreases items
  {
    match items
    case NoItem => NoItem
    case Item(head, tail) =>
      var h := Clean(head);
      Item(if h.Some? then h.value else Null, CleanItems(tail))
  }

  function CleanFields(fields: Fields): Fields
    decreases fields
  {
    match fields
    case NoField => NoField
    case Field(k, v, rest) =>
      var h := Clean(v);
      if h.Some? then Field(k, h.value, CleanFields(rest)) else CleanFields(rest)
  }

  function Stringify(v: Json): Option<Text> {
    var clean := Clean(v);
    if clean.None? then None else Some(Print(clean.value))
  }

  /** canonicalJsonString */
  function CanonicalString(v: Json): Option<Text> {
    Stringify(Canonical(v))
  }

  lemma {:induction false} CleanLookup(fields: Fields, k: Text)
    requires UniqueKeys(fields)
    ensures Lookup(CleanFields(fields), k) == if Has(fields, k) then Clean(Lookup(fields, k).value) else None
    decreases fields
  {
    if fields.Field? {
      CleanLookup(fields.rest, k);
    }
  }

  lemma {:induction false} CleanKeepsOrder(fields: Fields)
    requires Ordered(fields)
    ensures Ordered(CleanFields(fields))
    decreases fields
  {
    if fields.Field? {
      CleanKeepsOrder(fields.rest);
      OrderedIsUnique(fields.rest);
      forall k | Has(CleanFields(fields.rest), k)
        ensures Has(fields.rest, k)
      {
        CleanLookup(fields.rest, k);
      }
    }
  }

  lemma {:induction false} CleanKeepsKeys(fields: Fields)
    requires UniqueKeys(fields)
    ensures UniqueKeys(CleanFields(fields))
    decreases fields
  {
    if fields.Field? {
      CleanKeepsKeys(fields.rest);
      CleanLookup(fields.rest, fields.key);
    }
  }

  lemma {:induction false} CleanKeyed(v: Json)
    requires Keyed(v)
    ensures Clean(v).Some? ==> Keyed(Clean(v).value)
    decreases v
  {
    match v
    case Arr(items) => CleanKeyedItems(items);
    case Obj(fields) =>
      CleanKeyedFields(fields);
      CleanKeepsKeys(fields);
    case _ =>
  }

  lemma {:induction false} CleanKeyedItems(items: Items)
    requires KeyedItems(items)
    ensures KeyedItems(CleanItems(items))
    decreases items
  {
    if items.Item? {
      CleanKeyed(items.head);
      CleanKeyedItems(items.tail);
    }
  }

  lemma {:induction false} CleanKeyedFields(fields: Fields)
    requires KeyedFields(fields)
    ensures KeyedFields(CleanFields(fields))
    decreases fields
  {
    if fields.Field? {
      CleanKeyed(fields.value);
      CleanKeyedFields(fields.rest);
    }
  }

  // --- cleaning and canonicalising can be exchanged ---

  function CanonicalOption(v: Option<Json>): Option<Json> {
    if v.Some? then Some(Canonical(v.value)) else None
  }

  lemma {:induction false} CleanCanonical(v: Json)
    requires Keyed(v)
    ensures Clean(Canonical(v)) == CanonicalOption(Clean(v))
    decreases v
  {
    match v
    case Arr(items) => CleanCanonicalItems(items);
    case Obj(fields) =>
      var a, b := CleanFields(Arrange(CanonicalFields(fields))), Arrange(CanonicalFields(CleanFields(fields)));
      CleanKeepsKeys(fields);
      CanonicalObject(fields, []);
      CanonicalObject(CleanFields(fields), []);
      CleanKeepsOrder(Arrange(CanonicalFields(fields)));
      OrderedIsUnique(Arrange(CanonicalFields(fields)));
      forall k
        ensures Lookup(a, k) == Lookup(b, k)
      {
        CanonicalObject(fields, k);
        CanonicalObject(CleanFields(fields), k);
        CleanLookup(fields, k);
        CleanLookup(Arrange(CanonicalFields(fields)), k);
        if Has(fields, k) {
          CleanCanonicalField(fields, k);
        }
      }
      OrderedUnique(a, b);
    case _ =>
  }

  lemma {:induction false} CleanCanonicalItems(items: Items)
    requires KeyedItems(items)
    ensures CleanItems(CanonicalItems(items)) == CanonicalItems(CleanItems(items))
    decreases items
  {
    if items.Item? {
      CleanCanonical(items.head);
      CleanCanonicalItems(items.tail);
    }
  }

  lemma {:induction false} CleanCanonicalField(fields: Fields, k: Text)
    requires KeyedFields(fields) && Has(fields, k)
    ensures Clean(Canonical(Lookup(fields, k).value)) == CanonicalOption(Clean(Lookup(fields, k).value))
    decreases fields
  {
    if fields.key == k {
      CleanCanonical(fields.value);
    } else {
      CleanCanonicalField(fields.rest, k);
    }
  }

  predicate PrintsClean(v: Json) {
    Keyed(v) && (Clean(v).Some? ==> Printable(Clean(v).value))
  }

  /** canonicalJsonEqual holds if and only if what JSON.stringify writes for the two values is equal up
      to key order. */
  lemma CanonicalStringIff(a: Json, b: Json)
    requires PrintsClean(a) && PrintsClean(b)
    ensures CanonicalString(a) == CanonicalString(b)
      <==> (Clean(a).None? && Clean(b).None?)
           || (Clean(a).Some? && Clean(b).Some? && Same(Clean(a).value, Clean(b).value))
  {
    CleanCanonical(a);
    CleanCanonical(b);
    if Clean(a).Some? && Clean(b).Some? {
      CleanKeyed(a);
      CleanKeyed(b);
      CanonicalTextIff(Clean(a).value, Clean(b).value);
      CheckedIff(Clean(a).value);
      CheckedIff(Clean(b).value);
    }
  }

  /** On JSON values it agrees with the checked form. */
  lemma {:induction false} JsonIsClean(v: Json)
    requires IsJson(v)
    ensures Clean(v) == Some(v)
    decreases v
  {
    match v
    case Arr(items) => JsonItemsAreClean(items);
    case Obj(fields) => JsonFieldsAreClean(fields);
    case _ =>
  }

  lemma {:induction false} JsonItemsAreClean(items: Items)
    requires ItemsAreJson(items)
    ensures CleanItems(items) == items
    decreases items
  {
    if items.Item? {
      JsonIsClean(items.head);
      JsonItemsAreClean(items.tail);
    }
  }

  lemma {:induction false} JsonFieldsAreClean(fields: Fields)
    requires FieldsAreJson(fields)
    ensures CleanFields(fields) == fields
    decreases fields
  {
    if fields.Field? {
      JsonIsClean(fields.value);
      JsonFieldsAreClean(fields.rest);
    }
  }

  lemma StringsAgreeOnJson(v: Json)
    requires Keyed(v) && IsJson(v)
    ensures CanonicalString(v) == CanonicalText(v)
  {
    JsonIsClean(v);
    CleanCanonical(v);
    CheckedIff(v);
  }

  function One(k: Text, v: Json): Fields {
    Field(k, v, NoField)
  }

  lemma CleanOne(k: Text, v: Json)
    ensures CleanFields(One(k, v)) == if Clean(v).Some? then One(k, Clean(v).value) else NoField
  {
    assert CleanFields(NoField) == NoField;
  }

  lemma OneIsSame(k: Text, v: Json, w: Json)
    ensures Same(Obj(One(k, v)), Obj(One(k, w))) <==> Same(v, w)
  {
    assert Lookup(One(k, w), k) == Some(w) && SameFields(NoField, One(k, w));
    assert SameFields(One(k, v), One(k, w)) <==> Same(v, w);
    assert KeysIn(NoField, One(k, v)) && KeysIn(One(k, w), One(k, v));
  }

  lemma OnePrintsClean(k: Text, v: Json)
    requires v == Null || v == NonFinite || v == NonJson
    ensures PrintsClean(Obj(One(k, v)))
  {
    assert KeyedFields(NoField) && UniqueKeys(NoField) && PrintableFields(NoField);
    assert Keyed(v) && KeyedFields(One(k, v)) && UniqueKeys(One(k, v));
    CleanOne(k, v);
    assert Printable(Null) && PrintableFields(One(k, Null));
  }

  /** Outside JSON the two differ: a missing number and null are told apart by the checked form only. */
  lemma NonFiniteCollides(k: Text)
    ensures
      var nan, none := Obj(One(k, NonFinite)), Obj(One(k, Null));
      CanonicalString(nan) == CanonicalString(none) && !Same(nan, none) && CanonicalText(nan).None?
  {
    OnePrintsClean(k, NonFinite);
    OnePrintsClean(k, Null);
    CleanOne(k, NonFinite);
    CleanOne(k, Null);
    OneIsSame(k, NonFinite, Null);
    OneIsSame(k, Null, Null);
    CanonicalStringIff(Obj(One(k, NonFinite)), Obj(One(k, Null)));
    CheckedIff(Obj(One(k, NonFinite)));
    assert !IsJson(NonFinite) && !FieldsAreJson(One(k, NonFinite));
  }

  /** And a property without a JSON value is as good as absent. */
  lemma NonJsonCollides(k: Text)
    ensures CanonicalString(Obj(One(k, NonJson))) == CanonicalString(Obj(NoField))
  {
    OnePrintsClean(k, NonJson);
    CleanOne(k, NonJson);
    assert CleanFields(NoField) == NoField && KeyedFields(NoField) && UniqueKeys(NoField) && PrintableFields(NoField);
    assert SameFields(NoField, NoField) && KeysIn(NoField, NoField);
    CanonicalStringIff(Obj(One(k, NonJson)), Obj(NoField));
  }
}
