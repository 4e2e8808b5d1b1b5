/** The order of the keys of a canonical object, in terms of numbers and code units. */
module KeyOrder {
  import opened Prelude
  import opened CanonicalJson
  import opened CanonicalValue

  // --- decimal numerals ---

  function Decimal(n: nat): Text {
    if n < 10 then [0x30 + n] else Decimal(n / 10) + [0x30 + n % 10]
  }

  function Figure(u: Unit): int {
    (u as int) - 0x30
  }

  function ValueOf(key: Text): int {
    if key == [] then 0 else ValueOf(key[..|key| - 1]) * 10 + Figure(key[|key| - 1])
  }

  predicate Digits(key: Text) {
    forall i | 0 <= i < |key| :: Digit(key[i])
  }

  /** Digits without a leading zero. */
  predicate Numeral(key: Text) {
    key != [] && Digits(key) && (key[0] == 0x30 ==> |key| == 1)
  }

  function Ten(n: nat): nat {
    if n == 0 then 1 else 10 * Ten(n - 1)
  }

  lemma {:induction false} ValueBelow(key: Text)
    requires Digits(key)
    ensures 0 <= ValueOf(key) < Ten(|key|)
    decreases |key|
  {
    if key != [] {
      ValueBelow(key[..|key| - 1]);
    }
  }

  lemma {:induction false} ValueAbove(key: Text)
    requires Digits(key) && key != [] && key[0] != 0x30
    ensures Ten(|key| - 1) <= ValueOf(key)
    decreases |key|
  {
    if |key| > 1 {
      ValueAbove(key[..|key| - 1]);
    }
  }

  lemma {:induction false} DecimalIsNumeral(n: nat)
    ensures Numeral(Decimal(n)) && ValueOf(Decimal(n)) == n && (n > 0 ==> Decimal(n)[0] != 0x30)
  {
    if n >= 10 {
      DecimalIsNumeral(n / 10);
      var d := Decimal(n);
      assert d[..|d| - 1] == Decimal(n / 10);
    }
  }

  lemma {:induction false} NumeralIsDecimal(key: Text)
    requires Numeral(key)
    ensures ValueOf(key) >= 0 && Decimal(ValueOf(key)) == key
    decreases |key|
  {
    ValueBelow(key);
    var n := |key| - 1;
    if n > 0 {
      var front := key[..n];
      NumeralIsDecimal(front);
      ValueAbove(front);
      TenPositive(n - 1);
      var q, d := ValueOf(front), Figure(key[n]);
      assert (q * 10 + d) / 10 == q && (q * 10 + d) % 10 == d;
      assert key == front + [key[n]];
    } else {
      assert key[..0] == [];
    }
  }

  lemma {:induction false} TenPositive(n: nat)
    ensures Ten(n) >= 1
  {
    if n > 0 {
      TenPositive(n - 1);
    }
  }

  lemma {:induction false} TenGrows(a: nat, b: nat)
    requires a <= b
    ensures Ten(a) <= Ten(b)
    decreases b - a
  {
    if a < b {
      TenGrows(a, b - 1);
    }
  }

  /** With equal lengths the last digits decide only if all before them agree. */
  lemma {:induction false} LexLast(a: Text, b: Text)
    requires |a| == |b| > 0
    ensures
      var n := |a| - 1;
      LexBefore(a, b) <==> LexBefore(a[..n], b[..n]) || (a[..n] == b[..n] && a[n] < b[n])
    decreases |a|
  {
    var n := |a| - 1;
    if n > 0 {
      LexLast(a[1..], b[1..]);
      assert a[1..][..n - 1] == a[..n][1..] && b[1..][..n - 1] == b[..n][1..];
      assert a[..n] == [a[0]] + a[..n][1..] && b[..n] == [b[0]] + b[..n][1..];
    } else {
      assert a[1..] == [] && b[1..] == [];
    }
  }

  /** Digit texts of one length are in order exactly if their values are. */
  lemma {:induction false} LexIsValue(a: Text, b: Text)
    requires Digits(a) && Digits(b) && |a| == |b|
    ensures LexBefore(a, b) <==> ValueOf(a) < ValueOf(b)
    ensures ValueOf(a) == ValueOf(b) ==> a == b
    decreases |a|
  {
    if a != [] {
      var n := |a| - 1;
      LexLast(a, b);
      LexIsValue(a[..n], b[..n]);
      LexIsValue(b[..n], a[..n]);
      assert a == a[..n] + [a[n]] && b == b[..n] + [b[n]];
    }
  }

  lemma ShorterIsLess(a: Text, b: Text)
    requires Numeral(a) && Numeral(b) && |a| < |b|
    ensures ValueOf(a) < ValueOf(b)
  {
    ValueBelow(a);
    ValueAbove(b);
    TenGrows(|a|, |b| - 1);
  }

  lemma IndexOrder(a: Text, b: Text)
    requires Numeral(a) && Numeral(b)
    ensures IndexBefore(a, b) <==> ValueOf(a) < ValueOf(b)
  {
    if |a| == |b| {
      LexIsValue(a, b);
    } else if |a| < |b| {
      ShorterIsLess(a, b);
    } else {
      ShorterIsLess(b, a);
    }
  }

  lemma LastIndex()
    ensures Numeral(LAST_INDEX) && ValueOf(LAST_INDEX) == 4294967294
  {
    var t := LAST_INDEX;
    forall n: nat | n < 10
      ensures ValueOf(t[..n + 1]) == ValueOf(t[..n]) * 10 + Figure(t[n])
    {
      ValueNext(t, n);
    }
    assert t[..10] == t;
    assert ValueOf(t[..0 + 1]) == 4 && ValueOf(t[..1 + 1]) == 42 && ValueOf(t[..2 + 1]) == 429;
    assert ValueOf(t[..3 + 1]) == 4294 && ValueOf(t[..4 + 1]) == 42949 && ValueOf(t[..5 + 1]) == 429496;
    assert ValueOf(t[..6 + 1]) == 4294967 && ValueOf(t[..7 + 1]) == 42949672 && ValueOf(t[..8 + 1]) == 429496729;
    assert ValueOf(t[..9 + 1]) == 4294967294;
  }

  lemma ValueNext(t: Text, n: nat)
    requires n < |t|
    ensures ValueOf(t[..n + 1]) == ValueOf(t[..n]) * 10 + Figure(t[n])
  {
    assert t[..n + 1][..n] == t[..n];
  }

  /** The key is the decimal form of an array index. */
  ghost predicate Indexes(key: Text, n: nat) {
    n <= 4294967294 && key == Decimal(n)
  }

  lemma IsIndexMeans(key: Text)
    ensures IsIndex(key) <==> exists n: nat :: Indexes(key, n)
    ensures forall n: nat | Indexes(key, n) :: n == ValueOf(key) && Numeral(key)
  {
    LastIndex();
    forall n: nat | Indexes(key, n)
      ensures n == ValueOf(key) && Numeral(key)
    {
      DecimalIsNumeral(n);
    }
    if Numeral(key) {
      NumeralIsDecimal(key);
      IndexOrder(LAST_INDEX, key);
      IndexOrder(key, LAST_INDEX);
      LexTotal(key, LAST_INDEX);
      if IsIndex(key) {
        assert Indexes(key, ValueOf(key));
      }
    }
  }

  // --- the order ---

  /** The first difference decides; a text precedes its extensions. */
  ghost predicate LexLess(a: Text, b: Text) {
    exists i :: 0 <= i <= |a| && DiffersAt(a, b, i)
  }

  predicate DiffersAt(a: Text, b: Text, i: nat)
    requires i <= |a|
  {
    i < |b| && a[..i] == b[..i] && (i == |a| || a[i] < b[i])
  }

  lemma {:induction false} LexMeans(a: Text, b: Text)
    ensures LexBefore(a, b) <==> LexLess(a, b)
    decreases a
  {
    if a == [] || b == [] {
      assert b != [] ==> DiffersAt(a, b, 0);
    } else if a[0] < b[0] {
      assert DiffersAt(a, b, 0);
    } else if a[0] == b[0] {
      LexMeans(a[1..], b[1..]);
      TailsDiffer(a, b);
    } else {
      forall i | 0 <= i <= |a|
        ensures !DiffersAt(a, b, i)
      {
        if 0 < i < |b| {
          assert a[..i][0] == a[0] && b[..i][0] == b[0];
        }
      }
    }
  }

  lemma TailsDiffer(a: Text, b: Text)
    requires a != [] && b != [] && a[0] == b[0]
    ensures LexLess(a[1..], b[1..]) <==> LexLess(a, b)
  {
    if LexLess(a[1..], b[1..]) {
      var i :| 0 <= i <= |a[1..]| && DiffersAt(a[1..], b[1..], i);
      assert a[..i + 1] == [a[0]] + a[1..][..i] && b[..i + 1] == [b[0]] + b[1..][..i];
      assert DiffersAt(a, b, i + 1);
    }
    if LexLess(a, b) {
      var i :| 0 <= i <= |a| && DiffersAt(a, b, i);
      assert i > 0;
      assert a[1..][..i - 1] == a[..i][1..] && b[1..][..i - 1] == b[..i][1..];
      assert DiffersAt(a[1..], b[1..], i - 1);
    }
  }

  /** Array indices come first, by their number; all other keys follow, by their code units. */
  ghost predicate Precedes(a: Text, b: Text) {
    if n: nat :| Indexes(a, n) then forall m: nat | Indexes(b, m) :: n < m
    else (forall m: nat :: !Indexes(b, m)) && LexLess(a, b)
  }

  lemma KeyBeforeMeans(a: Text, b: Text)
    ensures KeyBefore(a, b) <==> Precedes(a, b)
  {
    IsIndexMeans(a);
    IsIndexMeans(b);
    LexMeans(a, b);
    if IsIndex(a) && IsIndex(b) {
      IndexOrder(a, b);
    }
  }

  function KeysOf(fields: Fields): seq<Text> {
    match fields
    case NoField => []
    case Field(k, v, rest) => [k] + KeysOf(rest)
  }

  lemma {:induction false} KeysAreHeld(fields: Fields, k: Text)
    ensures k in KeysOf(fields) <==> Has(fields, k)
  {
    if fields.Field? {
      KeysAreHeld(fields.rest, k);
    }
  }

  lemma {:induction false} OrderedKeys(fields: Fields)
    requires Ordered(fields)
    ensures forall i, j | 0 <= i < j < |KeysOf(fields)| :: Precedes(KeysOf(fields)[i], KeysOf(fields)[j])
  {
    if fields.Field? {
      OrderedKeys(fields.rest);
      forall j | 0 < j < |KeysOf(fields)|
        ensures Precedes(fields.key, KeysOf(fields)[j])
      {
        KeysAreHeld(fields.rest, KeysOf(fields)[j]);
        KeyBeforeMeans(fields.key, KeysOf(fields)[j]);
      }
    }
  }

  /** The keys of a canonical object are those of the object, in that order. */
  lemma CanonicalKeyOrder(fields: Fields)
    requires UniqueKeys(fields)
    ensures
      var keys := KeysOf(Canonical(Obj(fields)).fields);
      && (forall i, j | 0 <= i < j < |keys| :: Precedes(keys[i], keys[j]))
      && (forall k :: k in keys <==> Has(fields, k))
  {
    CanonicalObject(fields, []);
    var arranged := Canonical(Obj(fields)).fields;
    OrderedKeys(arranged);
    forall k
      ensures k in KeysOf(arranged) <==> Has(fields, k)
    {
      KeysAreHeld(arranged, k);
      CanonicalObject(fields, k);
    }
  }
}
