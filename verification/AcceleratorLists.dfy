/** The accelerator string of a worker group, and when it depends on the order of a Go map. */
module AcceleratorLists {
  import Accelerators

  // ----- The string -----

  function Digits(n: nat): string {
    if n < 10 then [n as char + '0'] else Digits(n / 10) + [(n % 10) as char + '0']
  }

  function Decimal(n: int): string {
    if n < 0 then "-" + Digits(-n) else Digits(n)
  }

  /** `keys` is one order in which the map may be ranged over. */
  ghost predicate Enumerates(keys: seq<string>, types: map<string, int>) {
    && (forall k :: k in keys <==> k in types)
    && (forall i, j :: 0 <= i < j < |keys| ==> keys[i] != keys[j])
  }

  /** The order in which each map is ranged over. */
  type Order = map<string, int> -> seq<string>

  ghost predicate RangesOver(order: Order, types: map<string, int>) {
    Enumerates(order(types), types)
  }

  ghost predicate LegalOrder(order: Order) {
    forall types :: RangesOver(order, types)
  }

  function Item(product: string, count: int): string {
    ItemOf(Accelerators.GetAcceleratorType(product), count)
  }

  function ItemOf(acceleratorType: string, count: int): string {
    "\"accelerator_type:" + acceleratorType + ("\": " + Decimal(count))
  }

  function Count(types: map<string, int>, k: string): int {
    if k in types then types[k] else 0
  }

  function Entries(types: map<string, int>, keys: seq<string>): (r: string)
    ensures keys == [] <==> r == ""
    ensures keys != [] ==> r[|r| - 1] == ','
  {
    if keys == [] then ""
    else
      var last := keys[|keys| - 1];
      Entries(types, keys[..|keys| - 1]) + (Item(last, Count(types, last)) + ",")
  }

  function Framed(entries: string): string {
    if entries == "" then "" else "\"{" + entries[..|entries| - 1] + "}\""
  }

  function AcceleratorString(types: map<string, int>, keys: seq<string>): string {
    Framed(Entries(types, keys))
  }

  method ConfigResourceAccelerators(types: map<string, int>, order: Order) returns (r: string)
    requires types != map[] && RangesOver(order, types)
    ensures r == AcceleratorString(types, order(types))
  {
    var keys := order(types);
    var accelerators := "";
    for i := 0 to |keys|
      invariant accelerators == Entries(types, keys[..i])
    {
      assert keys[..i + 1][..i] == keys[..i] && keys[i] in types;
      accelerators := accelerators + (Item(keys[i], types[keys[i]]) + ",");
    }
    assert keys[..|keys|] == keys;
    var k :| k in types;
    assert k in keys;
    r := "\"{" + accelerators[..|accelerators| - 1] + "}\"";
  }

  // ----- Numbers are printed in decimal -----

  /** What a string of digits denotes. */
  function Denoted(s: string): int {
    if s == "" then 0 else 10 * Denoted(s[..|s| - 1]) + (s[|s| - 1] as int - '0' as int)
  }

  lemma {:induction false} DigitsDenote(n: nat)
    ensures Denoted(Digits(n)) == n
  {
    if n < 10 {
      assert Digits(n)[..0] == "";
    } else {
      DigitsDenote(n / 10);
      assert Digits(n)[..|Digits(n)| - 1] == Digits(n / 10);
    }
  }

  /** `s` is the decimal numeral of `m` without superfluous zeros. */
  ghost predicate IsNumeral(s: string, m: nat) {
    && s != ""
    && (forall c :: c in s ==> '0' <= c <= '9')
    && Denoted(s) == m
    && (m != 0 ==> s[0] != '0')
  }

  /** A minus sign for a negative number, then the numeral of its amount. */
  lemma DecimalIsNumeral(n: int) returns (s: string)
    ensures IsNumeral(s, if n < 0 then -n else n)
    ensures Decimal(n) == if n < 0 then "-" + s else s
  {
    var m := if n < 0 then -n else n;
    s := Digits(m);
    DigitsDenote(m);
    DigitsAreDigits(m);
    if m != 0 {
      NoLeadingZero(m);
    }
  }

  lemma {:induction false} NoLeadingZero(n: nat)
    requires n > 0
    ensures Digits(n) != "" && Digits(n)[0] != '0'
  {
    if n < 10 {
    } else {
      NoLeadingZero(n / 10);
    }
  }

  // ----- The string determines its entries -----

  lemma {:induction false} DigitsAreDigits(n: nat)
    ensures Digits(n) != "" && forall c :: c in Digits(n) ==> '0' <= c <= '9'
  {
    if n >= 10 {
      DigitsAreDigits(n / 10);
    }
  }

  lemma {:induction false} DigitsAreInjective(m: nat, n: nat)
    requires Digits(m) == Digits(n)
    ensures m == n
  {
    var s, t := Digits(m), Digits(n);
    assert s[|s| - 1] == (m % 10) as char + '0' && t[|t| - 1] == (n % 10) as char + '0';
    if m >= 10 && n >= 10 {
      assert Digits(m / 10) == s[..|s| - 1] && Digits(n / 10) == t[..|t| - 1];
      DigitsAreInjective(m / 10, n / 10);
    } else {
      DigitsAreDigits(m / 10);
      DigitsAreDigits(n / 10);
    }
  }

  lemma DecimalIsInjective(m: int, n: int)
    requires Decimal(m) == Decimal(n)
    ensures m == n
  {
    var a, b := Digits(if m < 0 then -m else m), Digits(if n < 0 then -n else n);
    DigitsAreDigits(if m < 0 then -m else m);
    DigitsAreDigits(if n < 0 then -n else n);
    assert a[0] in a && b[0] in b;
    assert (Decimal(m)[0] == '-' <==> m < 0) && (Decimal(n)[0] == '-' <==> n < 0);
    if m < 0 {
      assert Decimal(m)[1..] == Digits(-m) && Decimal(n)[1..] == Digits(-n);
      DigitsAreInjective(-m, -n);
    } else {
      DigitsAreInjective(m, n);
    }
  }

  predicate Plain(s: string) {
    ',' !in s && '"' !in s
  }

  lemma TypesArePlain(product: string)
    ensures Plain(Accelerators.GetAcceleratorType(product))
  {
    KnownTypesArePlain();
    FirstIsPlain(product, Accelerators.TYPES);
  }

  lemma FirstIsPlain(product: string, types: seq<string>)
    requires forall i :: 0 <= i < |types| ==> Plain(types[i])
    ensures Plain(Accelerators.FirstContained(product, types))
  {
    Accelerators.FirstContainedIsFirst(product, types);
  }

  lemma KnownTypesArePlain()
    ensures forall i :: 0 <= i < |Accelerators.TYPES| ==> Plain(Accelerators.TYPES[i])
  {
  }

  lemma DecimalIsPlain(n: int)
    ensures Plain(Decimal(n))
  {
    DigitsAreDigits(if n < 0 then -n else n);
  }

  lemma ItemHasNoComma(product: string, count: int)
    ensures ',' !in Item(product, count)
  {
    TypesArePlain(product);
    DecimalIsPlain(count);
  }

  /** An item tells its accelerator type and its count. */
  lemma SameItemIff(t: string, count: int, t': string, count': int)
    requires Plain(t) && Plain(t')
    ensures ItemOf(t, count) == ItemOf(t', count') <==> t == t' && count == count'
  {
    if ItemOf(t, count) == ItemOf(t', count') {
      QuotedIsUnique("\"accelerator_type:", "\": ", t, Decimal(count), t', Decimal(count'));
      DecimalIsInjective(count, count');
    }
  }

  lemma QuotedIsUnique(start: string, quote: string, t: string, d: string, t': string, d': string)
    requires '"' !in t && '"' !in t' && quote != "" && quote[0] == '"'
    requires start + t + (quote + d) == start + t' + (quote + d')
    ensures t == t' && d == d'
  {
    var s, n := start + t + (quote + d), |start|;
    assert s[n + |t|] == '"' && s[n + |t'|] == '"';
    assert forall i :: 0 <= i < |t| ==> s[n + i] == t[i];
    assert forall i :: 0 <= i < |t'| ==> s[n + i] == t'[i];
    assert |t| == |t'|;
    assert t == s[n..n + |t|] && t' == s[n..n + |t|];
    assert d == s[n + |t| + |quote|..] && d' == s[n + |t| + |quote|..];
  }

  function Items(types: map<string, int>, keys: seq<string>): seq<string> {
    seq(|keys|, i requires 0 <= i < |keys| => Item(keys[i], Count(types, keys[i])))
  }

  lemma CommaInside(a: string, x: string, a': string, x': string)
    requires a + x == a' + x' && |a| > |a'| && a[|a| - 1] == ','
    ensures ',' in x'
  {
    assert (a + x)[|a| - 1] == (a' + x')[|a| - 1] == x'[|a| - 1 - |a'|];
  }

  /** What stands behind the last comma is determined. */
  lemma LastPartIsUnique(a: string, x: string, a': string, x': string)
    requires ',' !in x && ',' !in x' && a + x == a' + x'
    requires (a != "" ==> a[|a| - 1] == ',') && (a' != "" ==> a'[|a'| - 1] == ',')
    ensures a == a' && x == x'
  {
    if |a| > |a'| {
      CommaInside(a, x, a', x');
    } else if |a'| > |a| {
      CommaInside(a', x', a, x);
    }
    var s := a + x;
    assert a == s[..|a|] && x == s[|a|..] && a' == s[..|a'|] && x' == s[|a'|..];
  }

  lemma SameWithComma(a: string, x: string, a': string, x': string)
    requires ',' !in x && ',' !in x'
    requires (a != "" ==> a[|a| - 1] == ',') && (a' != "" ==> a'[|a'| - 1] == ',')
    ensures a + (x + ",") == a' + (x' + ",") <==> a == a' && x == x'
  {
    var s, s' := a + (x + ","), a' + (x' + ",");
    if s == s' {
      assert a + x == s[..|s| - 1] && a' + x' == s'[..|s'| - 1];
      LastPartIsUnique(a, x, a', x');
    }
  }

  lemma {:induction false} SameEntriesIff(types: map<string, int>, keys: seq<string>, keys': seq<string>)
    ensures Entries(types, keys) == Entries(types, keys') <==> Items(types, keys) == Items(types, keys')
    decreases |keys|
  {
    if keys != [] && keys' != [] {
      var init, init' := keys[..|keys| - 1], keys'[..|keys'| - 1];
      var last, last' := keys[|keys| - 1], keys'[|keys'| - 1];
      var x, x' := Item(last, Count(types, last)), Item(last', Count(types, last'));
      SameEntriesIff(types, init, init');
      ItemHasNoComma(last, Count(types, last));
      ItemHasNoComma(last', Count(types, last'));
      SameWithComma(Entries(types, init), x, Entries(types, init'), x');
      ItemsSplit(types, keys);
      ItemsSplit(types, keys');
      SameAppended(Items(types, init), x, Items(types, init'), x');
    }
  }

  lemma ItemsSplit(types: map<string, int>, keys: seq<string>)
    requires keys != []
    ensures var last := keys[|keys| - 1];
      Items(types, keys) == Items(types, keys[..|keys| - 1]) + [Item(last, Count(types, last))]
  {
  }

  lemma SameAppended(a: seq<string>, x: string, a': seq<string>, x': string)
    ensures a + [x] == a' + [x'] <==> a == a' && x == x'
  {
    if a + [x] == a' + [x'] {
      assert a == (a + [x])[..|a|] && a' == (a' + [x'])[..|a'|];
      assert (a + [x])[|a|] == x && (a' + [x'])[|a'|] == x';
    }
  }

  lemma SameStringIff(types: map<string, int>, keys: seq<string>, keys': seq<string>)
    ensures AcceleratorString(types, keys) == AcceleratorString(types, keys') <==>
      Items(types, keys) == Items(types, keys')
  {
    SameEntriesIff(types, keys, keys');
    FramedIsUnique(Entries(types, keys), Entries(types, keys'));
  }

  lemma FramedIsUnique(e: string, e': string)
    requires (e != "" ==> e[|e| - 1] == ',') && (e' != "" ==> e'[|e'| - 1] == ',')
    ensures Framed(e) == Framed(e') <==> e == e'
  {
    if Framed(e) == Framed(e') && e != "" && e' != "" {
      var s, s' := Framed(e), Framed(e');
      assert s[2..|s| - 2] == e[..|e| - 1] && s'[2..|s'| - 2] == e'[..|e'| - 1];
      assert e == e[..|e| - 1] + [','] && e' == e'[..|e'| - 1] + [','];
    }
  }

  // ----- All orders print alike -----

  /** All products of the map stand for one accelerator type with one count. */
  predicate Uniform(types: map<string, int>) {
    forall k1, k2 :: k1 in types && k2 in types ==>
      Accelerators.GetAcceleratorType(k1) == Accelerators.GetAcceleratorType(k2) && types[k1] == types[k2]
  }

  ghost function SomeKeys(types: map<string, int>): (keys: seq<string>)
    ensures Enumerates(keys, types)
    decreases |types|
  {
    if types == map[] then []
    else
      var k :| k in types;
      StartingWith(types, k)
  }

  ghost function StartingWith(types: map<string, int>, k: string): (keys: seq<string>)
    requires k in types
    ensures Enumerates(keys, types) && keys[0] == k
    decreases |types|, 0
  {
    assert (types - {k}).Keys == types.Keys - {k};
    [k] + SomeKeys(types - {k})
  }

  function Elements(keys: seq<string>): set<string> {
    set k | k in keys
  }

  lemma {:induction false} DistinctLength(keys: seq<string>)
    requires forall i, j :: 0 <= i < j < |keys| ==> keys[i] != keys[j]
    ensures |Elements(keys)| == |keys|
  {
    if keys == [] {
    } else {
      var n := |keys| - 1;
      DistinctLength(keys[..n]);
      assert Elements(keys) == Elements(keys[..n]) + {keys[n]};
    }
  }

  lemma EnumerationLength(keys: seq<string>, types: map<string, int>)
    requires Enumerates(keys, types)
    ensures |keys| == |types|
  {
    DistinctLength(keys);
    assert Elements(keys) == types.Keys;
  }

  lemma UniformPrintsAlike(types: map<string, int>, keys: seq<string>, keys': seq<string>)
    requires Uniform(types) && Enumerates(keys, types) && Enumerates(keys', types)
    ensures AcceleratorString(types, keys) == AcceleratorString(types, keys')
  {
    EnumerationLength(keys, types);
    EnumerationLength(keys', types);
    forall i | 0 <= i < |keys|
      ensures Items(types, keys)[i] == Items(types, keys')[i]
    {
      assert keys[i] in keys && keys'[i] in keys';
      assert keys[i] in types && keys'[i] in types;
    }
    SameStringIff(types, keys, keys');
  }

  /** Unless the map is uniform, two ways to range over it print different strings. */
  lemma MixedPrintsDifferently(types: map<string, int>) returns (keys: seq<string>, keys': seq<string>)
    requires !Uniform(types)
    ensures Enumerates(keys, types) && Enumerates(keys', types)
    ensures AcceleratorString(types, keys) != AcceleratorString(types, keys')
  {
    var k1, k2 :| k1 in types && k2 in types &&
      !(Accelerators.GetAcceleratorType(k1) == Accelerators.GetAcceleratorType(k2) && types[k1] == types[k2]);
    keys, keys' := StartingWith(types, k1), StartingWith(types, k2);
    TypesArePlain(k1);
    TypesArePlain(k2);
    SameItemIff(Accelerators.GetAcceleratorType(k1), types[k1], Accelerators.GetAcceleratorType(k2), types[k2]);
    assert Items(types, keys)[0] != Items(types, keys')[0];
    SameStringIff(types, keys, keys');
  }

  /** The string does not depend on the order of the map exactly when the map is uniform. */
  lemma PrintsAlikeIff(types: map<string, int>)
    ensures (forall keys, keys' :: Enumerates(keys, types) && Enumerates(keys', types) ==>
               AcceleratorString(types, keys) == AcceleratorString(types, keys'))
        <==> Uniform(types)
  {
    if Uniform(types) {
      forall keys, keys' | Enumerates(keys, types) && Enumerates(keys', types)
        ensures AcceleratorString(types, keys) == AcceleratorString(types, keys')
      {
        UniformPrintsAlike(types, keys, keys');
      }
    } else {
      var keys, keys' := MixedPrintsDifferently(types);
    }
  }

  /** An order for all maps that ranges over one of them as given. */
  ghost function OrderWith(types: map<string, int>, keys: seq<string>): (order: Order)
    requires Enumerates(keys, types)
    ensures LegalOrder(order) && order(types) == keys
  {
    t => if t == types then keys else SomeKeys(t)
  }

  /** The string under an order. */
  function Print(types: map<string, int>, order: Order): string {
    AcceleratorString(types, order(types))
  }

  /** The same about orders for all maps. */
  lemma OrdersPrintAlikeIff(types: map<string, int>)
    ensures (forall order, order' :: LegalOrder(order) && LegalOrder(order') ==>
      Print(types, order) == Print(types, order'))
        <==> Uniform(types)
  {
    if Uniform(types) {
      forall order, order' | LegalOrder(order) && LegalOrder(order')
        ensures Print(types, order) == Print(types, order')
      {
        assert RangesOver(order, types) && RangesOver(order', types);
        UniformPrintsAlike(types, order(types), order'(types));
      }
    } else {
      var keys, keys' := MixedPrintsDifferently(types);
      var order, order' := OrderWith(types, keys), OrderWith(types, keys');
      assert Print(types, order) != Print(types, order');
    }
  }

  lemma FramedItem(item: string)
    ensures Framed(item + ",") == "\"{" + item + "}\""
  {
    assert (item + ",")[..|item|] == item;
  }

  lemma OneEntry(types: map<string, int>, product: string)
    ensures Entries(types, [product]) == Item(product, Count(types, product)) + ","
  {
    assert [product][..0] == [];
    assert Entries(types, []) == "";
  }

  /** What a map with one product prints. */
  lemma OneTypePrints(product: string, count: int)
    ensures var t := Accelerators.GetAcceleratorType(product);
      AcceleratorString(map[product := count], [product]) ==
      "\"{" + ("\"accelerator_type:" + t + ("\": " + Decimal(count))) + "}\""
  {
    OneEntry(map[product := count], product);
    FramedItem(Item(product, count));
  }

  /** One accelerator type is printed alike under every order. */
  lemma OneTypeIsUniform(types: map<string, int>)
    requires |types| <= 1
    ensures Uniform(types)
  {
    forall k1, k2 | k1 in types && k2 in types
      ensures k1 == k2
    {
      if k1 != k2 {
        assert {k1, k2} <= types.Keys;
        assert |{k1, k2}| == 2;
        SubsetSize({k1, k2}, types.Keys);
      }
    }
  }

  lemma {:induction false} SubsetSize(a: set<string>, b: set<string>)
    requires a <= b
    ensures |a| <= |b|
    decreases a
  {
    if x :| x in a {
      SubsetSize(a - {x}, b - {x});
    }
  }
}
