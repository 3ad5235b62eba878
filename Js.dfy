/*
 * The parts of JavaScript's own semantics that the modelled components rely on:
 * optional (null / undefined) values and truthiness, decimal numerals, the property
 * keys of plain objects and the order in which an object enumerates them, object
 * spread, and a few String.prototype methods.
 */
module Js {

  datatype Option<+T> = None | Some(value: T) {
    function GetOr(default: T): T {
      match this
      case Some(v) => v
      case None => default
    }
  }

  /** Truthiness of an optional string: null, undefined and "" are falsy. */
  predicate Truthy(s: Option<string>) {
    s.Some? && s.value != ""
  }

  /** `s || fallback` on an optional string. */
  function OrElse(s: Option<string>, fallback: string): string {
    if Truthy(s) then s.value else fallback
  }

  /** A settled promise: fulfilled with a value, or rejected with an Error's message. */
  datatype Settled<+T> = Fulfilled(value: T) | Rejected(message: string)

  /** A JavaScript value as far as the modelled code inspects it; integral numbers only, objects by reference. */
  datatype JsValue = JUndefined | JNull | JBool(b: bool) | JNum(n: int) | JStr(s: string) | JObject(ref: nat)

  /** Truthiness: undefined, null, false, 0 and "" are falsy. */
  predicate TruthyValue(v: JsValue) {
    match v
    case JUndefined => false
    case JNull => false
    case JBool(b) => b
    case JNum(n) => n != 0
    case JStr(s) => s != ""
    case JObject(_) => true
  }

  /** `Array.prototype.filter`: the elements satisfying p, in their original order. */
  function Filter<T(!new)>(s: seq<T>, p: T -> bool): (r: seq<T>)
    ensures |r| <= |s|
    ensures forall x :: x in r <==> x in s && p(x)
  {
    if s == [] then []
    else Filter(s[..|s| - 1], p) + (if p(s[|s| - 1]) then [s[|s| - 1]] else [])
  }

  /** Filtering one more element keeps the earlier result and adds the element if it passes. */
  lemma FilterSnoc<T(!new)>(s: seq<T>, x: T, p: T -> bool)
    ensures Filter(s + [x], p) == Filter(s, p) + (if p(x) then [x] else [])
  {
    assert (s + [x])[..|s|] == s;
  }

  /** a can be obtained from b by deleting elements: a keeps b's order. */
  predicate IsSubsequence<T(==)>(a: seq<T>, b: seq<T>)
    decreases |b|
  {
    a == [] || (b != [] && ((a[|a| - 1] == b[|b| - 1] && IsSubsequence(a[..|a| - 1], b[..|b| - 1])) || IsSubsequence(a, b[..|b| - 1])))
  }

  /** Filtering keeps the order: the result is a subsequence of the input. */
  lemma {:induction false} FilterIsSubsequence<T(!new)>(s: seq<T>, p: T -> bool)
    ensures IsSubsequence(Filter(s, p), s)
  {
    if s != [] {
      var init, x := s[..|s| - 1], s[|s| - 1];
      assert s == init + [x];
      var q := Filter(init, p);
      FilterSnoc(init, x, p);
      FilterIsSubsequence(init, p);
      if p(x) {
        assert Filter(s, p) == q + [x];
        SubsequenceSnoc(q, init, x);
      } else {
        assert Filter(s, p) == q;
        SubsequenceOfLonger(q, init, x);
      }
    }
  }

  lemma SubsequenceSnoc<T>(a: seq<T>, b: seq<T>, x: T)
    requires IsSubsequence(a, b)
    ensures IsSubsequence(a + [x], b + [x])
  {
    assert (a + [x])[..|a|] == a;
    assert (b + [x])[..|b|] == b;
  }

  lemma {:induction false} SubsequenceOfLonger<T>(a: seq<T>, b: seq<T>, x: T)
    requires IsSubsequence(a, b)
    ensures IsSubsequence(a, b + [x])
  {
    assert (b + [x])[..|b|] == b;
  }

  /** Two complementary filters split the input: every element goes to exactly one side. */
  lemma {:induction false} FilterPartition<T(!new)>(s: seq<T>, p: T -> bool, q: T -> bool)
    requires forall x :: q(x) == !p(x)
    ensures multiset(Filter(s, p)) + multiset(Filter(s, q)) == multiset(s)
    ensures |Filter(s, p)| + |Filter(s, q)| == |s|
  {
    if s != [] {
      var init, x := s[..|s| - 1], s[|s| - 1];
      FilterPartition(init, p, q);
      assert s == init + [x];
      FilterPartitionStep(init, x, p, q);
    }
  }

  /** One more element lands in exactly one of two complementary filters. */
  lemma FilterPartitionStep<T(!new)>(s: seq<T>, x: T, p: T -> bool, q: T -> bool)
    requires q(x) == !p(x)
    ensures multiset(Filter(s + [x], p)) + multiset(Filter(s + [x], q))
            == multiset(Filter(s, p)) + multiset(Filter(s, q)) + multiset{x}
    ensures |Filter(s + [x], p)| + |Filter(s + [x], q)| == |Filter(s, p)| + |Filter(s, q)| + 1
  {
    FilterSnocCounts(s, x, p);
    FilterSnocCounts(s, x, q);
  }

  /** A kept element keeps every copy it has in the input; a dropped one has none. */
  lemma {:induction false} FilterCounts<T(!new)>(s: seq<T>, p: T -> bool)
    ensures forall x :: multiset(Filter(s, p))[x] == if p(x) then multiset(s)[x] else 0
  {
    if s != [] {
      var init, y := s[..|s| - 1], s[|s| - 1];
      assert s == init + [y];
      FilterCounts(init, p);
      FilterSnocCounts(init, y, p);
    }
  }

  /** What one more element adds to a filter's multiset and length. */
  lemma FilterSnocCounts<T(!new)>(s: seq<T>, x: T, p: T -> bool)
    ensures multiset(Filter(s + [x], p)) == multiset(Filter(s, p)) + (if p(x) then multiset{x} else multiset{})
    ensures |Filter(s + [x], p)| == |Filter(s, p)| + (if p(x) then 1 else 0)
  {
    FilterSnoc(s, x, p);
    if !p(x) {
      assert Filter(s, p) + [] == Filter(s, p);
    }
  }

  /** `Array.prototype.find`, with `|| null` read as None: the first element satisfying p. */
  function Find<T(==)>(s: seq<T>, p: T -> bool): (r: Option<T>)
    ensures r.Some? <==> exists i :: 0 <= i < |s| && p(s[i])
    ensures r.Some? ==> exists i :: 0 <= i < |s| && s[i] == r.value && p(s[i]) && forall j :: 0 <= j < i ==> !p(s[j])
  {
    if s == [] then None
    else if p(s[0]) then Some(s[0])
    else
      var r := Find(s[1..], p);
      assert forall i :: 1 <= i < |s| ==> s[i] == s[1..][i - 1];
      if r.Some? then
        var i :| 0 <= i < |s[1..]| && s[1..][i] == r.value && p(s[1..][i]) && forall j :: 0 <= j < i ==> !p(s[1..][j]);
        assert s[i + 1] == r.value;
        r
      else
        r
  }

  // ---------------------------------------------------------------------------
  // Decimal numerals (Number.prototype.toString for integers, String(n))
  // ---------------------------------------------------------------------------

  predicate IsDigit(c: char) {
    '0' <= c <= '9'
  }

  predicate AllDigits(s: string) {
    forall i :: 0 <= i < |s| ==> IsDigit(s[i])
  }

  /** A non-empty digit string without a superfluous leading zero. */
  predicate IsCanonicalDecimal(s: string) {
    |s| >= 1 && AllDigits(s) && (s[0] == '0' ==> |s| == 1)
  }

  function Digit(d: nat): (c: char)
    requires d < 10
    ensures IsDigit(c)
  {
    ('0' as int + d) as char
  }

  function DigitValue(c: char): (d: nat)
    requires IsDigit(c)
    ensures d < 10 && Digit(d) == c
  {
    c as int - '0' as int
  }

  /** String(n) for a non-negative integer n. */
  function NatToString(n: nat): (s: string)
    ensures IsCanonicalDecimal(s)
    ensures s[0] == '0' <==> n == 0
    decreases n
  {
    if n < 10 then [Digit(n)] else NatToString(n / 10) + [Digit(n % 10)]
  }

  /** String(n) for an integer n (exact while |n| < 10^21, where JavaScript switches to exponent notation). */
  function IntToString(n: int): string {
    if n < 0 then "-" + NatToString(-n) else NatToString(n)
  }

  /** The value of a digit string. */
  function ParseNat(s: string): nat
    requires AllDigits(s)
  {
    if s == [] then 0 else ParseNat(s[..|s| - 1]) * 10 + DigitValue(s[|s| - 1])
  }

  lemma {:induction false} ParseNatToString(n: nat)
    ensures ParseNat(NatToString(n)) == n
  {
    if n >= 10 {
      var s := NatToString(n);
      assert s[..|s| - 1] == NatToString(n / 10);
      ParseNatToString(n / 10);
    }
  }

  lemma {:induction false} ParseNatPositive(s: string)
    requires |s| >= 1 && AllDigits(s) && s[0] != '0'
    ensures ParseNat(s) >= 1
  {
    if |s| > 1 {
      ParseNatPositive(s[..|s| - 1]);
    }
  }

  lemma {:induction false} NatToStringParseNat(s: string)
    requires IsCanonicalDecimal(s)
    ensures NatToString(ParseNat(s)) == s
  {
    if |s| > 1 {
      var p := s[..|s| - 1];
      assert IsCanonicalDecimal(p);
      NatToStringParseNat(p);
      ParseNatPositive(p);
      var n := ParseNat(s);
      assert n / 10 == ParseNat(p) && n % 10 == DigitValue(s[|s| - 1]);
      assert NatToString(n) == NatToString(ParseNat(p)) + [Digit(DigitValue(s[|s| - 1]))];
    }
  }

  /** `String(n).padStart(2, '0')` */
  function PadStart2(s: string): string {
    if |s| >= 2 then s else seq(2 - |s|, _ => '0') + s
  }

  /** A day or month number below 100 pads to two digits that read back as the number. */
  lemma PadStart2TwoDigits(n: nat)
    requires n < 100
    ensures |PadStart2(NatToString(n))| == 2
    ensures AllDigits(PadStart2(NatToString(n)))
    ensures ParseNat(PadStart2(NatToString(n))) == n
  {
    var s := PadStart2(NatToString(n));
    if n < 10 {
      assert s == ['0', Digit(n)];
      assert s[..1] == ['0'];
      assert s[..1][..0] == [];
      assert ParseNat(['0']) == ParseNat([]) * 10 + DigitValue('0') == 0;
      assert ParseNat(s) == ParseNat(s[..1]) * 10 + DigitValue(Digit(n));
    } else {
      ParseNatToString(n);
      assert NatToString(n) == NatToString(n / 10) + [Digit(n % 10)];
    }
  }

  // ---------------------------------------------------------------------------
  // Property keys of plain objects
  // ---------------------------------------------------------------------------

  /** 2^32 - 2, the largest array index. */
  const MaxArrayIndex: nat := 0xFFFF_FFFE

  /**
   * A property key. Keys that are canonical decimal strings of an array index are
   * enumerated before all other string keys, in ascending numeric order.
   */
  datatype PropertyKey = Index(n: nat) | Name(s: string)

  predicate IsArrayIndexString(s: string) {
    IsCanonicalDecimal(s) && ParseNat(s) <= MaxArrayIndex
  }

  predicate ValidKey(k: PropertyKey) {
    match k
    case Index(n) => n <= MaxArrayIndex
    case Name(s) => !IsArrayIndexString(s)
  }

  /** The key `obj[s]` uses for a string s. */
  function KeyOfString(s: string): (k: PropertyKey)
    ensures ValidKey(k)
  {
    if IsArrayIndexString(s) then Index(ParseNat(s)) else Name(s)
  }

  /** The key `obj[n]` uses for an integer n: ToString(n), read as a key. */
  function KeyOfNumber(n: int): (k: PropertyKey)
    ensures ValidKey(k)
  {
    if 0 <= n <= MaxArrayIndex then Index(n)
    else if n > 0 then ParseNatToString(n); Name(IntToString(n))
    else assert !IsDigit(IntToString(n)[0]); Name(IntToString(n))
  }

  /** The key `obj[v]` uses for a primitive value v (an object converts to "[object Object]"). */
  function KeyOfValue(v: JsValue): (k: PropertyKey)
    ensures ValidKey(k)
  {
    match v
    case JUndefined => KeyOfString("undefined")
    case JNull => KeyOfString("null")
    case JBool(b) => KeyOfString(if b then "true" else "false")
    case JNum(n) => KeyOfNumber(n)
    case JStr(s) => KeyOfString(s)
    case JObject(_) => KeyOfString("[object Object]")
  }

  /** The string a key stands for (what Object.entries reports). */
  function KeyToString(k: PropertyKey): string {
    match k
    case Index(n) => NatToString(n)
    case Name(s) => s
  }

  /** A string key and its string are interchangeable: the conversion loses nothing. */
  lemma KeyOfStringRoundTrip(s: string)
    ensures KeyToString(KeyOfString(s)) == s
  {
    if IsArrayIndexString(s) {
      NatToStringParseNat(s);
    }
  }

  lemma KeyOfStringInjective(a: string, b: string)
    requires KeyOfString(a) == KeyOfString(b)
    ensures a == b
  {
    KeyOfStringRoundTrip(a);
    KeyOfStringRoundTrip(b);
  }

  /** Indexing by a number and by the number's decimal string reach the same property. */
  lemma KeyOfNumberIsKeyOfItsString(n: int)
    ensures KeyOfNumber(n) == KeyOfString(IntToString(n))
  {
    if n >= 0 {
      ParseNatToString(n);
    } else {
      assert IntToString(n)[0] == '-';
      assert !IsDigit(IntToString(n)[0]);
    }
  }

  // ---------------------------------------------------------------------------
  // Plain objects used as dictionaries
  // ---------------------------------------------------------------------------

  /** The enumeration order of own keys: array indices ascending, then other keys. */
  predicate InOrder(a: PropertyKey, b: PropertyKey) {
    match (a, b)
    case (Index(x), Index(y)) => x < y
    case (Index(_), Name(_)) => true
    case (Name(_), Index(_)) => false
    case (Name(x), Name(y)) => x != y
  }

  predicate WellOrdered(ks: seq<PropertyKey>) {
    forall i, j :: 0 <= i < j < |ks| ==> InOrder(ks[i], ks[j])
  }

  /** Where a new key goes: an index among the indices by value, any other key at the end. */
  function InsertKey(ks: seq<PropertyKey>, k: PropertyKey): (r: seq<PropertyKey>)
    requires WellOrdered(ks) && k !in ks
    ensures WellOrdered(r) && |r| == |ks| + 1
    ensures forall x :: x in r <==> x in ks || x == k
    ensures k.Name? ==> r == ks + [k]
    decreases |ks|
  {
    if k.Name? then
      assert forall i :: 0 <= i < |ks| ==> InOrder(ks[i], k) by {
        forall i | 0 <= i < |ks| ensures InOrder(ks[i], k) {
          assert ks[i] != k;
        }
      }
      ks + [k]
    else if ks == [] || !(ks[0].Index? && ks[0].n < k.n) then
      assert forall j :: 0 <= j < |ks| ==> InOrder(k, ks[j]) by {
        forall j | 0 <= j < |ks| ensures InOrder(k, ks[j]) {
          assert ks[j] != k;
          if j > 0 {
            assert InOrder(ks[0], ks[j]);
          }
        }
      }
      [k] + ks
    else
      var rest := InsertKey(ks[1..], k);
      assert forall j :: 0 <= j < |rest| ==> InOrder(ks[0], rest[j]) by {
        forall j | 0 <= j < |rest| ensures InOrder(ks[0], rest[j]) {
          assert rest[j] in rest;
          if rest[j] != k {
            var i :| 0 <= i < |ks[1..]| && ks[1..][i] == rest[j];
            assert InOrder(ks[0], ks[i + 1]);
          }
        }
      }
      [ks[0]] + rest
  }

  /**
   * A plain object: its own keys in enumeration order and the value of each.
   */
  datatype Obj<V> = Obj(keys: seq<PropertyKey>, vals: map<PropertyKey, V>)

  predicate Valid<V>(o: Obj<V>) {
    && WellOrdered(o.keys)
    && (forall i :: 0 <= i < |o.keys| ==> o.keys[i] in o.vals && ValidKey(o.keys[i]))
    && (forall k :: k in o.vals ==> k in o.keys)
  }

  /** `{}` */
  function Empty<V>(): (o: Obj<V>)
    ensures Valid(o)
  {
    Obj([], map[])
  }

  /** `obj[k] = v`: an existing key keeps its place; a new key is inserted in enumeration order. */
  function Set<V>(o: Obj<V>, k: PropertyKey, v: V): (r: Obj<V>)
    requires Valid(o) && ValidKey(k)
    ensures Valid(r)
    ensures r.vals == o.vals[k := v]
    ensures k in o.vals ==> r.keys == o.keys
    ensures k !in o.vals ==> forall x :: x in r.keys <==> x in o.keys || x == k
    ensures k !in o.vals && k.Name? ==> r.keys == o.keys + [k]
  {
    if k in o.vals then Obj(o.keys, o.vals[k := v])
    else
      var ks := InsertKey(o.keys, k);
      assert forall i :: 0 <= i < |ks| ==> ks[i] in o.vals[k := v] && ValidKey(ks[i]) by {
        forall i | 0 <= i < |ks| ensures ks[i] in o.vals[k := v] && ValidKey(ks[i]) {
          assert ks[i] in ks;
          if ks[i] != k {
            var j :| 0 <= j < |o.keys| && o.keys[j] == ks[i];
          }
        }
      }
      Obj(ks, o.vals[k := v])
  }

  /** `Object.values(o)` */
  function Values<V>(o: Obj<V>): (r: seq<V>)
    requires Valid(o)
    ensures |r| == |o.keys|
    ensures forall i :: 0 <= i < |r| ==> r[i] == o.vals[o.keys[i]]
  {
    seq(|o.keys|, i requires 0 <= i < |o.keys| && Valid(o) => o.vals[o.keys[i]])
  }

  /** Writing a key twice leaves what writing the second value once does. */
  lemma SetTwice<V>(o: Obj<V>, k: PropertyKey, a: V, b: V)
    requires Valid(o) && ValidKey(k)
    ensures Set(Set(o, k, a), k, b) == Set(o, k, b)
  {
    assert o.vals[k := a][k := b] == o.vals[k := b];
  }

  /** The keys `source` copies onto `target` under `{ ...target, ...source }`, one by one. */
  function AssignKeys<V>(target: Obj<V>, source: Obj<V>, ks: seq<PropertyKey>): (r: Obj<V>)
    requires Valid(target) && Valid(source)
    requires forall k :: k in ks ==> k in source.vals
    ensures Valid(r)
    decreases |ks|
  {
    if ks == [] then target
    else
      assert ks[0] in source.keys;
      AssignKeys(Set(target, ks[0], source.vals[ks[0]]), source, ks[1..])
  }

  /** `{ ...target, ...source }` */
  function Spread<V>(target: Obj<V>, source: Obj<V>): (r: Obj<V>)
    requires Valid(target) && Valid(source)
    ensures Valid(r)
  {
    AssignKeys(target, source, source.keys)
  }

  /** The keys of ks that are not yet keys of m, in the order of ks. */
  function NewKeys<V>(ks: seq<PropertyKey>, m: map<PropertyKey, V>): seq<PropertyKey> {
    if ks == [] then []
    else (if ks[0] in m then [] else [ks[0]]) + NewKeys(ks[1..], m)
  }

  lemma {:induction false} AssignKeysValues<V>(target: Obj<V>, source: Obj<V>, ks: seq<PropertyKey>)
    requires Valid(target) && Valid(source)
    requires forall k :: k in ks ==> k in source.vals
    ensures forall k :: k in AssignKeys(target, source, ks).vals <==> k in target.vals || k in ks
    ensures forall k :: k in ks ==> AssignKeys(target, source, ks).vals[k] == source.vals[k]
    ensures forall k :: k in target.vals && k !in ks ==> AssignKeys(target, source, ks).vals[k] == target.vals[k]
    decreases |ks|
  {
    if ks != [] {
      assert ks[0] in source.keys;
      var t1 := Set(target, ks[0], source.vals[ks[0]]);
      AssignKeysValues(t1, source, ks[1..]);
      assert AssignKeys(target, source, ks) == AssignKeys(t1, source, ks[1..]);
      forall k | k in ks ensures k == ks[0] || k in ks[1..] {
        var i :| 0 <= i < |ks| && ks[i] == k;
        if i > 0 { assert ks[1..][i - 1] == k; }
      }
    }
  }

  lemma {:induction false} AssignKeysOrder<V>(target: Obj<V>, source: Obj<V>, ks: seq<PropertyKey>)
    requires Valid(target) && Valid(source)
    requires forall k :: k in ks ==> k in source.vals && k.Name?
    requires forall i, j :: 0 <= i < j < |ks| ==> ks[i] != ks[j]
    ensures AssignKeys(target, source, ks).keys == target.keys + NewKeys(ks, target.vals)
    decreases |ks|
  {
    if ks != [] {
      var k0 := ks[0];
      assert k0 in source.keys;
      var t1 := Set(target, k0, source.vals[k0]);
      var rest := ks[1..];
      assert forall k :: k in rest ==> k in source.vals && k.Name?;
      DistinctTail(ks);
      AssignKeysOrder(t1, source, rest);
      NewKeysUnaffected(rest, target.vals, k0, source.vals[k0]);
      var first: seq<PropertyKey> := if k0 in target.vals then [] else [k0];
      calc {
        AssignKeys(target, source, ks).keys;
        AssignKeys(t1, source, rest).keys;
        t1.keys + NewKeys(rest, t1.vals);
        { assert t1.vals == target.vals[k0 := source.vals[k0]]; }
        t1.keys + NewKeys(rest, target.vals);
        { assert t1.keys == target.keys + first; }
        (target.keys + first) + NewKeys(rest, target.vals);
        { AppendAssociative(target.keys, first, NewKeys(rest, target.vals)); }
        target.keys + (first + NewKeys(rest, target.vals));
        target.keys + NewKeys(ks, target.vals);
      }
    }
  }

  /** Dropping the head of a sequence without repeats leaves one without repeats, and without the head. */
  lemma DistinctTail<T>(s: seq<T>)
    requires s != []
    requires forall i, j :: 0 <= i < j < |s| ==> s[i] != s[j]
    ensures forall i, j :: 0 <= i < j < |s[1..]| ==> s[1..][i] != s[1..][j]
    ensures s[0] !in s[1..]
  {
    forall i, j | 0 <= i < j < |s[1..]| ensures s[1..][i] != s[1..][j] {
      assert s[1..][i] == s[i + 1] && s[1..][j] == s[j + 1];
    }
    forall i | 0 <= i < |s[1..]| ensures s[1..][i] != s[0] {
      assert s[1..][i] == s[i + 1];
    }
  }

  lemma AppendAssociative<T>(a: seq<T>, b: seq<T>, c: seq<T>)
    ensures (a + b) + c == a + (b + c)
  {
  }

  lemma {:induction false} NewKeysUnaffected<V>(ks: seq<PropertyKey>, m: map<PropertyKey, V>, k: PropertyKey, v: V)
    requires k !in ks
    ensures NewKeys(ks, m[k := v]) == NewKeys(ks, m)
    decreases |ks|
  {
    if ks != [] {
      NewKeysUnaffected(ks[1..], m, k, v);
    }
  }

  /**
   * What `{ ...target, ...source }` gives when source has no array-index keys: every value of
   * source wins, the other values of target stay; target's keys keep their places and
   * source's new keys follow them in source's order.
   */
  lemma SpreadNamedKeys<V>(target: Obj<V>, source: Obj<V>)
    requires Valid(target) && Valid(source)
    requires forall k :: k in source.vals ==> k.Name?
    ensures Spread(target, source).vals == target.vals + source.vals
    ensures Spread(target, source).keys == target.keys + NewKeys(source.keys, target.vals)
  {
    var r := Spread(target, source);
    AssignKeysValues(target, source, source.keys);
    forall k ensures k in source.keys <==> k in source.vals {
      if k in source.keys {
        var i :| 0 <= i < |source.keys| && source.keys[i] == k;
      }
    }
    forall k ensures k in r.vals <==> k in target.vals + source.vals {
    }
    forall k | k in r.vals ensures r.vals[k] == (target.vals + source.vals)[k] {
    }
    assert r.vals == target.vals + source.vals;
    forall i, j | 0 <= i < j < |source.keys| ensures source.keys[i] != source.keys[j] {
      assert InOrder(source.keys[i], source.keys[j]);
    }
    AssignKeysOrder(target, source, source.keys);
  }

  // ---------------------------------------------------------------------------
  // Strings
  // ---------------------------------------------------------------------------

  /** `s.includes(sub)` */
  function Includes(s: string, sub: string): bool
    decreases |s|
  {
    if |sub| > |s| then false
    else if s[..|sub|] == sub then true
    else Includes(s[1..], sub)
  }

  /** sub occurs in s starting at position i. */
  predicate OccursAt(s: string, sub: string, i: int) {
    0 <= i <= |s| - |sub| && s[i..i + |sub|] == sub
  }

  lemma {:induction false} IncludesMeansOccurs(s: string, sub: string)
    ensures Includes(s, sub) <==> exists i :: OccursAt(s, sub, i)
    decreases |s|
  {
    if |sub| <= |s| && s[..|sub|] != sub {
      IncludesMeansOccurs(s[1..], sub);
      if exists i :: OccursAt(s, sub, i) {
        var i :| OccursAt(s, sub, i);
        assert i > 0;
        assert s[1..][i - 1..i - 1 + |sub|] == s[i..i + |sub|];
        assert OccursAt(s[1..], sub, i - 1);
      }
      if exists i :: OccursAt(s[1..], sub, i) {
        var i :| OccursAt(s[1..], sub, i);
        assert s[i + 1..i + 1 + |sub|] == s[1..][i..i + |sub|];
        assert OccursAt(s, sub, i + 1);
      }
    } else if |sub| <= |s| {
      assert OccursAt(s, sub, 0);
    }
  }

  /** `String(v)`, as a template literal `${v}` converts a primitive value. */
  function ToJsString(v: JsValue): string {
    match v
    case JUndefined => "undefined"
    case JNull => "null"
    case JBool(b) => if b then "true" else "false"
    case JNum(n) => IntToString(n)
    case JStr(s) => s
    case JObject(_) => "[object Object]"
  }

  /** `parts.join(sep)` */
  function Join(parts: seq<string>, sep: string): string
    decreases |parts|
  {
    if parts == [] then ""
    else if |parts| == 1 then parts[0]
    else parts[0] + sep + Join(parts[1..], sep)
  }

  /** `s.split(c)` for a one-character separator: the pieces between the separators, never none. */
  function Split(s: string, c: char): (r: seq<string>)
    ensures |r| >= 1
    ensures forall i :: 0 <= i < |r| ==> c !in r[i]
    decreases |s|
  {
    if s == [] then [""]
    else if s[0] == c then [""] + Split(s[1..], c)
    else
      var rest := Split(s[1..], c);
      [[s[0]] + rest[0]] + rest[1..]
  }

  /** Joining the pieces with the separator gives the string back. */
  lemma {:induction false} SplitJoin(s: string, c: char)
    ensures Join(Split(s, c), [c]) == s
    decreases |s|
  {
    if s != [] {
      SplitJoin(s[1..], c);
      var rest := Split(s[1..], c);
      if s[0] == c {
        assert Split(s, c)[1..] == rest;
      } else {
        var r := Split(s, c);
        assert r[1..] == rest[1..];
        if |rest| == 1 {
          assert Join(rest, [c]) == rest[0];
        } else {
          assert Join(rest, [c]) == rest[0] + [c] + Join(rest[1..], [c]);
        }
      }
    }
  }

  /** The first piece is the prefix before the first separator, or the whole string. */
  lemma {:induction false} SplitFirstPiece(s: string, c: char)
    ensures var f := Split(s, c)[0];
      |f| <= |s| && f == s[..|f|] && c !in f && (|f| == |s| || s[|f|] == c)
    decreases |s|
  {
    if s != [] && s[0] != c {
      SplitFirstPiece(s[1..], c);
    }
  }

  /** `c.toLowerCase()` restricted to ASCII letters. */
  function LowerAscii(c: char): char {
    if 'A' <= c <= 'Z' then (c as int + 32) as char else c
  }

  /** `s.toLowerCase()` for the ASCII letters of s. */
  function ToLowerCase(s: string): (r: string)
    ensures |r| == |s|
    ensures forall i :: 0 <= i < |s| ==> r[i] == LowerAscii(s[i])
  {
    seq(|s|, i requires 0 <= i < |s| => LowerAscii(s[i]))
  }
}
