/**
 * The PHP values and the PHP built-ins that the HelloCash client's decision
 * logic relies on: arrays with ordered keys and `array_merge`, truthiness,
 * loose `==` against an integer or a non-numeric string, integer-to-string
 * conversion, `strtolower`, a substring test and the `(array)` cast.
 * Comparisons follow PHP 8.
 */
module Php {

  datatype Option<+T> = None | Some(value: T)

  /** An array key: PHP keys are integers or strings. */
  datatype Key = IntKey(i: int) | StrKey(s: string)

  /** A PHP value as produced by `json_decode` or by request input. */
  datatype PhpValue =
    | Null
    | Bool(b: bool)
    | Int(i: int)
    | Str(s: string)
    | Arr(entries: seq<(Key, PhpValue)>)   // an array: ordered key/value pairs
    | Obj(props: seq<(Key, PhpValue)>)     // a stdClass object: its properties in order

  type PhpArray = seq<(Key, PhpValue)>

  // ---------------------------------------------------------------------
  // Arrays
  // ---------------------------------------------------------------------

  /** No key occurs twice: every PHP array has this shape. */
  predicate DistinctKeys(a: PhpArray) {
    forall i, j :: 0 <= i < j < |a| ==> a[i].0 != a[j].0
  }

  /** `$a[$k]` when `isset`-able as a key, `None` when the key is absent. */
  function Lookup(a: PhpArray, k: Key): (r: Option<PhpValue>)
    ensures r.Some? <==> exists i :: 0 <= i < |a| && a[i].0 == k
  {
    if a == [] then None
    else if a[0].0 == k then Some(a[0].1)
    else
      var r := Lookup(a[1..], k);
      assert forall i :: 1 <= i < |a| ==> a[i] == a[1..][i - 1];
      r
  }

  /** `$a[$k] = $v` for a key that is written in place when present and appended otherwise. */
  function Assign(a: PhpArray, k: Key, v: PhpValue): (r: PhpArray)
    ensures Lookup(r, k) == Some(v)
    ensures forall k' :: k' != k ==> Lookup(r, k') == Lookup(a, k')
  {
    if a == [] then [(k, v)]
    else if a[0].0 == k then [(k, v)] + a[1..]
    else [a[0]] + Assign(a[1..], k, v)
  }

  /** The next free integer index of an array whose integer keys are 0, 1, 2, ... */
  function NextIndex(a: PhpArray): nat {
    if a == [] then 0 else (if a[0].0.IntKey? then 1 else 0) + NextIndex(a[1..])
  }

  /**
   * The step of `array_merge` for one entry of an input array: a string key is
   * written (overriding an earlier value), an integer key is renumbered and appended.
   */
  function MergeEntry(acc: PhpArray, e: (Key, PhpValue)): PhpArray {
    match e.0
    case StrKey(_) => Assign(acc, e.0, e.1)
    case IntKey(_) => acc + [(IntKey(NextIndex(acc)), e.1)]
  }

  function MergeAll(acc: PhpArray, b: PhpArray): PhpArray
    decreases |b|
  {
    if b == [] then acc else MergeAll(MergeEntry(acc, b[0]), b[1..])
  }

  /** `array_merge($a, $b)`. */
  function ArrayMerge(a: PhpArray, b: PhpArray): PhpArray {
    MergeAll(MergeAll([], a), b)
  }

  /**
   * Merging `b` into an accumulator: a string key of `b` wins, any other
   * string key keeps the accumulator's value.
   */
  lemma {:induction false} MergeAllStringKey(acc: PhpArray, b: PhpArray, s: string)
    requires DistinctKeys(b)
    ensures Lookup(MergeAll(acc, b), StrKey(s))
         == if Lookup(b, StrKey(s)).Some? then Lookup(b, StrKey(s)) else Lookup(acc, StrKey(s))
    decreases |b|
  {
    if b != [] {
      var acc' := MergeEntry(acc, b[0]);
      assert DistinctKeys(b[1..]) by {
        forall i, j | 0 <= i < j < |b[1..]| ensures b[1..][i].0 != b[1..][j].0 {
          assert b[1..][i] == b[i + 1] && b[1..][j] == b[j + 1];
        }
      }
      MergeAllStringKey(acc', b[1..], s);
      if b[0].0.IntKey? {
        var n := NextIndex(acc);
        assert Lookup(acc + [(IntKey(n), b[0].1)], StrKey(s)) == Lookup(acc, StrKey(s)) by {
          LookupAppendOther(acc, (IntKey(n), b[0].1), StrKey(s));
        }
      }
    }
  }

  lemma {:induction false} LookupAppendOther(a: PhpArray, e: (Key, PhpValue), k: Key)
    requires e.0 != k
    ensures Lookup(a + [e], k) == Lookup(a, k)
    decreases |a|
  {
    if a != [] {
      assert (a + [e])[1..] == a[1..] + [e];
      LookupAppendOther(a[1..], e, k);
    }
  }

  /**
   * `array_merge($defaults, $given)` on string keys: a key given by the caller
   * overrides the default, every other default is kept.
   */
  lemma MergeOverrides(defaults: PhpArray, given: PhpArray, s: string)
    requires DistinctKeys(defaults) && DistinctKeys(given)
    ensures Lookup(ArrayMerge(defaults, given), StrKey(s))
         == if Lookup(given, StrKey(s)).Some? then Lookup(given, StrKey(s)) else Lookup(defaults, StrKey(s))
  {
    MergeAllStringKey([], defaults, s);
    MergeAllStringKey(MergeAll([], defaults), given, s);
  }

  /** Dropping the first entry keeps the keys distinct. */
  lemma DistinctTail(a: PhpArray)
    requires DistinctKeys(a) && a != []
    ensures DistinctKeys(a[1..])
  {
    forall i, j | 0 <= i < j < |a[1..]| ensures a[1..][i].0 != a[1..][j].0 {
      assert a[1..][i] == a[i + 1] && a[1..][j] == a[j + 1];
    }
  }

  /** In an array with distinct keys, looking up the key of an entry finds that entry's value. */
  lemma {:induction false} LookupAt(a: PhpArray, i: nat)
    requires DistinctKeys(a) && i < |a|
    ensures Lookup(a, a[i].0) == Some(a[i].1)
    decreases i
  {
    if i > 0 {
      assert a[0].0 != a[i].0;
      assert a[1..][i - 1] == a[i];
      DistinctTail(a);
      LookupAt(a[1..], i - 1);
    }
  }

  /** `array_merge($defaults, $given)` on every string key at once. */
  lemma MergeOverridesAll(defaults: PhpArray, given: PhpArray)
    requires DistinctKeys(defaults)
    ensures DistinctKeys(given) ==>
      forall s :: Lookup(ArrayMerge(defaults, given), StrKey(s))
               == if Lookup(given, StrKey(s)).Some? then Lookup(given, StrKey(s)) else Lookup(defaults, StrKey(s))
  {
    if DistinctKeys(given) {
      forall s ensures Lookup(ArrayMerge(defaults, given), StrKey(s))
               == if Lookup(given, StrKey(s)).Some? then Lookup(given, StrKey(s)) else Lookup(defaults, StrKey(s)) {
        MergeOverrides(defaults, given, s);
      }
    }
  }

  /** The values under integer keys, in order. */
  function IntValues(a: PhpArray): seq<PhpValue> {
    if a == [] then [] else (if a[0].0.IntKey? then [a[0].1] else []) + IntValues(a[1..])
  }

  /** The integer keys, in order. */
  function IntKeys(a: PhpArray): seq<int> {
    if a == [] then [] else (if a[0].0.IntKey? then [a[0].0.i] else []) + IntKeys(a[1..])
  }

  /** `lo, lo + 1, ..., lo + n - 1`. */
  function Range(lo: int, n: nat): (r: seq<int>)
    ensures |r| == n
    decreases n
  {
    if n == 0 then [] else [lo] + Range(lo + 1, n - 1)
  }

  lemma {:induction false} RangeSnoc(lo: int, n: nat)
    ensures Range(lo, n + 1) == Range(lo, n) + [lo + n]
    decreases n
  {
    if n > 0 {
      RangeSnoc(lo + 1, n - 1);
    }
  }

  lemma IntPartsAppend(a: PhpArray, b: PhpArray)
    ensures IntValues(a + b) == IntValues(a) + IntValues(b)
    ensures IntKeys(a + b) == IntKeys(a) + IntKeys(b)
  {
    IntValuesAppend(a, b);
    IntKeysAppend(a, b);
  }

  lemma {:induction false} IntValuesAppend(a: PhpArray, b: PhpArray)
    ensures IntValues(a + b) == IntValues(a) + IntValues(b)
    decreases |a|
  {
    if a == [] {
      assert a + b == b;
    } else {
      assert (a + b)[0] == a[0] && (a + b)[1..] == a[1..] + b;
      IntValuesAppend(a[1..], b);
      var h: seq<PhpValue> := if a[0].0.IntKey? then [a[0].1] else [];
      calc {
        IntValues(a + b);
        h + IntValues(a[1..] + b);
        h + (IntValues(a[1..]) + IntValues(b));
        (h + IntValues(a[1..])) + IntValues(b);
      }
    }
  }

  lemma {:induction false} IntKeysAppend(a: PhpArray, b: PhpArray)
    ensures IntKeys(a + b) == IntKeys(a) + IntKeys(b)
    decreases |a|
  {
    if a == [] {
      assert a + b == b;
    } else {
      assert (a + b)[0] == a[0] && (a + b)[1..] == a[1..] + b;
      IntKeysAppend(a[1..], b);
      var h: seq<int> := if a[0].0.IntKey? then [a[0].0.i] else [];
      calc {
        IntKeys(a + b);
        h + IntKeys(a[1..] + b);
        h + (IntKeys(a[1..]) + IntKeys(b));
        (h + IntKeys(a[1..])) + IntKeys(b);
      }
    }
  }

  lemma {:induction false} NextIndexCounts(a: PhpArray)
    ensures NextIndex(a) == |IntValues(a)| == |IntKeys(a)|
    decreases |a|
  {
    if a != [] {
      NextIndexCounts(a[1..]);
    }
  }

  lemma {:induction false} AssignKeepsIntParts(a: PhpArray, s: string, v: PhpValue)
    ensures IntValues(Assign(a, StrKey(s), v)) == IntValues(a)
    ensures IntKeys(Assign(a, StrKey(s), v)) == IntKeys(a)
    decreases |a|
  {
    if a != [] && a[0].0 != StrKey(s) {
      AssignKeepsIntParts(a[1..], s, v);
    }
  }

  /** One step of `array_merge` keeps the values under integer keys and adds the entry's own. */
  lemma MergeEntryIntValues(acc: PhpArray, e: (Key, PhpValue))
    ensures IntValues(MergeEntry(acc, e)) == IntValues(acc) + IntValues([e])
  {
    assert IntValues([e]) == (if e.0.IntKey? then [e.1] else []) + IntValues([]);
    if e.0.StrKey? {
      AssignKeepsIntParts(acc, e.0.s, e.1);
    } else {
      var n := NextIndex(acc);
      IntValuesAppend(acc, [(IntKey(n), e.1)]);
      assert IntValues([(IntKey(n), e.1)]) == [e.1] + IntValues([]);
    }
  }

  /** One step of `array_merge` numbers an integer-keyed entry with the next index. */
  lemma MergeEntryIntKeys(acc: PhpArray, e: (Key, PhpValue))
    requires IntKeys(acc) == Range(0, |IntKeys(acc)|)
    ensures IntKeys(MergeEntry(acc, e)) == Range(0, |IntKeys(MergeEntry(acc, e))|)
  {
    if e.0.StrKey? {
      AssignKeepsIntParts(acc, e.0.s, e.1);
    } else {
      NextIndexCounts(acc);
      var n := NextIndex(acc);
      IntKeysAppend(acc, [(IntKey(n), e.1)]);
      assert IntKeys([(IntKey(n), e.1)]) == [n] + IntKeys([]);
      RangeSnoc(0, n);
    }
  }

  lemma {:induction false} MergeAllIntValues(acc: PhpArray, b: PhpArray)
    ensures IntValues(MergeAll(acc, b)) == IntValues(acc) + IntValues(b)
    decreases |b|
  {
    if b != [] {
      var acc' := MergeEntry(acc, b[0]);
      assert MergeAll(acc, b) == MergeAll(acc', b[1..]);
      MergeEntryIntValues(acc, b[0]);
      MergeAllIntValues(acc', b[1..]);
      assert b == [b[0]] + b[1..];
      IntValuesAppend([b[0]], b[1..]);
    }
  }

  lemma {:induction false} MergeAllIntKeys(acc: PhpArray, b: PhpArray)
    requires IntKeys(acc) == Range(0, |IntKeys(acc)|)
    ensures IntKeys(MergeAll(acc, b)) == Range(0, |IntKeys(MergeAll(acc, b))|)
    decreases |b|
  {
    if b != [] {
      var acc' := MergeEntry(acc, b[0]);
      assert MergeAll(acc, b) == MergeAll(acc', b[1..]);
      MergeEntryIntKeys(acc, b[0]);
      MergeAllIntKeys(acc', b[1..]);
    }
  }

  /**
   * `array_merge($a, $b)` on integer keys: the values under integer keys of
   * both arrays, in order, renumbered from 0.
   */
  lemma ArrayMergeIntKeys(a: PhpArray, b: PhpArray)
    ensures IntValues(ArrayMerge(a, b)) == IntValues(a) + IntValues(b)
    ensures IntKeys(ArrayMerge(a, b)) == Range(0, |IntValues(a)| + |IntValues(b)|)
  {
    var m := MergeAll([], a);
    var r := MergeAll(m, b);
    assert ArrayMerge(a, b) == r;
    assert IntValues([]) == [] && IntKeys([]) == Range(0, 0);
    MergeAllIntValues([], a);
    assert IntValues(m) == IntValues(a);
    MergeAllIntValues(m, b);
    MergeAllIntKeys([], a);
    MergeAllIntKeys(m, b);
    NextIndexCounts(r);
    assert |IntKeys(r)| == |IntValues(a)| + |IntValues(b)|;
  }

  /** Merging onto an array with string keys only keeps the caller's integer-keyed values, renumbered from 0. */
  lemma MergeAfterStringKeys(a: PhpArray, b: PhpArray)
    requires forall i :: 0 <= i < |a| ==> a[i].0.StrKey?
    ensures IntValues(ArrayMerge(a, b)) == IntValues(b)
    ensures IntKeys(ArrayMerge(a, b)) == Range(0, |IntValues(b)|)
  {
    StringKeysOnly(a);
    ArrayMergeIntKeys(a, b);
  }

  /** An array with string keys only has no integer-keyed values. */
  lemma {:induction false} StringKeysOnly(a: PhpArray)
    requires forall i :: 0 <= i < |a| ==> a[i].0.StrKey?
    ensures IntValues(a) == []
    decreases |a|
  {
    if a != [] {
      StringKeysOnly(a[1..]);
    }
  }

  /** A string in the form PHP reads as an integer array key: the decimal text of that integer. */
  predicate CanonicalIntString(s: string) {
    IsIntString(s) && IntToString(ParseIntString(s)) == s
  }

  /**
   * A property name used as an array key (PHP 7.2 and later): the decimal
   * text of an integer becomes that integer key, any other name stays a
   * string key.
   */
  function CastKey(k: Key): (r: Key)
    ensures k.StrKey? && CanonicalIntString(k.s) ==> r == IntKey(ParseIntString(k.s))
    ensures !(k.StrKey? && CanonicalIntString(k.s)) ==> r == k
  {
    if k.StrKey? && CanonicalIntString(k.s) then IntKey(ParseIntString(k.s)) else k
  }

  /** The property named by an integer's decimal text becomes that integer key. */
  lemma NumericPropertyName(n: int)
    ensures CastKey(StrKey(IntToString(n))) == IntKey(n)
  {
    IntStringRoundTrip(n);
  }

  /** An object's properties as array entries: the same values in the same order under their cast names. */
  function CastProps(p: PhpArray): (r: PhpArray)
    ensures |r| == |p| && forall i :: 0 <= i < |p| ==> r[i] == (CastKey(p[i].0), p[i].1)
  {
    if p == [] then [] else [(CastKey(p[0].0), p[0].1)] + CastProps(p[1..])
  }

  /** The `(array)` cast: an object's properties, an array unchanged, null empty, a scalar wrapped. */
  function ArrayCast(v: PhpValue): (r: PhpArray)
    ensures v.Obj? ==> r == CastProps(v.props)
    ensures v.Arr? ==> r == v.entries
    ensures v.Null? ==> r == []
    ensures (v.Bool? || v.Int? || v.Str?) ==> r == [(IntKey(0), v)]
  {
    match v
    case Null => []
    case Arr(e) => e
    case Obj(p) => CastProps(p)
    case _ => [(IntKey(0), v)]
  }

  // ---------------------------------------------------------------------
  // Strings and integers
  // ---------------------------------------------------------------------

  predicate IsDigit(c: char) { '0' <= c <= '9' }

  predicate AllDigits(s: string) { forall i :: 0 <= i < |s| ==> IsDigit(s[i]) }

  function DigitChar(d: nat): char
    requires d < 10
  {
    "0123456789"[d]
  }

  function DigitValue(c: char): nat
    requires IsDigit(c)
  {
    (c as int - '0' as int) as nat
  }

  /** The decimal digits of a natural number, without leading zeros. */
  function NatToDigits(n: nat): (r: string)
    ensures |r| > 0 && AllDigits(r)
    ensures n < 10 ==> |r| == 1
    ensures n < 100 ==> |r| <= 2
    decreases n
  {
    if n < 10 then [DigitChar(n)] else NatToDigits(n / 10) + [DigitChar(n % 10)]
  }

  /** The value of a string of decimal digits. */
  function DigitsToNat(s: string): nat
    requires AllDigits(s)
    decreases |s|
  {
    if s == [] then 0 else 10 * DigitsToNat(s[..|s| - 1]) + DigitValue(s[|s| - 1])
  }

  lemma {:induction false} DigitsRoundTrip(n: nat)
    ensures DigitsToNat(NatToDigits(n)) == n
    decreases n
  {
    if n >= 10 {
      var s := NatToDigits(n);
      assert s[..|s| - 1] == NatToDigits(n / 10);
      DigitsRoundTrip(n / 10);
    }
  }

  /** Leading zeros do not change the value of a digit string. */
  lemma {:induction false} LeadingZeros(z: nat, s: string)
    requires AllDigits(s)
    ensures AllDigits(Zeros(z) + s) && DigitsToNat(Zeros(z) + s) == DigitsToNat(s)
    decreases |s|
  {
    var t := Zeros(z) + s;
    assert AllDigits(t) by {
      forall i | 0 <= i < |t| ensures IsDigit(t[i]) {
        if i >= z { assert t[i] == s[i - z]; }
      }
    }
    if s == [] {
      ZerosValue(z);
      assert t == Zeros(z);
    } else {
      assert t[..|t| - 1] == Zeros(z) + s[..|s| - 1];
      LeadingZeros(z, s[..|s| - 1]);
    }
  }

  function Zeros(z: nat): (r: string)
    ensures |r| == z && AllDigits(r)
    ensures forall i :: 0 <= i < z ==> r[i] == '0'
  {
    seq(z, _ => '0')
  }

  lemma {:induction false} ZerosValue(z: nat)
    ensures DigitsToNat(Zeros(z)) == 0
    decreases z
  {
    if z > 0 {
      assert Zeros(z)[..z - 1] == Zeros(z - 1);
      ZerosValue(z - 1);
    }
  }

  /** `str_pad($digits, $w, '0', STR_PAD_LEFT)`. */
  function PadLeft(s: string, w: nat): (r: string)
    ensures |r| == if |s| < w then w else |s|
  {
    if |s| < w then Zeros(w - |s|) + s else s
  }

  /** Left-padding with zeros keeps a digit string's value. */
  lemma PadLeftValue(s: string, w: nat)
    requires AllDigits(s)
    ensures AllDigits(PadLeft(s, w)) && DigitsToNat(PadLeft(s, w)) == DigitsToNat(s)
  {
    if |s| < w {
      LeadingZeros(w - |s|, s);
    }
  }

  /** PHP's conversion of an integer to a string. */
  function IntToString(i: int): (r: string)
    ensures |r| > 0
  {
    if i < 0 then "-" + NatToDigits(-i) else NatToDigits(i)
  }

  /** A string of the form `[+-]?[0-9]+`: the integer form of a PHP numeric string. */
  predicate IsIntString(s: string) {
    if |s| > 0 && (s[0] == '-' || s[0] == '+') then |s| > 1 && AllDigits(s[1..])
    else |s| > 0 && AllDigits(s)
  }

  function ParseIntString(s: string): int
    requires IsIntString(s)
  {
    if s[0] == '-' then -(DigitsToNat(s[1..]) as int)
    else if s[0] == '+' then DigitsToNat(s[1..])
    else DigitsToNat(s)
  }

  /** Converting an integer to a string and reading it back gives the integer. */
  lemma IntStringRoundTrip(i: int)
    ensures IsIntString(IntToString(i)) && ParseIntString(IntToString(i)) == i
  {
    var s := IntToString(i);
    if i < 0 {
      assert s[1..] == NatToDigits(-i);
      DigitsRoundTrip(-i);
    } else {
      DigitsRoundTrip(i);
    }
  }

  /** IntToString is injective. */
  lemma IntToStringInjective(i: int, j: int)
    ensures IntToString(i) == IntToString(j) ==> i == j
  {
    IntStringRoundTrip(i);
    IntStringRoundTrip(j);
  }

  /** `strtolower` on ASCII letters. */
  function Lower(s: string): (r: string)
    ensures |r| == |s|
    ensures forall i :: 0 <= i < |s| ==> r[i] == LowerChar(s[i])
  {
    seq(|s|, i requires 0 <= i < |s| => LowerChar(s[i]))
  }

  function LowerChar(c: char): char {
    if 'A' <= c <= 'Z' then (c as int + 32) as char else c
  }

  function UpperChar(c: char): char {
    if 'a' <= c <= 'z' then (c as int - 32) as char else c
  }

  /** `s` begins with `p`. */
  predicate StartsWith(s: string, p: string) {
    |p| <= |s| && s[..|p|] == p
  }

  /** `t` occurs in `s` starting at index `i`. */
  predicate OccursAt(s: string, t: string, i: int) {
    0 <= i <= |s| - |t| && s[i..i + |t|] == t
  }

  /** `preg_match('/t/', s)` for a pattern without metacharacters: `t` occurs in `s`. */
  function Contains(s: string, t: string): (r: bool)
    ensures r <==> exists i :: OccursAt(s, t, i)
    decreases |s|
  {
    if |s| < |t| then false
    else if s[..|t|] == t then assert OccursAt(s, t, 0); true
    else
      var r := Contains(s[1..], t);
      assert forall i :: OccursAt(s[1..], t, i) <==> OccursAt(s, t, i + 1) by {
        forall i ensures OccursAt(s[1..], t, i) <==> OccursAt(s, t, i + 1) {
          if 0 <= i <= |s| - 1 - |t| { assert s[1..][i..i + |t|] == s[i + 1..i + 1 + |t|]; }
        }
      }
      assert !OccursAt(s, t, 0);
      assert (exists i :: OccursAt(s, t, i)) ==> exists i :: OccursAt(s[1..], t, i) by {
        if exists i :: OccursAt(s, t, i) {
          var i :| OccursAt(s, t, i);
          assert OccursAt(s[1..], t, i - 1);
        }
      }
      r
  }

  // ---------------------------------------------------------------------
  // Truthiness and loose comparison (PHP 8)
  // ---------------------------------------------------------------------

  /** What `if ($v)` decides. */
  predicate Truthy(v: PhpValue) {
    match v
    case Null => false
    case Bool(b) => b
    case Int(i) => i != 0
    case Str(s) => s != "" && s != "0"
    case Arr(e) => |e| > 0
    case Obj(_) => true
  }

  /** `$v == $k` for an integer `$k`. */
  predicate LooseEqualsInt(v: PhpValue, k: int) {
    match v
    case Null => k == 0
    case Bool(b) => b == (k != 0)
    case Int(i) => i == k
    case Str(s) => IsIntString(s) && ParseIntString(s) == k
    case Arr(_) => false
    case Obj(_) => false
  }

  /** `$v == $t` for a string `$t` that is not numeric. */
  predicate LooseEqualsText(v: PhpValue, t: string)
    requires !IsIntString(t)
  {
    match v
    case Null => t == ""
    case Bool(b) => b == Truthy(Str(t))
    case Int(i) => IntToString(i) == t
    case Str(s) => s == t
    case Arr(_) => false
    case Obj(_) => false
  }

  /** An integer is loosely equal to a non-numeric string only if ... never. */
  lemma IntNeverEqualsText(i: int, t: string)
    requires !IsIntString(t)
    ensures !LooseEqualsText(Int(i), t)
  {
    IntStringRoundTrip(i);
  }

  /** A decimal string of an integer compares equal to that integer and to no other. */
  lemma NumericStringEqualsInt(n: int, k: int)
    ensures LooseEqualsInt(Str(IntToString(n)), k) <==> n == k
  {
    IntStringRoundTrip(n);
  }

  // ---------------------------------------------------------------------
  // Conversions that can fail
  // ---------------------------------------------------------------------

  /**
   * How PHP itself fails: a warning (which Laravel's error handler rethrows as
   * an ErrorException), a TypeError, or another engine Error.
   */
  datatype Fault = Warning | TypeError | EngineError

  /** A converted value, or the fault the conversion raised. */
  datatype Conv<+T> = Converted(value: T) | Faulted(fault: Fault)

  /**
   * A value used as a string by `.` or `"{$v}"`: scalars become their text,
   * an array becomes `Array` with an "Array to string conversion" warning, and
   * a plain object cannot be converted at all.
   */
  function Interpolation(v: PhpValue): (r: Conv<string>)
    ensures r.Faulted? <==> v.Arr? || v.Obj?
    ensures v.Arr? ==> r == Faulted(Warning)
    ensures v.Obj? ==> r == Faulted(EngineError)
    ensures v.Str? ==> r == Converted(v.s)
    ensures v.Int? ==> r.Converted? && IsIntString(r.value) && ParseIntString(r.value) == v.i
  {
    match v
    case Null => Converted("")
    case Bool(b) => Converted(if b then "1" else "")
    case Int(i) =>
      IntStringRoundTrip(i);
      Converted(IntToString(i))
    case Str(s) => Converted(s)
    case Arr(_) => Faulted(Warning)
    case Obj(_) => Faulted(EngineError)
  }

  /**
   * A value passed to the `int` parameter of a built-in function (coercive
   * typing): integers pass, booleans and null become 0 or 1, an integer
   * string is read, and anything else is a TypeError.
   */
  function IntArgument(v: PhpValue): (r: Conv<int>)
    ensures r.Faulted? <==> v.Arr? || v.Obj? || (v.Str? && !IsIntString(v.s))
    ensures r.Faulted? ==> r.fault == TypeError
    ensures v.Int? ==> r == Converted(v.i)
    ensures v.Str? && IsIntString(v.s) ==> r == Converted(ParseIntString(v.s))
  {
    match v
    case Null => Converted(0)
    case Bool(b) => Converted(if b then 1 else 0)
    case Int(i) => Converted(i)
    case Str(s) => if IsIntString(s) then Converted(ParseIntString(s)) else Faulted(TypeError)
    case _ => Faulted(TypeError)
  }

  /**
   * A value passed to a `string` parameter of a user function, or returned
   * from one declared `: string` (coercive typing): strings pass, integers and
   * booleans are converted, and null, arrays and objects raise a TypeError
   * (`None`).
   */
  function StringArgument(v: PhpValue): (r: Option<string>)
    ensures r.None? <==> v.Null? || v.Arr? || v.Obj?
    ensures v.Str? ==> r == Some(v.s)
    ensures v.Int? ==> r.Some? && IsIntString(r.value) && ParseIntString(r.value) == v.i
  {
    match v
    case Str(s) => Some(s)
    case Int(i) =>
      IntStringRoundTrip(i);
      Some(IntToString(i))
    case Bool(b) => Some(if b then "1" else "")
    case _ => None
  }

  /** `$obj->name` on a decoded JSON object; `None` when unset or when `$obj` is not an object. */
  function Prop(v: PhpValue, name: string): (r: Option<PhpValue>)
    ensures r.Some? ==> v.Obj?
  {
    if v.Obj? then Lookup(v.props, StrKey(name)) else None
  }

  /** `isset($obj->name)`: present and not null. */
  function IssetProp(v: PhpValue, name: string): Option<PhpValue> {
    var p := Prop(v, name);
    if p.Some? && !p.value.Null? then p else None
  }
}
