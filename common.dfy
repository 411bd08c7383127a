/**
 * Values shared by every part of the relay: optional values, a JSON value
 * as the Python and Go sides see a decoded frame, and decimal rendering
 * of natural numbers.
 */
module Common {

  datatype Option<+T> = None | Some(value: T)

  /** A decoded JSON value (Python's json.loads / Go's interface{} decoding). */
  datatype Json =
    | JNull
    | JBool(b: bool)
    | JNum(n: int)
    | JStr(s: string)
    | JArr(items: seq<Json>)
    | JObj(fields: map<string, Json>)

  /**
   * A string field read with a default, as `data.get(key, default)` is used
   * by the handlers: an absent key gives the default, a string gives itself,
   * and any other JSON value is a type error (None here).
   */
  function ReadString(data: map<string, Json>, key: string, default: string): (r: Option<string>)
    ensures key !in data ==> r == Some(default)
    ensures key in data && data[key].JStr? ==> r == Some(data[key].s)
    ensures r.None? <==> key in data && !data[key].JStr?
  {
    if key !in data then Some(default)
    else match data[key]
      case JStr(s) => Some(s)
      case _ => None
  }

  /** Python truthiness of an optional string: None and "" are false. */
  predicate Truthy(s: Option<string>)
  {
    s.Some? && s.value != ""
  }

  // ---------------------------------------------------------------------
  // Decimal rendering, as Python's f"{n}" and Go's %d print a natural number
  // ---------------------------------------------------------------------

  predicate IsDigit(c: char)
  {
    '0' <= c <= '9'
  }

  function DigitChar(d: nat): (c: char)
    requires d < 10
    ensures IsDigit(c)
  {
    ['0', '1', '2', '3', '4', '5', '6', '7', '8', '9'][d]
  }

  function DigitValue(c: char): (d: nat)
    requires IsDigit(c)
    ensures d < 10
  {
    (c as int) - ('0' as int)
  }

  lemma DigitRoundTrip(d: nat)
    requires d < 10
    ensures DigitValue(DigitChar(d)) == d
  {
  }

  /** The shortest decimal numeral of n (no leading zeros; "0" for zero). */
  function Decimal(n: nat): (r: string)
    ensures |r| > 0
    ensures forall i :: 0 <= i < |r| ==> IsDigit(r[i])
    ensures |r| > 1 ==> r[0] != '0'
  {
    if n < 10 then [DigitChar(n)] else Decimal(n / 10) + [DigitChar(n % 10)]
  }

  /** The value of a numeral of digits, most significant first. */
  function ParseDecimal(s: string): nat
    requires forall i :: 0 <= i < |s| ==> IsDigit(s[i])
  {
    if s == [] then 0 else 10 * ParseDecimal(s[..|s| - 1]) + DigitValue(s[|s| - 1])
  }

  /** Reading back a rendered number gives the number: the rendering loses nothing. */
  lemma {:induction false} DecimalRoundTrip(n: nat)
    ensures ParseDecimal(Decimal(n)) == n
  {
    var r := Decimal(n);
    if n < 10 {
      DigitRoundTrip(n);
    } else {
      assert r[..|r| - 1] == Decimal(n / 10);
      DecimalRoundTrip(n / 10);
      DigitRoundTrip(n % 10);
    }
  }

  /** Distinct numbers render as distinct numerals. */
  lemma DecimalInjective(m: nat, n: nat)
    requires Decimal(m) == Decimal(n)
    ensures m == n
  {
    DecimalRoundTrip(m);
    DecimalRoundTrip(n);
  }

  // ---------------------------------------------------------------------
  // Sequences without repeated elements (the keys of a Python dict, in order)
  // ---------------------------------------------------------------------

  /** A dict's items(): each key paired with its value, in the order of the keys. */
  function Items<K, V>(keys: seq<K>, m: map<K, V>): (es: seq<(K, V)>)
    requires forall k :: k in keys ==> k in m
    ensures |es| == |keys|
    ensures forall i :: 0 <= i < |keys| ==> es[i] == (keys[i], m[keys[i]])
  {
    if keys == [] then [] else [(keys[0], m[keys[0]])] + Items(keys[1..], m)
  }

  predicate NoDup<T(==)>(s: seq<T>)
  {
    forall i, j :: 0 <= i < j < |s| ==> s[i] != s[j]
  }

  function Without<T(==,!new)>(s: seq<T>, x: T): (r: seq<T>)
    ensures forall y :: y in r <==> y in s && y != x
    ensures x !in s ==> r == s
  {
    if s == [] then []
    else if s[0] == x then Without(s[1..], x)
    else [s[0]] + Without(s[1..], x)
  }

  /** Removing an element keeps a duplicate-free sequence duplicate-free. */
  lemma {:induction false} WithoutNoDup<T(!new)>(s: seq<T>, x: T)
    requires NoDup(s)
    ensures NoDup(Without(s, x))
  {
    if s != [] {
      WithoutNoDup(s[1..], x);
      assert s[0] !in s[1..];
    }
  }

  /** A duplicate-free sequence has as many distinct elements as positions. */
  lemma {:induction false} NoDupCard<T>(s: seq<T>)
    requires NoDup(s)
    ensures |set x | x in s| == |s|
  {
    if s != [] {
      NoDupCard(s[1..]);
      assert (set x | x in s) == (set x | x in s[1..]) + {s[0]};
      assert s[0] !in s[1..];
    }
  }

  /** The elements of s that are not in r, in their original order. */
  function RemoveAll<T(==)>(s: seq<T>, r: set<T>): (t: seq<T>)
    ensures |t| <= |s|
  {
    if s == [] then [] else (if s[0] in r then [] else [s[0]]) + RemoveAll(s[1..], r)
  }

  lemma {:induction false} RemoveAllNothing<T>(s: seq<T>)
    ensures RemoveAll(s, {}) == s
  {
    if s != [] {
      RemoveAllNothing(s[1..]);
    }
  }

  /** Removing one element is removing the singleton set. */
  lemma {:induction false} WithoutIsRemoveAll<T(!new)>(s: seq<T>, x: T)
    ensures Without(s, x) == RemoveAll(s, {x})
  {
    if s != [] {
      WithoutIsRemoveAll(s[1..], x);
    }
  }

  /** Removing a then b is removing a + b. */
  lemma {:induction false} RemoveAllTwice<T>(s: seq<T>, a: set<T>, b: set<T>)
    ensures RemoveAll(RemoveAll(s, a), b) == RemoveAll(s, a + b)
  {
    if s != [] {
      RemoveAllTwice(s[1..], a, b);
      if s[0] in a {
        assert RemoveAll(s, a) == RemoveAll(s[1..], a);
      } else {
        var t := RemoveAll(s, a);
        assert t == [s[0]] + RemoveAll(s[1..], a);
        assert t[0] == s[0] && t[1..] == RemoveAll(s[1..], a);
        assert RemoveAll(t, b) == (if s[0] in b then [] else [s[0]]) + RemoveAll(t[1..], b);
      }
    }
  }
}
