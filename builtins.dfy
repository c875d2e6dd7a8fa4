/**
  The few pieces of Python's built-in behaviour that the explorer relies on:
  negative sequence indexing, `str.ljust`, `str(int)`, `int(str)`, dictionaries
  that remember insertion order, and `dict.get`.
 */
module Builtins {

  datatype Option<+T> = None | Some(value: T)

  /** A JSON object as the explorer reads it: field name to text value. */
  type Record = map<string, string>

  /** `record.get(field)`: None when the field is absent. */
  function Get(record: Record, field: string): (r: Option<string>)
    ensures r.Some? <==> field in record
    ensures r.Some? ==> r.value == record[field]
  {
    if field in record then Some(record[field]) else None
  }

  /** `s[i]` with Python's indexing rules; None stands for an IndexError. */
  function PyIndex<T>(s: seq<T>, i: int): (r: Option<T>)
    ensures r.Some? <==> -|s| <= i < |s|
    ensures r.Some? ==> r.value in s
  {
    if 0 <= i < |s| then Some(s[i])
    else if -|s| <= i < 0 then Some(s[|s| + i])
    else None
  }

  /** A non-negative index picks that element; a negative one is the same as the index |s| + i, counted from the end. */
  lemma PyIndexSucceeds<T>(s: seq<T>, i: int)
    ensures 0 <= i < |s| ==> PyIndex(s, i) == Some(s[i])
    ensures -|s| <= i < 0 ==> PyIndex(s, i) == PyIndex(s, |s| + i) == Some(s[|s| + i])
    ensures i == -1 && s != [] ==> PyIndex(s, i) == Some(s[|s| - 1])
  {
  }

  function Spaces(n: nat): (r: string)
    ensures |r| == n && forall j :: 0 <= j < n ==> r[j] == ' '
  {
    if n == 0 then "" else Spaces(n - 1) + " "
  }

  /** `s.ljust(width)`: pad on the right with spaces up to `width`; a longer `s` is kept as it is. */
  function LJust(s: string, width: int): (r: string)
    ensures |r| == if |s| < width then width else |s|
    ensures r[..|s|] == s
    ensures forall j :: |s| <= j < |r| ==> r[j] == ' '
  {
    if |s| < width then s + Spaces(width - |s|) else s
  }

  predicate IsDigit(c: char)
  {
    '0' <= c <= '9'
  }

  /** A non-empty run of ASCII decimal digits. */
  predicate IsDigits(s: string)
  {
    |s| > 0 && forall j :: 0 <= j < |s| ==> IsDigit(s[j])
  }

  /**
    The strings for which Python's `int(s)` succeeds, restricted to an optional
    sign followed by ASCII digits.
   */
  predicate IsInt(s: string)
    ensures IsInt(s) ==> |s| > 0 && IsDigit(s[|s| - 1])
    ensures IsInt(s) ==> IsDigit(s[0]) || s[0] == '-' || s[0] == '+'
    ensures IsInt(s) ==> forall j :: 0 < j < |s| ==> IsDigit(s[j])
  {
    IsDigits(s) || (|s| > 1 && (s[0] == '-' || s[0] == '+') && IsDigits(s[1..]))
  }

  function DigitValue(c: char): nat
    requires IsDigit(c)
  {
    (c as int) - ('0' as int)
  }

  function DigitChar(d: nat): (c: char)
    requires d < 10
    ensures IsDigit(c) && DigitValue(c) == d
  {
    ('0' as int + d) as char
  }

  /** Value of a string of digits, most significant first; leading zeros are allowed. */
  function DigitsValue(s: string): nat
    requires forall j :: 0 <= j < |s| ==> IsDigit(s[j])
  {
    if s == [] then 0 else DigitsValue(s[..|s| - 1]) * 10 + DigitValue(s[|s| - 1])
  }

  /** `int(s)` for a string accepted by IsInt. */
  function ParseInt(s: string): (n: int)
    requires IsInt(s)
    ensures IsDigits(s) || s[0] == '+' ==> n >= 0
    ensures s[0] == '-' ==> n <= 0
  {
    if IsDigits(s) then DigitsValue(s)
    else if s[0] == '-' then 0 - DigitsValue(s[1..]) as int
    else DigitsValue(s[1..])
  }

  /** `str(n)` for a natural number: its shortest decimal spelling. */
  function NatToString(n: nat): (r: string)
    ensures IsDigits(r)
    ensures |r| > 1 ==> r[0] != '0'
  {
    if n < 10 then [DigitChar(n)] else NatToString(n / 10) + [DigitChar(n % 10)]
  }

  /** `str(n)` for any integer. */
  function IntToString(n: int): (r: string)
    ensures IsInt(r)
    ensures '|' !in r
    ensures r[0] == '-' <==> n < 0
    ensures r[0] != '+'
  {
    if n < 0 then "-" + NatToString(-n) else NatToString(n)
  }

  lemma {:induction false} DigitsRoundTrip(n: nat)
    ensures DigitsValue(NatToString(n)) == n
  {
    if n >= 10 {
      var s := NatToString(n);
      assert s[..|s| - 1] == NatToString(n / 10);
      DigitsRoundTrip(n / 10);
    }
  }

  /** Parsing what `str` prints gives the number back, so every integer answer can be typed. */
  lemma {:induction false} IntRoundTrip(n: int)
    ensures IsInt(IntToString(n)) && ParseInt(IntToString(n)) == n
  {
    if n < 0 {
      var s := IntToString(n);
      assert s[1..] == NatToString(-n);
      DigitsRoundTrip(-n);
    } else {
      DigitsRoundTrip(n);
    }
  }

  /** A Python dict, in insertion order: a list of key/value pairs with distinct keys. */
  type Dict<K, V> = seq<(K, V)>

  ghost predicate DistinctKeys<K, V>(d: Dict<K, V>)
  {
    forall i, j :: 0 <= i < j < |d| ==> d[i].0 != d[j].0
  }

  /** In a dict with distinct keys, looking up the key of entry i gives entry i's value. */
  lemma LookupDistinct<K, V>(d: Dict<K, V>, i: nat)
    requires DistinctKeys(d) && i < |d|
    ensures Lookup(d, d[i].0) == Some(d[i].1)
  {
  }

  /** `d[key]`; None stands for a KeyError. */
  function Lookup<K(==), V>(d: Dict<K, V>, key: K): (r: Option<V>)
    ensures r.None? <==> forall i :: 0 <= i < |d| ==> d[i].0 != key
    ensures r.Some? ==> exists i :: 0 <= i < |d| && d[i] == (key, r.value)
  {
    if d == [] then None
    else if d[0].0 == key then Some(d[0].1)
    else
      var r := Lookup(d[1..], key);
      assert r.Some? ==> exists i :: 0 <= i < |d[1..]| && d[1..][i] == (key, r.value);
      r
  }
}
