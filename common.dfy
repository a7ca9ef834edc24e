/** Small helpers shared by every module: an optional value, Python-style list
    lookups and the text conversions the source performs with f-strings. */
module Common {

  datatype Option<+T> = None | Some(value: T)

  /** Timestamps are carried as the text the source writes on the wire. */
  type Timestamp = string

  /** The index of the first element of `s` satisfying `p`, as Python's
      `next((x for x in s if p(x)), None)` finds it. */
  function FirstIndex<T>(s: seq<T>, p: T -> bool): (r: Option<nat>)
    ensures r.Some? ==> r.value < |s| && p(s[r.value])
    ensures r.Some? ==> forall k :: 0 <= k < r.value ==> !p(s[k])
    ensures r.None? <==> forall k :: 0 <= k < |s| ==> !p(s[k])
  {
    if s == [] then None
    else if p(s[0]) then Some(0)
    else
      match FirstIndex(s[1..], p)
      case None => None
      case Some(i) => Some(i + 1)
  }

  /** Python's `xs[i]`: a negative index counts from the end; anything else
      out of range raises IndexError (None here). */
  function PyIndex(i: int, len: nat): (r: Option<nat>)
    ensures r.Some? <==> -(len as int) <= i < len
    ensures r.Some? ==> r.value < len
    ensures r.Some? && 0 <= i ==> r.value == i
    ensures r.Some? && i < 0 ==> r.value + (-i) == len
  {
    if 0 <= i < len then Some(i)
    else if -(len as int) <= i < 0 then Some(len + i)
    else None
  }

  function DigitChar(d: nat): (c: char)
    requires d < 10
    ensures '0' <= c <= '9' && (c as int) - ('0' as int) == d
  {
    ('0' as int + d) as char
  }

  predicate AllDigits(s: string) {
    forall k :: 0 <= k < |s| ==> '0' <= s[k] <= '9'
  }

  /** Decimal text of a natural number, without leading zeros. */
  function Digits(n: nat): (s: string)
    ensures |s| >= 1 && AllDigits(s)
    decreases n
  {
    if n < 10 then [DigitChar(n)] else Digits(n / 10) + [DigitChar(n % 10)]
  }

  /** Value of a string of decimal digits. */
  function DigitsValue(s: string): nat
    requires AllDigits(s)
  {
    if s == [] then 0
    else DigitsValue(s[..|s| - 1]) * 10 + ((s[|s| - 1] as int) - ('0' as int))
  }

  lemma {:induction false} DigitsRoundTrip(n: nat)
    ensures DigitsValue(Digits(n)) == n
    decreases n
  {
    if n >= 10 {
      var s := Digits(n);
      assert s[..|s| - 1] == Digits(n / 10);
      DigitsRoundTrip(n / 10);
    }
  }

  /** Python's `str(i)` for an integer. */
  function IntToString(i: int): (s: string)
    ensures |s| >= 1
  {
    if i < 0 then "-" + Digits(-i) else Digits(i)
  }

  /** Inverse of IntToString on its range. */
  function ParseInt(s: string): (r: Option<int>)
  {
    if |s| >= 1 && s[0] != '-' && AllDigits(s) then
      Some(DigitsValue(s))
    else if |s| >= 2 && s[0] == '-' && AllDigits(s[1..]) then
      Some(-(DigitsValue(s[1..]) as int))
    else None
  }

  lemma IntToStringRoundTrip(i: int)
    ensures ParseInt(IntToString(i)) == Some(i)
  {
    if i < 0 {
      NegativeRoundTrip(-i);
    } else {
      NaturalRoundTrip(i);
    }
  }

  lemma NaturalRoundTrip(n: nat)
    ensures ParseInt(Digits(n)) == Some(n)
  {
    ParseDigits(Digits(n));
    DigitsRoundTrip(n);
  }

  lemma NegativeRoundTrip(n: nat)
    ensures ParseInt("-" + Digits(n)) == Some(-(n as int))
  {
    ParseDigits(Digits(n));
    DigitsRoundTrip(n);
  }

  /** A digit string parses to its value, and with a leading minus sign to
      the negated value. */
  lemma ParseDigits(d: string)
    requires |d| >= 1 && AllDigits(d)
    ensures ParseInt(d) == Some(DigitsValue(d) as int)
    ensures ParseInt("-" + d) == Some(-(DigitsValue(d) as int))
  {
    var m := "-" + d;
    assert m[0] == '-' && m[1..] == d;
    assert !AllDigits(m);
  }

  lemma IntToStringInjective(a: int, b: int)
    ensures IntToString(a) == IntToString(b) <==> a == b
  {
    IntToStringRoundTrip(a);
    IntToStringRoundTrip(b);
  }

  /** Python's truthiness of an optional string: None and "" are false. */
  predicate Truthy(o: Option<string>) {
    o.Some? && o.value != ""
  }

  function LowerChar(c: char): (d: char)
    ensures 'A' <= c <= 'Z' ==> d as int == c as int + 32
    ensures !('A' <= c <= 'Z') ==> d == c
  {
    if 'A' <= c <= 'Z' then (c as int + 32) as char else c
  }

  /** `str.lower()` restricted to ASCII letters. */
  function Lower(s: string): (r: string)
    ensures |r| == |s|
    ensures forall k :: 0 <= k < |s| ==> r[k] == LowerChar(s[k])
  {
    if s == [] then [] else [LowerChar(s[0])] + Lower(s[1..])
  }
}
