/**
  * Decimal text for naturals: what `str(n)` and `"{0:05d}".format(n)` print and
  * what `int(token)` reads back.
  */
module Decimal {
  import opened Wrappers

  predicate IsDigit(c: char) { '0' <= c <= '9' }

  predicate AllDigits(s: string) {
    forall k :: 0 <= k < |s| ==> IsDigit(s[k])
  }

  function DigitChar(d: nat): (c: char)
    requires d < 10
    ensures IsDigit(c)
  {
    ('0' as int + d) as char
  }

  function DigitValue(c: char): (d: nat)
    requires IsDigit(c)
    ensures d < 10 && DigitChar(d) == c
  {
    c as int - '0' as int
  }

  /** `str(n)`: the shortest decimal spelling of `n`. */
  function Digits(n: nat): (r: string)
    ensures r != [] && AllDigits(r)
    ensures |r| > 1 ==> r[0] != '0'
  {
    if n < 10 then [DigitChar(n)] else Digits(n / 10) + [DigitChar(n % 10)]
  }

  /** The number a string of decimal digits denotes; leading zeros are allowed. */
  function Value(s: string): nat
    requires AllDigits(s)
  {
    if s == [] then 0 else Value(s[..|s| - 1]) * 10 + DigitValue(s[|s| - 1])
  }

  function Zeros(k: nat): (r: string)
    ensures |r| == k && AllDigits(r)
    ensures forall i :: 0 <= i < k ==> r[i] == '0'
  {
    if k == 0 then [] else ['0'] + Zeros(k - 1)
  }

  /** `"{0:05d}".format(n)`: `str(n)` left-padded with zeros to at least five characters. */
  function Pad5(n: nat): (r: string)
    ensures AllDigits(r) && |r| >= 5
  {
    var d := Digits(n);
    if |d| < 5 then Zeros(5 - |d|) + d else d
  }

  /** `int(token)` for a token without whitespace: an optional sign and one or more digits. */
  function ParseInt(s: string): (r: Option<int>)
    ensures r.Some? ==> s != [] && (IsDigit(s[0]) || s[0] == '+' || s[0] == '-')
  {
    if s == [] then None
    else if s[0] == '+' || s[0] == '-' then
      var body := s[1..];
      if body != [] && AllDigits(body) then
        Some(if s[0] == '-' then 0 - Value(body) else Value(body) as int)
      else None
    else if AllDigits(s) then Some(Value(s))
    else None
  }

  // ----- lemmas -----

  /** Reading back what `str(n)` prints gives `n`. */
  lemma {:induction false} ValueOfDigits(n: nat)
    ensures Value(Digits(n)) == n
  {
    if n >= 10 {
      var d := Digits(n);
      assert d[..|d| - 1] == Digits(n / 10);
      ValueOfDigits(n / 10);
    }
  }

  /** Leading zeros do not change the value. */
  lemma {:induction false} ValueZeros(k: nat, s: string)
    requires AllDigits(s)
    ensures Value(Zeros(k) + s) == Value(s)
    decreases |s|
  {
    var z := Zeros(k);
    if s == [] {
      assert z + s == z;
      ValueAllZeros(z);
    } else {
      var p := s[..|s| - 1];
      assert (z + s)[..|z + s| - 1] == z + p;
      ValueZeros(k, p);
    }
  }

  lemma {:induction false} ValueAllZeros(z: string)
    requires forall i :: 0 <= i < |z| ==> z[i] == '0'
    ensures AllDigits(z) && Value(z) == 0
    decreases |z|
  {
    if z != [] {
      ValueAllZeros(z[..|z| - 1]);
    }
  }

  /** Reading back a zero-padded field gives the number that was formatted. */
  lemma ValueOfPad5(n: nat)
    ensures Value(Pad5(n)) == n
  {
    ValueOfDigits(n);
    var d := Digits(n);
    if |d| < 5 {
      ValueZeros(5 - |d|, d);
    }
  }

  /** `int(str(n)) == n` */
  lemma ParseIntOfDigits(n: nat)
    ensures ParseInt(Digits(n)) == Some(n)
  {
    ValueOfDigits(n);
  }

  /** `int("-" + str(n)) == -n` */
  lemma ParseIntOfNegative(n: nat)
    ensures ParseInt("-" + Digits(n)) == Some(0 - n)
  {
    ValueOfDigits(n);
    assert ("-" + Digits(n))[1..] == Digits(n);
  }
}
