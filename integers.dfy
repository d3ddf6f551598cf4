/**
 * Fixed-width integers of the Rust source and their decimal text.
 *
 * Rust's `to_string` on an unsigned integer writes its value in base ten with
 * no sign and no leading zeros ("0" for zero). `Decimal` models that; the
 * parser `ParseDecimal` accepts exactly such canonical text and is used to
 * show that the rendering loses nothing.
 */
module Integers {
  import opened Wrappers

  type u8 = x: nat | x < 0x100
  type u64 = x: nat | x < 0x1_0000_0000_0000_0000
  type i16 = x: int | -0x8000 <= x < 0x8000

  predicate IsDigit(c: char) {
    '0' <= c <= '9'
  }

  predicate AllDigits(s: string) {
    forall i :: 0 <= i < |s| ==> IsDigit(s[i])
  }

  function DigitChar(d: nat): (c: char)
    requires d < 10
    ensures IsDigit(c) && c as int - '0' as int == d
  {
    ('0' as int + d) as char
  }

  /** The decimal text of `n`, as Rust's formatter writes an unsigned integer. */
  function Decimal(n: nat): (s: string)
    ensures |s| >= 1 && AllDigits(s)
    ensures s[0] == '0' <==> n == 0
    ensures n < 10 <==> |s| == 1
    decreases n
  {
    if n < 10 then [DigitChar(n)] else Decimal(n / 10) + [DigitChar(n % 10)]
  }

  /** The value of a string of decimal digits, most significant first. */
  function DigitsValue(s: string): nat
    requires AllDigits(s)
    decreases |s|
  {
    if s == [] then 0 else DigitsValue(s[..|s| - 1]) * 10 + (s[|s| - 1] as int - '0' as int)
  }

  /** True of the text `Decimal` can produce: digits only, at least one, no leading zero. */
  predicate IsCanonicalDecimal(s: string) {
    |s| >= 1 && AllDigits(s) && (|s| == 1 || s[0] != '0')
  }

  /** Reads canonical decimal text back into a number; anything else is refused. */
  function ParseDecimal(s: string): (r: Option<nat>)
    ensures r.Some? <==> IsCanonicalDecimal(s)
  {
    if IsCanonicalDecimal(s) then Some(DigitsValue(s)) else None
  }

  function ParseU8(s: string): (r: Option<u8>)
    ensures r.Some? ==> ParseDecimal(s) == Some(r.value as nat)
  {
    var n :- ParseDecimal(s);
    if n < 0x100 then Some(n) else None
  }

  function ParseU64(s: string): (r: Option<u64>)
    ensures r.Some? ==> ParseDecimal(s) == Some(r.value as nat)
  {
    var n :- ParseDecimal(s);
    if n < 0x1_0000_0000_0000_0000 then Some(n) else None
  }

  lemma {:induction false} DigitsValueOfDecimal(n: nat)
    ensures DigitsValue(Decimal(n)) == n
    decreases n
  {
    var s := Decimal(n);
    if n < 10 {
      assert s[..|s| - 1] == [];
    } else {
      assert s[..|s| - 1] == Decimal(n / 10);
      DigitsValueOfDecimal(n / 10);
    }
  }

  /** Rendering then parsing gives the number back: the decimal text is lossless. */
  lemma {:induction false} DecimalRoundTrip(n: nat)
    ensures ParseDecimal(Decimal(n)) == Some(n)
  {
    DigitsValueOfDecimal(n);
  }

  /** Parsing then rendering gives the text back: every accepted text is the rendering of its value. */
  lemma {:induction false} ParseDecimalRoundTrip(s: string)
    requires ParseDecimal(s).Some?
    ensures Decimal(ParseDecimal(s).value) == s
    decreases |s|
  {
    var t := s[..|s| - 1];
    var d := s[|s| - 1] as int - '0' as int;
    assert s == t + [s[|s| - 1]];
    if |s| == 1 {
      assert t == [];
    } else {
      assert t[0] == s[0];
      assert IsCanonicalDecimal(t) by {
        assert forall i :: 0 <= i < |t| ==> t[i] == s[i];
      }
      ParseDecimalRoundTrip(t);
      var v := DigitsValue(t);
      assert Decimal(v) == t;
      assert v != 0;
      var n := v * 10 + d;
      assert n / 10 == v && n % 10 == d;
    }
  }

  /** The decimal rendering of any `u64` parses back to it. */
  lemma {:induction false} ParseU64OfDecimal(n: u64)
    ensures ParseU64(Decimal(n)) == Some(n)
  {
    DecimalRoundTrip(n);
  }

  /** The decimal rendering of any `u8` parses back to it. */
  lemma {:induction false} ParseU8OfDecimal(n: u8)
    ensures ParseU8(Decimal(n)) == Some(n)
  {
    DecimalRoundTrip(n);
  }

  /** Every text `ParseU64` accepts is the decimal rendering of the value it returns. */
  lemma ParseU64RendersBack(s: string)
    requires ParseU64(s).Some?
    ensures Decimal(ParseU64(s).value) == s
  {
    ParseDecimalRoundTrip(s);
  }

  /** Every text `ParseU8` accepts is the decimal rendering of the value it returns. */
  lemma ParseU8RendersBack(s: string)
    requires ParseU8(s).Some?
    ensures Decimal(ParseU8(s).value) == s
  {
    ParseDecimalRoundTrip(s);
  }

  /** Two numbers with the same decimal text are equal. */
  lemma DecimalInjective(a: nat, b: nat)
    ensures Decimal(a) == Decimal(b) ==> a == b
  {
    DecimalRoundTrip(a);
    DecimalRoundTrip(b);
  }
}
