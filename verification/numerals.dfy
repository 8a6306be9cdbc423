/** 32-bit signed integers and their decimal text form: Rust's
    `str::parse::<i32>` (used by the lexer for `"` literals) and the decimal
    `Display` of an `i32` (used by the transpiler). */
module Numerals {
  import opened Results

  const MinI32: int := -0x8000_0000
  const MaxI32: int := 0x7FFF_FFFF

  predicate InI32(x: int) {
    MinI32 <= x <= MaxI32
  }

  /** The values an `i32` can hold. */
  type Int32 = x: int | -0x8000_0000 <= x <= 0x7FFF_FFFF

  predicate IsDigit(c: char) {
    '0' <= c <= '9'
  }

  predicate AllDigits(s: string) {
    forall k :: 0 <= k < |s| ==> IsDigit(s[k])
  }

  function DigitValue(c: char): nat
    requires IsDigit(c)
  {
    c as int - '0' as int
  }

  function DigitChar(d: nat): (c: char)
    requires d < 10
    ensures IsDigit(c) && DigitValue(c) == d
  {
    ('0' as int + d) as char
  }

  /** Value of a string of decimal digits, most significant first. */
  function DigitsValue(s: string): nat
    requires AllDigits(s)
  {
    if |s| == 0 then 0 else DigitsValue(s[..|s| - 1]) * 10 + DigitValue(s[|s| - 1])
  }

  /** `str::parse::<i32>`: an optional `+` or `-`, then at least one decimal
      digit, and the value must fit in 32 bits. A lone sign, an empty string,
      any other character or an out-of-range value is a parse failure. */
  function ParseI32(s: string): (r: Option<Int32>)
    ensures r.Some? ==> |s| > 0
    ensures r.Some? && 0 < |s| && IsDigit(s[0]) ==> AllDigits(s) && r.value == DigitsValue(s)
    ensures |s| == 1 && (s[0] == '+' || s[0] == '-') ==> r.None?
    ensures 0 < |s| && AllDigits(s) ==>
              r == if InI32(DigitsValue(s)) then Some(DigitsValue(s)) else None
    ensures 1 < |s| && s[0] == '+' && AllDigits(s[1..]) ==>
              r == if InI32(DigitsValue(s[1..])) then Some(DigitsValue(s[1..])) else None
    ensures 1 < |s| && s[0] == '-' && AllDigits(s[1..]) ==>
              r == if InI32(-(DigitsValue(s[1..]) as int)) then Some(-(DigitsValue(s[1..]) as int)) else None
    ensures r.Some? ==> AllDigits(s) || ((s[0] == '+' || s[0] == '-') && AllDigits(s[1..]))
  {
    if |s| == 0 then None
    else if (s[0] == '+' || s[0] == '-') && |s| == 1 then None
    else
      var negative := s[0] == '-';
      var digits := if s[0] == '+' || s[0] == '-' then s[1..] else s;
      if !AllDigits(digits) then None
      else
        var magnitude: int := DigitsValue(digits);
        var value: int := if negative then -magnitude else magnitude;
        if InI32(value) then Some(value) else None
  }

  /** Decimal digits of a natural number, without leading zeros. */
  function ShowNat(n: nat): (s: string)
    ensures |s| > 0 && AllDigits(s)
  {
    if n < 10 then [DigitChar(n)] else ShowNat(n / 10) + [DigitChar(n % 10)]
  }

  /** Rust's `Display` for `i32`: a `-` for negative values, then the digits. */
  function ShowInt(i: int): string {
    if i < 0 then "-" + ShowNat(-i) else ShowNat(i)
  }

  lemma {:induction false} DigitsOfShowNat(n: nat)
    ensures DigitsValue(ShowNat(n)) == n
  {
    var s := ShowNat(n);
    if n >= 10 {
      assert s[..|s| - 1] == ShowNat(n / 10);
      DigitsOfShowNat(n / 10);
    }
  }

  /** Printing an `i32` and parsing it back gives the same number. */
  lemma ParseShowInt(i: Int32)
    ensures ParseI32(ShowInt(i)) == Some(i)
  {
    var m: int := i;
    DigitsOfShowNat(if m < 0 then -m else m);
    if i < 0 {
      assert ShowInt(i)[1..] == ShowNat(-m);
    }
  }
}
