/**
 * Rust's fixed-width integers and their decimal text: `Display` for the
 * unsigned and signed integer types and `FromStr` for the unsigned ones,
 * as the client uses them to print and parse cursors, category codes,
 * post ids and HTTP status codes.
 */
module Decimal {
  import opened Wrappers

  const U8Max: nat := 0xFF
  const U16Max: nat := 0xFFFF
  const U64Max: nat := 0xFFFF_FFFF_FFFF_FFFF

  type u8 = n: int | 0 <= n <= 0xFF
  type u16 = n: int | 0 <= n <= 0xFFFF
  type u64 = n: int | 0 <= n <= 0xFFFF_FFFF_FFFF_FFFF
  type i64 = n: int | -0x8000_0000_0000_0000 <= n < 0x8000_0000_0000_0000

  /** `u64` addition of `k`, wrapping around at 2^64 as a release build does. */
  function WrappingAdd(x: u64, k: nat): (r: u64)
    ensures x + k <= U64Max ==> r == x + k
  {
    (x + k) % (U64Max + 1)
  }

  /** Two wrapping additions are one, wrap-around included. */
  lemma WrappingAddTwice(x: u64, a: nat, b: nat)
    ensures WrappingAdd(WrappingAdd(x, a), b) == WrappingAdd(x, a + b)
  {
  }

  /** The kinds of `ParseIntError` an unsigned `from_str` can report. */
  datatype IntErrorKind = Empty | InvalidDigit | PosOverflow

  predicate IsDigit(c: char) {
    '0' <= c <= '9'
  }

  predicate AllDigits(s: string) {
    forall i :: 0 <= i < |s| ==> IsDigit(s[i])
  }

  function DigitChar(d: nat): (c: char)
    requires d < 10
    ensures IsDigit(c)
  {
    ('0' as int + d) as char
  }

  function DigitValue(c: char): (d: nat)
    requires IsDigit(c)
    ensures d < 10
  {
    c as int - '0' as int
  }

  /** Decimal text of `n`: the shortest digit string, so a leading zero only for 0 itself. */
  function Dec(n: nat): (s: string)
    ensures |s| > 0 && AllDigits(s)
    ensures s[0] == '0' <==> n == 0
    ensures n == 0 ==> s == "0"
  {
    if n < 10 then [DigitChar(n)] else Dec(n / 10) + [DigitChar(n % 10)]
  }

  /** Signed decimal text, as `Display` for `i64` writes it. */
  function DecSigned(i: int): (s: string)
    ensures i < 0 <==> (|s| > 0 && s[0] == '-')
    ensures i >= 0 ==> s == Dec(i)
  {
    if i < 0 then "-" + Dec(-i) else Dec(i)
  }

  /** The value of the digits `s` read left to right on top of the accumulator `acc`. */
  function Fold(acc: nat, s: string): nat
    requires AllDigits(s)
    decreases |s|
  {
    if s == [] then acc else Fold(acc * 10 + DigitValue(s[0]), s[1..])
  }

  /**
   * The digit loop of Rust's `from_str_radix` for radix 10: each character
   * is checked to be a digit first, then the accumulator is multiplied and
   * added to, failing with PosOverflow as soon as it passes `max`.
   */
  function ParseDigits(s: string, acc: nat, max: nat): (r: Result<nat, IntErrorKind>)
    decreases |s|
    ensures r.Ok? ==> AllDigits(s) && r.value == Fold(acc, s)
    ensures acc <= max && r.Ok? ==> r.value <= max
    ensures r.Err? ==> r.error != Empty
  {
    if s == [] then Ok(acc)
    else if !IsDigit(s[0]) then Err(InvalidDigit)
    else if acc * 10 + DigitValue(s[0]) > max then Err(PosOverflow)
    else ParseDigits(s[1..], acc * 10 + DigitValue(s[0]), max)
  }

  /** `str::parse` for an unsigned type whose largest value is `max`. */
  function ParseUnsigned(s: string, max: nat): (r: Result<nat, IntErrorKind>)
    ensures r.Ok? ==> r.value <= max
    ensures r == Err(Empty) <==> s == []
  {
    if s == [] then Err(Empty)
    else if s == "+" then Err(InvalidDigit)
    else if s[0] == '+' then ParseDigits(s[1..], 0, max)
    else ParseDigits(s, 0, max)
  }

  function ParseU64(s: string): (r: Result<u64, IntErrorKind>)
    ensures r.Ok? <==> ParseUnsigned(s, U64Max).Ok?
    ensures r.Ok? ==> r.value == ParseUnsigned(s, U64Max).value
    ensures r.Err? ==> r.error == ParseUnsigned(s, U64Max).error
  {
    match ParseUnsigned(s, U64Max)
    case Ok(n) => Ok(n)
    case Err(k) => Err(k)
  }

  function ParseU8(s: string): (r: Result<u8, IntErrorKind>)
    ensures r.Ok? <==> ParseUnsigned(s, U8Max).Ok?
    ensures r.Ok? ==> r.value == ParseUnsigned(s, U8Max).value
    ensures r.Err? ==> r.error == ParseUnsigned(s, U8Max).error
  {
    match ParseUnsigned(s, U8Max)
    case Ok(n) => Ok(n)
    case Err(k) => Err(k)
  }

  /** A string of `k` zero digits. */
  function Zeros(k: nat): (s: string)
    ensures |s| == k && AllDigits(s)
  {
    if k == 0 then "" else "0" + Zeros(k - 1)
  }

  lemma {:induction false} FoldMonotone(acc: nat, s: string)
    requires AllDigits(s)
    ensures Fold(acc, s) >= acc
    decreases |s|
  {
    if s != [] {
      FoldMonotone(acc * 10 + DigitValue(s[0]), s[1..]);
    }
  }

  lemma {:induction false} FoldSnoc(acc: nat, s: string, c: char)
    requires AllDigits(s) && IsDigit(c)
    ensures AllDigits(s + [c])
    ensures Fold(acc, s + [c]) == Fold(acc, s) * 10 + DigitValue(c)
    decreases |s|
  {
    assert AllDigits(s + [c]);
    if s == [] {
      assert s + [c] == [c];
    } else {
      assert (s + [c])[1..] == s[1..] + [c];
      FoldSnoc(acc * 10 + DigitValue(s[0]), s[1..], c);
    }
  }

  /** Reading back the decimal text of `n` gives `n`. */
  lemma {:induction false} FoldDec(n: nat)
    ensures Fold(0, Dec(n)) == n
  {
    if n >= 10 {
      FoldDec(n / 10);
      FoldSnoc(0, Dec(n / 10), DigitChar(n % 10));
    } else {
      assert Dec(n)[1..] == [];
    }
  }

  /** Leading zeros do not change the value read. */
  lemma {:induction false} FoldZeros(k: nat, s: string)
    requires AllDigits(s)
    ensures AllDigits(Zeros(k) + s) && Fold(0, Zeros(k) + s) == Fold(0, s)
  {
    assert AllDigits(Zeros(k) + s);
    if k > 0 {
      assert (Zeros(k) + s)[0] == '0';
      assert (Zeros(k) + s)[1..] == Zeros(k - 1) + s;
      assert Fold(0, Zeros(k) + s) == Fold(0, Zeros(k - 1) + s);
      FoldZeros(k - 1, s);
    } else {
      assert Zeros(k) + s == s;
    }
  }

  /** For a digit string, the digit loop succeeds with the value when it fits, and overflows otherwise. */
  lemma {:induction false} ParseDigitsOfDigits(s: string, acc: nat, max: nat)
    requires AllDigits(s) && acc <= max
    ensures Fold(acc, s) <= max ==> ParseDigits(s, acc, max) == Ok(Fold(acc, s))
    ensures Fold(acc, s) > max ==> ParseDigits(s, acc, max) == Err(PosOverflow)
    decreases |s|
  {
    if s != [] {
      assert IsDigit(s[0]);
      var next := acc * 10 + DigitValue(s[0]);
      assert Fold(acc, s) == Fold(next, s[1..]);
      FoldMonotone(next, s[1..]);
      if next <= max {
        ParseDigitsOfDigits(s[1..], next, max);
      }
    }
  }

  /**
   * What unsigned parsing accepts: an optional `+`, then a non-empty digit
   * string whose value fits.
   */
  lemma ParseUnsignedAccepts(s: string, max: nat)
    ensures var d := if |s| > 0 && s[0] == '+' then s[1..] else s;
            ParseUnsigned(s, max).Ok? <==> d != [] && AllDigits(d) && Fold(0, d) <= max
    ensures var d := if |s| > 0 && s[0] == '+' then s[1..] else s;
            ParseUnsigned(s, max).Ok? ==> ParseUnsigned(s, max).value == Fold(0, d)
  {
    var d := if |s| > 0 && s[0] == '+' then s[1..] else s;
    if d != [] && AllDigits(d) {
      ParseDigitsOfDigits(d, 0, max);
    }
  }

  /** Round trip: parsing the decimal text of any value that fits gives that value back. */
  lemma ParseDec(n: nat, max: nat)
    requires n <= max
    ensures ParseUnsigned(Dec(n), max) == Ok(n)
  {
    FoldDec(n);
    ParseDigitsOfDigits(Dec(n), 0, max);
  }

  lemma DecInjective(a: nat, b: nat)
    ensures Dec(a) == Dec(b) ==> a == b
  {
    FoldDec(a);
    FoldDec(b);
  }

  /**
   * A decimal followed by text that does not start with a digit can be read
   * back unambiguously: the number and the rest are both determined.
   */
  lemma DecPrefixUnique(a: nat, t1: string, b: nat, t2: string)
    requires t1 == [] || !IsDigit(t1[0])
    requires t2 == [] || !IsDigit(t2[0])
    requires Dec(a) + t1 == Dec(b) + t2
    ensures a == b && t1 == t2
  {
    var da, db := Dec(a), Dec(b);
    assert da == (da + t1)[..|da|];
    assert db == (db + t2)[..|db|];
    DecInjective(a, b);
  }

  /** The decimal texts of some ids. */
  function DecAll(ids: seq<u64>): (r: seq<string>)
    ensures |r| == |ids|
    ensures forall i :: 0 <= i < |ids| ==> r[i] == Dec(ids[i])
  {
    if ids == [] then [] else [Dec(ids[0])] + DecAll(ids[1..])
  }
}
