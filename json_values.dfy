/**
 * The JSON values the collector writes and reads back. An object only
 * occurs at the top of a document, as a `Dict` of these values.
 */
module JsonValues {
  import opened Text

  /**
   * A JSON value. A number with a fraction or exponent is kept as its
   * decimal text, which stands for the Python `float` it denotes.
   */
  datatype Json =
    | JNull
    | JBool(b: bool)
    | JInt(n: int)
    | JFloat(text: string)
    | JStr(s: string)
    | JArr(items: seq<Json>)

  /** The part of a JSON number before its exponent. */
  function Mantissa(t: string): (m: string)
    ensures |m| <= |t| && m == t[..|m|]
  {
    if t == [] || t[0] == 'e' || t[0] == 'E' then [] else [t[0]] + Mantissa(t[1..])
  }

  /** The digits of `m`, in order, without its sign and point. */
  function DigitsOf(m: string): (d: string)
    ensures AllDigits(d) && |d| <= |m|
  {
    if m == [] then []
    else
      var rest := DigitsOf(m[1..]);
      if IsDigit(m[0]) then [m[0]] + rest else rest
  }

  /** How many digits a mantissa has after its point. */
  function FractionLength(m: string): nat {
    var p := FindAny(m, {'.'});
    if p == |m| then 0 else |DigitsOf(m[p + 1..])|
  }

  /** The exponent written after `e` or `E`, or 0 when there is none. */
  function Exponent(t: string): int {
    var m := Mantissa(t);
    if |m| == |t| then 0
    else match PyInt(t[|m| + 1..])
      case Some(e) => e
      case None => 0
  }

  function Pow2(n: nat): (p: nat)
    ensures p >= 1
  {
    if n == 0 then 1 else 2 * Pow2(n - 1)
  }

  /** `d * 2^n`, doubling `d` `n` times. */
  function Doubled(d: nat, n: nat): nat {
    if n == 0 then d else 2 * Doubled(d, n - 1)
  }

  lemma {:induction false} DoubledIsProduct(d: nat, n: nat)
    ensures Doubled(d, n) == d * Pow2(n)
  {
    if n > 0 {
      DoubledIsProduct(d, n - 1);
    }
  }

  /**
   * Half the smallest subnormal double is `2^-1075`: a positive decimal at or
   * below it rounds to `0.0` (the tie goes to the even neighbour, zero), one
   * above it to a nonzero double.
   */
  const UNDERFLOW_BITS: nat := 1075

  /** The digits of a number text's mantissa, read as one integer. */
  function Significand(t: string): nat {
    DigitsValue(DigitsOf(Mantissa(t)))
  }

  /** The power of ten the significand is scaled by: the exponent less the digits after the point. */
  function Scale(t: string): int {
    Exponent(t) - FractionLength(Mantissa(t))
  }

  /**
   * `digits * 10^scale` rounds to `0.0`: it is zero, or it is at most
   * `2^-1075`, that is `digits * 2^1075 <= 10^-scale`.
   */
  predicate RoundsToZero(digits: nat, scale: int) {
    digits == 0 || (scale < 0 && Doubled(digits, UNDERFLOW_BITS) <= Pow10(-scale))
  }

  /**
   * A JSON number text denotes a float equal to zero. A text without digits
   * is one of the constants `NaN`, `Infinity` and `-Infinity`, none of which
   * equals 0.
   */
  predicate FloatIsZero(t: string) {
    |DigitsOf(Mantissa(t))| > 0 && RoundsToZero(Significand(t), Scale(t))
  }

  /** A mantissa whose digits are all `0` (`0.0`, `-0.0e5`) is zero. */
  lemma ZeroMantissa(t: string)
    requires forall k :: 0 <= k < |Mantissa(t)| ==> Mantissa(t)[k] in "-0."
    requires '0' in Mantissa(t)
    ensures FloatIsZero(t)
  {
    var m := Mantissa(t);
    var k :| 0 <= k < |m| && m[k] == '0';
    DigitKept(m, k);
    ZeroDigits(m);
  }

  /** A digit anywhere in `m` survives into `DigitsOf(m)`. */
  lemma {:induction false} DigitKept(m: string, k: nat)
    requires k < |m| && IsDigit(m[k])
    ensures |DigitsOf(m)| > 0
    decreases k
  {
    if k > 0 && !IsDigit(m[0]) {
      DigitKept(m[1..], k - 1);
    }
  }

  /** A text without digits has no mantissa digits. */
  lemma {:induction false} NoDigits(t: string)
    requires forall k :: 0 <= k < |t| ==> !IsDigit(t[k])
    ensures DigitsOf(Mantissa(t)) == []
  {
    var m := Mantissa(t);
    assert forall k :: 0 <= k < |m| ==> m[k] == t[k];
    NoDigitsKept(m);
  }

  lemma {:induction false} NoDigitsKept(m: string)
    requires forall k :: 0 <= k < |m| ==> !IsDigit(m[k])
    ensures DigitsOf(m) == []
  {
    if m != [] {
      NoDigitsKept(m[1..]);
    }
  }

  /** `NaN`, `Infinity` and `-Infinity`, the constants `json` reads without digits, are not zero. */
  lemma DigitlessNotZero(t: string)
    requires forall k :: 0 <= k < |t| ==> !IsDigit(t[k])
    ensures !FloatIsZero(t)
  {
    NoDigits(t);
  }

  lemma {:induction false} ZeroDigits(m: string)
    requires forall k :: 0 <= k < |m| ==> m[k] in "-0."
    ensures DigitsValue(DigitsOf(m)) == 0
  {
    if m != [] {
      ZeroDigits(m[1..]);
      var rest := DigitsOf(m[1..]);
      if IsDigit(m[0]) {
        assert m[0] == '0';
        var d := [m[0]] + rest;
        ZeroPrefix(rest);
        assert DigitsOf(m) == d;
      }
    }
  }

  /** A leading `0` does not change a digit string's value. */
  lemma {:induction false} ZeroPrefix(d: string)
    requires AllDigits(d)
    ensures AllDigits("0" + d) && DigitsValue("0" + d) == DigitsValue(d)
    decreases |d|
  {
    var z := "0" + d;
    if d != [] {
      assert z[..|z| - 1] == "0" + d[..|d| - 1];
      ZeroPrefix(d[..|d| - 1]);
    }
  }

  lemma {:induction false} Pow2Add(a: nat, b: nat)
    ensures Pow2(a + b) == Pow2(a) * Pow2(b)
    decreases b
  {
    if b > 0 {
      Pow2Add(a, b - 1);
    }
  }

  lemma {:induction false} Pow10Add(a: nat, b: nat)
    ensures Pow10(a + b) == Pow10(a) * Pow10(b)
    decreases b
  {
    if b > 0 {
      Pow10Add(a, b - 1);
    }
  }

  /** Three bits never outgrow one decimal digit: `2^(3k) <= 10^k`. */
  lemma {:induction false} BitsBelowDigits(k: nat)
    ensures Pow2(3 * k) <= Pow10(k)
  {
    if k > 0 {
      BitsBelowDigits(k - 1);
      Pow2Add(3 * (k - 1), 3);
      assert Pow2(3) == 8;
    }
  }

  /** Ten bits always outgrow three decimal digits: `10^(3k) <= 2^(10k)`. */
  lemma {:induction false} DigitsBelowBits(k: nat)
    ensures Pow10(3 * k) <= Pow2(10 * k)
  {
    if k > 0 {
      DigitsBelowBits(k - 1);
      Pow10Add(3 * (k - 1), 3);
      Pow2Add(10 * (k - 1), 10);
      assert Pow10(3) == 1000;
      assert Pow2(10) == 1024;
    }
  }

  lemma {:induction false} Pow2Grows(a: nat, b: nat)
    requires a <= b
    ensures Pow2(a) <= Pow2(b)
    decreases b
  {
    if a < b {
      Pow2Grows(a, b - 1);
    }
  }

  lemma {:induction false} Pow10Grows(a: nat, b: nat)
    requires a <= b
    ensures Pow10(a) <= Pow10(b)
    decreases b
  {
    if a < b {
      Pow10Grows(a, b - 1);
    }
  }

  /** The parts of `1e-<e>`: the significand 1 scaled by `10^-e`. */
  lemma OneTimesPower(e: string)
    requires |e| > 0 && AllDigits(e)
    ensures Significand("1e-" + e) == 1 && Scale("1e-" + e) == -(DigitsValue(e) as int)
  {
    PowerMantissa(e);
    PowerExponent(e);
    OneDigit();
  }

  lemma PowerExponent(e: string)
    requires |e| > 0 && AllDigits(e)
    ensures Exponent("1e-" + e) == -(DigitsValue(e) as int)
  {
    PyIntNegativeDigits(e);
    PowerMantissa(e);
    PowerTail(e);
    ExponentAfter("1e-" + e, "-" + e, -(DigitsValue(e) as int));
  }

  lemma PowerTail(e: string)
    ensures |"1e-" + e| > 1 && ("1e-" + e)[2..] == "-" + e
  {
  }

  /** The exponent is the integer after a one-character mantissa and its `e`. */
  lemma ExponentAfter(t: string, n: string, x: int)
    requires |Mantissa(t)| == 1 && |t| > 1 && t[2..] == n
    requires PyInt(n).Some? && PyInt(n).value == x
    ensures Exponent(t) == x
  {
  }

  lemma PowerMantissa(e: string)
    ensures Mantissa("1e-" + e) == "1"
  {
    var t := "1e-" + e;
    assert t[1..][0] == 'e';
    assert Mantissa(t[1..]) == [];
  }

  lemma OneDigit()
    ensures DigitsValue(DigitsOf("1")) == 1 && FractionLength("1") == 0
  {
    assert "1"[1..] == [];
    assert DigitsOf("1") == "1";
    assert FindAny("1", {'.'}) == 1;
  }

  /** `2^1075 <= 10^359`: every power of ten from `1e-359` down underflows. */
  lemma UnderflowAtMost()
    ensures Pow2(UNDERFLOW_BITS) <= Pow10(359)
  {
    BitsBelowDigits(359);
    Pow2Grows(UNDERFLOW_BITS, 3 * 359);
  }

  /** `10^300 < 2^1075`: every power of ten from `1e-300` up survives. */
  lemma UnderflowAbove()
    ensures Pow10(300) < Pow2(UNDERFLOW_BITS)
  {
    DigitsBelowBitsStrictly(100);
    Pow2Grows(1001, UNDERFLOW_BITS);
  }

  lemma DigitsBelowBitsStrictly(k: nat)
    ensures Pow10(3 * k) < Pow2(10 * k + 1)
  {
    DigitsBelowBits(k);
  }

  /** `1e-400` and every smaller power of ten underflow: `float` reads them as `0.0`. */
  lemma TinyPowerIsZero(e: string)
    requires |e| > 0 && AllDigits(e) && DigitsValue(e) >= 359
    ensures FloatIsZero("1e-" + e)
  {
    var v := DigitsValue(e);
    OneTimesPower(e);
    UnderflowAtMost();
    Pow10Grows(359, v);
    RoundedToZero(Significand("1e-" + e), v);
  }

  /** The significand 1 rounds to zero at any scale `10^-v` at or below `2^-1075`. */
  lemma RoundedToZero(d: nat, v: nat)
    requires d == 1 && v > 0 && Pow2(UNDERFLOW_BITS) <= Pow10(v)
    ensures RoundsToZero(d, -(v as int))
  {
    DoubledOnce(d, UNDERFLOW_BITS);
  }

  lemma DoubledOnce(d: nat, n: nat)
    requires d == 1
    ensures Doubled(d, n) == Pow2(n)
  {
    DoubledIsProduct(d, n);
  }

  /** `1e-300` and every larger power of ten are nonzero doubles. */
  lemma SmallPowerIsNotZero(e: string)
    requires |e| > 0 && AllDigits(e) && DigitsValue(e) <= 300
    ensures !FloatIsZero("1e-" + e)
  {
    var v := DigitsValue(e);
    OneTimesPower(e);
    UnderflowAbove();
    Pow10Grows(v, 300);
    NotRoundedToZero(Significand("1e-" + e), v);
  }

  /** A nonzero significand survives any scale `10^-v` above `2^-1075`. */
  lemma NotRoundedToZero(d: nat, v: nat)
    requires d >= 1 && Pow10(v) < Pow2(UNDERFLOW_BITS)
    ensures !RoundsToZero(d, -(v as int))
  {
    DoubledAtLeast(d, UNDERFLOW_BITS);
  }

  lemma DoubledAtLeast(d: nat, n: nat)
    requires d >= 1
    ensures Doubled(d, n) >= Pow2(n)
  {
    DoubledIsProduct(d, n);
    assert d * Pow2(n) >= 1 * Pow2(n);
  }

  /** Python's `x == 0` for a decoded JSON value (`False == 0` holds). */
  predicate EqualsZero(j: Json) {
    match j
    case JInt(n) => n == 0
    case JBool(b) => !b
    case JFloat(t) => FloatIsZero(t)
    case _ => false
  }
}
