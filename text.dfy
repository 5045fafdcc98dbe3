/**
 * The string primitives of Python's `str` that the collector relies on:
 * `strip()`, single-character `replace`, slicing with negative indices and
 * the base-10 `int()` conversion. Strings are sequences of Unicode code
 * points, as in Python 3.
 */
module Text {
  import opened Wrappers

  /** Python's `str.isspace()`: the characters `strip()` and `int()` remove. */
  predicate IsSpace(c: char) {
    c == ' ' || ('\t' <= c <= '\r') || ('\U{1C}' <= c <= '\U{1F}')
    || c == '\U{85}' || c == '\U{A0}' || c == '\U{1680}'
    || ('\U{2000}' <= c <= '\U{200A}') || c == '\U{2028}' || c == '\U{2029}'
    || c == '\U{202F}' || c == '\U{205F}' || c == '\U{3000}'
  }

  /** An ASCII decimal digit, the class `[0-9]`. */
  predicate IsDigit(c: char) {
    '0' <= c <= '9'
  }

  predicate AllDigits(s: string) {
    forall k :: 0 <= k < |s| ==> IsDigit(s[k])
  }

  function DigitValue(c: char): (v: nat)
    requires IsDigit(c)
    ensures v < 10
  {
    c as int - '0' as int
  }

  function DigitChar(v: nat): (c: char)
    requires v < 10
    ensures IsDigit(c) && DigitValue(c) == v
  {
    ('0' as int + v) as char
  }

  /** The number a string of decimal digits denotes. */
  function DigitsValue(s: string): nat
    requires AllDigits(s)
  {
    if s == [] then 0 else DigitsValue(s[..|s| - 1]) * 10 + DigitValue(s[|s| - 1])
  }

  function Pow10(n: nat): (p: nat)
    ensures p >= 1
  {
    if n == 0 then 1 else 10 * Pow10(n - 1)
  }

  /** `"%0wd" % v` for `v < 10^w`: exactly `w` digits, zero-padded on the left. */
  function Padded(v: nat, w: nat): (s: string)
    ensures |s| == w && AllDigits(s)
  {
    if w == 0 then "" else Padded(v / 10, w - 1) + [DigitChar(v % 10)]
  }

  lemma {:induction false} PaddedValue(v: nat, w: nat)
    requires v < Pow10(w)
    ensures DigitsValue(Padded(v, w)) == v
  {
    if w > 0 {
      PaddedLast(v, w);
      PaddedValue(v / 10, w - 1);
    }
  }

  /** The last digit of a padded number is its last decimal digit; the rest pads `v / 10`. */
  lemma PaddedLast(v: nat, w: nat)
    requires w > 0 && v < Pow10(w)
    ensures v / 10 < Pow10(w - 1)
    ensures DigitsValue(Padded(v, w)) == DigitsValue(Padded(v / 10, w - 1)) * 10 + v % 10
  {
    var s := Padded(v, w);
    assert s[..|s| - 1] == Padded(v / 10, w - 1);
  }

  /** `lstrip()`: drops the leading whitespace and nothing else. */
  function StripLeft(s: string): (r: string)
    ensures |r| <= |s| && r == s[|s| - |r|..]
    ensures forall k :: 0 <= k < |s| - |r| ==> IsSpace(s[k])
    ensures r == [] || !IsSpace(r[0])
  {
    if |s| > 0 && IsSpace(s[0]) then StripLeft(s[1..]) else s
  }

  /** `rstrip()`: drops the trailing whitespace and nothing else. */
  function StripRight(s: string): (r: string)
    ensures |r| <= |s| && r == s[..|r|]
    ensures forall k :: |r| <= k < |s| ==> IsSpace(s[k])
    ensures r == [] || !IsSpace(r[|r| - 1])
  {
    if |s| > 0 && IsSpace(s[|s| - 1]) then StripRight(s[..|s| - 1]) else s
  }

  /** `strip()`: the infix of `s` between its leading and trailing whitespace. */
  function Strip(s: string): (r: string)
    ensures |r| <= |s|
    ensures r == [] || (!IsSpace(r[0]) && !IsSpace(r[|r| - 1]))
  {
    StripRight(StripLeft(s))
  }

  /** The number of whitespace characters `strip()` drops at the front. */
  function LeadingSpaces(s: string): (n: nat)
    ensures n <= |s|
  {
    |s| - |StripLeft(s)|
  }

  /**
   * `strip()` is the infix of `s` that starts after the leading whitespace:
   * everything dropped in front of it and behind it is whitespace.
   */
  lemma StripInfix(s: string)
    ensures var a := LeadingSpaces(s);
            var r := Strip(s);
            && a + |r| <= |s| && r == s[a..a + |r|]
            && (forall k :: 0 <= k < a ==> IsSpace(s[k]))
            && (forall k :: a + |r| <= k < |s| ==> IsSpace(s[k]))
  {
    StripSlice(s);
    StripTrailing(s);
  }

  lemma StripSlice(s: string)
    ensures LeadingSpaces(s) + |Strip(s)| <= |s|
    ensures Strip(s) == s[LeadingSpaces(s)..LeadingSpaces(s) + |Strip(s)|]
  {
    var l := StripLeft(s);
    PrefixOfSuffix(s, |s| - |l|, StripRight(l));
  }

  /** A prefix of the suffix `s[a..]` is the slice of `s` that starts at `a`. */
  lemma PrefixOfSuffix(s: string, a: nat, r: string)
    requires a <= |s| && |r| <= |s| - a && r == s[a..][..|r|]
    ensures r == s[a..a + |r|]
  {
  }

  lemma StripTrailing(s: string)
    ensures forall k :: LeadingSpaces(s) + |Strip(s)| <= k < |s| ==> IsSpace(s[k])
  {
    var l := StripLeft(s);
    var r := StripRight(l);
    var a := |s| - |l|;
    forall k | a + |r| <= k < |s|
      ensures IsSpace(s[k])
    {
      assert s[k] == l[k - a];
    }
  }

  /** A string that neither starts nor ends with whitespace is its own `strip()`. */
  lemma StripUnchanged(s: string)
    requires s == [] || (!IsSpace(s[0]) && !IsSpace(s[|s| - 1]))
    ensures Strip(s) == s
  {
  }

  /** `strip()` is idempotent. */
  lemma StripIdempotent(s: string)
    ensures Strip(Strip(s)) == Strip(s)
  {
    StripUnchanged(Strip(s));
  }

  /** Trailing whitespace does not change what `strip()` returns. */
  /** Leading whitespace does not change what `strip()` returns. */
  lemma StripLeadingSpace(c: char, s: string)
    requires IsSpace(c)
    ensures Strip([c] + s) == Strip(s)
  {
    assert ([c] + s)[1..] == s;
  }

  /** A character between two blanks is what `strip()` keeps. */
  lemma StripBetweenBlanks(c: char)
    requires !IsSpace(c)
    ensures Strip([' ', c, ' ']) == [c]
  {
    var s := [' ', c, ' '];
    assert s[1..] == [c, ' '];
    assert StripLeft(s) == [c, ' '];
    assert [c, ' '][..1] == [c];
  }

  lemma {:induction false} StripTrailingSpace(s: string, c: char)
    requires IsSpace(c)
    ensures Strip(s + [c]) == Strip(s)
  {
    if |s| > 0 && IsSpace(s[0]) {
      assert (s + [c])[1..] == s[1..] + [c];
      StripTrailingSpace(s[1..], c);
    } else if s == [] {
      assert StripLeft([c]) == StripLeft([c][1..]);
    } else {
      assert StripLeft(s + [c]) == s + [c];
      assert (s + [c])[..|s + [c]| - 1] == s;
    }
  }

  /** `s.replace(a, b)` for single characters `a` and `b`. */
  function Replace(s: string, a: char, b: char): (r: string)
    ensures |r| == |s|
  {
    seq(|s|, k requires 0 <= k < |s| => if s[k] == a then b else s[k])
  }

  /** After `s.replace(a, b)` no `a` is left, and each character is the old one or a `b` where an `a` was. */
  lemma ReplaceChar(s: string, a: char, b: char)
    requires a != b
    ensures a !in Replace(s, a, b)
    ensures forall k :: 0 <= k < |s| ==> Replace(s, a, b)[k] == s[k] || (s[k] == a && Replace(s, a, b)[k] == b)
  {
    var r := Replace(s, a, b);
    assert forall k :: 0 <= k < |r| ==> r[k] != a;
  }

  /** Replacing a character that does not occur changes nothing. */
  lemma ReplaceAbsent(s: string, a: char, b: char)
    requires a !in s
    ensures Replace(s, a, b) == s
  {
    var r := Replace(s, a, b);
    forall k | 0 <= k < |s| ensures r[k] == s[k] {
      assert s[k] != a;
    }
  }

  /** `s.replace(a, "")`: every occurrence of `a` removed, the rest kept in order. */
  function Remove(s: string, a: char): (r: string)
    ensures a !in r && |r| <= |s|
    ensures a !in s ==> r == s
  {
    if s == [] then [] else if s[0] == a then Remove(s[1..], a) else [s[0]] + Remove(s[1..], a)
  }

  /** `replace(a, "")` works piece by piece. */
  lemma {:induction false} RemoveAppend(s: string, t: string, a: char)
    ensures Remove(s + t, a) == Remove(s, a) + Remove(t, a)
  {
    if s == [] {
      assert s + t == t;
    } else {
      assert (s + t)[0] == s[0] && (s + t)[1..] == s[1..] + t;
      RemoveAppend(s[1..], t, a);
    }
  }

  /** A single character is dropped when it is `a` and kept otherwise. */
  lemma RemoveOne(c: char, a: char)
    ensures Remove([c], a) == if c == a then [] else [c]
  {
    assert [c][1..] == [];
  }

  /** Python's slice `s[lo:hi]`: negative bounds count from the end, all bounds are clamped. */
  function PySlice(s: string, lo: int, hi: int): (r: string)
    ensures |r| <= |s|
  {
    var a := Clamp(s, lo);
    var b := Clamp(s, hi);
    if a < b then s[a..b] else []
  }

  function Clamp(s: string, x: int): (i: nat)
    ensures i <= |s|
  {
    if x < 0 then (if |s| + x < 0 then 0 else |s| + x) else if x > |s| then |s| else x
  }

  /**
   * A run of digits with single underscores between them, the body that
   * Python's `int()` accepts after the sign (PEP 515).
   */
  predicate IsDigitGroup(s: string) {
    && |s| > 0 && IsDigit(s[0]) && IsDigit(s[|s| - 1])
    && (forall k :: 0 <= k < |s| ==> IsDigit(s[k]) || s[k] == '_')
    && (forall i, j :: 0 <= i < |s| && 0 <= j < |s| && j == i + 1 && s[i] == '_' ==> IsDigit(s[j]))
  }

  lemma {:induction false} RemoveUnderscoreDigits(s: string)
    requires forall k :: 0 <= k < |s| ==> IsDigit(s[k]) || s[k] == '_'
    ensures AllDigits(Remove(s, '_'))
  {
    if s != [] {
      RemoveUnderscoreDigits(s[1..]);
    }
  }

  /** The value of a digit group: its digits read with the underscores dropped. */
  function GroupValue(body: string): nat
    requires IsDigitGroup(body)
  {
    RemoveUnderscoreDigits(body);
    DigitsValue(Remove(body, '_'))
  }

  /** Python's `int(s)` in base 10: optional whitespace and sign around a digit group. */
  function PyInt(s: string): Option<int> {
    var t := Strip(s);
    var signed := |t| > 0 && (t[0] == '+' || t[0] == '-');
    var body := if signed then t[1..] else t;
    if !IsDigitGroup(body) then None
    else
      var n: int := GroupValue(body);
      Some(if signed && t[0] == '-' then -n else n)
  }

  // ---------------------------------------------------------------------
  // `float()` of a string

  /** The position of the first character of `s` in `cs`, or `|s|` when there is none. */
  function FindAny(s: string, cs: set<char>): (n: nat)
    ensures n <= |s|
    ensures forall k :: 0 <= k < n ==> s[k] !in cs
    ensures n < |s| ==> s[n] in cs
  {
    if s == [] || s[0] in cs then 0
    else
      var n := FindAny(s[1..], cs);
      assert forall k :: 1 <= k < n + 1 ==> s[k] == s[1..][k - 1];
      n + 1
  }

  /** The first character in `cs` is the one at `n` when none comes before it. */
  lemma FindAnyAt(s: string, cs: set<char>, n: nat)
    requires n < |s| && s[n] in cs
    requires forall k :: 0 <= k < n ==> s[k] !in cs
    ensures FindAny(s, cs) == n
  {
  }

  /** No character in `cs`: the search runs to the end. */
  lemma FindAnyNone(s: string, cs: set<char>)
    requires forall k :: 0 <= k < |s| ==> s[k] !in cs
    ensures FindAny(s, cs) == |s|
  {
  }

  /** ASCII lower case, the comparison `float()` uses for `inf` and `nan`. */
  function LowerAscii(s: string): (r: string)
    ensures |r| == |s|
  {
    seq(|s|, k requires 0 <= k < |s| => if 'A' <= s[k] <= 'Z' then (s[k] as int + 32) as char else s[k])
  }

  /** The text after an optional leading `+` or `-`. */
  function Unsigned(t: string): (b: string)
    ensures |b| <= |t|
  {
    if |t| > 0 && (t[0] == '+' || t[0] == '-') then t[1..] else t
  }

  /**
   * The part of a decimal literal before its exponent: digit groups around
   * at most one `.`, with at least one of them present (`1`, `1.`, `.5`, `1_0.2_5`).
   */
  predicate IsPointFloat(m: string) {
    var d := FindAny(m, {'.'});
    if d == |m| then IsDigitGroup(m)
    else
      var whole := m[..d];
      var fraction := m[d + 1..];
      && (whole != [] || fraction != [])
      && (whole == [] || IsDigitGroup(whole))
      && (fraction == [] || IsDigitGroup(fraction))
  }

  /** A decimal literal: the point part, then optionally `e` or `E` and a signed digit group. */
  predicate IsDecimalFloat(b: string) {
    var e := FindAny(b, {'e', 'E'});
    IsPointFloat(b[..e]) && (e == |b| || IsDigitGroup(Unsigned(b[e + 1..])))
  }

  /**
   * `float(s)` returns instead of raising ValueError: whitespace around an
   * optional sign and either a decimal literal or `inf`, `infinity`, `nan`
   * in any case.
   */
  predicate IsFloatText(s: string) {
    var b := Unsigned(Strip(s));
    LowerAscii(b) in {"inf", "infinity", "nan"} || IsDecimalFloat(b)
  }

  /** `float()` accepts a plain digit string. */
  lemma DigitsAreFloat(d: string)
    requires |d| > 0 && AllDigits(d)
    ensures IsFloatText(d)
  {
    assert IsDigit(d[0]) && IsDigit(d[|d| - 1]);
    StripUnchanged(d);
    DigitsAreGroup(d);
    FindAnyNone(d, {'e', 'E'});
    assert d[..|d|] == d;
    FindAnyNone(d, {'.'});
  }

  /** `float()` accepts digits, a point and digits: the US layout of a price. */
  lemma PointNumberIsFloat(x: string, y: string)
    requires |x| > 0 && AllDigits(x) && |y| > 0 && AllDigits(y)
    ensures IsFloatText(x + "." + y)
  {
    var s := x + "." + y;
    assert s[0] == x[0] && s[|s| - 1] == y[|y| - 1];
    assert IsDigit(s[0]) && IsDigit(s[|s| - 1]);
    StripUnchanged(s);
    assert Unsigned(s) == s;
    var e := FindAny(s, {'e', 'E'});
    assert forall k :: 0 <= k < |x| ==> s[k] == x[k];
    assert forall k :: |x| < k < |s| ==> s[k] == y[k - |x| - 1];
    assert s[..e] == s;
    assert forall k :: 0 <= k < |x| ==> s[k] != '.';
    FindAnyAt(s, {'.'}, |x|);
    var d := FindAny(s, {'.'});
    assert s[..d] == x && s[d + 1..] == y;
    DigitsAreGroup(x);
    DigitsAreGroup(y);
  }

  /** A lone sign between blanks is not a number: `float(" - ")` raises. */
  lemma SignOnlyNotFloat(s: string)
    requires Strip(s) == "-"
    ensures !IsFloatText(s)
  {
    assert Unsigned("-") == [];
    assert LowerAscii([]) == [];
  }

  /** A word without digits, such as `abc`, is not a number. */
  lemma WordNotFloat()
    ensures !IsFloatText("abc")
  {
    var w := "abc";
    StripUnchanged(w);
    assert Unsigned(w) == w;
    assert LowerAscii(w) == w;
    FindAnyNone(w, {'e', 'E'});
    FindAnyNone(w, {'.'});
    assert w[..3] == w && !IsDigit(w[0]);
  }

  /** `str(n)` for a natural number: its decimal digits without leading zeros. */
  function Decimal(n: nat): (s: string)
    ensures |s| > 0 && AllDigits(s)
  {
    if n < 10 then [DigitChar(n)] else Decimal(n / 10) + [DigitChar(n % 10)]
  }

  lemma {:induction false} DecimalValue(n: nat)
    ensures DigitsValue(Decimal(n)) == n
  {
    if n >= 10 {
      var s := Decimal(n);
      assert s[..|s| - 1] == Decimal(n / 10);
      DecimalValue(n / 10);
    }
  }

  /** `str(n)` for any integer. */
  function Show(n: int): string {
    if n < 0 then "-" + Decimal(-n) else Decimal(n)
  }

  /** A plain digit string is a digit group worth its digits. */
  lemma DigitsAreGroup(d: string)
    requires |d| > 0 && AllDigits(d)
    ensures IsDigitGroup(d) && GroupValue(d) == DigitsValue(d)
  {
    assert '_' !in d by {
      forall k | 0 <= k < |d| ensures d[k] != '_' { assert IsDigit(d[k]); }
    }
  }

  /** `int()` of a digit string. */
  lemma PyIntDigits(d: string)
    requires |d| > 0 && AllDigits(d)
    ensures PyInt(d) == Some(DigitsValue(d) as int)
  {
    DigitsAreGroup(d);
    assert IsDigit(d[0]) && IsDigit(d[|d| - 1]);
    StripUnchanged(d);
    assert !(d[0] == '+' || d[0] == '-');
  }

  /** `int()` of a digit string after a minus sign. */
  lemma PyIntNegativeDigits(d: string)
    requires |d| > 0 && AllDigits(d)
    ensures PyInt("-" + d) == Some(-(DigitsValue(d) as int))
  {
    var m := "-" + d;
    NegativeStripped(d);
    DigitsAreGroup(d);
    assert m[1..] == d;
    PyIntSigned(m, -(DigitsValue(d) as int));
  }

  /** `int()` of a stripped text with a sign: the digit group after the sign, signed. */
  lemma PyIntSigned(m: string, v: int)
    requires Strip(m) == m && |m| > 0 && (m[0] == '+' || m[0] == '-')
    requires IsDigitGroup(m[1..])
    requires v == if m[0] == '-' then -(GroupValue(m[1..]) as int) else GroupValue(m[1..]) as int
    ensures PyInt(m) == Some(v)
  {
  }

  lemma NegativeStripped(d: string)
    requires |d| > 0 && AllDigits(d)
    ensures Strip("-" + d) == "-" + d
  {
    var m := "-" + d;
    assert IsDigit(m[|m| - 1]) by { assert m[|m| - 1] == d[|d| - 1]; }
    StripUnchanged(m);
  }

  /** `int(str(n)) == n`: `PyInt` reads back every integer `Show` writes. */
  lemma PyIntShow(n: int)
    ensures PyInt(Show(n)) == Some(n)
  {
    var m: nat := if n < 0 then -n else n;
    DecimalValue(m);
    if n < 0 { PyIntNegativeDigits(Decimal(m)); } else { PyIntDigits(Decimal(m)); }
  }
}
