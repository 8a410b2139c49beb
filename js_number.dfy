/** The JavaScript number conversions the pages rely on: `String(n)` for a whole
    number, `parseInt`, `parseFloat`, `Number.prototype.toFixed(1)` and `Math.round`.
    Numbers are exact here: an integer is an `int`, a decimal value a `real`. */
module JsNumber {
  import opened Types
  import opened JsText

  predicate IsDecimalDigit(c: char) {
    '0' <= c <= '9'
  }

  /** The value of `c` as a digit of base `radix` (letters count from 10, in
      either case), or `None` when `c` is not such a digit. */
  function DigitIn(c: char, radix: nat): (d: Option<nat>)
    ensures d.Some? ==> d.value < radix
    ensures IsDecimalDigit(c) && radix >= 10 ==> d == Some((c as int) - ('0' as int))
    ensures radix <= 10 && !IsDecimalDigit(c) ==> d.None?
  {
    var v :=
      if '0' <= c <= '9' then (c as int) - ('0' as int)
      else if 'a' <= c <= 'z' then (c as int) - ('a' as int) + 10
      else if 'A' <= c <= 'Z' then (c as int) - ('A' as int) + 10
      else 36;
    if v < radix then Some(v) else None
  }

  function DigitChar(d: nat): (c: char)
    requires d < 10
    ensures IsDecimalDigit(c) && (c as int) - ('0' as int) == d
  {
    (('0' as int) + d) as char
  }

  predicate AllDigits(s: string, radix: nat) {
    forall i :: 0 <= i < |s| ==> DigitIn(s[i], radix).Some?
  }

  /** `String(n)` for a whole number `n >= 0`: its decimal digits, without
      leading zeros. */
  function DecimalString(n: nat): (s: string)
    ensures |s| > 0 && AllDigits(s, 10)
    ensures IsDecimalDigit(s[0])
    ensures s[0] == '0' ==> s == "0"
    decreases n
  {
    if n < 10 then [DigitChar(n)] else DecimalString(n / 10) + [DigitChar(n % 10)]
  }

  /** The length of the longest prefix of `s` made of base-`radix` digits. */
  function DigitRun(s: string, radix: nat): (k: nat)
    ensures k <= |s| && AllDigits(s[..k], radix)
    ensures k < |s| ==> DigitIn(s[k], radix).None?
  {
    if |s| > 0 && DigitIn(s[0], radix).Some? then 1 + DigitRun(s[1..], radix) else 0
  }

  /** The number the digits `ds` denote in base `radix`, most significant first. */
  function DigitsValue(ds: string, radix: nat): nat
    requires AllDigits(ds, radix)
  {
    if ds == [] then 0
    else DigitsValue(ds[..|ds| - 1], radix) * radix + DigitIn(ds[|ds| - 1], radix).value
  }

  /** The value of the fractional digits `ds` (those after the point). */
  function FractionValue(ds: string): real
    requires AllDigits(ds, 10)
  {
    if ds == [] then 0.0 else (DigitIn(ds[0], 10).value as real + FractionValue(ds[1..])) / 10.0
  }

  /** The number a run of base-`radix` digits at the start of `v` denotes, or
      `None` when `v` does not start with such a digit. */
  function LeadingNumber(v: string, radix: nat): Option<nat> {
    var k := DigitRun(v, radix);
    if k == 0 then None else Some(DigitsValue(v[..k], radix))
  }

  /** Splits an optional leading sign off `t`: whether it was `-`, and the rest. */
  function SplitSign(t: string): (bool, string) {
    if |t| > 0 && (t[0] == '-' || t[0] == '+') then (t[0] == '-', t[1..]) else (false, t)
  }

  /** The unsigned part of `parseInt`: `0x`/`0X` switches to base 16. */
  function UnsignedInt(u: string): Option<int> {
    var r := if |u| >= 2 && u[0] == '0' && (u[1] == 'x' || u[1] == 'X') then LeadingNumber(u[2..], 16)
             else LeadingNumber(u, 10);
    if r.Some? then Some(r.value as int) else None
  }

  /** `parseInt(s)` with no radix argument: leading whitespace is skipped, then an
      optional sign, then `0x`/`0X` switches to base 16; the longest run of digits
      that follows is the value. `None` stands for `NaN` (no digit at all). */
  function ParseInt(s: string): (r: Option<int>)
    ensures AllWhitespace(s) ==> r.None?
  {
    var (negative, u) := SplitSign(TrimStart(s));
    match UnsignedInt(u)
    case None => None
    case Some(m) => Some(if negative then -m else m)
  }

  /** The unsigned part of `parseFloat`: integer digits, then optionally a point
      and fraction digits; at least one digit in all. */
  function UnsignedFloat(u: string): Option<real> {
    var k := DigitRun(u, 10);
    var rest := u[k..];
    var frac := if |rest| > 0 && rest[0] == '.' then rest[1..][..DigitRun(rest[1..], 10)] else [];
    if k == 0 && frac == [] then None
    else Some(DigitsValue(u[..k], 10) as real + FractionValue(frac))
  }

  /** `parseFloat(s)` for decimal text: leading whitespace, an optional sign and
      the longest decimal numeral that follows. `None` stands for `NaN`.
      Exponents and `Infinity` are not part of this model. */
  function ParseFloat(s: string): (r: Option<real>)
    ensures AllWhitespace(s) ==> r.None?
  {
    var (negative, u) := SplitSign(TrimStart(s));
    match UnsignedFloat(u)
    case None => None
    case Some(x) => Some(if negative then -x else x)
  }

  /** `Math.round(x)`: the nearest integer, halves rounded towards +infinity. */
  function MathRound(x: real): (n: int)
    ensures n as real - 0.5 <= x < n as real + 0.5
  {
    (x + 0.5).Floor
  }

  /** The number of tenths `toFixed(1)` shows for `num / den >= 0`, taken as an
      exact quotient rather than a double: the `n` for which `n / 10 - num / den`
      is closest to zero, the larger one on a tie. */
  function NearestTenths(num: nat, den: nat): nat
    requires den > 0
  {
    (20 * num + den) / (2 * den)
  }

  /** `NearestTenths(num, den) / 10` lies within half a tenth of `num / den`,
      with the upper end excluded: the nearest tenth, the larger one on a tie. */
  lemma NearestTenthsBounds(num: nat, den: nat)
    requires den > 0
    ensures var n := NearestTenths(num, den);
      2 * den * n <= 20 * num + den < 2 * den * n + 2 * den
  {
  }

  /** The digits of `t` tenths with one decimal: `0.4`, `4.4`, `12.0`. */
  function FixedTenths(t: nat): string {
    DecimalString(t / 10) + "." + [DigitChar(t % 10)]
  }

  /** Below ten whole units the text is one digit, the point and one digit. */
  lemma FixedTenthsBelowHundred(t: nat)
    requires t < 100
    ensures FixedTenths(t) == [DigitChar(t / 10), '.', DigitChar(t % 10)]
  {
  }

  /** `t` tenths with one decimal, after a minus sign when `negative`. */
  function SignedFixedTenths(negative: bool, t: nat): string {
    if negative then "-" + FixedTenths(t) else FixedTenths(t)
  }

  /** `(num / den).toFixed(1)`: a negative value is formatted as a minus sign
      followed by its absolute value. */
  function ToFixed1(num: int, den: nat): (s: string)
    requires den > 0
    ensures |s| >= 3 && s[|s| - 2] == '.' && IsDecimalDigit(s[|s| - 1])
    ensures s[0] == '-' <==> num < 0
    ensures var start := if num < 0 then 1 else 0;
      start < |s| - 2 && forall i :: start <= i < |s| - 2 ==> IsDecimalDigit(s[i])
    ensures var start := if num < 0 then 1 else 0;
      s[start] == '0' ==> s[start + 1] == '.'
  {
    var whole := DecimalString(NearestTenths(if num < 0 then -num else num, den) / 10);
    assert forall i :: 0 <= i < |whole| ==> IsDecimalDigit(whole[i]) by {
      forall i | 0 <= i < |whole| ensures IsDecimalDigit(whole[i]) {
        assert DigitIn(whole[i], 10).Some?;
      }
    }
    SignedFixedTenths(num < 0, NearestTenths(if num < 0 then -num else num, den))
  }

  /** The text `toFixed(1)` prints parses back to the tenths it rounded to. */
  lemma ToFixed1Parses(num: int, den: nat)
    requires den > 0
    ensures ParseFloat(ToFixed1(num, den)) == Some(TenthsValue(num < 0, NearestTenths(if num < 0 then -num else num, den)))
  {
    var t := NearestTenths(if num < 0 then -num else num, den);
    ParseSignedFixedTenths(num < 0, t);
  }

  /** The value of `t` tenths, negated when `negative`. */
  function TenthsValue(negative: bool, t: nat): real {
    if negative then -(t as real / 10.0) else t as real / 10.0
  }

  /** The rounding in `NearestTenths` is the only one its contract allows. */
  lemma NearestTenthsUnique(num: nat, den: nat, n: int)
    requires den > 0
    requires 2 * den * n <= 20 * num + den < 2 * den * n + 2 * den
    ensures n == NearestTenths(num, den)
  {
    var m := NearestTenths(num, den);
    NearestTenthsBounds(num, den);
    if n < m {
      MulMonotone(2 * den, n + 1, m);
    } else if m < n {
      MulMonotone(2 * den, m + 1, n);
    }
  }

  lemma MulMonotone(c: nat, a: int, b: int)
    requires a <= b
    ensures c * a <= c * b
  {
  }

  lemma {:induction false} DecimalStringValue(n: nat)
    ensures DigitsValue(DecimalString(n), 10) == n
    decreases n
  {
    var s := DecimalString(n);
    if n >= 10 {
      DecimalStringValue(n / 10);
      assert s[..|s| - 1] == DecimalString(n / 10);
    }
  }

  lemma {:induction false} DigitRunOfDigits(ds: string, rest: string, radix: nat)
    requires AllDigits(ds, radix)
    requires rest == [] || DigitIn(rest[0], radix).None?
    ensures DigitRun(ds + rest, radix) == |ds|
    ensures (ds + rest)[..|ds|] == ds && (ds + rest)[|ds|..] == rest
  {
    if ds != [] {
      DigitRunOfDigits(ds[1..], rest, radix);
      assert (ds + rest)[1..] == ds[1..] + rest;
    } else {
      assert ds + rest == rest;
    }
  }

  /** A string that starts with a digit has no leading whitespace to skip. */
  lemma TrimStartOfDigit(s: string)
    requires |s| > 0 && IsDecimalDigit(s[0])
    ensures TrimStart(s) == s
  {
  }

  /** The leading number of a digit string followed by a non-digit. */
  lemma LeadingNumberOf(ds: string, rest: string, radix: nat)
    requires AllDigits(ds, radix) && ds != []
    requires rest == [] || DigitIn(rest[0], radix).None?
    ensures LeadingNumber(ds + rest, radix) == Some(DigitsValue(ds, radix))
  {
    DigitRunOfDigits(ds, rest, radix);
  }

  /** `parseInt` reads back the decimal text of a whole number, followed by any
      text that does not start with a digit (nor with `x` or `X` after `0`). */
  lemma ParseIntDecimal(n: nat, rest: string)
    requires rest == [] || (!IsDecimalDigit(rest[0]) && (n == 0 ==> rest[0] != 'x' && rest[0] != 'X'))
    ensures ParseInt(DecimalString(n) + rest) == Some(n)
  {
    var s := DecimalString(n) + rest;
    assert s[0] == DecimalString(n)[0];
    ParseIntOfDigit(s);
    UnsignedIntDecimal(n, rest);
  }

  /** Text that starts with a digit has no whitespace or sign for `parseInt` to skip. */
  lemma ParseIntOfDigit(s: string)
    requires |s| > 0 && IsDecimalDigit(s[0])
    ensures ParseInt(s) == UnsignedInt(s)
  {
    TrimStartOfDigit(s);
    assert SplitSign(s) == (false, s);
  }

  lemma UnsignedIntDecimal(n: nat, rest: string)
    requires rest == [] || (!IsDecimalDigit(rest[0]) && (n == 0 ==> rest[0] != 'x' && rest[0] != 'X'))
    ensures UnsignedInt(DecimalString(n) + rest) == Some(n)
  {
    var ds := DecimalString(n);
    var s := ds + rest;
    LeadingNumberOf(ds, rest, 10);
    DecimalStringValue(n);
    if |s| >= 2 && s[0] == '0' {
      assert ds == "0";
      assert s[1] == rest[0];
    }
  }

  /** `parseFloat` reads back the decimal text of a whole number. */
  lemma ParseFloatDecimal(n: nat)
    ensures ParseFloat(DecimalString(n)) == Some(n as real)
  {
    var ds := DecimalString(n);
    TrimStartOfDigit(ds);
    DigitRunOfDigits(ds, [], 10);
    assert ds + [] == ds;
    DecimalStringValue(n);
    assert UnsignedFloat(ds) == Some(n as real);
  }

  /** The unsigned part of `parseFloat` reads back what `FixedTenths` wrote. */
  lemma UnsignedFixedTenths(t: nat)
    ensures UnsignedFloat(FixedTenths(t)) == Some(t as real / 10.0)
  {
    var ds := DecimalString(t / 10);
    var d := DigitChar(t % 10);
    var s := FixedTenths(t);
    assert s == ds + ("." + [d]);
    DigitRunOfDigits(ds, "." + [d], 10);
    DecimalStringValue(t / 10);
    var rest := s[|ds|..];
    assert rest[1..] == [d];
    assert DigitRun([d], 10) == 1;
    assert [d][..1] == [d];
    assert FractionValue([d]) == (t % 10) as real / 10.0;
  }

  /** `parseFloat` reads back what `FixedTenths` wrote, with or without a minus sign. */
  lemma ParseFixedTenths(t: nat)
    ensures ParseFloat(FixedTenths(t)) == Some(t as real / 10.0)
    ensures ParseFloat("-" + FixedTenths(t)) == Some(-(t as real / 10.0))
  {
    var s := FixedTenths(t);
    UnsignedFixedTenths(t);
    TrimStartOfDigit(s);
    assert ("-" + s)[1..] == s;
    assert TrimStart("-" + s) == "-" + s;
  }

  /** The text `toFixed(1)` produces parses back to the tenths it rounded to. */
  lemma ParseSignedFixedTenths(negative: bool, t: nat)
    ensures ParseFloat(SignedFixedTenths(negative, t)) == Some(TenthsValue(negative, t))
  {
    ParseFixedTenths(t);
  }

  /** `Math.round(t / 10)` for a whole number of tenths `t`. */
  lemma RoundTenths(t: int)
    ensures MathRound(t as real / 10.0) == (t + 5) / 10
  {
    var k := (t + 5) / 10;
    var r := (t + 5) % 10;
    assert t + 5 == 10 * k + r && 0 <= r < 10;
    assert t as real / 10.0 + 0.5 == k as real + r as real / 10.0;
  }
}
