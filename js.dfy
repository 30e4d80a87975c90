/** The JavaScript number and string primitives the application leans on:
    IEEE division (which yields NaN or an infinity when dividing by zero),
    `Math.min`, the `>` comparison, `parseFloat`, `Number.prototype.toString`
    and the `x || 0` idiom. Amounts are whole rupees, so finite numbers that
    come from amounts are integers and percentages are reals. */
module Js {

  datatype Option<+T> = None | Some(value: T)

  /** A JavaScript number: a finite value or one of the non-finite values
      that a division by zero produces. */
  datatype Num = Finite(value: real) | NaN | PosInf | NegInf

  /** IEEE division `a / b` of two finite numbers. */
  function Divide(a: real, b: real): Num
  {
    if b != 0.0 then Finite(a / b)
    else if a == 0.0 then NaN
    else if a > 0.0 then PosInf
    else NegInf
  }

  /** `x * k` for a positive constant `k`. */
  function Scale(x: Num, k: real): Num
    requires k > 0.0
  {
    match x
    case Finite(v) => Finite(v * k)
    case _ => x
  }

  /** `(part / whole) * 100`, with no guard against a zero `whole`. */
  function Percent(part: int, whole: int): Num
  {
    Scale(Divide(part as real, whole as real), 100.0)
  }

  /** `x > k`: every comparison with NaN is false. */
  predicate Greater(x: Num, k: real)
  {
    match x
    case Finite(v) => v > k
    case PosInf => true
    case _ => false
  }

  /** `Math.min(x, k)`: NaN if either argument is NaN. */
  function Min(x: Num, k: real): (r: Num)
    ensures !Greater(r, k)
    ensures r.Finite? ==> r.value <= k && (x.Finite? ==> r.value == x.value || r.value == k)
    ensures r.NaN? <==> x.NaN?
  {
    match x
    case Finite(v) => Finite(if v < k then v else k)
    case PosInf => Finite(k)
    case _ => x
  }

  /** A percentage of a positive whole is the finite ratio, scaled. */
  lemma PercentOfPositive(part: int, whole: int)
    requires whole > 0
    ensures Percent(part, whole) == Finite(part as real * 100.0 / whole as real)
  {
    var p, w := part as real, whole as real;
    assert (p / w) * 100.0 == p * 100.0 / w;
  }

  /** Over a non-negative whole, `part / whole * 100 > k` holds exactly when
      `100 * part > k * whole`; a zero whole gives NaN (never greater) for a
      zero part, +Infinity (always greater) for a positive part and
      -Infinity (never greater) for a negative one. */
  lemma PercentExceeds(part: int, whole: int, k: real)
    requires whole >= 0 && k >= 0.0
    ensures Greater(Percent(part, whole), k) <==> part as real * 100.0 > k * whole as real
  {
    if whole > 0 {
      PercentOfPositive(part, whole);
      var p, w := part as real, whole as real;
      var q := p * 100.0 / w;
      assert q * w == p * 100.0;
      if q > k {
        assert q * w > k * w;
      } else {
        assert q * w <= k * w;
      }
    }
  }

  /** `whole > 0 ? (part / whole) * 100 : 0`: a percentage guarded against
      a zero or negative whole. */
  function GuardedPercent(part: int, whole: int): (r: real)
    ensures whole <= 0 ==> r == 0.0
    ensures whole > 0 ==> r * whole as real == part as real * 100.0
  {
    if whole > 0 then
      var q := part as real / whole as real;
      assert q * whole as real == part as real;
      q * 100.0
    else 0.0
  }

  /** Over a positive whole the guarded percentage exceeds `k` exactly when
      `100 * part > k * whole`. */
  lemma GuardedPercentExceeds(part: int, whole: int, k: real)
    requires whole > 0
    ensures GuardedPercent(part, whole) > k <==> part as real * 100.0 > k * whole as real
  {
    var r, w := GuardedPercent(part, whole), whole as real;
    if r > k {
      assert r * w > k * w;
    } else {
      assert r * w <= k * w;
    }
  }

  /** `parseFloat(x) || 0`: NaN (and zero) become zero. */
  function OrZero(p: Option<int>): int
  {
    match p
    case Some(v) => v
    case None => 0
  }

  predicate IsDigit(c: char)
  {
    '0' <= c <= '9'
  }

  predicate AllDigits(s: string)
  {
    forall i :: 0 <= i < |s| ==> IsDigit(s[i])
  }

  function DigitChar(d: int): (c: char)
    requires 0 <= d < 10
    ensures IsDigit(c) && (c as int) - ('0' as int) == d
  {
    "0123456789"[d]
  }

  /** Decimal digits of a natural number, most significant first. */
  function NatToString(n: nat): (s: string)
    ensures |s| > 0 && AllDigits(s)
  {
    if n < 10 then [DigitChar(n)] else NatToString(n / 10) + [DigitChar(n % 10)]
  }

  /** `n.toString()` for an integer-valued number. */
  function IntToString(n: int): string
  {
    if n < 0 then "-" + NatToString(-n) else NatToString(n)
  }

  /** The longest prefix of `s` made of decimal digits. */
  function LeadingDigits(s: string): (d: string)
    ensures d <= s && AllDigits(d)
    ensures |d| < |s| ==> !IsDigit(s[|d|])
  {
    if s == [] || !IsDigit(s[0]) then [] else [s[0]] + LeadingDigits(s[1..])
  }

  /** The value of a string of decimal digits. */
  function DigitsValue(d: string): nat
    requires AllDigits(d)
  {
    if d == [] then 0 else DigitsValue(d[..|d| - 1]) * 10 + ((d[|d| - 1] as int) - ('0' as int))
  }

  /** `parseFloat(s)` on strings whose numeric prefix is an optional sign and
      decimal digits: the digits after the sign are read up to the first
      other character; no digit at all gives NaN (`None`). */
  function ParseFloat(s: string): Option<int>
  {
    var signed := |s| > 0 && (s[0] == '-' || s[0] == '+');
    var digits := LeadingDigits(if signed then s[1..] else s);
    var magnitude: int := if digits == [] then 0 else DigitsValue(digits);
    if digits == [] then None
    else if signed && s[0] == '-' then Some(-magnitude)
    else Some(magnitude)
  }

  /** An optional sign followed by one or more decimal digits. */
  predicate WholeNumberText(s: string)
  {
    var unsigned := if |s| > 0 && (s[0] == '-' || s[0] == '+') then s[1..] else s;
    |unsigned| > 0 && AllDigits(unsigned)
  }

  /** Whole-number text parses, to the value of its digits with its sign. */
  lemma ParseWholeNumber(s: string)
    requires WholeNumberText(s)
    ensures ParseFloat(s).Some?
    ensures var unsigned := if s[0] == '-' || s[0] == '+' then s[1..] else s;
      ParseFloat(s).value == (if s[0] == '-' then -(DigitsValue(unsigned) as int) else DigitsValue(unsigned))
  {
    var unsigned := if s[0] == '-' || s[0] == '+' then s[1..] else s;
    LeadingDigitsOfDigits(unsigned);
  }

  lemma {:induction false} LeadingDigitsOfDigits(s: string)
    requires AllDigits(s)
    ensures LeadingDigits(s) == s
  {
    if s != [] {
      LeadingDigitsOfDigits(s[1..]);
    }
  }

  lemma {:induction false} DigitsValueOfNatToString(n: nat)
    ensures DigitsValue(NatToString(n)) == n
  {
    if n >= 10 {
      var s := NatToString(n);
      assert s[..|s| - 1] == NatToString(n / 10);
      DigitsValueOfNatToString(n / 10);
    }
  }

  /** Reading back what `toString` wrote gives the same integer: the number
      fields that the application fills with `toString` parse to their value. */
  lemma ParseIntToString(n: int)
    ensures ParseFloat(IntToString(n)) == Some(n)
  {
    var m: nat := if n < 0 then -n else n;
    var digits := NatToString(m);
    ParseDigits(digits);
    DigitsValueOfNatToString(m);
    if n < 0 {
      var s := IntToString(n);
      assert s == "-" + digits;
      assert s[1..] == digits;
      assert LeadingDigits(s[1..]) == digits;
    }
  }

  /** A non-empty string of digits, unsigned, parses to its value. */
  lemma ParseDigits(d: string)
    requires |d| > 0 && AllDigits(d)
    ensures LeadingDigits(d) == d
    ensures ParseFloat(d) == Some(DigitsValue(d) as int)
  {
    LeadingDigitsOfDigits(d);
    assert IsDigit(d[0]);
  }

  /** An empty field and a field without digits both read as NaN. */
  lemma ParseWithoutDigits(s: string)
    requires forall i :: 0 <= i < |s| ==> !IsDigit(s[i])
    ensures ParseFloat(s) == None
  {
    if |s| > 0 {
      var rest := if s[0] == '-' || s[0] == '+' then s[1..] else s;
      assert rest == [] || !IsDigit(rest[0]);
    }
  }
}
