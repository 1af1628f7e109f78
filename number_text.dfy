/**
 * The JavaScript numbers that the size counter goes through: `String(n)` when
 * `localStorage.setItem` stores it and `parseInt(s, 10)` when it is read back
 * (section 15.1.2.2 of ECMA-262 5.1). Only integers and NaN occur.
 */
module NumberText {
  import opened JsStrings

  /** An integral JavaScript number, or NaN. */
  datatype Num = Finite(value: int) | NaN

  /** `n + k` for an integer `k`: NaN absorbs. */
  function Add(n: Num, k: int): (r: Num)
    ensures r.NaN? <==> n.NaN?
    ensures n.Finite? ==> r.value - k == n.value
  {
    match n
    case Finite(v) => Finite(v + k)
    case NaN => NaN
  }

  predicate IsDigit(c: char) {
    '0' <= c <= '9'
  }

  function DigitChar(d: nat): (c: char)
    requires d < 10
    ensures IsDigit(c)
  {
    ('0' as int + d) as char
  }

  /** The decimal digits of `n`, most significant first, without leading zeros. */
  function Decimal(n: nat): (r: string)
    ensures |r| > 0
    ensures forall i :: 0 <= i < |r| ==> IsDigit(r[i])
  {
    if n < 10 then [DigitChar(n)] else Decimal(n / 10) + [DigitChar(n % 10)]
  }

  /** `String(n)`. */
  function NumberToString(n: Num): string {
    match n
    case NaN => "NaN"
    case Finite(v) => if v < 0 then "-" + Decimal(-v) else Decimal(v)
  }

  /** The value of a string of decimal digits. */
  function DigitsValue(s: string): nat
    requires forall i :: 0 <= i < |s| ==> IsDigit(s[i])
  {
    if |s| == 0 then 0
    else
      assert IsDigit(s[|s| - 1]);
      10 * DigitsValue(s[..|s| - 1]) + (s[|s| - 1] as int - '0' as int)
  }

  /** The length of the longest prefix of `s` made of decimal digits. */
  function DigitPrefix(s: string): (k: nat)
    ensures k <= |s|
    ensures forall i :: 0 <= i < k ==> IsDigit(s[i])
    ensures k < |s| ==> !IsDigit(s[k])
  {
    if |s| == 0 || !IsDigit(s[0]) then 0 else 1 + DigitPrefix(s[1..])
  }

  /** `s` without its leading StrWhiteSpaceChar characters. */
  function TrimStart(s: string): (r: string)
    ensures |r| <= |s| && r == s[|s| - |r|..]
    ensures |r| > 0 ==> !IsWhiteSpace(r[0])
  {
    if |s| > 0 && IsWhiteSpace(s[0]) then TrimStart(s[1..]) else s
  }

  /** `-n`: NaN absorbs. */
  function Negate(n: Num): (r: Num)
    ensures r.NaN? <==> n.NaN?
    ensures n.Finite? ==> r.value == -n.value
  {
    match n
    case Finite(v) => Finite(-v)
    case NaN => NaN
  }

  /** The value of the longest run of decimal digits that starts `u`; NaN when
      `u` does not start with a digit. */
  function LeadingDigits(u: string): (r: Num)
    ensures r.Finite? <==> |u| > 0 && IsDigit(u[0])
    ensures r.Finite? ==> r.value >= 0
  {
    var k := DigitPrefix(u);
    if k == 0 then NaN else Finite(DigitsValue(u[..k]))
  }

  /** `parseInt(s, 10)`: leading white space, an optional sign, then the longest
      run of decimal digits; NaN when there is no digit. */
  function ParseInt(s: string): (r: Num)
    ensures r.Finite? ==> exists i :: 0 <= i < |s| && IsDigit(s[i])
  {
    var t := TrimStart(s);
    var u := if |t| > 0 && (t[0] == '-' || t[0] == '+') then t[1..] else t;
    var m := LeadingDigits(u);
    assert m.Finite? ==> u[0] == s[|s| - |u|];
    if |t| > 0 && t[0] == '-' then Negate(m) else m
  }

  /** The decimal digits of `n` read back as `n`. */
  lemma {:induction false} DigitsValueDecimal(n: nat)
    ensures DigitsValue(Decimal(n)) == n
  {
    if n >= 10 {
      DigitsValueDecimal(n / 10);
      var d := Decimal(n / 10) + [DigitChar(n % 10)];
      assert d[..|d| - 1] == Decimal(n / 10);
    }
  }

  /** Round trip through storage: `parseInt(String(n), 10)` is `n` for every
      integer and NaN for NaN. */
  lemma ParseIntNumberToString(n: Num)
    ensures ParseInt(NumberToString(n)) == n
  {
    match n
    case NaN => ParseIntNaN();
    case Finite(v) =>
      if v < 0 {
        ParseIntNegativeString(-v);
      } else {
        ParseIntNonNegativeString(v);
      }
  }

  lemma ParseIntNonNegativeString(v: nat)
    ensures ParseInt(NumberToString(Finite(v))) == Finite(v)
  {
    var d := Decimal(v);
    assert NumberToString(Finite(v)) == d;
    DigitsValueDecimal(v);
    ParseIntDigits(d);
  }

  lemma ParseIntNegativeString(m: nat)
    requires m > 0
    ensures ParseInt(NumberToString(Finite(-(m as int)))) == Finite(-(m as int))
  {
    var d := Decimal(m);
    var s := "-" + d;
    assert NumberToString(Finite(-(m as int))) == s;
    ParseIntNegative(d);
    assert ParseInt(s) == Finite(-(DigitsValue(d) as int));
    DigitsValueDecimal(m);
  }

  /** `parseInt("NaN", 10)` is NaN. */
  lemma ParseIntNaN()
    ensures ParseInt("NaN") == NaN
  {
    var t := "NaN";
    assert t[0] == 'N' && !IsWhiteSpace(t[0]);
    assert TrimStart(t) == t;
  }

  /** A non-empty string of digits parses as its value. */
  lemma ParseIntDigits(d: string)
    requires |d| > 0 && forall i :: 0 <= i < |d| ==> IsDigit(d[i])
    ensures ParseInt(d) == Finite(DigitsValue(d))
  {
    assert !IsWhiteSpace(d[0]);
    assert TrimStart(d) == d;
    LeadingDigitsAll(d);
  }

  /** A minus sign followed by a non-empty string of digits parses as minus its
      value. */
  lemma ParseIntNegative(d: string)
    requires |d| > 0 && forall i :: 0 <= i < |d| ==> IsDigit(d[i])
    ensures ParseInt("-" + d) == Finite(-(DigitsValue(d) as int))
  {
    var s := "-" + d;
    assert !IsWhiteSpace(s[0]);
    assert TrimStart(s) == s;
    assert s[1..] == d;
    LeadingDigitsAll(d);
  }

  /** A non-empty string of digits is read whole. */
  lemma LeadingDigitsAll(d: string)
    requires |d| > 0 && forall i :: 0 <= i < |d| ==> IsDigit(d[i])
    ensures LeadingDigits(d) == Finite(DigitsValue(d))
  {
    DigitPrefixAll(d);
    assert d[..|d|] == d;
  }

  /** A string of digits is its own longest digit prefix. */
  lemma DigitPrefixAll(s: string)
    requires forall i :: 0 <= i < |s| ==> IsDigit(s[i])
    ensures DigitPrefix(s) == |s|
  {
  }
}
