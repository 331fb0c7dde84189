/** The few JavaScript values the configuration holds where the code compares
    with `===` or concatenates with `+`, and how `+` renders them as text. */
module JsValues {

  /** A configuration value read from JSON: an integral number, a string, or
      an absent key. */
  datatype JsValue = Num(n: int) | Str(s: string) | Undefined

  predicate IsDigit(c: char) { '0' <= c <= '9' }

  predicate AllDigits(s: string) { forall i :: 0 <= i < |s| ==> IsDigit(s[i]) }

  function DigitChar(d: nat): (c: char)
    requires d < 10
    ensures IsDigit(c)
  {
    "0123456789"[d]
  }

  function DigitValue(c: char): (d: nat)
    requires IsDigit(c)
    ensures d < 10
  {
    (c as int - '0' as int) as nat
  }

  /** The base-ten digits of a natural number, without leading zeros. */
  function Digits(n: nat): (s: string)
    ensures |s| >= 1 && AllDigits(s)
    ensures n >= 10 ==> s[0] != '0'
  {
    if n < 10 then [DigitChar(n)] else Digits(n / 10) + [DigitChar(n % 10)]
  }

  /** What `String(n)` gives for a safe integer (magnitude below 2^53): a minus
      sign for negatives, then the digits. Larger magnitudes are not exact in
      JavaScript, and from 1e21 on the text takes exponent form. */
  function Decimal(n: int): (s: string)
    ensures |s| >= 1
    ensures n >= 0 <==> AllDigits(s)
  {
    if n >= 0 then Digits(n)
    else
      var s := "-" + Digits(-n);
      assert !IsDigit(s[0]);
      s
  }

  /** The text `'' + v` produces: a number its decimal text, a string itself,
      `undefined` the word. */
  function ToJsString(v: JsValue): (s: string)
    ensures v.Num? ==> |s| >= 1 && (v.n >= 0 <==> AllDigits(s))
    ensures v.Str? ==> s == v.s
    ensures v.Undefined? ==> s == "undefined" && !AllDigits(s)
  {
    match v
    case Num(n) => Decimal(n)
    case Str(s) => s
    case Undefined =>
      var u := "undefined";
      assert !IsDigit(u[0]);
      u
  }

  /** Reads back a run of digits (reference inverse of `Digits`). */
  function ParseDigits(s: string): nat
    requires AllDigits(s)
  {
    if |s| == 0 then 0 else 10 * ParseDigits(s[..|s| - 1]) + DigitValue(s[|s| - 1])
  }

  /** Reads back a rendered integer (reference inverse of `Decimal`). */
  function ParseDecimal(s: string): int
    requires |s| >= 1 && (AllDigits(s) || (s[0] == '-' && AllDigits(s[1..])))
  {
    if AllDigits(s) then ParseDigits(s) else -(ParseDigits(s[1..]) as int)
  }

  lemma {:induction false} DigitsRoundTrip(n: nat)
    ensures ParseDigits(Digits(n)) == n
  {
    if n >= 10 {
      var s := Digits(n);
      DigitsRoundTrip(n / 10);
      assert s[..|s| - 1] == Digits(n / 10);
    }
  }

  /** Rendering an integer loses nothing: parsing the text gives the number back. */
  lemma DecimalRoundTrip(n: int)
    ensures var s := Decimal(n); |s| >= 1 && (AllDigits(s) || (s[0] == '-' && AllDigits(s[1..])))
    ensures ParseDecimal(Decimal(n)) == n
  {
    if n >= 0 {
      DigitsRoundTrip(n);
    } else {
      var s := Decimal(n);
      assert s[1..] == Digits(-n);
      assert s[0] == '-' && !IsDigit(s[0]);
      DigitsRoundTrip(-n);
    }
  }

  /** Distinct numbers render as distinct texts. */
  lemma DecimalInjective(a: int, b: int)
    requires Decimal(a) == Decimal(b)
    ensures a == b
  {
    DecimalRoundTrip(a);
    DecimalRoundTrip(b);
  }
}
