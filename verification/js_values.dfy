/** JavaScript value conventions the synchronisation core relies on: optional
    values, the outcome of an operation that may throw, `String(n)` for a
    non-negative integer, and the `parseInt(x) || d` defaulting idiom. */
module JsValues {

  /** A value that may be null or undefined. */
  datatype Option<+T> = None | Some(value: T)

  /** The outcome of an operation that returns a value or throws an Error
      carrying a message. */
  datatype Result<+R> = Ok(value: R) | Err(message: string)

  /** A string is truthy in JavaScript exactly when it is present and non-empty. */
  predicate Truthy(s: Option<string>) {
    s.Some? && |s.value| > 0
  }

  predicate IsDigit(c: char) {
    '0' <= c <= '9'
  }

  predicate AllDigits(s: string) {
    forall i :: 0 <= i < |s| ==> IsDigit(s[i])
  }

  function DigitChar(d: nat): char
    requires d < 10
  {
    ('0' as int + d) as char
  }

  function DigitValue(c: char): nat
    requires IsDigit(c)
  {
    c as int - '0' as int
  }

  /** `String(n)` for a non-negative integer: its decimal digits, most
      significant first, with no leading zero. */
  function DecimalString(n: nat): (s: string)
    ensures |s| >= 1 && AllDigits(s)
    ensures s[0] == '0' ==> n == 0
  {
    if n < 10 then [DigitChar(n)] else DecimalString(n / 10) + [DigitChar(n % 10)]
  }

  /** The number a string of decimal digits denotes. */
  function DecimalValue(s: string): nat
    requires AllDigits(s)
  {
    if |s| == 0 then 0 else 10 * DecimalValue(s[..|s| - 1]) + DigitValue(s[|s| - 1])
  }

  /** Reading back the digits `String(n)` writes gives `n`. */
  lemma {:induction false} DecimalRoundTrip(n: nat)
    ensures DecimalValue(DecimalString(n)) == n
  {
    if n >= 10 {
      var s := DecimalString(n);
      assert s[..|s| - 1] == DecimalString(n / 10);
      DecimalRoundTrip(n / 10);
    }
  }

  /** Distinct numbers have distinct decimal strings. */
  lemma DecimalStringInjective(a: nat, b: nat)
    requires DecimalString(a) == DecimalString(b)
    ensures a == b
  {
    DecimalRoundTrip(a);
    DecimalRoundTrip(b);
  }

  /** What `parseInt` produced: an integer, or NaN. */
  datatype ParsedInt = NaN | Num(n: int)

  /** `parseInt(x) || d`: NaN and 0 are both falsy, so both fall back to `d`. */
  function OrDefault(p: ParsedInt, d: int): int {
    if p.NaN? || p.n == 0 then d else p.n
  }
}
