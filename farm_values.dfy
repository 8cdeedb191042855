/**
 * Values shared by the farm state model: an optional value, the dynamically
 * typed value a JavaScript object property may hold, and the decimal rendering
 * JavaScript uses when a whole number is concatenated to a string.
 */
module FarmValues {

  datatype Option<T> = None | Some(value: T)

  /** A value held under a dynamic key of a JavaScript object (numbers are whole). */
  datatype Val = VNum(n: int) | VBool(b: bool) | VStr(s: string)

  /** Property read on an object with dynamic keys; `None` stands for `undefined`. */
  function Lookup(m: map<string, Val>, key: string): Option<Val>
  {
    if key in m then Some(m[key]) else None
  }

  predicate IsDigit(c: char) { '0' <= c <= '9' }

  predicate AllDigits(s: string) { forall i :: 0 <= i < |s| ==> IsDigit(s[i]) }

  function DigitChar(d: nat): (c: char)
    requires d < 10
    ensures IsDigit(c) && c as int - '0' as int == d
  {
    ('0' as int + d) as char
  }

  /** The digits of `n`, most significant first, without leading zeros. */
  function Decimal(n: nat): (s: string)
    ensures |s| >= 1 && AllDigits(s)
    ensures s[0] == '0' ==> n == 0 && s == "0"
  {
    if n < 10 then [DigitChar(n)] else Decimal(n / 10) + [DigitChar(n % 10)]
  }

  /** Reads a string of decimal digits back as a number. */
  function ParseDecimal(s: string): nat
    requires AllDigits(s)
  {
    if s == [] then 0 else 10 * ParseDecimal(s[..|s| - 1]) + (s[|s| - 1] as int - '0' as int)
  }

  /** Reading back the rendering of `n` gives `n`: the rendering loses nothing. */
  lemma {:induction false} DecimalRoundTrip(n: nat)
    ensures ParseDecimal(Decimal(n)) == n
  {
    if n >= 10 {
      var s := Decimal(n);
      assert s[..|s| - 1] == Decimal(n / 10);
      DecimalRoundTrip(n / 10);
    }
  }

  /** `String(i)` for a whole number `i`, as used by `'ERR-' + i`. */
  function NumberString(i: int): string
  {
    if i < 0 then "-" + Decimal(-i) else Decimal(i)
  }
}
