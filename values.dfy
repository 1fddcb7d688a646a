/** The Python values that cross the adapter: parameter defaults, toolkit
    options and tool results, together with Python's `str()` on them. */
module Values {

  datatype Value =
    | Str(s: string)
    | Int(i: int)
    | Bool(b: bool)
    | NoneValue
      /** Any other object (a float, a list, a dict, ...), carried together
          with the text its `__str__` produces. */
    | Other(text: string)

  predicate IsDigit(c: char) {
    '0' <= c <= '9'
  }

  predicate IsDigits(s: string) {
    forall k | 0 <= k < |s| :: IsDigit(s[k])
  }

  function DigitChar(d: nat): (c: char)
    requires d < 10
    ensures IsDigit(c) && c as int - '0' as int == d
  {
    ('0' as int + d) as char
  }

  /** Decimal rendering of a natural number, most significant digit first. */
  function NatToText(n: nat): (r: string)
    ensures r != [] && IsDigits(r)
    ensures r[0] == '0' ==> r == "0"
    decreases n
  {
    if n < 10 then [DigitChar(n)] else NatToText(n / 10) + [DigitChar(n % 10)]
  }

  /** `str(i)` for a Python `int`: an optional minus sign, then the digits. */
  function IntToText(i: int): (r: string)
    ensures r != []
    ensures r[0] == '-' <==> i < 0
  {
    if i < 0 then "-" + NatToText(-i) else NatToText(i)
  }

  /** Python's `str()` on a value. */
  function ToText(v: Value): string {
    match v
    case Str(s) => s
    case Int(i) => IntToText(i)
    case Bool(b) => if b then "True" else "False"
    case NoneValue => "None"
    case Other(t) => t
  }

  /** Reading a digit string back as a number (Python's `int()` on it). */
  function ParseNat(s: string): nat
    requires IsDigits(s)
  {
    if s == [] then 0 else ParseNat(s[..|s| - 1]) * 10 + (s[|s| - 1] as int - '0' as int)
  }

  predicate IsDecimal(s: string) {
    if s != [] && s[0] == '-' then IsDigits(s[1..]) else IsDigits(s)
  }

  function ParseInt(s: string): int
    requires IsDecimal(s)
  {
    if s != [] && s[0] == '-' then -(ParseNat(s[1..]) as int) else ParseNat(s)
  }

  lemma {:induction false} NatTextRoundTrip(n: nat)
    ensures ParseNat(NatToText(n)) == n
    decreases n
  {
    if n >= 10 {
      NatTextRoundTrip(n / 10);
      var r := NatToText(n);
      assert r[..|r| - 1] == NatToText(n / 10);
    }
  }

  /** `str()` on an `int` loses nothing: reading the text back gives the number. */
  lemma IntTextRoundTrip(i: int)
    ensures IsDecimal(IntToText(i)) && ParseInt(IntToText(i)) == i
  {
    if i < 0 {
      NatTextRoundTrip(-i);
      assert IntToText(i)[1..] == NatToText(-i);
    } else {
      NatTextRoundTrip(i);
    }
  }
}
