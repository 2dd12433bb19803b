/**
 * JSON scalars as the handler receives them from the account API, and the
 * text the Python runtime makes of them with `str(...)` or an f-string.
 */
module JsonValues {
  import opened Wrappers

  /** A scalar field of the decoded account JSON (floats are not modelled). */
  datatype Scalar = JString(s: string) | JInt(n: int) | JBool(b: bool) | JNull

  predicate StartsWith(s: string, prefix: string) {
    |prefix| <= |s| && s[..|prefix|] == prefix
  }

  predicate IsDigit(c: char) {
    '0' <= c <= '9'
  }

  function Digit(d: nat): (c: char)
    requires d < 10
    ensures IsDigit(c) && c as int - '0' as int == d
  {
    ('0' as int + d) as char
  }

  /** Decimal digits of a natural number, most significant first, no leading zeros. */
  function NatDigits(n: nat): (s: string)
    ensures |s| > 0
    ensures forall i | 0 <= i < |s| :: IsDigit(s[i])
    ensures |s| > 1 ==> s[0] != '0'
    decreases n
  {
    if n < 10 then [Digit(n)] else NatDigits(n / 10) + [Digit(n % 10)]
  }

  /** Python's `str(n)` for an integer. */
  function DecimalText(n: int): (s: string)
    ensures |s| > 0
    ensures IsDigit(s[0]) || (n < 0 && s[0] == '-')
    ensures s[0] == '-' <==> n < 0
    ensures n < 0 ==> |s| > 1 && IsDigit(s[1]) && s[1] != '0'
    ensures n >= 0 && |s| > 1 ==> s[0] != '0'
  {
    if n < 0 then "-" + NatDigits(-n) else NatDigits(n)
  }

  /** Reads back a non-empty string of decimal digits. */
  function ParseNat(s: string): (r: Option<nat>)
    ensures r.Some? <==> |s| > 0 && forall i | 0 <= i < |s| :: IsDigit(s[i])
    decreases |s|
  {
    if |s| == 0 || !IsDigit(s[|s| - 1]) then None
    else if |s| == 1 then Some(s[0] as int - '0' as int)
    else match ParseNat(s[..|s| - 1])
      case None => None
      case Some(m) => Some(m * 10 + (s[|s| - 1] as int - '0' as int))
  }

  /** Reads back an optionally negative decimal integer. */
  function ParseDecimal(s: string): Option<int> {
    if |s| > 0 && s[0] == '-' then
      match ParseNat(s[1..])
      case None => None
      case Some(m) => Some(-(m as int))
    else
      match ParseNat(s)
      case None => None
      case Some(m) => Some(m as int)
  }

  lemma {:induction false} NatDigitsRoundTrip(n: nat)
    ensures ParseNat(NatDigits(n)) == Some(n)
    decreases n
  {
    if n >= 10 {
      var s := NatDigits(n);
      assert s[..|s| - 1] == NatDigits(n / 10);
      NatDigitsRoundTrip(n / 10);
    }
  }

  /** `str` on integers is reversible: the rendered text reads back as the same number. */
  lemma DecimalTextRoundTrip(n: int)
    ensures ParseDecimal(DecimalText(n)) == Some(n)
  {
    if n < 0 {
      assert DecimalText(n)[1..] == NatDigits(-n);
      NatDigitsRoundTrip(-n);
    } else {
      NatDigitsRoundTrip(n);
    }
  }

  /** Python's `str(v)` (and `f"{v}"`) on a decoded JSON scalar. */
  function Text(v: Scalar): (r: string)
    ensures r == "" <==> v == JString("")
  {
    match v
    case JString(s) => s
    case JInt(n) => DecimalText(n)
    case JBool(b) => if b then "True" else "False"
    case JNull => "None"
  }

  /** Only a JSON string can render as text beginning with "Lv"; numbers, booleans and null never do. */
  lemma LvTextOnlyFromStrings(v: Scalar)
    ensures StartsWith(Text(v), "Lv") ==> v.JString?
  {
    var t := Text(v);
    if StartsWith(t, "Lv") {
      assert t[0] == 'L' by { assert t[..2][0] == t[0]; }
    }
  }
}
