/** Text forms of the scalar fields of a record line: String.valueOf / Integer.parseInt for
    integers (also used for day numbers, timestamps and cent amounts) and
    String.valueOf / Boolean.parseBoolean for flags. */
module Codec {
  import opened Options
  import Text

  predicate IsDigit(c: char)
  {
    '0' <= c <= '9'
  }

  predicate AllDigits(s: string)
  {
    forall i :: 0 <= i < |s| ==> IsDigit(s[i])
  }

  function DigitChar(d: nat): (c: char)
    requires d < 10
    ensures IsDigit(c)
  {
    ('0' as int + d) as char
  }

  /** Decimal digits of n, most significant first, without leading zeros. */
  function NatText(n: nat): (s: string)
    ensures s != [] && AllDigits(s)
    decreases n
  {
    if n < 10 then [DigitChar(n)] else NatText(n / 10) + [DigitChar(n % 10)]
  }

  /** String.valueOf(int). */
  function IntText(i: int): (s: string)
    ensures s != []
    ensures forall k :: 0 <= k < |s| ==> IsDigit(s[k]) || s[k] == '-'
  {
    if i < 0 then "-" + NatText(-i) else NatText(i)
  }

  /** The value of a string of decimal digits. */
  function DigitsValue(s: string): nat
    requires AllDigits(s)
  {
    if s == [] then 0 else 10 * DigitsValue(s[..|s| - 1]) + (s[|s| - 1] as int - '0' as int)
  }

  /** Integer.parseInt: an optional sign followed by at least one digit; anything else is the
      NumberFormatException case. */
  function ParseInt(s: string): Option<int>
  {
    if |s| > 0 && (s[0] == '-' || s[0] == '+') then
      if |s| > 1 && AllDigits(s[1..]) then
        var magnitude: int := DigitsValue(s[1..]);
        Some(if s[0] == '-' then -magnitude else magnitude)
      else None
    else if s != [] && AllDigits(s) then Some(DigitsValue(s) as int)
    else None
  }

  lemma {:induction false} DigitsOfNatText(n: nat)
    ensures DigitsValue(NatText(n)) == n
    decreases n
  {
    if n >= 10 {
      DigitsOfNatText(n / 10);
      var s := NatText(n);
      assert s[..|s| - 1] == NatText(n / 10);
    }
  }

  /** Integer.parseInt(String.valueOf(i)) == i. */
  lemma ParseIntText(i: int)
    ensures ParseInt(IntText(i)) == Some(i)
  {
    if i < 0 {
      DigitsOfNatText(-i);
      assert IntText(i)[1..] == NatText(-i);
    } else {
      DigitsOfNatText(i);
    }
  }

  /** The text of an integer holds no record or list separator. */
  lemma IntTextHasNoSeparator(i: int)
    ensures ',' !in IntText(i) && ';' !in IntText(i)
  {
  }

  /** String.valueOf(boolean). */
  function BoolText(b: bool): string
  {
    if b then "true" else "false"
  }

  /** Boolean.parseBoolean: "true" ignoring case; every other text is false. */
  function ParseBool(s: string): bool
  {
    Text.EqualsIgnoreCase(s, "true")
  }

  /** Boolean.parseBoolean(String.valueOf(b)) == b. */
  lemma ParseBoolText(b: bool)
    ensures ParseBool(BoolText(b)) == b
    ensures BoolText(b) != "" && ',' !in BoolText(b) && ';' !in BoolText(b)
  {
    assert Text.Lower("true") == "true";
  }
}
