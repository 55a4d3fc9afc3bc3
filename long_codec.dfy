/** Long.parseLong and String.valueOf(long) over ASCII decimal text. */
module LongCodec {
  import opened Outcomes

  const LongMin: int := -0x8000_0000_0000_0000
  const LongMax: int := 0x7FFF_FFFF_FFFF_FFFF

  predicate InLongRange(n: int) {
    LongMin <= n <= LongMax
  }

  predicate IsDigit(c: char) {
    '0' <= c <= '9'
  }

  predicate AllDigits(s: string) {
    forall i | 0 <= i < |s| :: IsDigit(s[i])
  }

  function DigitValue(c: char): nat
    requires IsDigit(c)
  {
    c as int - '0' as int
  }

  function DigitChar(d: nat): (c: char)
    requires d < 10
    ensures IsDigit(c) && DigitValue(c) == d
  {
    ('0' as int + d) as char
  }

  /** The value of a string of decimal digits, most significant first. */
  function DigitsValue(s: string): nat
    requires AllDigits(s)
    decreases |s|
  {
    if s == "" then 0 else 10 * DigitsValue(s[..|s| - 1]) + DigitValue(s[|s| - 1])
  }

  /** Long.parseLong: an optional '+' or '-', at least one digit, and a value
      that fits in a long; anything else is a NumberFormatException (None). */
  function ParseLong(s: string): (r: Option<int>)
    ensures r.Some? ==> InLongRange(r.value)
    ensures r.Some? ==> s != "" && (IsDigit(s[0]) || s[0] == '-' || s[0] == '+')
  {
    var signed := s != "" && (s[0] == '-' || s[0] == '+');
    var digits := if signed then s[1..] else s;
    if digits == "" || !AllDigits(digits) then None
    else
      var magnitude: int := DigitsValue(digits);
      var v: int := if s[0] == '-' then -magnitude else magnitude;
      if InLongRange(v) then Some(v) else None
  }

  /** The shortest decimal digits of a natural number. */
  function NaturalToDigits(n: nat): (s: string)
    ensures s != "" && AllDigits(s) && DigitsValue(s) == n
    ensures IsDigit(s[0]) && (s[0] == '0' ==> n == 0)
    decreases n
  {
    if n < 10 then [DigitChar(n)]
    else
      var prefix := NaturalToDigits(n / 10);
      var s := prefix + [DigitChar(n % 10)];
      assert s[..|s| - 1] == prefix;
      s
  }

  /** String.valueOf(long): a '-' before the digits of a negative value. */
  function LongToString(n: int): (s: string)
    ensures s != ""
    ensures var digits := if n < 0 then s[1..] else s;
            digits != "" && AllDigits(digits) && DigitsValue(digits) == (if n < 0 then -n else n) &&
            (digits[0] == '0' ==> n == 0)
  {
    if n < 0 then "-" + NaturalToDigits(-n) else NaturalToDigits(n)
  }

  /** Every long printed by String.valueOf is parsed back to itself. */
  lemma ParseLongToString(n: int)
    requires InLongRange(n)
    ensures ParseLong(LongToString(n)) == Some(n)
  {
    var s := LongToString(n);
    if n < 0 {
      assert s[1..] == NaturalToDigits(-n);
    }
  }

  /** The printed form has no sign for a non-negative value. */
  lemma LongToStringSign(n: int)
    ensures LongToString(n)[0] == '-' <==> n < 0
  {
  }

  /** -1, the unlimited quota, in both directions. */
  lemma MinusOne()
    ensures ParseLong("-1") == Some(-1)
    ensures LongToString(-1) == "-1"
  {
    assert "-1"[1..] == "1";
    assert "1"[..0] == "";
  }

  /** Text that is not a signed number is refused. */
  lemma Malformed()
    ensures ParseLong("") == None
    ensures ParseLong("-") == None
    ensures ParseLong("12a") == None
  {
    assert !IsDigit("12a"[2]);
  }
}
