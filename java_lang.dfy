/** The few pieces of the Java platform that the card-data generator relies on:
    `Integer.parseInt`, `String.valueOf(int)` (also used by `"0" + int`),
    and the two-digit zero-padded fields of `DateTimeFormatter` ("MM", "yy"). */
module JavaLang {

  datatype Option<+T> = None | Some(value: T)

  /** Range of a Java `int`. */
  const INT_MIN: int := -0x8000_0000
  const INT_MAX: int := 0x7fff_ffff

  predicate IsJavaInt(i: int) {
    INT_MIN <= i <= INT_MAX
  }

  predicate IsDigit(c: char) {
    '0' <= c <= '9'
  }

  predicate IsDigits(s: string) {
    forall i :: 0 <= i < |s| ==> IsDigit(s[i])
  }

  /** Digits only, at least one, and no leading zero unless the text is "0". */
  predicate CanonicalDecimal(s: string) {
    |s| >= 1 && IsDigits(s) && (s[0] == '0' ==> s == "0")
  }

  function DigitChar(d: int): (c: char)
    requires 0 <= d <= 9
    ensures IsDigit(c) && c as int - '0' as int == d
  {
    ('0' as int + d) as char
  }

  function DigitValue(c: char): (d: nat)
    requires IsDigit(c)
    ensures d <= 9 && DigitChar(d) == c
  {
    c as int - '0' as int
  }

  /** The number a string of decimal digits denotes, most significant digit first. */
  function DigitsValue(s: string): nat
    requires IsDigits(s)
    decreases |s|
  {
    if |s| == 0 then 0 else DigitsValue(s[..|s| - 1]) * 10 + DigitValue(s[|s| - 1])
  }

  /** Shortest decimal text of a natural number: never empty, and no leading
      zero unless the number is zero itself. */
  function NatToDecimal(n: nat): (s: string)
    ensures CanonicalDecimal(s) && DigitsValue(s) == n
    ensures |s| == 1 <==> n < 10
    decreases n
  {
    if n < 10 then [DigitChar(n)]
    else
      var t := NatToDecimal(n / 10);
      var s := t + [DigitChar(n % 10)];
      assert s[..|s| - 1] == t;
      s
  }

  /** `Integer.parseInt(s)`: an optional sign followed by at least one decimal
      digit, denoting a value inside the `int` range; anything else throws
      `NumberFormatException`, modelled as `None`. */
  function ParseInt(s: string): (r: Option<int>)
    ensures r.Some? ==> IsJavaInt(r.value)
    ensures r.Some? ==> |s| >= 1
    ensures |s| >= 1 && IsDigits(s) && DigitsValue(s) <= INT_MAX ==> r == Some(DigitsValue(s))
    ensures |s| >= 2 && s[0] == '-' && IsDigits(s[1..]) && DigitsValue(s[1..]) <= -INT_MIN ==> r == Some(-(DigitsValue(s[1..]) as int))
    ensures |s| >= 2 && s[0] == '+' && IsDigits(s[1..]) && DigitsValue(s[1..]) <= INT_MAX ==> r == Some(DigitsValue(s[1..]))
    ensures r.Some? ==>
      (|s| >= 1 && IsDigits(s) && r.value == DigitsValue(s))
      || (|s| >= 2 && (s[0] == '-' || s[0] == '+') && IsDigits(s[1..])
          && r.value == (if s[0] == '-' then -(DigitsValue(s[1..]) as int) else DigitsValue(s[1..])))
  {
    if |s| == 0 then None
    else if s[0] == '-' || s[0] == '+' then
      var digits := s[1..];
      if |digits| == 0 || !IsDigits(digits) then None
      else
        var magnitude: int := DigitsValue(digits);
        var v := if s[0] == '-' then -magnitude else magnitude;
        if IsJavaInt(v) then Some(v) else None
    else if IsDigits(s) && IsJavaInt(DigitsValue(s)) then Some(DigitsValue(s))
    else None
  }

  /** `String.valueOf(int)` (and `Integer.toString`): a minus sign for negative
      values, then the shortest decimal digits of the magnitude; no padding. */
  function ValueOf(i: int): (s: string)
    ensures |s| >= 1
    ensures (s[0] == '-') <==> i < 0
    ensures i >= 0 ==> CanonicalDecimal(s) && DigitsValue(s) == i
    ensures i < 0 ==> CanonicalDecimal(s[1..]) && DigitsValue(s[1..]) == -i
    ensures IsJavaInt(i) ==> ParseInt(s) == Some(i)
  {
    if i >= 0 then NatToDecimal(i)
    else
      var t := NatToDecimal(-i);
      var s := "-" + t;
      assert s[1..] == t;
      s
  }

  /** A value printed with a two-character, zero-padded field, as the
      `DateTimeFormatter` patterns "MM" and "yy" print it. */
  function TwoDigits(n: int): (s: string)
    requires 0 <= n <= 99
    ensures |s| == 2 && IsDigits(s) && DigitsValue(s) == n
    ensures ParseInt(s) == Some(n)
  {
    var s := [DigitChar(n / 10), DigitChar(n % 10)];
    assert s[..1] == [s[0]] && [s[0]][..0] == [];
    assert DigitsValue(s[..1]) == n / 10;
    s
  }

  /** `"0" + m` for a one-digit `m` is exactly the two-digit padded form. */
  lemma ZeroPrefixIsPadding(m: int)
    requires 0 <= m <= 9
    ensures "0" + ValueOf(m) == TwoDigits(m)
    ensures ParseInt("0" + ValueOf(m)) == Some(m)
  {
  }
}
