/**
  Go's `strconv.Atoi` on a 64-bit platform: an optional `+` or `-`, then one or
  more decimal digits, whose value must fit in a signed 64-bit integer. Leading
  zeros are accepted; nothing else is (no spaces, no underscores, no base
  prefix). `FormatInt` renders an integer the way `strconv.Itoa` does and is the
  partner of `Atoi` in the round trip proved below.
*/
module StrConv {
  import opened Wrappers

  const MAX_INT64: int := 0x7fff_ffff_ffff_ffff
  const MIN_INT64: int := -0x8000_0000_0000_0000

  predicate IsDigit(c: char) {
    '0' <= c <= '9'
  }

  predicate IsSign(c: char) {
    c == '+' || c == '-'
  }

  predicate AllDigits(s: string) {
    forall i :: 0 <= i < |s| ==> IsDigit(s[i])
  }

  function DigitValue(c: char): (d: nat)
    requires IsDigit(c)
    ensures d < 10
  {
    (c as int) - ('0' as int)
  }

  function DigitChar(d: nat): (c: char)
    requires d < 10
    ensures IsDigit(c) && DigitValue(c) == d
  {
    ('0' as int + d) as char
  }

  /** The value of a run of decimal digits, accumulated left to right (`n = n*10 + d`). */
  function DigitsValue(ds: string): nat
    requires AllDigits(ds)
  {
    if |ds| == 0 then 0
    else DigitsValue(ds[..|ds| - 1]) * 10 + DigitValue(ds[|ds| - 1])
  }

  /** `s` without its leading sign, if it has one. */
  function Unsigned(s: string): (ds: string)
    requires |s| > 0
    ensures |ds| == |s| - 1 || ds == s
  {
    if IsSign(s[0]) then s[1..] else s
  }

  /** An optional `+` or `-` followed by one or more decimal digits. */
  predicate IsDecimalLiteral(s: string) {
    |s| > 0 && |Unsigned(s)| > 0 && AllDigits(Unsigned(s))
  }

  /** The value a decimal literal denotes: its digits' value, negated after a `-`. */
  function SignedValue(s: string): int
    requires IsDecimalLiteral(s)
  {
    if s[0] == '-' then -(DigitsValue(Unsigned(s)) as int) else DigitsValue(Unsigned(s))
  }

  /**
    `strconv.Atoi(s)`: `Some(n)` when `s` is a signed decimal literal whose value
    `n` is a 64-bit integer, `None` when Go reports a syntax or range error.
  */
  function Atoi(s: string): (r: Option<int>)
    ensures r.Some? ==> MIN_INT64 <= r.value <= MAX_INT64
    ensures r.Some? ==> |s| > 0 && (forall i :: 0 < i < |s| ==> IsDigit(s[i]))
    ensures r.Some? ==> IsDigit(s[0]) || (IsSign(s[0]) && |s| > 1)
    ensures r.Some? && IsDigit(s[0]) ==> r.value == DigitsValue(s)
    ensures r.Some? <==> IsDecimalLiteral(s) && MIN_INT64 <= SignedValue(s) <= MAX_INT64
    ensures r.Some? ==> r.value == SignedValue(s)
  {
    if |s| == 0 then None
    else
      var digits := if IsSign(s[0]) then s[1..] else s;
      if |digits| == 0 || !AllDigits(digits) then None
      else
        var magnitude: int := DigitsValue(digits);
        var n := if s[0] == '-' then -magnitude else magnitude;
        if MIN_INT64 <= n <= MAX_INT64 then Some(n) else None
  }

  /** The shortest decimal digits of a natural number. */
  function Digits(n: nat): (ds: string)
    ensures |ds| > 0
    decreases n
  {
    if n < 10 then [DigitChar(n)] else Digits(n / 10) + [DigitChar(n % 10)]
  }

  /** `strconv.Itoa(n)`: a leading `-` for negative numbers, then the digits. */
  function FormatInt(n: int): string {
    if n < 0 then "-" + Digits(-n) else Digits(n)
  }

  /** The digits of `n` are digits, and they denote `n`. */
  lemma {:induction false} DigitsDenote(n: nat)
    ensures AllDigits(Digits(n)) && DigitsValue(Digits(n)) == n
    decreases n
  {
    if n >= 10 {
      DigitsDenote(n / 10);
      var ds := Digits(n);
      assert ds[..|ds| - 1] == Digits(n / 10);
    }
  }

  /** `Atoi` reads back every 64-bit integer that `FormatInt` writes. */
  lemma AtoiFormatInt(n: int)
    requires MIN_INT64 <= n <= MAX_INT64
    ensures Atoi(FormatInt(n)) == Some(n)
  {
    if n < 0 {
      DigitsDenote(-n);
      assert FormatInt(n)[1..] == Digits(-n);
    } else {
      DigitsDenote(n);
    }
  }

  /** A string holding a `/` is never a number: a nested path is not an id. */
  lemma AtoiRejectsSeparator(s: string, i: nat)
    requires i < |s| && s[i] == '/'
    ensures Atoi(s).None?
  {
  }

  /** A sign and leading zeros are accepted; a lone sign, a space or an underscore is not. */
  lemma AtoiExamples()
    ensures Atoi("+7") == Some(7) && Atoi("-3") == Some(-3) && Atoi("007") == Some(7)
    ensures Atoi("-").None? && Atoi("+").None? && Atoi(" 7").None? && Atoi("1_0").None?
  {
    assert DigitsValue("7") == 7 && DigitsValue("3") == 3;
    assert "007"[..2] == "00" && "00"[..1] == "0";
    assert Unsigned(" 7")[0] == ' ';
    assert Unsigned("1_0")[1] == '_';
  }
}
