/**
 * The pieces of the Go standard library that the core relies on, written out:
 * decimal digits, `strconv.Itoa`, `fmt`'s `%02d`, Go's truncating integer
 * division, `strconv.ParseBool` and `strings.Join`.
 */
module GoLib {
  import opened Wrappers

  predicate IsDigit(ch: char) { '0' <= ch <= '9' }

  predicate AllDigits(s: string) { forall i :: 0 <= i < |s| ==> IsDigit(s[i]) }

  function DigitValue(ch: char): (d: nat)
    requires IsDigit(ch)
    ensures d < 10
  {
    ch as int - '0' as int
  }

  function DigitChar(d: nat): (ch: char)
    requires d < 10
    ensures IsDigit(ch) && DigitValue(ch) == d
  {
    (d + '0' as int) as char
  }

  function Pow10(n: nat): (p: nat)
    ensures p >= 1
  {
    if n == 0 then 1 else 10 * Pow10(n - 1)
  }

  /** The value of a string of decimal digits, most significant digit first. */
  function DigitsValue(s: string): (n: nat)
    requires AllDigits(s)
    ensures n < Pow10(|s|)
  {
    if s == [] then 0 else DigitsValue(s[..|s| - 1]) * 10 + DigitValue(s[|s| - 1])
  }

  lemma DigitsValueSnoc(s: string, ch: char)
    requires AllDigits(s) && IsDigit(ch)
    ensures AllDigits(s + [ch]) && DigitsValue(s + [ch]) == DigitsValue(s) * 10 + DigitValue(ch)
  {
    assert (s + [ch])[..|s|] == s;
  }

  /** A leading zero does not change the value of a digit string. */
  lemma {:induction false} DigitsValueLeadingZero(s: string)
    requires AllDigits(s)
    ensures AllDigits("0" + s) && DigitsValue("0" + s) == DigitsValue(s)
  {
    if s != [] {
      var init, last := s[..|s| - 1], s[|s| - 1];
      DigitsValueLeadingZero(init);
      assert "0" + s == ("0" + init) + [last];
      DigitsValueSnoc("0" + init, last);
    }
  }

  /** The shortest decimal spelling of a natural number (no leading zero). */
  function NatDigits(n: nat): (s: string)
    ensures |s| >= 1 && AllDigits(s)
    ensures (s[0] == '0') == (n == 0)
    ensures DigitsValue(s) == n
    decreases n
  {
    if n < 10 then [DigitChar(n)]
    else
      var s := NatDigits(n / 10) + [DigitChar(n % 10)];
      DigitsValueSnoc(NatDigits(n / 10), DigitChar(n % 10));
      s
  }

  /** A decimal reader: an optional minus sign followed by at least one digit. */
  function ParseDecimal(s: string): Option<int>
  {
    if |s| >= 2 && s[0] == '-' && AllDigits(s[1..]) then Some(0 - DigitsValue(s[1..]) as int)
    else if |s| >= 1 && AllDigits(s) then Some(DigitsValue(s))
    else None
  }

  /** strconv.Itoa: the decimal text of n; a minus sign exactly when n is negative. */
  function Itoa(n: int): (s: string)
    ensures |s| >= 1
    ensures (s[0] == '-') == (n < 0)
    ensures ParseDecimal(s) == Some(n)
    ensures s[0] != '-' && |s| >= 2 ==> s[0] != '0'
    ensures n < 0 ==> |s| >= 2 && s[1] != '0'
  {
    if n < 0 then
      var s := "-" + NatDigits(-n);
      assert s[1..] == NatDigits(-n);
      s
    else NatDigits(n)
  }

  /**
   * fmt.Sprintf("%02d", n): zero-padded to width two. For a negative n the
   * sign takes one of the two columns, so -5 is spelled "-5", not "-05".
   */
  function Pad2(n: int): (s: string)
    ensures ParseDecimal(s) == Some(n)
    ensures 0 <= n < 100 ==> |s| == 2 && AllDigits(s) && DigitsValue(s) == n
    ensures n < 0 ==> |s| >= 2 && s[0] == '-'
    ensures n >= 100 ==> |s| > 2 && AllDigits(s)
    ensures n < 0 ==> s[1] != '0'
    ensures n >= 100 ==> s[0] != '0'
  {
    if 0 <= n < 10 then
      var s := "0" + Itoa(n);
      DigitsValueLeadingZero(Itoa(n));
      s
    else
      var s := Itoa(n);
      assert n >= 100 ==> |s| > 2 by {
        if n >= 100 { NatDigitsLength(n); }
      }
      s
  }

  lemma {:induction false} NatDigitsLength(n: nat)
    ensures |NatDigits(n)| >= 1 + (if n >= 100 then 2 else if n >= 10 then 1 else 0)
  {
    if n >= 10 {
      NatDigitsLength(n / 10);
    }
  }

  /** Go's integer division on a positive divisor: the quotient truncated toward zero. */
  function Quot(a: int, b: int): (q: int)
    requires b > 0
    ensures a >= 0 ==> 0 <= a - q * b < b
    ensures a < 0 ==> -b < a - q * b <= 0
  {
    if a >= 0 then a / b else -((-a) / b)
  }

  /**
   * strconv.ParseBool: the six spellings of true and the six of false are
   * accepted, everything else is a syntax error (None).
   */
  function ParseBool(s: string): (r: Option<bool>)
    ensures r.Some? ==> 1 <= |s| <= 5
  {
    if s in {"1", "t", "T", "TRUE", "true", "True"} then Some(true)
    else if s in {"0", "f", "F", "FALSE", "false", "False"} then Some(false)
    else None
  }

  /** strings.Join. */
  function Join(xs: seq<string>, sep: string): string
  {
    if |xs| == 0 then "" else if |xs| == 1 then xs[0] else xs[0] + sep + Join(xs[1..], sep)
  }
}
