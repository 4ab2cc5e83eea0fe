/**
 * Text helpers: decimal rendering and parsing (the model's stand-in for
 * ISO-8601 timestamps), twelve-digit hexadecimal identifiers (the
 * `uuid4().hex[:12]` suffixes) and string joining.
 */
module Text {
  import opened Wrappers

  const HexAlphabet := "0123456789abcdef"
  /** Twelve hex digits, the width of every generated identifier suffix. */
  const IdWidth: nat := 12

  predicate IsDigit(c: char) {
    '0' <= c <= '9'
  }

  function DigitChar(d: nat): (c: char)
    requires d < 10
    ensures IsDigit(c)
  {
    "0123456789"[d]
  }

  function DigitValue(c: char): nat
    requires IsDigit(c)
  {
    (c as int - '0' as int) as nat
  }

  /** The decimal digits of `n`, most significant first, without leading zeros. */
  function DecimalText(n: nat): (s: string)
    ensures s != [] && forall i :: 0 <= i < |s| ==> IsDigit(s[i])
  {
    if n < 10 then [DigitChar(n)] else DecimalText(n / 10) + [DigitChar(n % 10)]
  }

  /** `str(i)` for an integer. */
  function IntText(i: int): string {
    if i < 0 then "-" + DecimalText(-i) else DecimalText(i)
  }

  function DigitsValue(s: string): nat
    requires forall i :: 0 <= i < |s| ==> IsDigit(s[i])
  {
    if s == [] then 0 else DigitsValue(s[..|s| - 1]) * 10 + DigitValue(s[|s| - 1])
  }

  /** Parses a non-empty run of decimal digits; anything else is refused. */
  function ParseDecimal(s: string): (r: Option<nat>)
    ensures r.Some? <==> s != [] && forall i :: 0 <= i < |s| ==> IsDigit(s[i])
  {
    if s != [] && forall i :: 0 <= i < |s| ==> IsDigit(s[i]) then Some(DigitsValue(s)) else None
  }

  lemma {:induction false} DigitsValueOfDecimal(n: nat)
    ensures DigitsValue(DecimalText(n)) == n
  {
    if n >= 10 {
      var s := DecimalText(n / 10) + [DigitChar(n % 10)];
      assert s[..|s| - 1] == DecimalText(n / 10);
      DigitsValueOfDecimal(n / 10);
    }
  }

  /** Rendering then parsing gives the number back. */
  lemma ParseDecimalText(n: nat)
    ensures ParseDecimal(DecimalText(n)) == Some(n)
  {
    DigitsValueOfDecimal(n);
  }

  /** The last `width` hexadecimal digits of `n`, lower case. */
  function HexDigits(n: nat, width: nat): (s: string)
    ensures |s| == width
    ensures forall i :: 0 <= i < |s| ==> s[i] in HexAlphabet
  {
    if width == 0 then [] else HexDigits(n / 16, width - 1) + [HexAlphabet[n % 16]]
  }

  predicate IsHexId(s: string) {
    |s| == IdWidth && forall i :: 0 <= i < |s| ==> s[i] in HexAlphabet
  }

  /** A twelve-digit identifier suffix drawn from a counter. */
  function HexId(n: nat): (s: string)
    ensures IsHexId(s)
  {
    HexDigits(n, IdWidth)
  }

  function Pow16(k: nat): (p: nat)
    ensures p > 0
  {
    if k == 0 then 1 else 16 * Pow16(k - 1)
  }

  function HexAlphabetIndex(c: char): nat
    requires c in HexAlphabet
    ensures HexAlphabetIndex(c) < 16 && HexAlphabet[HexAlphabetIndex(c)] == c
  {
    if c == HexAlphabet[0] then 0
    else if c == HexAlphabet[1] then 1 else if c == HexAlphabet[2] then 2
    else if c == HexAlphabet[3] then 3 else if c == HexAlphabet[4] then 4
    else if c == HexAlphabet[5] then 5 else if c == HexAlphabet[6] then 6
    else if c == HexAlphabet[7] then 7 else if c == HexAlphabet[8] then 8
    else if c == HexAlphabet[9] then 9 else if c == HexAlphabet[10] then 10
    else if c == HexAlphabet[11] then 11 else if c == HexAlphabet[12] then 12
    else if c == HexAlphabet[13] then 13 else if c == HexAlphabet[14] then 14
    else 15
  }

  /** The number a run of hex digits denotes. */
  function HexValue(s: string): nat
    requires forall i :: 0 <= i < |s| ==> s[i] in HexAlphabet
  {
    if s == [] then 0 else HexValue(s[..|s| - 1]) * 16 + HexAlphabetIndex(s[|s| - 1])
  }

  /** Two counters yield the same suffix exactly when they agree modulo 16^width. */
  lemma {:induction false} HexDigitsValue(n: nat, width: nat)
    ensures HexValue(HexDigits(n, width)) == n % Pow16(width)
  {
    if width > 0 {
      var s := HexDigits(n, width);
      assert s[..|s| - 1] == HexDigits(n / 16, width - 1);
      HexDigitsValue(n / 16, width - 1);
      HexAlphabetIndexOfDigit(n % 16);
      ModSplit(n, Pow16(width - 1));
    }
  }

  lemma HexAlphabetIndexOfDigit(d: nat)
    requires d < 16
    ensures HexAlphabetIndex(HexAlphabet[d]) == d
  {
  }

  lemma {:induction false} MulAtLeast(d: nat, k: nat)
    requires k >= 1
    ensures d * k >= d
  {
    if k > 1 {
      MulAtLeast(d, k - 1);
      assert d * k == d * (k - 1) + d;
    }
  }

  lemma ModUnique(n: nat, d: nat, a: nat, b: nat)
    requires d > 0 && b < d && n == d * a + b
    ensures n % d == b
  {
    var q, r := n / d, n % d;
    assert d * q + r == d * a + b;
    if a > q {
      MulAtLeast(d, a - q);
    } else if q > a {
      MulAtLeast(d, q - a);
    }
  }

  lemma ModSplit(n: nat, p: nat)
    requires p > 0
    ensures (n / 16) % p * 16 + n % 16 == n % (16 * p)
  {
    var q, r := n / 16, n % 16;
    var a, b := q / p, q % p;
    assert q == p * a + b;
    assert n == 16 * q + r;
    assert n == (16 * p) * a + (16 * b + r) by {
      assert 16 * q == 16 * (p * a) + 16 * b;
      assert 16 * (p * a) == (16 * p) * a;
    }
    ModUnique(n, 16 * p, a, 16 * b + r);
  }

  /** Distinct counters below 16^12 give distinct identifiers. */
  lemma HexIdInjective(m: nat, n: nat)
    requires m < Pow16(IdWidth) && n < Pow16(IdWidth) && m != n
    ensures HexId(m) != HexId(n)
  {
    var p := Pow16(IdWidth);
    HexDigitsValue(m, IdWidth);
    HexDigitsValue(n, IdWidth);
    ModUnique(m, p, 0, m);
    ModUnique(n, p, 0, n);
  }

  /** `sep.join(parts)`. */
  function Join(parts: seq<string>, sep: string): (s: string)
    ensures parts == [] ==> s == []
    ensures |parts| == 1 ==> s == parts[0]
  {
    if parts == [] then [] else if |parts| == 1 then parts[0] else parts[0] + sep + Join(parts[1..], sep)
  }
}
