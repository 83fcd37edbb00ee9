/**
 * The string formatting the billing code relies on: Python's decimal
 * `str(n)`, the zero-padded `{n:0Wd}` format, `str.replace` of one
 * character, `str.isdigit`, `str.strip` and `" ".join`.
 */
module Text {

  predicate IsDigit(c: char)
  {
    '0' <= c <= '9'
  }

  /** Python's `str.isdigit()` on ASCII text: non-empty and digits only. */
  predicate IsDigits(s: string)
  {
    |s| > 0 && forall i :: 0 <= i < |s| ==> IsDigit(s[i])
  }

  predicate AllDigits(s: string)
  {
    forall i :: 0 <= i < |s| ==> IsDigit(s[i])
  }

  function DigitChar(d: nat): (c: char)
    requires d < 10
    ensures IsDigit(c) && (c as int) - ('0' as int) == d
  {
    (('0' as int) + d) as char
  }

  /** Decimal digits of n without leading zeros, "0" for zero. */
  function Digits(n: nat): (s: string)
    ensures |s| >= 1 && AllDigits(s)
    ensures s[0] == '0' ==> n == 0
  {
    if n < 10 then [DigitChar(n)] else Digits(n / 10) + [DigitChar(n % 10)]
  }

  /** The number a string of decimal digits denotes (leading zeros allowed). */
  function Value(s: string): nat
    requires AllDigits(s)
  {
    if s == [] then 0 else 10 * Value(s[..|s| - 1]) + ((s[|s| - 1] as int) - ('0' as int))
  }

  lemma {:induction false} ValueOfDigits(n: nat)
    ensures Value(Digits(n)) == n
  {
    if n >= 10 {
      var s := Digits(n);
      assert s[..|s| - 1] == Digits(n / 10);
      ValueOfDigits(n / 10);
    }
  }

  function Zeros(k: nat): (s: string)
    ensures |s| == k && AllDigits(s)
    ensures forall i :: 0 <= i < k ==> s[i] == '0'
  {
    if k == 0 then [] else Zeros(k - 1) + ['0']
  }

  lemma {:induction false} ValueAfterZeros(k: nat, s: string)
    requires AllDigits(s)
    ensures AllDigits(Zeros(k) + s) && Value(Zeros(k) + s) == Value(s)
    decreases |s|, k
  {
    if s == [] {
      assert Zeros(k) + s == Zeros(k);
      if k > 0 {
        assert Zeros(k)[..k - 1] == Zeros(k - 1);
        ValueAfterZeros(k - 1, s);
        assert Zeros(k - 1) + s == Zeros(k - 1);
      }
    } else {
      var init := s[..|s| - 1];
      assert (Zeros(k) + s)[..|Zeros(k) + s| - 1] == Zeros(k) + init;
      ValueAfterZeros(k, init);
    }
  }

  /** Python's `f"{n:0{width}d}"`: sign first, then zeros up to the width; never truncates. */
  function ZeroPad(n: int, width: nat): (s: string)
    ensures |s| >= width && |s| >= 1
  {
    if n >= 0 then
      var d := Digits(n);
      (if |d| < width then Zeros(width - |d|) else []) + d
    else
      var d := Digits(-n);
      "-" + (if |d| + 1 < width then Zeros(width - 1 - |d|) else []) + d
  }

  /** Python's `str(n)` for an integer. */
  function IntToString(n: int): (s: string)
    ensures s == ZeroPad(n, 0)
  {
    if n >= 0 then Digits(n) else "-" + Digits(-n)
  }

  /** Reads back what `ZeroPad` wrote: an optional minus sign, then digits. */
  function ParseSigned(s: string): int
    requires |s| >= 1 && (if s[0] == '-' then AllDigits(s[1..]) else AllDigits(s))
  {
    if s[0] == '-' then -(Value(s[1..]) as int) else Value(s)
  }

  lemma ParseZeroPad(n: int, width: nat)
    ensures var s := ZeroPad(n, width);
      (if s[0] == '-' then AllDigits(s[1..]) else AllDigits(s)) && ParseSigned(s) == n
  {
    var s := ZeroPad(n, width);
    if n >= 0 {
      var d := Digits(n);
      var k := if |d| < width then width - |d| else 0;
      assert s == Zeros(k) + d;
      ValueAfterZeros(k, d);
      assert IsDigit(s[0]);
      ValueOfDigits(n);
      assert ParseSigned(s) == Value(s);
    } else {
      var d := Digits(-n);
      var k := if |d| + 1 < width then width - 1 - |d| else 0;
      var tail := Zeros(k) + d;
      assert s == "-" + tail;
      assert s[0] == '-' && s[1..] == tail;
      ValueAfterZeros(k, d);
      ValueOfDigits(-n);
      assert ParseSigned(s) == -(Value(tail) as int);
    }
  }

  /** Two numbers padded to the same width give the same text only if they are equal. */
  lemma ZeroPadInjective(n: int, m: int, width: nat)
    requires ZeroPad(n, width) == ZeroPad(m, width)
    ensures n == m
  {
    ParseZeroPad(n, width);
    ParseZeroPad(m, width);
  }

  /** Python's `s.replace(a, b)` for single characters. */
  function Replace(s: string, a: char, b: char): (r: string)
    ensures |r| == |s|
    ensures forall i :: 0 <= i < |s| ==> r[i] == (if s[i] == a then b else s[i])
  {
    if s == [] then [] else Replace(s[..|s| - 1], a, b) + [if s[|s| - 1] == a then b else s[|s| - 1]]
  }

  /** After replacing `a` by a different character, no `a` is left. */
  lemma ReplaceRemoves(s: string, a: char, b: char)
    requires a != b
    ensures a !in Replace(s, a, b)
  {
  }

  function TrimStart(s: string): (r: string)
    ensures |r| <= |s| && r == s[|s| - |r|..]
    ensures r == [] || r[0] != ' '
    ensures forall i :: 0 <= i < |s| - |r| ==> s[i] == ' '
  {
    if s != [] && s[0] == ' ' then TrimStart(s[1..]) else s
  }

  function TrimEnd(s: string): (r: string)
    ensures |r| <= |s| && r == s[..|r|]
    ensures r == [] || r[|r| - 1] != ' '
    ensures forall i :: |r| <= i < |s| ==> s[i] == ' '
  {
    if s != [] && s[|s| - 1] == ' ' then TrimEnd(s[..|s| - 1]) else s
  }

  /** Python's `str.strip()` on text whose only whitespace is the space. */
  function Strip(s: string): (r: string)
    ensures r == [] || (r[0] != ' ' && r[|r| - 1] != ' ')
    // r is one stretch of s, and everything of s before and after that stretch is a space
    ensures exists lo ::
              && 0 <= lo <= |s| - |r| && s[lo..][..|r|] == r
              && (forall i :: 0 <= i < lo ==> s[i] == ' ')
              && (forall i :: lo + |r| <= i < |s| ==> s[i] == ' ')
  {
    var e := TrimEnd(s);
    var r := TrimStart(e);
    var lo := |e| - |r|;
    assert s[lo..][..|r|] == r;
    r
  }

  /** Python's `" ".join(parts)`. */
  function JoinSpaces(parts: seq<string>): string
  {
    if parts == [] then ""
    else if |parts| == 1 then parts[0]
    else JoinSpaces(parts[..|parts| - 1]) + " " + parts[|parts| - 1]
  }
}
