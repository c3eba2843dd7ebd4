/**
 * String helpers the Go code takes from its standard library: the ASCII
 * character class of the path-parameter pattern, `strings.Index`,
 * `strings.Replace(s, pattern, replacement, 1)` and `fmt.Sprintf("%d", n)`.
 * A `char` stands for one byte of a Go string.
 */
module Text {
  import opened Wrappers

  /** The class `[a-zA-Z0-9]`. */
  predicate IsAlphaNum(c: char) {
    ('a' <= c <= 'z') || ('A' <= c <= 'Z') || ('0' <= c <= '9')
  }

  predicate IsDigit(c: char) {
    '0' <= c <= '9'
  }

  predicate OccursAt(s: string, sub: string, i: nat) {
    i + |sub| <= |s| && s[i..i + |sub|] == sub
  }

  /** `strings.Index`: the least position at which `sub` occurs in `s`. */
  function IndexOf(s: string, sub: string): (r: Option<nat>)
    ensures r.Some? ==> OccursAt(s, sub, r.value)
    ensures r.Some? ==> forall j :: 0 <= j < r.value ==> !OccursAt(s, sub, j)
    ensures r.None? ==> forall j :: 0 <= j <= |s| ==> !OccursAt(s, sub, j)
  {
    IndexFrom(s, sub, 0)
  }

  function IndexFrom(s: string, sub: string, i: nat): (r: Option<nat>)
    requires i <= |s|
    requires forall j :: 0 <= j < i ==> !OccursAt(s, sub, j)
    ensures r.Some? ==> i <= r.value && OccursAt(s, sub, r.value)
    ensures r.Some? ==> forall j :: 0 <= j < r.value ==> !OccursAt(s, sub, j)
    ensures r.None? ==> forall j :: 0 <= j <= |s| ==> !OccursAt(s, sub, j)
    decreases |s| - i
  {
    if OccursAt(s, sub, i) then Some(i)
    else if i == |s| then None
    else IndexFrom(s, sub, i + 1)
  }

  /**
   * `strings.Replace(s, pattern, replacement, 1)`. An empty pattern occurs at
   * position 0, so the replacement is then put in front of `s`.
   */
  function ReplaceFirst(s: string, pattern: string, replacement: string): string
  {
    match IndexOf(s, pattern)
    case None => s
    case Some(i) => s[..i] + replacement + s[i + |pattern|..]
  }

  /** At the first occurrence the pattern is swapped for the replacement; the text around it is kept. */
  lemma ReplaceFirstAt(s: string, pattern: string, replacement: string, i: nat)
    requires OccursAt(s, pattern, i)
    requires forall j :: 0 <= j < i ==> !OccursAt(s, pattern, j)
    ensures ReplaceFirst(s, pattern, replacement) == s[..i] + replacement + s[i + |pattern|..]
  {
  }

  /** Without an occurrence the string is returned as it is. */
  lemma ReplaceFirstAbsent(s: string, pattern: string, replacement: string)
    requires forall j :: 0 <= j <= |s| ==> !OccursAt(s, pattern, j)
    ensures ReplaceFirst(s, pattern, replacement) == s
  {
  }

  function DigitChar(d: nat): (c: char)
    requires d < 10
    ensures IsDigit(c)
  {
    (('0' as int) + d) as char
  }

  function DigitValue(c: char): nat
    requires IsDigit(c)
  {
    (c as int) - ('0' as int)
  }

  /** The decimal digits of `n`, most significant first, without leading zeros. */
  function Digits(n: nat): (s: string)
    ensures |s| > 0
    ensures forall i :: 0 <= i < |s| ==> IsDigit(s[i])
    decreases n
  {
    if n < 10 then [DigitChar(n)] else Digits(n / 10) + [DigitChar(n % 10)]
  }

  /** The number a string of decimal digits denotes. */
  function DigitsValue(s: string): nat
    requires forall i :: 0 <= i < |s| ==> IsDigit(s[i])
  {
    if s == [] then 0 else 10 * DigitsValue(s[..|s| - 1]) + DigitValue(s[|s| - 1])
  }

  /** Reading the digits back gives the number: `Digits` loses nothing. */
  lemma {:induction false} DigitsRoundTrip(n: nat)
    ensures DigitsValue(Digits(n)) == n
    decreases n
  {
    if n >= 10 {
      DigitsRoundTrip(n / 10);
      var s := Digits(n);
      assert s[..|s| - 1] == Digits(n / 10);
      assert DigitValue(DigitChar(n % 10)) == n % 10;
    } else {
      assert DigitValue(DigitChar(n)) == n;
    }
  }

  /** Only zero is written with a leading '0', and then as "0" alone. */
  lemma {:induction false} DigitsNoLeadingZero(n: nat)
    ensures Digits(n)[0] == '0' <==> n == 0
    ensures |Digits(n)| > 1 ==> Digits(n)[0] != '0'
    decreases n
  {
    if n >= 10 {
      DigitsNoLeadingZero(n / 10);
      assert Digits(n)[0] == Digits(n / 10)[0];
    } else {
      assert DigitValue(DigitChar(n)) == n;
    }
  }

  /** `fmt.Sprintf("%d", n)`: an optional minus sign followed by the digits. */
  function Decimal(n: int): (s: string)
    ensures |s| > 0
    ensures IsDigit(s[0]) || s[0] == '-'
    ensures forall i :: 0 < i < |s| ==> IsDigit(s[i])
  {
    if n < 0 then "-" + Digits(-n) else Digits(n)
  }

  /**
   * `%d` writes a minus sign exactly for a negative number, "0" for zero,
   * and otherwise digits without a leading zero that read back as the
   * number's magnitude.
   */
  lemma DecimalRoundTrip(n: int)
    ensures Decimal(n)[0] == '-' <==> n < 0
    ensures Decimal(n)[0] == '0' <==> n == 0
    ensures n == 0 ==> Decimal(n) == "0"
    ensures n >= 0 ==> DigitsValue(Decimal(n)) == n
    ensures n < 0 ==> |Decimal(n)| > 1 && Decimal(n)[1] != '0' && DigitsValue(Decimal(n)[1..]) == -n
  {
    var s := Decimal(n);
    if n < 0 {
      DigitsRoundTrip(-n);
      DigitsNoLeadingZero(-n);
      assert s[1..] == Digits(-n);
    } else {
      DigitsRoundTrip(n);
      DigitsNoLeadingZero(n);
    }
  }
}
