/** The string formatting the notifications rely on: Python's `str` of an
    integer, the `repr` of a float that holds a whole number of hundredths
    (what `round(x, 2)` produces), ASCII `str.upper`, and messages made of
    newline-terminated lines. */
module Text {
  import opened Wrappers

  predicate IsDigit(c: char) {
    '0' <= c <= '9'
  }

  predicate AllDigits(s: string) {
    forall i :: 0 <= i < |s| ==> IsDigit(s[i])
  }

  function DigitChar(d: nat): (c: char)
    requires d < 10
    ensures IsDigit(c)
  {
    (d + '0' as int) as char
  }

  function DigitValue(c: char): (d: nat)
    requires IsDigit(c)
    ensures d < 10 && DigitChar(d) == c
  {
    c as int - '0' as int
  }

  /** Python's `str(n)` for a non-negative integer: decimal digits, no leading zero. */
  function NatToString(n: nat): (s: string)
    ensures |s| > 0 && AllDigits(s)
    ensures |s| > 1 ==> s[0] != '0'
    ensures n < 10 <==> |s| == 1
  {
    if n < 10 then [DigitChar(n)] else NatToString(n / 10) + [DigitChar(n % 10)]
  }

  /** The number a string of decimal digits denotes (its most significant digit first). */
  function DigitsValue(s: string): nat
    requires AllDigits(s)
  {
    if s == [] then 0 else DigitsValue(s[..|s| - 1]) * 10 + DigitValue(s[|s| - 1])
  }

  /** Reading the decimal text back gives the number: `int(str(n)) == n`. */
  lemma {:induction false} NatToStringRoundTrip(n: nat)
    ensures DigitsValue(NatToString(n)) == n
  {
    if n >= 10 {
      var s := NatToString(n);
      assert s[..|s| - 1] == NatToString(n / 10);
      NatToStringRoundTrip(n / 10);
    }
  }

  /** Two numbers with the same decimal text are equal. */
  lemma NatToStringInjective(m: nat, n: nat)
    requires NatToString(m) == NatToString(n)
    ensures m == n
  {
    NatToStringRoundTrip(m);
    NatToStringRoundTrip(n);
  }

  /** The fractional digits of the `repr` of a float holding `f` hundredths
      after the point: one digit when the second would be a zero, two otherwise. */
  function FractionDigits(f: nat): (s: string)
    requires f < 100
    ensures 1 <= |s| <= 2 && AllDigits(s)
    ensures |s| == 2 ==> s[1] != '0'
  {
    if f % 10 == 0 then [DigitChar(f / 10)] else [DigitChar(f / 10), DigitChar(f % 10)]
  }

  /** Value, in hundredths, of one or two digits written after a decimal point. */
  function FractionValue(s: string): nat
    requires 1 <= |s| <= 2 && AllDigits(s)
  {
    if |s| == 1 then DigitValue(s[0]) * 10 else DigitValue(s[0]) * 10 + DigitValue(s[1])
  }

  /** Python's `str(x)` of a float `x` that equals `h / 100` exactly
      (`96.0`, `96.5`, `0.05`): the integer part, a point, then one or two digits. */
  function FormatHundredths(h: nat): (s: string)
  {
    NatToString(h / 100) + "." + FractionDigits(h % 100)
  }

  /** Index of the first `c` in `s`, or `|s|` when there is none. */
  function IndexOf(s: string, c: char): (k: nat)
    ensures k <= |s|
    ensures k < |s| ==> s[k] == c
    ensures forall i :: 0 <= i < k ==> s[i] != c
  {
    if s == [] then 0 else if s[0] == c then 0 else 1 + IndexOf(s[1..], c)
  }

  lemma {:induction false} IndexOfFirst(s: string, c: char, k: nat)
    requires k < |s| && s[k] == c
    requires forall i :: 0 <= i < k ==> s[i] != c
    ensures IndexOf(s, c) == k
  {
    if k > 0 {
      IndexOfFirst(s[1..], c, k - 1);
    }
  }

  /** Reads a decimal number with one or two fractional digits back into hundredths. */
  function ParseHundredths(s: string): Option<nat>
  {
    var k := IndexOf(s, '.');
    if k == |s| then None
    else
      var whole, frac := s[..k], s[k + 1..];
      if 0 < |whole| && AllDigits(whole) && 1 <= |frac| <= 2 && AllDigits(frac)
      then Some(DigitsValue(whole) * 100 + FractionValue(frac))
      else None
  }

  /** The percentage text loses nothing: parsing it back gives the same hundredths. */
  lemma FormatHundredthsRoundTrip(h: nat)
    ensures ParseHundredths(FormatHundredths(h)) == Some(h)
  {
    var whole, frac := NatToString(h / 100), FractionDigits(h % 100);
    var s := FormatHundredths(h);
    assert s == whole + ['.'] + frac;
    assert s[|whole|] == '.';
    IndexOfFirst(s, '.', |whole|);
    assert s[..|whole|] == whole;
    assert s[|whole| + 1..] == frac;
    NatToStringRoundTrip(h / 100);
  }

  /** Python's `str.upper` on one character, restricted to ASCII letters. */
  function UpperChar(c: char): char {
    if 'a' <= c <= 'z' then (c as int - 32) as char else c
  }

  function Upper(s: string): (u: string)
    ensures |u| == |s|
    ensures forall i :: 0 <= i < |s| ==> u[i] == UpperChar(s[i])
  {
    seq(|s|, i requires 0 <= i < |s| => UpperChar(s[i]))
  }

  /** `s.upper() == "ALL"` holds for exactly the eight spellings of "all". */
  lemma UpperIsAll(s: string)
    ensures Upper(s) == "ALL" <==>
      |s| == 3 && s[0] in {'a', 'A'} && s[1] in {'l', 'L'} && s[2] in {'l', 'L'}
  {
    if Upper(s) == "ALL" {
      assert UpperChar(s[0]) == 'A' && UpperChar(s[1]) == 'L' && UpperChar(s[2]) == 'L';
    }
  }

  /** `c * n` in Python for a one-character string `c`. */
  function Repeat(c: char, n: nat): (s: string)
    ensures |s| == n
    ensures forall i :: 0 <= i < n ==> s[i] == c
  {
    seq(n, _ => c)
  }

  /** A message assembled from lines, each followed by a newline. */
  function JoinLines(lines: seq<string>): string
  {
    if lines == [] then "" else lines[0] + "\n" + JoinLines(lines[1..])
  }

  /** The lines of a message, each without its newline. */
  function SplitLines(s: string): seq<string>
  {
    if s == [] then []
    else
      var k := IndexOf(s, '\n');
      if k == |s| then [s] else [s[..k]] + SplitLines(s[k + 1..])
  }

  predicate NoNewline(s: string) {
    forall i :: 0 <= i < |s| ==> s[i] != '\n'
  }

  /** `text` is a decimal number reading back as `n`, followed by `unit`. */
  predicate ShowsWhole(text: string, n: nat, unit: string) {
    && |text| > |unit|
    && text[|text| - |unit|..] == unit
    && AllDigits(text[..|text| - |unit|])
    && DigitsValue(text[..|text| - |unit|]) == n
  }

  /** `text` is a two-decimal number reading back as `h` hundredths, followed by `unit`. */
  predicate ShowsHundredths(text: string, h: nat, unit: string) {
    && |text| >= |unit|
    && text[|text| - |unit|..] == unit
    && ParseHundredths(text[..|text| - |unit|]) == Some(h)
  }

  /** `str(n)` followed by a unit shows `n`. */
  lemma NatWithUnit(n: nat, unit: string)
    ensures ShowsWhole(NatToString(n) + unit, n, unit)
  {
    var t := NatToString(n) + unit;
    assert t[..|t| - |unit|] == NatToString(n);
    assert t[|t| - |unit|..] == unit;
    NatToStringRoundTrip(n);
  }

  /** A two-decimal text followed by a unit shows its hundredths. */
  lemma HundredthsWithUnit(h: nat, unit: string)
    ensures ShowsHundredths(FormatHundredths(h) + unit, h, unit)
  {
    var t := FormatHundredths(h) + unit;
    assert t[..|t| - |unit|] == FormatHundredths(h);
    assert t[|t| - |unit|..] == unit;
    FormatHundredthsRoundTrip(h);
  }

  lemma NoNewlineAppend(s: string, t: string)
    requires NoNewline(s) && NoNewline(t)
    ensures NoNewline(s + t)
  {
    forall i | 0 <= i < |s + t| ensures (s + t)[i] != '\n' {
      if i >= |s| {
        assert (s + t)[i] == t[i - |s|];
      }
    }
  }

  /** Lines without newlines survive being joined into a message and split again. */
  lemma {:induction false} SplitJoinLines(lines: seq<string>)
    requires forall j :: 0 <= j < |lines| ==> NoNewline(lines[j])
    ensures SplitLines(JoinLines(lines)) == lines
  {
    if lines != [] {
      var head, rest := lines[0], JoinLines(lines[1..]);
      var s := JoinLines(lines);
      assert s == head + ['\n'] + rest;
      IndexOfFirst(s, '\n', |head|);
      assert s[..|head|] == head;
      assert s[|head| + 1..] == rest;
      SplitJoinLines(lines[1..]);
    }
  }
}
