// The pieces of JavaScript string handling that the quest engine relies on:
// `\d` in a regular expression, `parseInt` of a run of digits, the decimal
// rendering of a number in a template literal, and `s.split(' ')[0]`.

module Text {

  /** `\d` in a JavaScript regular expression: an ASCII decimal digit. */
  predicate IsDigit(c: char) {
    '0' <= c <= '9'
  }

  predicate AllDigits(s: string) {
    forall i :: 0 <= i < |s| ==> IsDigit(s[i])
  }

  predicate NoDigits(s: string) {
    forall i :: 0 <= i < |s| ==> !IsDigit(s[i])
  }

  function DigitValue(c: char): (d: nat)
    requires IsDigit(c)
    ensures d < 10
  {
    c as int - '0' as int
  }

  function DigitChar(d: nat): (c: char)
    requires d < 10
    ensures IsDigit(c) && DigitValue(c) == d
  {
    (d + '0' as int) as char
  }

  /** `parseInt` of a string of decimal digits (leading zeros are allowed). */
  function ParseDigits(s: string): nat
    requires AllDigits(s)
  {
    if s == [] then 0 else ParseDigits(s[..|s| - 1]) * 10 + DigitValue(s[|s| - 1])
  }

  /** The value is 0 exactly when every digit is '0'. */
  lemma {:induction false} ParseDigitsZero(s: string)
    requires AllDigits(s)
    ensures ParseDigits(s) == 0 <==> forall i :: 0 <= i < |s| ==> s[i] == '0'
    decreases |s|
  {
    if s != [] {
      var init := s[..|s| - 1];
      assert forall i :: 0 <= i < |init| ==> init[i] == s[i];
      ParseDigitsZero(init);
    }
  }

  /** Rendering a parsed digit string gives it back, unless it has a leading
      zero (which `${parseInt(s)}` drops). */
  lemma {:induction false} ParseDigitsRoundTrip(s: string)
    requires |s| >= 1 && AllDigits(s)
    requires s[0] != '0' || s == "0"
    ensures NatToString(ParseDigits(s)) == s
    decreases |s|
  {
    var init, c := s[..|s| - 1], s[|s| - 1];
    var n := ParseDigits(s);
    if init == [] {
      assert s == [c];
      assert DigitChar(DigitValue(c)) == c;
    } else {
      assert init[0] == s[0] != '0';
      ParseDigitsRoundTrip(init);
      ParseDigitsZero(init);
      assert ParseDigits(init) != 0;
      assert n / 10 == ParseDigits(init) && n % 10 == DigitValue(c);
      assert DigitChar(DigitValue(c)) == c;
      assert s == init + [c];
    }
  }

  /** The decimal rendering of a number, as `${n}` produces it: at least one
      digit, no leading zero, and `parseInt` reads the number back. */
  function NatToString(n: nat): (s: string)
    ensures |s| >= 1 && AllDigits(s)
    ensures ParseDigits(s) == n
    ensures s[0] == '0' <==> n == 0
    ensures n == 0 ==> s == "0"
  {
    if n < 10 then [DigitChar(n)]
    else
      var prefix := NatToString(n / 10);
      var s := prefix + [DigitChar(n % 10)];
      assert s[..|s| - 1] == prefix;
      s
  }

  /** The characters of `s` that are not digits, in order. */
  function WithoutDigits(s: string): string
  {
    if s == [] then []
    else if IsDigit(s[0]) then WithoutDigits(s[1..])
    else [s[0]] + WithoutDigits(s[1..])
  }

  lemma {:induction false} WithoutDigitsAppend(a: string, b: string)
    ensures WithoutDigits(a + b) == WithoutDigits(a) + WithoutDigits(b)
    decreases |a|
  {
    if a == [] {
      assert a + b == b;
    } else {
      assert (a + b)[1..] == a[1..] + b;
      WithoutDigitsAppend(a[1..], b);
    }
  }

  lemma {:induction false} WithoutDigitsOfDigits(d: string)
    requires AllDigits(d)
    ensures WithoutDigits(d) == []
    decreases |d|
  {
    if d != [] {
      WithoutDigitsOfDigits(d[1..]);
    }
  }

  /** Length of the longest prefix of `s` made of digits. */
  function DigitPrefixLength(s: string): (k: nat)
    ensures k <= |s| && AllDigits(s[..k])
    ensures k < |s| ==> !IsDigit(s[k])
    ensures |s| > 0 && IsDigit(s[0]) ==> k >= 1
  {
    if s == [] || !IsDigit(s[0]) then 0
    else
      var k := 1 + DigitPrefixLength(s[1..]);
      assert s[..k] == [s[0]] + s[1..][..k - 1];
      k
  }

  /** `s.split(' ')[0]`: the part of `s` before its first ASCII space
      (all of `s` when it has none, "" when it starts with one). */
  function FirstWord(s: string): (w: string)
    ensures w <= s
    ensures ' ' !in w
    ensures |w| < |s| ==> s[|w|] == ' '
  {
    if s == [] || s[0] == ' ' then [] else [s[0]] + FirstWord(s[1..])
  }

  /** Appending a space-led suffix keeps the first word, so a quest whose
      title is extended with " (…)" stays the same quest type. */
  lemma {:induction false} FirstWordOfExtended(s: string, suffix: string)
    requires |suffix| > 0 && suffix[0] == ' '
    ensures FirstWord(s + suffix) == FirstWord(s)
  {
    if s == [] {
    } else if s[0] == ' ' {
    } else {
      assert (s + suffix)[1..] == s[1..] + suffix;
      FirstWordOfExtended(s[1..], suffix);
    }
  }
}
