// The two string rewriters applied to an escalated quest
// (QuestGenerator.enhanceQuestCondition and QuestGenerator.enhanceReward).
//
// Both are `String.prototype.replace` with a global regular expression and a
// replacement callback. Scanning left to right, `/(\d+)분/g` matches exactly
// the maximal runs of digits that are directly followed by '분' (an attempt
// that starts inside a run can only fail), and `/\+(\d+)/g` matches a '+'
// followed by the maximal run of digits after it. The recursive functions
// below follow that scan.

module Rewrite {
  import opened Text

  const MinuteMark: char := '분'
  const IntensifierSuffix: string := " (더 적극적으로)"

  /** `Math.ceil(n * 1.5)`, exactly. */
  function CeilThreeHalves(n: nat): (r: nat)
    ensures 2 * r >= 3 * n && 2 * r < 3 * n + 2
    ensures r >= n && (r == n <==> n == 0)
  {
    (3 * n + 1) / 2
  }

  /** `Math.ceil(n * multiplier)` for a multiplier given in tenths
      (`tenths == 11` stands for 1.1), exactly. */
  function ScalePoints(n: nat, tenths: nat): (r: nat)
    ensures 10 * r >= n * tenths && 10 * r < n * tenths + 10
    ensures tenths >= 10 ==> r >= n
  {
    (n * tenths + 9) / 10
  }

  /** `condition.replace(/(\d+)분/g, …)`: every maximal run of digits followed
      by '분' is replaced by the ceiling of 1.5 times its value. */
  function RewriteMinutes(s: string): string
    decreases |s|
  {
    if s == [] then []
    else if !IsDigit(s[0]) then [s[0]] + RewriteMinutes(s[1..])
    else
      var k := DigitPrefixLength(s);
      if k < |s| && s[k] == MinuteMark then
        NatToString(CeilThreeHalves(ParseDigits(s[..k]))) + [MinuteMark] + RewriteMinutes(s[k + 1..])
      else
        s[..k] + RewriteMinutes(s[k..])
  }

  /** `reward.replace(/\+(\d+)/g, …)`: every '+' followed by a run of digits
      has that number scaled by the multiplier, rounding up. */
  function RewritePoints(s: string, tenths: nat): string
    decreases |s|
  {
    if s == [] then []
    else if s[0] == '+' && |s| > 1 && IsDigit(s[1]) then
      var k := DigitPrefixLength(s[1..]);
      ['+'] + NatToString(ScalePoints(ParseDigits(s[1..][..k]), tenths)) + RewritePoints(s[1 + k..], tenths)
    else [s[0]] + RewritePoints(s[1..], tenths)
  }

  /** Replacing one run of digits by another, and a tail by one with the same
      non-digits, keeps the non-digits. */
  lemma DigitsSwapped(d: string, mid: string, rest: string, d': string, rest': string)
    requires AllDigits(d) && AllDigits(d')
    requires WithoutDigits(rest) == WithoutDigits(rest')
    ensures WithoutDigits(d + mid + rest) == WithoutDigits(d' + mid + rest')
  {
    WithoutDigitsOfDigits(d);
    WithoutDigitsOfDigits(d');
    WithoutDigitsAppend(d, mid);
    WithoutDigitsAppend(d', mid);
    WithoutDigitsAppend(d + mid, rest);
    WithoutDigitsAppend(d' + mid, rest');
  }

  lemma DigitsSwappedAfterPlus(d: string, rest: string, d': string, rest': string)
    requires AllDigits(d) && AllDigits(d')
    requires WithoutDigits(rest) == WithoutDigits(rest')
    ensures WithoutDigits(['+'] + d + rest) == WithoutDigits(['+'] + d' + rest')
  {
    WithoutDigitsOfDigits(d);
    WithoutDigitsOfDigits(d');
    WithoutDigitsAppend(['+'], d);
    WithoutDigitsAppend(['+'], d');
    WithoutDigitsAppend(['+'] + d, rest);
    WithoutDigitsAppend(['+'] + d', rest');
  }

  lemma KeepsHead(c: char, t: string, t': string)
    requires WithoutDigits(t) == WithoutDigits(t')
    ensures WithoutDigits([c] + t) == WithoutDigits([c] + t')
  {
    assert ([c] + t)[1..] == t && ([c] + t')[1..] == t';
  }

  /** QuestGenerator.enhanceQuestCondition: the rewritten condition when the
      rewrite changed something, otherwise the condition with a fixed
      intensifier appended. The result always differs from the input. */
  function EnhanceQuestCondition(condition: string): (r: string)
    ensures r != condition
    ensures r == RewriteMinutes(condition) || r == condition + IntensifierSuffix
  {
    var enhanced := RewriteMinutes(condition);
    if enhanced != condition then enhanced else condition + IntensifierSuffix
  }

  /** QuestGenerator.enhanceReward: a reward without a '+' directly followed
      by a digit is returned as it is. */
  function EnhanceReward(reward: string, tenths: nat): (r: string)
    ensures !HasPointValue(reward) ==> r == reward
  {
    PointsUnchangedWithoutValue(reward, tenths);
    RewritePoints(reward, tenths)
  }

  // ---------------------------------------------------------------------
  // How the minute rewrite acts on the pieces of a string.

  lemma MinutesStep(s: string)
    requires s != [] && !IsDigit(s[0])
    ensures RewriteMinutes(s) == [s[0]] + RewriteMinutes(s[1..])
  {
  }

  /** Text without digits is copied unchanged. */
  lemma {:induction false} MinutesCopyDigitFree(p: string, x: string)
    requires NoDigits(p)
    ensures RewriteMinutes(p + x) == p + RewriteMinutes(x)
    decreases |p|
  {
    if p != [] {
      assert (p + x)[0] == p[0] && !IsDigit(p[0]);
      assert (p + x)[1..] == p[1..] + x;
      calc {
        RewriteMinutes(p + x);
        { MinutesStep(p + x); }
        [p[0]] + RewriteMinutes(p[1..] + x);
        { MinutesCopyDigitFree(p[1..], x); }
        [p[0]] + (p[1..] + RewriteMinutes(x));
        { assert p == [p[0]] + p[1..]; }
        p + RewriteMinutes(x);
      }
    } else {
      assert p + x == x;
    }
  }

  lemma {:induction false} DigitPrefixOf(d: string, t: string)
    requires |d| >= 1 && AllDigits(d)
    requires t == [] || !IsDigit(t[0])
    ensures DigitPrefixLength(d + t) == |d|
    ensures (d + t)[..|d|] == d && (d + t)[|d|..] == t
  {
    if |d| > 1 {
      assert (d + t)[1..] == d[1..] + t;
      DigitPrefixOf(d[1..], t);
    }
  }

  /** A run of digits followed by '분' becomes ceil(1.5·N) followed by '분'. */
  lemma MinutesScaleRun(d: string, t: string)
    requires |d| >= 1 && AllDigits(d)
    ensures RewriteMinutes(d + [MinuteMark] + t)
         == NatToString(CeilThreeHalves(ParseDigits(d))) + [MinuteMark] + RewriteMinutes(t)
  {
    var s := d + [MinuteMark] + t;
    assert s == d + ([MinuteMark] + t);
    DigitPrefixOf(d, [MinuteMark] + t);
    assert s[|d| + 1..] == t;
  }

  /** A run of digits followed by anything but a digit or '분' is copied. */
  lemma MinutesCopyOtherRun(d: string, t: string)
    requires |d| >= 1 && AllDigits(d)
    requires t == [] || (!IsDigit(t[0]) && t[0] != MinuteMark)
    ensures RewriteMinutes(d + t) == d + RewriteMinutes(t)
  {
    DigitPrefixOf(d, t);
  }

  /** The minute rewrite changes only digits: every other character of the
      condition stays, in order. */
  lemma {:induction false} MinutesKeepsNonDigits(s: string)
    ensures WithoutDigits(RewriteMinutes(s)) == WithoutDigits(s)
    decreases |s|, 1
  {
    if s == [] {
    } else if !IsDigit(s[0]) {
      MinutesStep(s);
      MinutesKeepsNonDigits(s[1..]);
      KeepsHead(s[0], s[1..], RewriteMinutes(s[1..]));
      assert s == [s[0]] + s[1..];
    } else {
      var k := DigitPrefixLength(s);
      var d, t := s[..k], s[k..];
      assert s == d + t;
      if t != [] && t[0] == MinuteMark {
        assert s == d + [MinuteMark] + t[1..];
        MinutesKeepsAfterMatchedRun(d, t[1..]);
      } else {
        MinutesCopyOtherRun(d, t);
        MinutesKeepsNonDigits(t);
        DigitsSwapped(d, [], t, d, RewriteMinutes(t));
        assert d + [] + t == d + t;
        assert d + [] + RewriteMinutes(t) == d + RewriteMinutes(t);
      }
    }
  }

  lemma {:induction false} MinutesKeepsAfterMatchedRun(d: string, t: string)
    requires |d| >= 1 && AllDigits(d)
    ensures WithoutDigits(RewriteMinutes(d + [MinuteMark] + t)) == WithoutDigits(d + [MinuteMark] + t)
    decreases |d| + 1 + |t|, 0
  {
    MinutesScaleRun(d, t);
    MinutesKeepsNonDigits(t);
    DigitsSwapped(d, [MinuteMark], t, NatToString(CeilThreeHalves(ParseDigits(d))), RewriteMinutes(t));
  }

  // ---------------------------------------------------------------------
  // When the minute rewrite changes nothing.

  /** s[i..k] is a run of digits that the pattern `(\d+)분` matches. */
  ghost predicate MinuteRun(s: string, i: int, k: int) {
    0 <= i < k < |s| && (i == 0 || !IsDigit(s[i - 1])) && AllDigits(s[i..k]) && s[k] == MinuteMark
  }

  /** Every minute value in `s` is written as the single digit 0. */
  ghost predicate AllMinuteValuesZero(s: string) {
    forall i, k :: MinuteRun(s, i, k) ==> s[i..k] == "0"
  }

  /** There is a digit directly followed by '분'. */
  ghost predicate HasMinuteValue(s: string) {
    exists i :: 0 < i < |s| && IsDigit(s[i - 1]) && s[i] == MinuteMark
  }

  /** A run of the text from position p on is a run of the whole text,
      provided it does not continue a run that starts before p. */
  lemma RunToWhole(s: string, p: nat, i: int, k: int)
    requires p <= |s| && MinuteRun(s[p..], i, k)
    requires i > 0 || p == 0 || !IsDigit(s[p - 1])
    ensures MinuteRun(s, i + p, k + p) && s[i + p..k + p] == s[p..][i..k]
  {
    assert s[i + p..k + p] == s[p..][i..k];
  }

  /** A run of the whole text from position p on is a run of the text from p. */
  lemma RunToTail(s: string, p: nat, i: int, k: int)
    requires p <= i && MinuteRun(s, i, k)
    ensures MinuteRun(s[p..], i - p, k - p) && s[p..][i - p..k - p] == s[i..k]
  {
    assert s[p..][i - p..k - p] == s[i..k];
  }

  lemma RunStartsWithDigit(s: string, i: int, k: int)
    requires MinuteRun(s, i, k)
    ensures IsDigit(s[i])
  {
    assert s[i..k][0] == s[i];
  }

  /** No run can start inside or just after a digit run that is not
      followed by '분', nor at a non-digit. */
  lemma NoRunStartingAt(s: string, i: int, k: int, k0: nat)
    requires 0 <= i <= k0 <= |s| && AllDigits(s[..k0])
    requires k0 < |s| ==> !IsDigit(s[k0])
    requires i == 0 ==> k0 == |s| || s[k0] != MinuteMark
    requires i > 0 ==> k0 > 0
    ensures !MinuteRun(s, i, k)
  {
  }

  /** The runs of `s` after a leading non-digit are those of its tail. */
  lemma RunsAfterNonDigit(s: string)
    requires s != [] && !IsDigit(s[0])
    ensures AllMinuteValuesZero(s) <==> AllMinuteValuesZero(s[1..])
  {
    var t := s[1..];
    forall i, k | MinuteRun(s, i, k) && AllMinuteValuesZero(t) ensures s[i..k] == "0" {
      if i > 0 {
        RunToTail(s, 1, i, k);
      }
    }
    forall i, k | MinuteRun(t, i, k) && AllMinuteValuesZero(s) ensures t[i..k] == "0" {
      RunToWhole(s, 1, i, k);
    }
  }

  /** A leading run followed by '분' is one minute value; the others are
      those of the text after the '분'. */
  lemma RunsAfterMatchedRun(s: string, k0: nat)
    requires 1 <= k0 < |s| && k0 == DigitPrefixLength(s) && s[k0] == MinuteMark
    ensures AllMinuteValuesZero(s) <==> s[..k0] == "0" && AllMinuteValuesZero(s[k0 + 1..])
  {
    var t := s[k0 + 1..];
    assert MinuteRun(s, 0, k0);
    forall i, k | MinuteRun(s, i, k) && s[..k0] == "0" && AllMinuteValuesZero(t) ensures s[i..k] == "0" {
      MatchedRunBefore(s, k0, i, k);
    }
    forall i, k | MinuteRun(t, i, k) && AllMinuteValuesZero(s) ensures t[i..k] == "0" {
      RunToWhole(s, k0 + 1, i, k);
    }
  }

  lemma MatchedRunBefore(s: string, k0: nat, i: int, k: int)
    requires 1 <= k0 < |s| && k0 == DigitPrefixLength(s) && s[k0] == MinuteMark
    requires MinuteRun(s, i, k) && s[..k0] == "0" && AllMinuteValuesZero(s[k0 + 1..])
    ensures s[i..k] == "0"
  {
    if i <= k0 {
      if i > 0 {
        NoRunStartingAt(s, i, k, k0);
      }
    } else {
      RunToTail(s, k0 + 1, i, k);
    }
  }

  /** A leading run not followed by '분' holds no minute value. */
  lemma RunsAfterUnmatchedRun(s: string, k0: nat)
    requires 1 <= k0 <= |s| && k0 == DigitPrefixLength(s) && (k0 == |s| || s[k0] != MinuteMark)
    ensures AllMinuteValuesZero(s) <==> AllMinuteValuesZero(s[k0..])
  {
    var t := s[k0..];
    forall i, k | MinuteRun(s, i, k) && AllMinuteValuesZero(t) ensures s[i..k] == "0" {
      UnmatchedRunBefore(s, k0, i, k);
    }
    forall i, k | MinuteRun(t, i, k) && AllMinuteValuesZero(s) ensures t[i..k] == "0" {
      UnmatchedRunAfter(s, k0, i, k);
    }
  }

  lemma UnmatchedRunBefore(s: string, k0: nat, i: int, k: int)
    requires 1 <= k0 <= |s| && k0 == DigitPrefixLength(s) && (k0 == |s| || s[k0] != MinuteMark)
    requires MinuteRun(s, i, k) && AllMinuteValuesZero(s[k0..])
    ensures s[i..k] == "0"
  {
    if i <= k0 {
      NoRunStartingAt(s, i, k, k0);
    } else {
      RunToTail(s, k0, i, k);
    }
  }

  lemma UnmatchedRunAfter(s: string, k0: nat, i: int, k: int)
    requires 1 <= k0 <= |s| && k0 == DigitPrefixLength(s)
    requires MinuteRun(s[k0..], i, k) && AllMinuteValuesZero(s)
    ensures s[k0..][i..k] == "0"
  {
    if i > 0 {
      RunToWhole(s, k0, i, k);
    } else {
      RunStartsWithDigit(s[k0..], i, k);
    }
  }

  /** Two digit runs, each followed by '분', line up only when they are equal. */
  lemma SplitAtMark(c: string, rest: string, d: string, t: string)
    requires AllDigits(c) && AllDigits(d)
    ensures c + [MinuteMark] + rest == d + [MinuteMark] + t <==> c == d && rest == t
  {
    var r := c + [MinuteMark] + rest;
    var s := d + [MinuteMark] + t;
    if r == s {
      if |c| < |d| {
        RunThenMark(d, t, |c|);
        RunThenMark(c, rest, |c|);
        assert false;
      } else if |d| < |c| {
        RunThenMark(c, rest, |d|);
        RunThenMark(d, t, |d|);
        assert false;
      } else {
        assert c == r[..|c|] && d == s[..|d|];
        assert rest == r[|c| + 1..] && t == s[|d| + 1..];
      }
    }
  }

  lemma RunThenMark(d: string, t: string, j: int)
    requires AllDigits(d) && 0 <= j <= |d|
    ensures IsDigit((d + [MinuteMark] + t)[j]) <==> j < |d|
  {
  }

  /** Scaling a minute value gives back the same text exactly when it is "0". */
  lemma ScaledRunUnchanged(d: string)
    requires |d| >= 1 && AllDigits(d)
    ensures NatToString(CeilThreeHalves(ParseDigits(d))) == d <==> d == "0"
  {
    var c := NatToString(CeilThreeHalves(ParseDigits(d)));
    if c == d {
      assert ParseDigits(d) == CeilThreeHalves(ParseDigits(d));
    }
    if d == "0" {
      assert ParseDigits(d) == 0;
    }
  }

  /** The minute rewrite leaves `s` unchanged exactly when every minute value
      in it is a bare 0; in particular when `s` has no minute value at all. */
  lemma {:induction false} MinutesFixpoint(s: string)
    ensures RewriteMinutes(s) == s <==> AllMinuteValuesZero(s)
    decreases |s|
  {
    if s == [] {
    } else if !IsDigit(s[0]) {
      MinutesFixpoint(s[1..]);
      FixpointAfterNonDigit(s);
    } else {
      var k0 := DigitPrefixLength(s);
      var d := s[..k0];
      if k0 < |s| && s[k0] == MinuteMark {
        var t := s[k0 + 1..];
        MinutesFixpoint(t);
        assert s == d + [MinuteMark] + t;
        FixpointAfterMatchedRun(d, t);
      } else {
        var t := s[k0..];
        MinutesFixpoint(t);
        assert s == d + t;
        FixpointAfterUnmatchedRun(d, t);
      }
    }
  }

  lemma FixpointAfterNonDigit(s: string)
    requires s != [] && !IsDigit(s[0])
    requires RewriteMinutes(s[1..]) == s[1..] <==> AllMinuteValuesZero(s[1..])
    ensures RewriteMinutes(s) == s <==> AllMinuteValuesZero(s)
  {
    RunsAfterNonDigit(s);
    assert s == [s[0]] + s[1..];
  }

  lemma FixpointAfterMatchedRun(d: string, t: string)
    requires |d| >= 1 && AllDigits(d)
    requires RewriteMinutes(t) == t <==> AllMinuteValuesZero(t)
    ensures var s := d + [MinuteMark] + t;
      RewriteMinutes(s) == s <==> AllMinuteValuesZero(s)
  {
    var s := d + [MinuteMark] + t;
    var c := NatToString(CeilThreeHalves(ParseDigits(d)));
    DigitPrefixOf(d, [MinuteMark] + t);
    assert s == d + ([MinuteMark] + t);
    MinutesScaleRun(d, t);
    assert s[|d|] == MinuteMark && s[..|d|] == d && s[|d| + 1..] == t;
    RunsAfterMatchedRun(s, |d|);
    SplitAtMark(c, RewriteMinutes(t), d, t);
    ScaledRunUnchanged(d);
  }

  lemma FixpointAfterUnmatchedRun(d: string, t: string)
    requires |d| >= 1 && AllDigits(d)
    requires t == [] || (!IsDigit(t[0]) && t[0] != MinuteMark)
    requires RewriteMinutes(t) == t <==> AllMinuteValuesZero(t)
    ensures RewriteMinutes(d + t) == d + t <==> AllMinuteValuesZero(d + t)
  {
    var s := d + t;
    DigitPrefixOf(d, t);
    MinutesCopyOtherRun(d, t);
    RunsAfterUnmatchedRun(s, |d|);
    if RewriteMinutes(s) == s {
      assert RewriteMinutes(t) == (d + RewriteMinutes(t))[|d|..];
    }
  }

  lemma RunHasMinuteValue(s: string, i: int, k: int)
    requires MinuteRun(s, i, k)
    ensures HasMinuteValue(s)
  {
    assert s[i..k][k - i - 1] == s[k - 1];
  }

  /** The escalated condition: the intensifier is appended exactly when every
      minute value is a bare 0 (so always when there is none); otherwise
      the rewritten text is returned. */
  lemma EnhanceQuestConditionCases(condition: string)
    ensures AllMinuteValuesZero(condition) ==> EnhanceQuestCondition(condition) == condition + IntensifierSuffix
    ensures !AllMinuteValuesZero(condition) ==> EnhanceQuestCondition(condition) == RewriteMinutes(condition)
    ensures HasMinuteValue(condition) || AllMinuteValuesZero(condition)
  {
    MinutesFixpoint(condition);
    if !AllMinuteValuesZero(condition) {
      var i, k :| MinuteRun(condition, i, k) && condition[i..k] != "0";
      RunHasMinuteValue(condition, i, k);
    }
  }

  // ---------------------------------------------------------------------
  // How the point rewrite acts on the pieces of a string.

  lemma PointsStep(s: string, tenths: nat)
    requires s != [] && s[0] != '+'
    ensures RewritePoints(s, tenths) == [s[0]] + RewritePoints(s[1..], tenths)
  {
  }

  /** Text without '+' is copied unchanged. */
  lemma {:induction false} PointsCopyPlusFree(p: string, x: string, tenths: nat)
    requires '+' !in p
    ensures RewritePoints(p + x, tenths) == p + RewritePoints(x, tenths)
    decreases |p|
  {
    if p != [] {
      assert (p + x)[0] == p[0] != '+';
      assert (p + x)[1..] == p[1..] + x;
      assert '+' !in p[1..];
      calc {
        RewritePoints(p + x, tenths);
        { PointsStep(p + x, tenths); }
        [p[0]] + RewritePoints(p[1..] + x, tenths);
        { PointsCopyPlusFree(p[1..], x, tenths); }
        [p[0]] + (p[1..] + RewritePoints(x, tenths));
        { assert p == [p[0]] + p[1..]; }
        p + RewritePoints(x, tenths);
      }
    } else {
      assert p + x == x;
    }
  }

  /** `+N` becomes `+ceil(N·multiplier)`. */
  lemma PointsScaleRun(d: string, t: string, tenths: nat)
    requires |d| >= 1 && AllDigits(d)
    requires t == [] || !IsDigit(t[0])
    ensures RewritePoints(['+'] + d + t, tenths)
         == ['+'] + NatToString(ScalePoints(ParseDigits(d), tenths)) + RewritePoints(t, tenths)
  {
    var s := ['+'] + d + t;
    assert s[1..] == d + t;
    assert s[1] == d[0];
    DigitPrefixOf(d, t);
    assert s[1 + |d|..] == t;
  }

  /** A lone '+' (one not followed by a digit) is copied as it is. */
  lemma PointsLonePlus(t: string, tenths: nat)
    requires t == [] || !IsDigit(t[0])
    ensures RewritePoints(['+'] + t, tenths) == ['+'] + RewritePoints(t, tenths)
  {
    assert (['+'] + t)[1..] == t;
  }

  /** The point rewrite changes only digits: every other character of the
      reward stays, in order. */
  lemma {:induction false} PointsKeepsNonDigits(s: string, tenths: nat)
    ensures WithoutDigits(RewritePoints(s, tenths)) == WithoutDigits(s)
    decreases |s|, 1
  {
    if s == [] {
    } else if s[0] == '+' && |s| > 1 && IsDigit(s[1]) {
      var k := DigitPrefixLength(s[1..]);
      var d, t := s[1..][..k], s[1..][k..];
      assert s == ['+'] + d + t;
      PointsKeepsAfterRun(d, t, tenths);
    } else {
      assert s == [s[0]] + s[1..];
      if s[0] == '+' {
        PointsLonePlus(s[1..], tenths);
      } else {
        PointsStep(s, tenths);
      }
      PointsKeepsNonDigits(s[1..], tenths);
      KeepsHead(s[0], s[1..], RewritePoints(s[1..], tenths));
    }
  }

  lemma {:induction false} PointsKeepsAfterRun(d: string, t: string, tenths: nat)
    requires |d| >= 1 && AllDigits(d)
    requires t == [] || !IsDigit(t[0])
    ensures WithoutDigits(RewritePoints(['+'] + d + t, tenths)) == WithoutDigits(['+'] + d + t)
    decreases 1 + |d| + |t|, 0
  {
    var n := NatToString(ScalePoints(ParseDigits(d), tenths));
    PointsScaleRun(d, t, tenths);
    PointsKeepsNonDigits(t, tenths);
    DigitsSwappedAfterPlus(d, t, n, RewritePoints(t, tenths));
  }

  /** There is a '+' directly followed by a digit. */
  ghost predicate HasPointValue(s: string) {
    exists i :: 0 < i < |s| && s[i - 1] == '+' && IsDigit(s[i])
  }

  /** A reward without a `+N` is returned unchanged. */
  lemma {:induction false} PointsUnchangedWithoutValue(s: string, tenths: nat)
    ensures !HasPointValue(s) ==> RewritePoints(s, tenths) == s
    decreases |s|
  {
    if s != [] && !HasPointValue(s) {
      if s[0] == '+' && |s| > 1 {
        assert !IsDigit(s[1]);
      }
      var t := s[1..];
      PointsUnchangedWithoutValue(t, tenths);
      assert s == [s[0]] + t;
    }
  }

  // ---------------------------------------------------------------------
  // Examples on the catalogue's own texts.

  /** One minute value inside text that has no other digits. */
  lemma MinutesOneValue(p: string, d: string, e: string, tail: string)
    requires NoDigits(p) && NoDigits(tail) && |d| >= 1 && AllDigits(d)
    requires NatToString(CeilThreeHalves(ParseDigits(d))) == e
    ensures RewriteMinutes(p + d + [MinuteMark] + tail) == p + e + [MinuteMark] + tail
  {
    MinutesOneRun(d, e, tail);
    MinutesAfterPrefix(p, d, e, tail);
  }

  lemma MinutesAfterPrefix(p: string, d: string, e: string, tail: string)
    requires NoDigits(p)
    requires RewriteMinutes(d + [MinuteMark] + tail) == e + [MinuteMark] + tail
    ensures RewriteMinutes(p + d + [MinuteMark] + tail) == p + e + [MinuteMark] + tail
  {
    var x := d + [MinuteMark] + tail;
    var y := e + [MinuteMark] + tail;
    assert p + d + [MinuteMark] + tail == p + x;
    MinutesCopyDigitFree(p, x);
    assert p + y == p + e + [MinuteMark] + tail;
  }

  lemma MinutesOneRun(d: string, e: string, tail: string)
    requires NoDigits(tail) && |d| >= 1 && AllDigits(d)
    requires NatToString(CeilThreeHalves(ParseDigits(d))) == e
    ensures RewriteMinutes(d + [MinuteMark] + tail) == e + [MinuteMark] + tail
  {
    MinutesScaleRun(d, tail);
    MinutesCopyDigitFree(tail, []);
    assert tail + [] == tail;
  }

  lemma TenMinutesText()
    ensures NoDigits("집 앞에서 ") && NoDigits("간 신선한 공기 마시기")
    ensures "집 앞에서 10분간 신선한 공기 마시기" == "집 앞에서 " + "10" + [MinuteMark] + "간 신선한 공기 마시기"
    ensures "집 앞에서 15분간 신선한 공기 마시기" == "집 앞에서 " + "15" + [MinuteMark] + "간 신선한 공기 마시기"
  {
  }

  /** 10 minutes become 15. */
  lemma TenMinutesExample(condition: string)
    requires condition == "집 앞에서 10분간 신선한 공기 마시기"
    ensures EnhanceQuestCondition(condition) == "집 앞에서 15분간 신선한 공기 마시기"
  {
    TenMinutesText();
    assert NatToString(CeilThreeHalves(ParseDigits("10"))) == "15";
    MinutesOneValue("집 앞에서 ", "10", "15", "간 신선한 공기 마시기");
  }

  lemma FiveMinutesText()
    ensures NoDigits("창문 근처에서 ") && NoDigits("간 밖을 바라보며 휴식")
    ensures "창문 근처에서 5분간 밖을 바라보며 휴식" == "창문 근처에서 " + "5" + [MinuteMark] + "간 밖을 바라보며 휴식"
    ensures "창문 근처에서 8분간 밖을 바라보며 휴식" == "창문 근처에서 " + "8" + [MinuteMark] + "간 밖을 바라보며 휴식"
  {
  }

  /** 5 minutes become 8 (ceil of 7.5). */
  lemma FiveMinutesExample(condition: string)
    requires condition == "창문 근처에서 5분간 밖을 바라보며 휴식"
    ensures EnhanceQuestCondition(condition) == "창문 근처에서 8분간 밖을 바라보며 휴식"
  {
    FiveMinutesText();
    assert NatToString(CeilThreeHalves(ParseDigits("5"))) == "8";
    MinutesOneValue("창문 근처에서 ", "5", "8", "간 밖을 바라보며 휴식");
  }

  /** 7 minutes become 11 (ceil of 10.5). */
  lemma SevenMinutesExample()
    ensures EnhanceQuestCondition("7분") == "11분"
  {
    assert NatToString(CeilThreeHalves(ParseDigits("7"))) == "11";
    MinutesOneValue("", "7", "11", "");
    assert "7분" == "" + "7" + [MinuteMark] + "";
    assert "11분" == "" + "11" + [MinuteMark] + "";
  }

  /** A condition without a minute value gets the intensifier. */
  lemma NoMinutesExample(condition: string)
    requires condition == "가까운 편의점이나 마트에서 필요한 물건 구매"
    ensures EnhanceQuestCondition(condition) == "가까운 편의점이나 마트에서 필요한 물건 구매 (더 적극적으로)"
  {
    NoMinutesText();
    MinutesCopyDigitFree(condition, []);
    assert condition + [] == condition;
  }

  lemma NoMinutesText()
    ensures NoDigits("가까운 편의점이나 마트에서 필요한 물건 구매")
    ensures "가까운 편의점이나 마트에서 필요한 물건 구매 (더 적극적으로)"
         == "가까운 편의점이나 마트에서 필요한 물건 구매" + IntensifierSuffix
  {
  }

  /** A condition whose only minute value is 0 gets the intensifier too. */
  lemma ZeroMinutesExample(condition: string)
    requires condition == "0분 휴식"
    ensures EnhanceQuestCondition(condition) == "0분 휴식 (더 적극적으로)"
  {
    ZeroMinutesText();
    assert NatToString(CeilThreeHalves(ParseDigits("0"))) == "0";
    MinutesOneValue("", "0", "0", " 휴식");
  }

  lemma ZeroMinutesText()
    ensures NoDigits(" 휴식")
    ensures "0분 휴식" == "" + "0" + [MinuteMark] + " 휴식"
    ensures "0분 휴식 (더 적극적으로)" == "0분 휴식" + IntensifierSuffix
  {
  }

  lemma RewardText(tenths: nat)
    requires tenths == 11 || tenths == 20
    ensures '+' !in "성취감 포인트 "
    ensures "성취감 포인트 +10" == "성취감 포인트 " + (['+'] + "10")
    ensures "성취감 포인트 +" + NatToString(tenths) == "성취감 포인트 " + (['+'] + NatToString(tenths))
  {
  }

  /** `+10` scaled by a multiplier of at most 2 is `+tenths`. */
  lemma TenPointsScaled(tenths: nat)
    requires 10 <= tenths <= 20
    ensures RewritePoints(['+'] + "10", tenths) == ['+'] + NatToString(tenths)
  {
    TenParsed();
    assert ScalePoints(10, tenths) == tenths;
    PointsScaleRun("10", [], tenths);
    assert ['+'] + "10" + [] == ['+'] + "10";
  }

  lemma TenParsed()
    ensures AllDigits("10") && ParseDigits("10") == 10
  {
    assert "10"[..1] == "1";
  }

  /** A reward of +10 becomes +11 under the multiplier 1.1 and +20 under 2. */
  lemma RewardExample(reward: string, tenths: nat)
    requires reward == "성취감 포인트 +10" && (tenths == 11 || tenths == 20)
    ensures EnhanceReward(reward, tenths) == "성취감 포인트 +" + NatToString(tenths)
  {
    RewardText(tenths);
    TenPointsScaled(tenths);
    PointsCopyPlusFree("성취감 포인트 ", ['+'] + "10", tenths);
  }
}
