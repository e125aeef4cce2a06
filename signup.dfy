/** The password-strength meter of the signup form: a score from 0 to 5,
    one point per criterion met, and the label and colours shown for it. */
module Signup {

  const StrengthColors := ["bg-red-500", "bg-orange-500", "bg-yellow-500", "bg-lime-500", "bg-green-500"]
  const StrengthLabels := ["Very Weak", "Weak", "Fair", "Good", "Strong"]
  const TooShortLabel := "Too Short"
  const EmptyBarClass := "bg-gray-200 scale-y-50"
  const BarCount := 5

  predicate IsUpper(c: char) { 'A' <= c <= 'Z' }
  predicate IsDigit(c: char) { '0' <= c <= '9' }
  predicate IsAlphanumeric(c: char) { IsUpper(c) || 'a' <= c <= 'z' || IsDigit(c) }

  /** `/[A-Z]/.test(s)` */
  predicate HasUpper(s: string) { exists i :: 0 <= i < |s| && IsUpper(s[i]) }
  /** `/[0-9]/.test(s)` */
  predicate HasDigit(s: string) { exists i :: 0 <= i < |s| && IsDigit(s[i]) }
  /** `/[^A-Za-z0-9]/.test(s)` */
  predicate HasSymbol(s: string) { exists i :: 0 <= i < |s| && !IsAlphanumeric(s[i]) }

  function Point(met: bool): nat { if met then 1 else 0 }

  /** One point at six characters and a second one at ten. */
  function LengthPoints(s: string): (p: nat)
    ensures p <= 2
    ensures p == 0 <==> |s| < 6
    ensures p == 2 <==> |s| >= 10
  {
    Point(|s| >= 6) + Point(|s| >= 10)
  }

  /** The reference score: the number of criteria met, counting length twice. */
  function Strength(s: string): nat {
    LengthPoints(s) + Point(HasUpper(s)) + Point(HasDigit(s)) + Point(HasSymbol(s))
  }

  /** `calculatePasswordStrength`: one increment per test passed. */
  method CalculatePasswordStrength(pwd: string) returns (strength: nat)
    ensures strength == Strength(pwd)
    ensures strength <= 5
  {
    strength := 0;
    if |pwd| >= 6 {
      strength := strength + 1;
    }
    if |pwd| >= 10 {
      strength := strength + 1;
    }
    if HasUpper(pwd) {
      strength := strength + 1;
    }
    if HasDigit(pwd) {
      strength := strength + 1;
    }
    if HasSymbol(pwd) {
      strength := strength + 1;
    }
  }

  /** The empty password and any short all-lower-case one score nothing. */
  lemma ShortLowerCaseScoresZero(s: string)
    requires |s| < 6
    requires forall i :: 0 <= i < |s| ==> 'a' <= s[i] <= 'z'
    ensures Strength(s) == 0
  {
  }

  /** A character class counts once, however often it occurs. */
  lemma ClassCountsOnce(s: string, c: char)
    requires IsUpper(c) && HasUpper(s)
    ensures Point(HasUpper(s + [c])) == Point(HasUpper(s)) == 1
  {
    var i :| 0 <= i < |s| && IsUpper(s[i]);
    assert (s + [c])[i] == s[i];
  }

  /** Appending characters never lowers the score. */
  lemma ExtendingNeverWeakens(s: string, t: string)
    ensures Strength(s) <= Strength(s + t)
  {
    var st := s + t;
    assert forall i :: 0 <= i < |s| ==> st[i] == s[i];
    if HasUpper(s) {
      var i :| 0 <= i < |s| && IsUpper(s[i]);
      assert IsUpper(st[i]);
    }
    if HasDigit(s) {
      var i :| 0 <= i < |s| && IsDigit(s[i]);
      assert IsDigit(st[i]);
    }
    if HasSymbol(s) {
      var i :| 0 <= i < |s| && !IsAlphanumeric(s[i]);
      assert !IsAlphanumeric(st[i]);
    }
  }

  /** The label under the bars: `strengthLabels[score - 1] || 'Too Short'`. */
  function Label(score: nat): (l: string)
    ensures l == TooShortLabel <==> score == 0 || score > 5
    ensures 1 <= score <= 5 ==> l == StrengthLabels[score - 1]
  {
    if 1 <= score <= 5 then StrengthLabels[score - 1] else TooShortLabel
  }

  /** A filled bar never looks like an empty one. */
  lemma FilledBarNotEmpty(score: nat)
    requires 1 <= score <= 5
    ensures StrengthColors[score - 1] + " scale-y-100" != EmptyBarClass
  {
    var c := StrengthColors[score - 1] + " scale-y-100";
    assert |EmptyBarClass| == 22 && EmptyBarClass[20] == '5';
    assert c[|c| - 2] == '0';
  }

  /** Bar `i` is filled, in the colour of the score, exactly when `i < score`. */
  function BarClass(i: nat, score: nat): (c: string)
    requires score <= 5
    ensures c != EmptyBarClass <==> i < score
    ensures i < score ==> c == StrengthColors[score - 1] + " scale-y-100"
  {
    if i < score then
      FilledBarNotEmpty(score);
      StrengthColors[score - 1] + " scale-y-100"
    else EmptyBarClass
  }

  /** The five bars, left to right: exactly the first `score` are filled,
      all in the same colour. */
  function Bars(score: nat): (bars: seq<string>)
    requires score <= 5
    ensures |bars| == BarCount
    ensures forall i :: 0 <= i < BarCount ==> (bars[i] != EmptyBarClass <==> i < score)
    ensures forall i, j :: 0 <= i < j < BarCount && bars[j] != EmptyBarClass ==> bars[i] == bars[j]
  {
    seq(BarCount, i requires 0 <= i => BarClass(i, score))
  }

  /** The label text is green exactly for the top three labels. */
  predicate LabelIsGreen(score: nat) {
    score > 2
  }

  /** Each score from 0 to 5 has its own label, and the green ones are
      exactly Fair, Good and Strong. */
  lemma LabelsDistinguishScores(a: nat, b: nat)
    requires a <= 5 && b <= 5
    ensures Label(a) == Label(b) ==> a == b
    ensures LabelIsGreen(a) <==> Label(a) in {"Fair", "Good", "Strong"}
  {
  }
}
