/** The fixed-shape regular expressions of the onboarding code, each written as
    a predicate over the characters of the string (anchored at both ends). */
module Patterns {
  import opened Js

  predicate IsUpper(c: char) { 'A' <= c <= 'Z' }

  /** `[^\s@]+` matching exactly s[lo..hi]. */
  predicate EmailAtom(s: string, lo: int, hi: int)
    requires 0 <= lo <= hi <= |s|
  {
    lo < hi && forall k | lo <= k < hi :: !IsSpace(s[k]) && s[k] != '@'
  }

  /** `/^[^\s@]+@[^\s@]+\.[^\s@]+$/`: the string splits at an '@' at i and a '.'
      at j into three non-empty runs free of whitespace and '@'. */
  predicate EmailPattern(s: string): (b: bool)
    ensures b ==> 5 <= |s| && '@' in s && '.' in s
  {
    exists i, j | 0 <= i < j < |s| ::
      && s[i] == '@' && s[j] == '.'
      && EmailAtom(s, 0, i) && EmailAtom(s, i + 1, j) && EmailAtom(s, j + 1, |s|)
  }

  /** The same language described field by field: no whitespace, exactly one '@'
      with something before it, and after it a '.' that is neither first nor last. */
  ghost predicate WellFormedEmail(s: string) {
    && (forall k | 0 <= k < |s| :: !IsSpace(s[k]))
    && exists i | 0 < i < |s| ::
         && s[i] == '@'
         && (forall k | 0 <= k < |s| && s[k] == '@' :: k == i)
         && (exists j | i + 1 < j < |s| - 1 :: s[j] == '.')
  }

  lemma EmailPatternIff(s: string)
    ensures EmailPattern(s) <==> WellFormedEmail(s)
  {
    if EmailPattern(s) {
      var i, j :| 0 <= i < j < |s| && s[i] == '@' && s[j] == '.'
        && EmailAtom(s, 0, i) && EmailAtom(s, i + 1, j) && EmailAtom(s, j + 1, |s|);
      forall k | 0 <= k < |s| ensures !IsSpace(s[k]) && (s[k] == '@' ==> k == i) {
        if k < i {
        } else if i < k < j {
        } else if j < k {
        }
      }
      assert i + 1 < j < |s| - 1 && s[j] == '.';
    }
    if WellFormedEmail(s) {
      var i :| 0 < i < |s| && s[i] == '@'
        && (forall k | 0 <= k < |s| && s[k] == '@' :: k == i)
        && (exists j | i + 1 < j < |s| - 1 :: s[j] == '.');
      var j :| i + 1 < j < |s| - 1 && s[j] == '.';
      assert EmailAtom(s, 0, i) && EmailAtom(s, i + 1, j) && EmailAtom(s, j + 1, |s|);
    }
  }

  /** `/^[6-9]\d{9}$/`. */
  predicate MobilePattern(s: string): (b: bool)
    ensures b ==> forall k | 0 <= k < |s| :: IsDigit(s[k])
  {
    && |s| == 10
    && '6' <= s[0] <= '9'
    && forall k | 1 <= k < 10 :: IsDigit(s[k])
  }

  /** `/^[A-Z]{5}[0-9]{4}[A-Z]{1}$/`. */
  predicate PanPattern(s: string): (b: bool)
    ensures b ==> forall k | 0 <= k < |s| :: IsUpper(s[k]) || IsDigit(s[k])
  {
    && |s| == 10
    && (forall k | 0 <= k < 5 :: IsUpper(s[k]))
    && (forall k | 5 <= k < 9 :: IsDigit(s[k]))
    && IsUpper(s[9])
  }

  /** None of the three patterns matches a blank string. */
  lemma PatternsRejectBlank(s: string)
    requires IsBlank(s)
    ensures !EmailPattern(s) && !MobilePattern(s) && !PanPattern(s)
  {
    BlankIffAllSpace(s);
  }
}
