/** The password strength meter of app/components/PasswordCreation.tsx: four
    bars lit by length thresholds and a five-step label. Lengths are counted
    in characters of the model's strings. */
module PasswordCreation {

  /** The lengths at which the four bars light up, in order. */
  const Thresholds: seq<nat> := [6, 8, 10, 12]

  /** The labels from weakest to strongest. */
  const Labels: seq<string> := ["Too short", "Weak", "Fair", "Good", "Strong"]

  /** The meter is rendered only for a non-empty password. */
  predicate IndicatorShown(password: string) {
    password != ""
  }

  /** Whether each of the four bars is lit. */
  function Bars(password: string): (bars: seq<bool>)
    ensures |bars| == |Thresholds|
    ensures forall i | 0 <= i < |bars| :: bars[i] <==> |password| >= Thresholds[i]
  {
    var n := |password|;
    [n >= 6, n >= 8, n >= 10, n >= 12]
  }

  /** The label under the bars. */
  function StrengthLabel(password: string): (name: string)
    ensures name in Labels
    ensures name == "Too short" <==> |password| < Thresholds[0]
  {
    var n := |password|;
    if n < 6 then "Too short"
    else if n < 8 then "Weak"
    else if n < 10 then "Fair"
    else if n < 12 then "Good"
    else "Strong"
  }

  /** The number of lit bars. */
  function LitCount(bars: seq<bool>): (c: nat)
    ensures c <= |bars|
  {
    if bars == [] then 0 else (if bars[0] then 1 else 0) + LitCount(bars[1..])
  }

  /** The number of thresholds at or below `n`. */
  function CountAtMost(ts: seq<nat>, n: nat): (c: nat)
    ensures c <= |ts|
  {
    if ts == [] then 0 else (if ts[0] <= n then 1 else 0) + CountAtMost(ts[1..], n)
  }

  function One(b: bool): nat { if b then 1 else 0 }

  lemma LitCountOfFour(a: bool, b: bool, c: bool, d: bool)
    ensures LitCount([a, b, c, d]) == One(a) + One(b) + One(c) + One(d)
  {
    assert [d][1..] == [];
    assert LitCount([d]) == One(d);
    assert [c, d][1..] == [d];
    assert LitCount([c, d]) == One(c) + One(d);
    assert [b, c, d][1..] == [c, d];
    assert LitCount([b, c, d]) == One(b) + One(c) + One(d);
    assert [a, b, c, d][1..] == [b, c, d];
  }

  lemma CountAtMostThresholds(n: nat)
    ensures CountAtMost(Thresholds, n) == One(6 <= n) + One(8 <= n) + One(10 <= n) + One(12 <= n)
  {
    assert [12][1..] == [];
    assert CountAtMost([12], n) == One(12 <= n);
    assert [10, 12][1..] == [12];
    assert CountAtMost([10, 12], n) == One(10 <= n) + One(12 <= n);
    assert [8, 10, 12][1..] == [10, 12];
    assert CountAtMost([8, 10, 12], n) == One(8 <= n) + One(10 <= n) + One(12 <= n);
    assert Thresholds[1..] == [8, 10, 12];
  }

  /** The lit count is the number of thresholds the length reaches. */
  lemma LitCountIsThresholdsReached(password: string)
    ensures LitCount(Bars(password)) == CountAtMost(Thresholds, |password|)
  {
    var n := |password|;
    LitCountOfFour(n >= 6, n >= 8, n >= 10, n >= 12);
    CountAtMostThresholds(n);
  }

  /** The lit count as a closed form: the bars fill from the left. */
  lemma LitCountClosedForm(password: string)
    ensures var n := |password|; var c := LitCount(Bars(password));
            && c == (if n < 6 then 0 else if n < 8 then 1 else if n < 10 then 2 else if n < 12 then 3 else 4)
            && forall i | 0 <= i < 4 :: Bars(password)[i] <==> i < c
  {
    var n := |password|;
    LitCountOfFour(n >= 6, n >= 8, n >= 10, n >= 12);
  }

  /** The label names the number of lit bars. */
  lemma LabelNamesLitCount(password: string)
    ensures StrengthLabel(password) == Labels[LitCount(Bars(password))]
  {
    LitCountClosedForm(password);
  }

  /** A longer password never gets fewer lit bars, so never a weaker label. */
  lemma StrengthMonotone(shorter: string, longer: string)
    requires |shorter| <= |longer|
    ensures LitCount(Bars(shorter)) <= LitCount(Bars(longer))
    ensures StrengthLabel(shorter) == Labels[LitCount(Bars(shorter))]
    ensures StrengthLabel(longer) == Labels[LitCount(Bars(longer))]
  {
    LitCountClosedForm(shorter);
    LitCountClosedForm(longer);
    LabelNamesLitCount(shorter);
    LabelNamesLitCount(longer);
  }

  /** Hiding the meter for an empty password loses nothing: such a password
      lights no bar and would be labelled "Too short". A shown meter is the
      only one that can light a bar. */
  lemma HiddenMeterIsEmpty(password: string)
    ensures !IndicatorShown(password) ==> LitCount(Bars(password)) == 0 && StrengthLabel(password) == "Too short"
    ensures LitCount(Bars(password)) > 0 ==> IndicatorShown(password)
  {
    LitCountClosedForm(password);
  }

  /** "Too short" is shown exactly when no bar is lit. */
  lemma TooShortIffNoBars(password: string)
    ensures StrengthLabel(password) == "Too short" <==> LitCount(Bars(password)) == 0
  {
    LitCountClosedForm(password);
    LabelNamesLitCount(password);
  }
}
