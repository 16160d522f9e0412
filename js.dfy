/** The pieces of the JavaScript runtime that the onboarding code relies on:
    optional values, String.prototype.trim, parseInt with radix 10,
    Number-to-string conversion of integers, and the truthiness of JSON values. */
module Js {

  datatype Option<+T> = None | Some(value: T)

  /** WhiteSpace and LineTerminator code points of ECMAScript: exactly the
      characters that `trim` removes and that `\s` matches in a regular expression. */
  predicate IsSpace(c: char) {
    || c == '\t' || c == '\n' || c == '\U{000B}' || c == '\U{000C}' || c == '\r'
    || c == ' ' || c == '\U{00A0}' || c == '\U{1680}' || ('\U{2000}' <= c <= '\U{200A}')
    || c == '\U{2028}' || c == '\U{2029}' || c == '\U{202F}' || c == '\U{205F}'
    || c == '\U{3000}' || c == '\U{FEFF}'
  }

  predicate IsDigit(c: char) { '0' <= c <= '9' }

  predicate AllSpace(s: string) {
    forall k | 0 <= k < |s| :: IsSpace(s[k])
  }

  /** `s` without its leading whitespace: empty or starting with a non-space
      character (a suffix of `s` after only whitespace, by
      TrimStartIsSuffix and TrimStartDropsSpace). */
  function TrimStart(s: string): (t: string)
    ensures |t| <= |s|
    ensures t != "" ==> !IsSpace(t[0])
  {
    if |s| > 0 && IsSpace(s[0]) then TrimStart(s[1..]) else s
  }

  /** `s` without its trailing whitespace: empty or ending with a non-space
      character (a prefix of `s` before only whitespace, by
      TrimEndIsPrefix and TrimEndDropsSpace). */
  function TrimEnd(s: string): (t: string)
    ensures |t| <= |s|
    ensures t != "" ==> !IsSpace(t[|t| - 1])
  {
    if |s| > 0 && IsSpace(s[|s| - 1]) then TrimEnd(s[..|s| - 1]) else s
  }

  /** `String.prototype.trim`: a part of `s` that is empty or starts and ends
      with a non-space character; TrimDropsOnlySpace shows that only the
      surrounding whitespace goes. */
  function Trim(s: string): (t: string)
    ensures |t| <= |s|
    ensures t != "" ==> !IsSpace(t[0]) && !IsSpace(t[|t| - 1])
  {
    var u := TrimStart(s);
    TrimEndIsPrefix(u);
    TrimEnd(u)
  }

  /** Trimming the front drops a prefix: what is left is a suffix of `s`. */
  lemma {:induction false} TrimStartIsSuffix(s: string)
    ensures TrimStart(s) == s[|s| - |TrimStart(s)|..]
    decreases |s|
  {
    if |s| > 0 && IsSpace(s[0]) {
      TrimStartIsSuffix(s[1..]);
      var t := TrimStart(s);
      assert s[1..][|s| - 1 - |t|..] == s[|s| - |t|..];
    }
  }

  /** Trimming the end drops a suffix: what is left is a prefix of `s`. */
  lemma {:induction false} TrimEndIsPrefix(s: string)
    ensures TrimEnd(s) == s[..|TrimEnd(s)|]
    decreases |s|
  {
    if |s| > 0 && IsSpace(s[|s| - 1]) {
      TrimEndIsPrefix(s[..|s| - 1]);
      var t := TrimEnd(s);
      assert s[..|s| - 1][..|t|] == s[..|t|];
    }
  }

  /** Only whitespace is dropped from the front. */
  lemma {:induction false} TrimStartDropsSpace(s: string)
    ensures AllSpace(s[..|s| - |TrimStart(s)|])
    decreases |s|
  {
    if |s| > 0 && IsSpace(s[0]) {
      TrimStartDropsSpace(s[1..]);
      var n := |s| - |TrimStart(s)|;
      forall k | 0 <= k < n ensures IsSpace(s[..n][k]) {
        if k > 0 { assert s[..n][k] == s[1..][..n - 1][k - 1]; }
      }
    }
  }

  /** Only whitespace is dropped from the end. */
  lemma {:induction false} TrimEndDropsSpace(s: string)
    ensures AllSpace(s[|TrimEnd(s)|..])
    decreases |s|
  {
    if |s| > 0 && IsSpace(s[|s| - 1]) {
      var p := s[..|s| - 1];
      TrimEndDropsSpace(p);
      var m := |TrimEnd(s)|;
      forall k | 0 <= k < |s| - m ensures IsSpace(s[m..][k]) {
        if m + k < |s| - 1 { assert s[m..][k] == p[m..][k]; }
      }
    }
  }

  /** `trim()` removes whitespace at both ends and nothing else: the result is
      the slice s[a..b] with only whitespace before `a` and after `b`. */
  lemma TrimDropsOnlySpace(s: string)
    ensures var a := |s| - |TrimStart(s)|; var b := a + |Trim(s)|;
            && a <= b <= |s| && Trim(s) == s[a..b]
            && AllSpace(s[..a]) && AllSpace(s[b..])
  {
    var u := TrimStart(s);
    var a := |s| - |u|;
    TrimStartIsSuffix(s);
    TrimStartDropsSpace(s);
    TrimEndIsPrefix(u);
    TrimEndDropsSpace(u);
    var t := TrimEnd(u);
    assert Trim(s) == t;
    var b := a + |t|;
    assert u == s[a..];
    assert t == s[a..b] by { assert s[a..][..|t|] == s[a..b]; }
    assert u[|t|..] == s[b..];
  }

  /** `!s.trim()`: the string is empty once trimmed. */
  predicate IsBlank(s: string) {
    Trim(s) == ""
  }

  lemma {:induction false} TrimStartEmpty(s: string)
    ensures TrimStart(s) == "" <==> AllSpace(s)
    ensures TrimStart(s) != "" ==> !IsSpace(TrimStart(s)[0])
    decreases |s|
  {
    if |s| > 0 && IsSpace(s[0]) {
      TrimStartEmpty(s[1..]);
      if AllSpace(s[1..]) {
        assert AllSpace(s) by {
          forall k | 0 <= k < |s| ensures IsSpace(s[k]) {
            if k > 0 { assert s[k] == s[1..][k - 1]; }
          }
        }
      } else {
        var k :| 0 <= k < |s[1..]| && !IsSpace(s[1..][k]);
        assert !IsSpace(s[k + 1]);
      }
    } else if |s| > 0 {
      assert !IsSpace(s[0]);
    }
  }

  lemma {:induction false} TrimEndKeepsNonSpaceHead(s: string)
    requires |s| > 0 && !IsSpace(s[0])
    ensures TrimEnd(s) != ""
    decreases |s|
  {
    if IsSpace(s[|s| - 1]) {
      TrimEndKeepsNonSpaceHead(s[..|s| - 1]);
    }
  }

  /** A string is blank exactly when every character in it is whitespace. */
  lemma BlankIffAllSpace(s: string)
    ensures IsBlank(s) <==> AllSpace(s)
  {
    TrimStartEmpty(s);
    if TrimStart(s) != "" {
      TrimEndKeepsNonSpaceHead(TrimStart(s));
    }
  }

  /** A string whose first character is not whitespace is not blank. */
  lemma NotBlankWhenHeadNotSpace(s: string)
    requires |s| > 0 && !IsSpace(s[0])
    ensures !IsBlank(s)
  {
    BlankIffAllSpace(s);
  }

  function DigitValue(c: char): nat
    requires IsDigit(c)
  {
    c as int - '0' as int
  }

  function DigitChar(d: nat): (c: char)
    requires d < 10
    ensures IsDigit(c) && DigitValue(c) == d
  {
    ('0' as int + d) as char
  }

  /** The longest prefix of `s` made of decimal digits. */
  function DigitPrefix(s: string): (p: string)
    ensures |p| <= |s| && p == s[..|p|]
    ensures forall k | 0 <= k < |p| :: IsDigit(p[k])
    ensures |p| < |s| ==> !IsDigit(s[|p|])
  {
    if |s| > 0 && IsDigit(s[0]) then [s[0]] + DigitPrefix(s[1..]) else ""
  }

  /** The value of a string of decimal digits, most significant first. */
  function DigitsValue(ds: string): nat
    requires forall k | 0 <= k < |ds| :: IsDigit(ds[k])
  {
    if ds == "" then 0 else DigitsValue(ds[..|ds| - 1]) * 10 + DigitValue(ds[|ds| - 1])
  }

  /** `parseInt(s, 10)`: skip leading whitespace, read an optional sign and the
      longest run of decimal digits; None stands for NaN (no digit at all). */
  function ParseInt(s: string): (r: Option<int>)
    ensures TrimStart(s) == "" ==> r.None?
    ensures var t := TrimStart(s); |t| > 0 && IsDigit(t[0]) ==> r.Some? && r.value >= 0
    ensures r.Some? && r.value < 0 ==> TrimStart(s)[0] == '-'
  {
    var t := TrimStart(s);
    var negative := |t| > 0 && t[0] == '-';
    var rest := if |t| > 0 && (t[0] == '-' || t[0] == '+') then t[1..] else t;
    var ds := DigitPrefix(rest);
    if ds == "" then None
    else
      var magnitude: int := DigitsValue(ds);
      Some(if negative then -magnitude else magnitude)
  }

  /** Decimal digits of a natural number, as `Number.prototype.toString` writes an integer. */
  function NatToDecimal(n: nat): (ds: string)
    ensures |ds| > 0 && forall k | 0 <= k < |ds| :: IsDigit(ds[k])
  {
    if n < 10 then [DigitChar(n)] else NatToDecimal(n / 10) + [DigitChar(n % 10)]
  }

  /** `n.toString()` for an integer `n`. */
  function IntToDecimal(n: int): string {
    if n < 0 then "-" + NatToDecimal(-n) else NatToDecimal(n)
  }

  lemma {:induction false} DigitPrefixOfDigits(ds: string)
    requires forall k | 0 <= k < |ds| :: IsDigit(ds[k])
    ensures DigitPrefix(ds) == ds
    decreases |ds|
  {
    if ds != "" {
      DigitPrefixOfDigits(ds[1..]);
      assert [ds[0]] + ds[1..] == ds;
    }
  }

  lemma {:induction false} DigitsValueOfDecimal(n: nat)
    ensures DigitsValue(NatToDecimal(n)) == n
  {
    var ds := NatToDecimal(n);
    if n >= 10 {
      DigitsValueOfDecimal(n / 10);
      assert ds[..|ds| - 1] == NatToDecimal(n / 10);
    }
  }

  /** A run of digits with nothing after it parses to its value. */
  lemma ParseIntOfNatDecimal(m: nat)
    ensures ParseInt(NatToDecimal(m)) == Some(m)
  {
    var s := NatToDecimal(m);
    DigitPrefixOfDigits(s);
    DigitsValueOfDecimal(m);
    assert !IsSpace(s[0]);
    var t := TrimStart(s);
    assert t == s;
    assert !(|t| > 0 && (t[0] == '-' || t[0] == '+'));
    assert DigitPrefix(t) == [s[0]] + DigitPrefix(s[1..]);
  }

  /** `parseInt(n.toString())` gives `n` back for every integer. */
  lemma ParseIntOfDecimal(n: int)
    ensures ParseInt(IntToDecimal(n)) == Some(n)
  {
    if n < 0 {
      var m: nat := -n;
      var ds := NatToDecimal(m);
      var s := "-" + ds;
      assert TrimStart(s) == s;
      assert s[1..] == ds;
      DigitPrefixOfDigits(ds);
      DigitsValueOfDecimal(m);
    } else {
      ParseIntOfNatDecimal(n);
    }
  }

  /** `parseInt` reads a run of digits up to the first non-digit and ignores
      the rest. */
  lemma ParseIntReadsLeadingDigits(ds: string, tail: string)
    requires ds != "" && forall k | 0 <= k < |ds| :: IsDigit(ds[k])
    requires tail == "" || !IsDigit(tail[0])
    ensures ParseInt(ds + tail) == Some(DigitsValue(ds))
  {
    var s := ds + tail;
    assert s[0] == ds[0];
    ParseIntOfDigitHead(s);
    DigitPrefixStops(ds, tail);
  }

  lemma ParseIntOfDigitHead(s: string)
    requires |s| > 0 && IsDigit(s[0])
    ensures ParseInt(s) == Some(DigitsValue(DigitPrefix(s)))
  {
    assert !IsSpace(s[0]);
    var t := TrimStart(s);
    assert t == s;
    assert !(|t| > 0 && (t[0] == '-' || t[0] == '+'));
    assert DigitPrefix(t) == [s[0]] + DigitPrefix(s[1..]);
  }

  lemma {:induction false} DigitPrefixStops(ds: string, tail: string)
    requires forall k | 0 <= k < |ds| :: IsDigit(ds[k])
    requires tail == "" || !IsDigit(tail[0])
    ensures DigitPrefix(ds + tail) == ds
    decreases |ds|
  {
    if ds == "" {
      assert ds + tail == tail;
    } else {
      DigitPrefixStops(ds[1..], tail);
      assert (ds + tail)[1..] == ds[1..] + tail;
      assert [ds[0]] + ds[1..] == ds;
    }
  }

  lemma ParseIntExamples()
    ensures ParseInt("12abc") == Some(12)
    ensures ParseInt("abc") == None
  {
    ParseIntReadsLeadingDigits("12", "abc");
    assert "12" + "abc" == "12abc";
    assert DigitsValue("12") == 12 by {
      assert "12"[..1] == "1";
      assert "1"[..0] == "";
    }
    assert TrimStart("abc") == "abc";
    assert DigitPrefix("abc") == "";
  }

  /** Scalar JSON values (objects and arrays are not modelled). */
  datatype Json = JNull | JBool(b: bool) | JNum(n: int) | JStr(s: string)

  /** JavaScript truthiness of a JSON value. */
  predicate Truthy(v: Json) {
    match v
    case JNull => false
    case JBool(b) => b
    case JNum(n) => n != 0
    case JStr(s) => s != ""
  }

  /** `v || fallback` for an optional string: an absent or empty string gives way to the fallback. */
  function StringOr(v: Option<string>, fallback: string): (r: string)
    ensures r == fallback || (v.Some? && r == v.value && r != "")
    ensures v.Some? && v.value != "" ==> r == v.value
  {
    if v.Some? && v.value != "" then v.value else fallback
  }
}
