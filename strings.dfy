/**
 * Character classes and the three string operations the pipeline relies on:
 * Python's whitespace strip, the search for the first run of decimal digits
 * in a text, and the decimal rendering of integers.
 */
module Strings {

  import opened Wrappers

  predicate IsDigit(c: char) {
    '0' <= c <= '9'
  }

  predicate AllDigits(s: string) {
    forall k :: 0 <= k < |s| ==> IsDigit(s[k])
  }

  predicate HasDigit(s: string) {
    exists k :: 0 <= k < |s| && IsDigit(s[k])
  }

  /** The characters for which Python's `str.isspace()` holds. */
  predicate IsSpace(c: char) {
    || c == ' '
    || '\t' <= c <= '\r'
    || '\U{1C}' <= c <= '\U{1F}'
    || c == '\U{85}' || c == '\U{A0}' || c == '\U{1680}'
    || '\U{2000}' <= c <= '\U{200A}'
    || c == '\U{2028}' || c == '\U{2029}' || c == '\U{202F}' || c == '\U{205F}'
    || c == '\U{3000}'
  }

  /** Neither end of `s` is whitespace. */
  predicate Stripped(s: string) {
    s == [] || (!IsSpace(s[0]) && !IsSpace(s[|s| - 1]))
  }

  // ---------------------------------------------------------------------
  // str.strip()
  // ---------------------------------------------------------------------

  /** Drops the leading whitespace. */
  function TrimStart(s: string): (r: string)
    ensures |r| <= |s|
  {
    if s != [] && IsSpace(s[0]) then TrimStart(s[1..]) else s
  }

  /** `TrimStart(s)` is the suffix of `s` that starts at its first non-space. */
  lemma {:induction false} TrimStartSpec(s: string)
    ensures TrimStart(s) == s[|s| - |TrimStart(s)|..]
    ensures forall k :: 0 <= k < |s| - |TrimStart(s)| ==> IsSpace(s[k])
    ensures TrimStart(s) != [] ==> !IsSpace(TrimStart(s)[0])
  {
    if s != [] && IsSpace(s[0]) {
      TrimStartSpec(s[1..]);
      assert forall k :: 1 <= k < |s| ==> s[k] == s[1..][k - 1];
    }
  }

  /** Drops the trailing whitespace. */
  function TrimEnd(s: string): (r: string)
    ensures |r| <= |s|
  {
    if s != [] && IsSpace(s[|s| - 1]) then TrimEnd(s[..|s| - 1]) else s
  }

  /** `TrimEnd(s)` is the prefix of `s` that ends at its last non-space. */
  lemma {:induction false} TrimEndSpec(s: string)
    ensures TrimEnd(s) == s[..|TrimEnd(s)|]
    ensures forall k :: |TrimEnd(s)| <= k < |s| ==> IsSpace(s[k])
    ensures TrimEnd(s) != [] ==> !IsSpace(TrimEnd(s)[|TrimEnd(s)| - 1])
  {
    if s != [] && IsSpace(s[|s| - 1]) {
      TrimEndSpec(s[..|s| - 1]);
    }
  }

  /** Python's `s.strip()` with no argument. */
  function Strip(s: string): (r: string)
    ensures Stripped(r)
  {
    var t := TrimStart(s);
    var r := TrimEnd(t);
    TrimStartSpec(s);
    TrimEndSpec(t);
    assert r != [] ==> r[0] == t[0];
    r
  }

  /** `s[..i]` and `s[j..]` are whitespace only. */
  ghost predicate SpaceMargins(s: string, i: nat, j: nat)
    requires i <= j <= |s|
  {
    && (forall k :: 0 <= k < i ==> IsSpace(s[k]))
    && (forall k :: j <= k < |s| ==> IsSpace(s[k]))
  }

  /**
   * `Strip(s)` is the slice `s[i..j]` that is left once the whitespace
   * margins `s[..i]` and `s[j..]` are cut off.
   */
  lemma StripIsSliceBetweenSpaceMargins(s: string)
    ensures exists i: nat, j: nat :: i <= j <= |s| && Strip(s) == s[i..j] && SpaceMargins(s, i, j)
  {
    var t := TrimStart(s);
    TrimStartSpec(s);
    var i := |s| - |t|;
    var u := TrimEnd(t);
    TrimEndSpec(t);
    var j := i + |u|;
    assert u == s[i..j] by {
      assert t == s[i..];
      assert s[i..][..|u|] == s[i..j];
    }
    forall k | j <= k < |s| ensures IsSpace(s[k]) {
      assert s[k] == t[k - i];
    }
    assert SpaceMargins(s, i, j);
  }

  /** A string with no whitespace at either end is left alone by `Strip`. */
  lemma StripKeepsStripped(s: string)
    requires Stripped(s)
    ensures Strip(s) == s
  {
  }

  /** Stripping twice is stripping once. */
  lemma StripIdempotent(s: string)
    ensures Strip(Strip(s)) == Strip(s)
  {
    StripKeepsStripped(Strip(s));
  }

  /** A digit string has no whitespace to lose. */
  lemma StripKeepsDigits(s: string)
    requires AllDigits(s)
    ensures Strip(s) == s
  {
    if s != [] {
      assert IsDigit(s[0]) && IsDigit(s[|s| - 1]);
    }
    StripKeepsStripped(s);
  }

  // ---------------------------------------------------------------------
  // The first run of digits
  // ---------------------------------------------------------------------

  /** The longest prefix of `s` made of digits. */
  function LeadingDigits(s: string): (r: string)
    ensures |r| <= |s| && r == s[..|r|] && AllDigits(r)
    ensures |r| < |s| ==> !IsDigit(s[|r|])
  {
    if s != [] && IsDigit(s[0]) then [s[0]] + LeadingDigits(s[1..]) else []
  }

  /**
   * The leftmost, longest match of `\d+` in `s`, or `None` when the search
   * finds nothing.
   */
  function FirstDigitRun(s: string): (r: Option<string>)
    ensures r.None? <==> !HasDigit(s)
    ensures r.Some? ==> r.value != [] && AllDigits(r.value)
  {
    if s == [] then None
    else if IsDigit(s[0]) then Some(LeadingDigits(s))
    else
      var r := FirstDigitRun(s[1..]);
      assert HasDigit(s) ==> HasDigit(s[1..]) by {
        if HasDigit(s) {
          var k :| 0 <= k < |s| && IsDigit(s[k]);
          assert s[1..][k - 1] == s[k];
        }
      }
      assert HasDigit(s[1..]) ==> HasDigit(s) by {
        if HasDigit(s[1..]) {
          var k :| 0 <= k < |s| - 1 && IsDigit(s[1..][k]);
          assert s[k + 1] == s[1..][k];
        }
      }
      r
  }

  /**
   * Reference definition of a regex match of `\d+` found by a left-to-right
   * search: `run` sits at `i`, no digit comes before it, it is all digits
   * and it cannot be extended to the right.
   */
  ghost predicate IsFirstRunAt(s: string, i: nat, run: string) {
    && i + |run| <= |s|
    && run != []
    && run == s[i..i + |run|]
    && AllDigits(run)
    && (forall k :: 0 <= k < i ==> !IsDigit(s[k]))
    && (i + |run| == |s| || !IsDigit(s[i + |run|]))
  }

  /** A digit prefix that cannot be extended is the one `LeadingDigits` finds. */
  lemma {:induction false} LeadingDigitsUnique(s: string, run: string)
    requires |run| <= |s| && run == s[..|run|] && AllDigits(run)
    requires |run| == |s| || !IsDigit(s[|run|])
    ensures LeadingDigits(s) == run
  {
    if run != [] {
      assert s[0] == run[0] && IsDigit(run[0]);
      var t, r := s[1..], run[1..];
      assert r == t[..|r|];
      assert |r| < |t| ==> t[|r|] == s[|run|];
      LeadingDigitsUnique(t, r);
      assert run == [s[0]] + r;
    }
  }

  /** A slice of the tail of `s` is the slice of `s` one position further on. */
  lemma TailSlice(s: string, i: nat, j: nat)
    requires 1 <= |s| && i <= j <= |s| - 1
    ensures s[1..][i..j] == s[i + 1..j + 1]
  {
  }

  /** Every first maximal digit run in the sense of `IsFirstRunAt` is what the search returns. */
  lemma {:induction false} FirstRunAtIsFound(s: string, i: nat, run: string)
    requires IsFirstRunAt(s, i, run)
    ensures FirstDigitRun(s) == Some(run)
  {
    if i == 0 {
      assert IsDigit(run[0]) && s[0] == run[0];
      LeadingDigitsUnique(s, run);
    } else {
      assert !IsDigit(s[0]);
      var t := s[1..];
      TailSlice(s, i - 1, i - 1 + |run|);
      assert i - 1 + |run| < |t| ==> t[i - 1 + |run|] == s[i + |run|];
      FirstRunAtIsFound(t, i - 1, run);
    }
  }

  /** Whatever the search returns is a first maximal digit run of `s`. */
  lemma {:induction false} FoundIsFirstRun(s: string)
    requires FirstDigitRun(s).Some?
    ensures exists i: nat :: IsFirstRunAt(s, i, FirstDigitRun(s).value)
  {
    var run := FirstDigitRun(s).value;
    if IsDigit(s[0]) {
      assert IsFirstRunAt(s, 0, run);
    } else {
      var t := s[1..];
      FoundIsFirstRun(t);
      var i: nat :| IsFirstRunAt(t, i, run);
      TailSlice(s, i, i + |run|);
      assert forall k :: 0 < k < i + 1 ==> s[k] == t[k - 1];
      assert i + 1 + |run| < |s| ==> s[i + 1 + |run|] == t[i + |run|];
      assert IsFirstRunAt(s, i + 1, run);
    }
  }

  // ---------------------------------------------------------------------
  // str(n) for integers
  // ---------------------------------------------------------------------

  function DigitChar(d: nat): (c: char)
    requires d < 10
    ensures IsDigit(c)
  {
    ('0' as int + d) as char
  }

  function DigitValue(c: char): (d: nat)
    requires IsDigit(c)
    ensures d < 10
  {
    (c as int - '0' as int) as nat
  }

  /** Python's `str(n)` for a non-negative integer: decimal, no leading zeros. */
  function DecimalText(n: nat): (r: string)
    ensures r != [] && AllDigits(r)
    ensures |r| == 1 || r[0] != '0'
    ensures n > 0 ==> r[0] != '0'
  {
    if n < 10 then [DigitChar(n)] else DecimalText(n / 10) + [DigitChar(n % 10)]
  }

  /** The number a digit string denotes. */
  function DecimalValue(s: string): nat
    requires AllDigits(s)
  {
    if s == [] then 0 else 10 * DecimalValue(s[..|s| - 1]) + DigitValue(s[|s| - 1])
  }

  /** Reading back the decimal text of `n` gives `n`. */
  lemma {:induction false} DecimalRoundTrip(n: nat)
    ensures DecimalValue(DecimalText(n)) == n
  {
    var s := DecimalText(n);
    if n >= 10 {
      assert s[..|s| - 1] == DecimalText(n / 10);
      DecimalRoundTrip(n / 10);
    } else {
      assert s[..|s| - 1] == [];
    }
  }

  /** The canonical decimal form: digits, with no leading zero unless the text is "0". */
  predicate CanonicalDecimal(s: string) {
    s != [] && AllDigits(s) && (|s| == 1 || s[0] != '0')
  }

  /** A digit string that starts with a non-zero digit denotes a positive number. */
  lemma {:induction false} LeadingNonZeroIsPositive(s: string)
    requires s != [] && AllDigits(s) && s[0] != '0'
    ensures DecimalValue(s) > 0
  {
    if |s| > 1 {
      LeadingNonZeroIsPositive(s[..|s| - 1]);
    }
  }

  /** Each canonical decimal text is the rendering of the number it denotes: the rendering is unique. */
  lemma {:induction false} CanonicalDecimalIsRendering(s: string)
    requires CanonicalDecimal(s)
    ensures DecimalText(DecimalValue(s)) == s
  {
    var last := s[|s| - 1];
    var d := DigitValue(last);
    assert DigitChar(d) == last;
    if |s| > 1 {
      var p := s[..|s| - 1];
      assert p[0] == s[0];
      LeadingNonZeroIsPositive(p);
      CanonicalDecimalIsRendering(p);
      var n := DecimalValue(s);
      assert n == 10 * DecimalValue(p) + d;
      assert n / 10 == DecimalValue(p) && n % 10 == d;
      assert s == p + [last];
    }
  }

  /**
   * Python's `str(n)` for any integer: the digits of `n`, or a minus sign
   * followed by the digits of `-n`; reading the digits back gives the magnitude.
   */
  function IntText(n: int): (r: string)
    ensures n >= 0 ==> CanonicalDecimal(r) && DecimalValue(r) == n
    ensures n < 0 ==> |r| >= 2 && r[0] == '-' && CanonicalDecimal(r[1..]) && r[1] != '0' && DecimalValue(r[1..]) == -n
  {
    if n < 0 then
      var d := DecimalText(-n);
      DecimalRoundTrip(-n);
      assert ("-" + d)[1..] == d;
      "-" + d
    else
      DecimalRoundTrip(n);
      DecimalText(n)
  }
}
