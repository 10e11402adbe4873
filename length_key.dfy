/**
 * The normaliser of the macro sheet's `l` column: missing values become
 * "0", then the first run of decimal digits in the cell's text is kept
 * ("0" when there is none).
 */
module LengthKey {

  import opened Wrappers
  import opened Strings
  import opened Table

  /** A missing cell becomes the text "0"; any other cell is kept. */
  function FillZero(c: Cell): (r: Cell)
    ensures r != Null
  {
    if c.Null? then Str("0") else c
  }

  /** The first run of digits in the cell's text, or "0" when the text has no digit. */
  function ExtractDigits(c: Cell): (r: string)
    ensures r != [] && AllDigits(r)
  {
    match FirstDigitRun(CellText(c))
    case Some(run) => run
    case None => "0"
  }

  /** The normalised length key of one `l` cell. */
  function LengthKey(c: Cell): (r: string)
    ensures r != [] && AllDigits(r)
  {
    ExtractDigits(FillZero(c))
  }

  /** A missing length becomes "0". */
  lemma LengthKeyOfNull()
    ensures LengthKey(Null) == "0"
  {
    assert FirstDigitRun("0") == Some(LeadingDigits("0"));
  }

  /** A length whose text holds no digit becomes "0". */
  lemma LengthKeyWithoutDigits(c: Cell)
    requires c != Null && !HasDigit(CellText(c))
    ensures LengthKey(c) == "0"
  {
  }

  /** When the text holds a digit, the key is its first maximal digit run, and no other string is. */
  lemma LengthKeyIsFirstRun(c: Cell, i: nat, run: string)
    requires c != Null && IsFirstRunAt(CellText(c), i, run)
    ensures LengthKey(c) == run
  {
    FirstRunAtIsFound(CellText(c), i, run);
  }

  /** Conversely, the key of a text that holds a digit is a first maximal digit run of that text. */
  lemma LengthKeyIsFound(c: Cell)
    requires c != Null && HasDigit(CellText(c))
    ensures exists i: nat :: IsFirstRunAt(CellText(c), i, LengthKey(c))
  {
    var t := CellText(c);
    assert FillZero(c) == c;
    assert FirstDigitRun(t).Some?;
    assert LengthKey(c) == FirstDigitRun(t).value;
    FoundIsFirstRun(t);
    var i: nat :| IsFirstRunAt(t, i, FirstDigitRun(t).value);
    assert IsFirstRunAt(t, i, LengthKey(c));
  }

  /** Normalising an already normalised key gives it back. */
  lemma LengthKeyIdempotent(s: string)
    requires s != [] && AllDigits(s)
    ensures LengthKey(Str(s)) == s
  {
    assert IsFirstRunAt(s, 0, s);
    FirstRunAtIsFound(s, 0, s);
  }

  /** `LengthKey` is a projection: applying it to its own output changes nothing. */
  lemma LengthKeyTwice(c: Cell)
    ensures LengthKey(Str(LengthKey(c))) == LengthKey(c)
  {
    LengthKeyIdempotent(LengthKey(c));
  }

  /** An integer length becomes the decimal text of its magnitude (the sign is dropped). */
  lemma LengthKeyOfInt(n: int)
    ensures LengthKey(Int(n)) == DecimalText(if n < 0 then -n else n)
  {
    var d := DecimalText(if n < 0 then -n else n);
    if n < 0 {
      var t := "-" + d;
      assert t[1..1 + |d|] == d;
      assert IsFirstRunAt(t, 1, d);
      FirstRunAtIsFound(t, 1, d);
    } else {
      LengthKeyIdempotent(d);
    }
  }

  /** The row once its `l` cell is filled. */
  function WithFilledLength(m: MacroRow): MacroRow {
    m.(l := FillZero(m.l))
  }

  /** The row once the digits are extracted from its `l` cell. */
  function WithExtractedLength(m: MacroRow): MacroRow {
    m.(l := Str(ExtractDigits(m.l)))
  }

  /** The row once its `l` cell is normalised: filled, then extracted. */
  function WithLengthKey(m: MacroRow): MacroRow {
    m.(l := Str(LengthKey(m.l)))
  }

  /** The macro rows after lines 102-103. */
  function NormaliseLengths(ms: seq<MacroRow>): (r: seq<MacroRow>)
    ensures |r| == |ms|
    ensures forall i :: 0 <= i < |r| ==>
              r[i] == ms[i].(l := r[i].l) && r[i].l.Str? && r[i].l.s != [] && AllDigits(r[i].l.s)
    ensures forall i :: 0 <= i < |r| ==> r[i].l == Str(LengthKey(ms[i].l))
  {
    seq(|ms|, i requires 0 <= i < |ms| => WithLengthKey(ms[i]))
  }

  /** Every normalised row keeps its other columns, and its `l` is a non-empty digit string. */
  lemma NormaliseLengthsShape(ms: seq<MacroRow>)
    ensures forall i :: 0 <= i < |ms| ==>
              var m := NormaliseLengths(ms)[i];
              && m.procGrp == ms[i].procGrp && m.colour == ms[i].colour
              && m.consumption == ms[i].consumption
              && m.l.Str? && m.l.s != [] && AllDigits(m.l.s)
  {
  }

  /** A sheet whose lengths are already digit strings is left as it is. */
  lemma NormaliseLengthsOfDigits(ms: seq<MacroRow>)
    requires forall m :: m in ms ==> m.l.Str? && m.l.s != [] && AllDigits(m.l.s)
    ensures NormaliseLengths(ms) == ms
  {
    forall i | 0 <= i < |ms| ensures NormaliseLengths(ms)[i] == ms[i] {
      assert ms[i] in ms;
      LengthKeyIdempotent(ms[i].l.s);
    }
  }

  /** Line 102: missing `l` cells are filled with "0" in place. */
  method FillLengthColumn(a: array<MacroRow>)
    modifies a
    ensures forall k :: 0 <= k < a.Length ==> a[k] == WithFilledLength(old(a[k]))
  {
    forall k | 0 <= k < a.Length {
      a[k] := WithFilledLength(a[k]);
    }
  }

  /** Line 103: every `l` cell is replaced by its digit extraction in place. */
  method ExtractLengthColumn(a: array<MacroRow>)
    modifies a
    ensures forall k :: 0 <= k < a.Length ==> a[k] == WithExtractedLength(old(a[k]))
  {
    forall k | 0 <= k < a.Length {
      a[k] := WithExtractedLength(a[k]);
    }
  }

  /** Lines 102-103: first the fill, then the extraction over the filled column. */
  method NormaliseLengthColumn(a: array<MacroRow>)
    modifies a
    ensures a[..] == NormaliseLengths(old(a[..]))
  {
    FillLengthColumn(a);
    ExtractLengthColumn(a);
  }

  /** A key written with a trailing suffix keeps its leading number: "32L-Red" becomes "32". */
  lemma LengthKeyOfSuffixedText()
    ensures LengthKey(Str("32L-Red")) == "32"
  {
    var t := "32L-Red";
    assert t[0..2] == "32" && t[2] == 'L';
    LengthKeyIsFirstRun(Str(t), 0, "32");
  }

  /** A digit after a letter prefix is still found: "R0" becomes "0" and "L32" becomes "32". */
  lemma LengthKeyOfPrefixedText()
    ensures LengthKey(Str("R0")) == "0"
    ensures LengthKey(Str("L32")) == "32"
  {
    var t := "R0";
    assert t[1..2] == "0";
    LengthKeyIsFirstRun(Str(t), 1, "0");
    var u := "L32";
    assert u[1..3] == "32";
    LengthKeyIsFirstRun(Str(u), 1, "32");
  }

  /** Text without digits becomes "0": "abc" does. */
  lemma LengthKeyOfLetters()
    ensures LengthKey(Str("abc")) == "0"
  {
    var t := "abc";
    assert !IsDigit(t[0]) && !IsDigit(t[1]) && !IsDigit(t[2]);
    LengthKeyWithoutDigits(Str(t));
  }
}
