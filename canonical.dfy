/**
 * The join-key canonicaliser: each key cell rendered as text and stripped, on the demand
 * sheet's `Style` and `GMT Color` and on the grouped norms' `l` and
 * `GMT colour`. No case folding: keys compare as exact text.
 */
module Canonical {

  import opened Strings
  import opened Table

  /** One key cell rendered as text and stripped of surrounding whitespace. */
  function CanonicalKey(c: Cell): (r: Cell)
    ensures r.Str? && Stripped(r.s)
  {
    Str(Strip(CellText(c)))
  }

  /** The canonical key is the cell's text with its whitespace margins cut off. */
  lemma CanonicalKeyIsTrimmedText(c: Cell)
    ensures exists i: nat, j: nat :: i <= j <= |CellText(c)| && CanonicalKey(c) == Str(CellText(c)[i..j])
                                      && SpaceMargins(CellText(c), i, j)
  {
    StripIsSliceBetweenSpaceMargins(CellText(c));
  }

  /** Canonicalising a canonical key changes nothing. */
  lemma CanonicalKeyIdempotent(c: Cell)
    ensures CanonicalKey(CanonicalKey(c)) == CanonicalKey(c)
  {
    StripIdempotent(CellText(c));
  }

  /** A normalised length key (a digit string) is already canonical. */
  lemma CanonicalKeyKeepsDigits(s: string)
    requires AllDigits(s)
    ensures CanonicalKey(Str(s)) == Str(s)
  {
    StripKeepsDigits(s);
  }

  /** The demand row once its `Style` column is canonical. */
  function CanonicalStyle(d: DemandRow): DemandRow {
    d.(style := CanonicalKey(d.style))
  }

  /** The demand row once its `GMT Color` column is canonical. */
  function CanonicalColor(d: DemandRow): DemandRow {
    d.(color := CanonicalKey(d.color))
  }

  /** The demand row once both of its join keys are canonical. */
  function CanonicalDemand(d: DemandRow): DemandRow {
    CanonicalColor(CanonicalStyle(d))
  }

  /** The norm row once its `l` column is canonical. */
  function CanonicalLength(g: NormRow): NormRow {
    g.(l := CanonicalKey(g.l))
  }

  /** The norm row once its `GMT colour` column is canonical. */
  function CanonicalColour(g: NormRow): NormRow {
    g.(colour := CanonicalKey(g.colour))
  }

  /** The norm row once both of its join keys are canonical. */
  function CanonicalNorm(g: NormRow): NormRow {
    CanonicalColour(CanonicalLength(g))
  }

  /** The demand sheet after lines 109-110. */
  function CanonicalDemands(ds: seq<DemandRow>): (r: seq<DemandRow>)
    ensures |r| == |ds|
    ensures forall i :: 0 <= i < |r| ==>
              && r[i] == ds[i].(style := r[i].style, color := r[i].color)
              && r[i].style.Str? && Stripped(r[i].style.s)
              && r[i].color.Str? && Stripped(r[i].color.s)
    ensures forall i :: 0 <= i < |r| ==>
              r[i].style == CanonicalKey(ds[i].style) && r[i].color == CanonicalKey(ds[i].color)
  {
    seq(|ds|, i requires 0 <= i < |ds| => CanonicalDemand(ds[i]))
  }

  /** The canonical sheet holds the canonical form of every row, and nothing else. */
  lemma CanonicalDemandsMembers(ds: seq<DemandRow>)
    ensures forall d :: d in ds ==> CanonicalDemand(d) in CanonicalDemands(ds)
    ensures forall e :: e in CanonicalDemands(ds) ==> exists d :: d in ds && e == CanonicalDemand(d)
  {
    var cs := CanonicalDemands(ds);
    forall d | d in ds ensures CanonicalDemand(d) in cs {
      var i :| 0 <= i < |ds| && ds[i] == d;
      assert cs[i] == CanonicalDemand(d);
    }
    forall e | e in cs ensures exists d :: d in ds && e == CanonicalDemand(d) {
      var i :| 0 <= i < |cs| && cs[i] == e;
      assert ds[i] in ds;
    }
  }

  /** A demand sheet whose keys are already canonical is left as it is. */
  lemma CanonicalDemandsFixed(ds: seq<DemandRow>)
    requires forall d :: d in ds ==> CanonicalDemand(d) == d
    ensures CanonicalDemands(ds) == ds
  {
    forall i | 0 <= i < |ds| ensures CanonicalDemands(ds)[i] == ds[i] {
      assert ds[i] in ds;
    }
  }

  /** The grouped norms after lines 112-113. */
  function CanonicalNorms(gs: seq<NormRow>): (r: seq<NormRow>)
    ensures |r| == |gs|
    ensures forall i :: 0 <= i < |r| ==>
              && r[i] == gs[i].(l := r[i].l, colour := r[i].colour)
              && r[i].l.Str? && Stripped(r[i].l.s)
              && r[i].colour.Str? && Stripped(r[i].colour.s)
    ensures forall i :: 0 <= i < |r| ==>
              r[i].l == CanonicalKey(gs[i].l) && r[i].colour == CanonicalKey(gs[i].colour)
  {
    seq(|gs|, i requires 0 <= i < |gs| => CanonicalNorm(gs[i]))
  }

  /**
   * After canonicalisation every join key of the demand sheet is trimmed
   * text, every other column is unchanged, and a second pass changes nothing.
   */
  lemma CanonicalDemandsSpec(ds: seq<DemandRow>)
    ensures forall d :: d in CanonicalDemands(ds) ==>
              && d.style.Str? && Stripped(d.style.s)
              && d.color.Str? && Stripped(d.color.s)
    ensures forall i :: 0 <= i < |ds| ==>
              CanonicalDemands(ds)[i] == ds[i].(style := CanonicalDemands(ds)[i].style,
                                                color := CanonicalDemands(ds)[i].color)
    ensures CanonicalDemands(CanonicalDemands(ds)) == CanonicalDemands(ds)
  {
    forall i | 0 <= i < |ds|
      ensures CanonicalDemand(CanonicalDemand(ds[i])) == CanonicalDemand(ds[i])
    {
      CanonicalKeyIdempotent(ds[i].style);
      CanonicalKeyIdempotent(ds[i].color);
    }
  }

  /**
   * After canonicalisation every join key of the grouped norms is trimmed
   * text, the other columns are unchanged, and a second pass changes nothing.
   */
  lemma CanonicalNormsSpec(gs: seq<NormRow>)
    ensures forall g :: g in CanonicalNorms(gs) ==>
              && g.l.Str? && Stripped(g.l.s)
              && g.colour.Str? && Stripped(g.colour.s)
    ensures forall i :: 0 <= i < |gs| ==>
              CanonicalNorms(gs)[i] == gs[i].(l := CanonicalNorms(gs)[i].l,
                                              colour := CanonicalNorms(gs)[i].colour)
    ensures CanonicalNorms(CanonicalNorms(gs)) == CanonicalNorms(gs)
  {
    forall i | 0 <= i < |gs|
      ensures CanonicalNorm(CanonicalNorm(gs[i])) == CanonicalNorm(gs[i])
    {
      CanonicalKeyIdempotent(gs[i].l);
      CanonicalKeyIdempotent(gs[i].colour);
    }
  }

  /** Line 109: the `Style` column of the selected demand rows, rewritten in place. */
  method CanonicaliseStyleColumn(a: array<DemandRow>)
    modifies a
    ensures forall k :: 0 <= k < a.Length ==> a[k] == CanonicalStyle(old(a[k]))
  {
    forall k | 0 <= k < a.Length {
      a[k] := CanonicalStyle(a[k]);
    }
  }

  /** Line 110: the `GMT Color` column of the selected demand rows, rewritten in place. */
  method CanonicaliseColorColumn(a: array<DemandRow>)
    modifies a
    ensures forall k :: 0 <= k < a.Length ==> a[k] == CanonicalColor(old(a[k]))
  {
    forall k | 0 <= k < a.Length {
      a[k] := CanonicalColor(a[k]);
    }
  }

  /** Lines 109-110: both demand-side join keys, one column after the other. */
  method CanonicaliseDemandKeys(a: array<DemandRow>)
    modifies a
    ensures a[..] == CanonicalDemands(old(a[..]))
  {
    CanonicaliseStyleColumn(a);
    CanonicaliseColorColumn(a);
  }

  /** Line 112: the `l` column of the grouped norms, rewritten in place. */
  method CanonicaliseLengthColumn(a: array<NormRow>)
    modifies a
    ensures forall k :: 0 <= k < a.Length ==> a[k] == CanonicalLength(old(a[k]))
  {
    forall k | 0 <= k < a.Length {
      a[k] := CanonicalLength(a[k]);
    }
  }

  /** Line 113: the `GMT colour` column of the grouped norms, rewritten in place. */
  method CanonicaliseColourColumn(a: array<NormRow>)
    modifies a
    ensures forall k :: 0 <= k < a.Length ==> a[k] == CanonicalColour(old(a[k]))
  {
    forall k | 0 <= k < a.Length {
      a[k] := CanonicalColour(a[k]);
    }
  }

  /** Lines 112-113: both join keys of the grouped norms, one column after the other. */
  method CanonicaliseNormKeys(a: array<NormRow>)
    modifies a
    ensures a[..] == CanonicalNorms(old(a[..]))
  {
    CanonicaliseLengthColumn(a);
    CanonicaliseColourColumn(a);
  }
}
