/**
 * The calculated columns of the merged sheet:
 * `No of Pieces = Concluded Norms - Post discussion / CF` and
 * `Requirement = No of Pieces * CONSUMPTION`, missing values propagating.
 * A zero `CF` gives a missing `No of Pieces` (pandas would give inf or NaN).
 */
module Derived {

  import opened Wrappers
  import opened Table

  /** `Concluded Norms - Post discussion / CF` for one row. */
  function NoOfPieces(norms: Option<real>, cf: Option<real>): (r: Option<real>)
    ensures r.Some? <==> norms.Some? && cf.Some? && cf.value != 0.0
    ensures r.Some? ==> r.value * cf.value == norms.value
  {
    if norms.Some? && cf.Some? && cf.value != 0.0 then Some(norms.value / cf.value) else None
  }

  /** `No of Pieces * CONSUMPTION` for one row. */
  function RequirementOf(pieces: Option<real>, consumption: Option<real>): (r: Option<real>)
    ensures r.Some? <==> pieces.Some? && consumption.Some?
  {
    if pieces.Some? && consumption.Some? then Some(pieces.value * consumption.value) else None
  }

  /** The `CONSUMPTION` cell of a merged row: missing when the join found no match. */
  function ConsumptionOf(row: MergedRow): Option<real> {
    if row.norm.Some? then row.norm.value.consumption else None
  }

  /** The row once `No of Pieces` is assigned. */
  function WithPieces(row: MergedRow): MergedRow {
    row.(pieces := NoOfPieces(row.demand.concludedNorms, row.demand.cf))
  }

  /** The row once `Requirement` is assigned, from the `No of Pieces` already in it. */
  function WithRequirement(row: MergedRow): MergedRow {
    row.(requirement := RequirementOf(row.pieces, ConsumptionOf(row)))
  }

  function Calculated(row: MergedRow): MergedRow {
    WithRequirement(WithPieces(row))
  }

  /** The merged sheet after lines 131-132. */
  function CalculatedRows(rows: seq<MergedRow>): (r: seq<MergedRow>)
    ensures |r| == |rows|
    ensures forall i :: 0 <= i < |r| ==>
              r[i].demand == rows[i].demand && r[i].norm == rows[i].norm && CalculatedColumnsHold(r[i])
  {
    seq(|rows|, i requires 0 <= i < |rows| => Calculated(rows[i]))
  }

  /**
   * What the two calculated columns hold: the join columns are untouched,
   * `No of Pieces` is the quotient whenever `CF` is present and non-zero
   * and does not depend on the match, and `Requirement` is
   * `(norms / CF) * CONSUMPTION` exactly when all three are present
   * (so it is missing on every unmatched row).
   */
  lemma CalculatedSpec(row: MergedRow)
    ensures Calculated(row).demand == row.demand && Calculated(row).norm == row.norm
    ensures forall n :: Calculated(row.(norm := n)).pieces == Calculated(row).pieces
    ensures var d := row.demand;
            Calculated(row).pieces.Some? <==> d.concludedNorms.Some? && d.cf.Some? && d.cf.value != 0.0
    ensures var d := row.demand;
            Calculated(row).requirement.Some? <==>
              d.concludedNorms.Some? && d.cf.Some? && d.cf.value != 0.0 && ConsumptionOf(row).Some?
    ensures var d := row.demand;
            Calculated(row).requirement.Some? ==>
              Calculated(row).requirement.value == (d.concludedNorms.value / d.cf.value) * ConsumptionOf(row).value
    ensures row.norm.None? ==> Calculated(row).requirement.None?
  {
  }

  /**
   * The calculated columns of a row agree with its own demand and norm
   * columns: `No of Pieces` times `CF` gives the concluded norms, and
   * `Requirement` is present exactly when `No of Pieces` and `CONSUMPTION` are.
   */
  predicate CalculatedColumnsHold(row: MergedRow) {
    var d := row.demand;
    && (row.pieces.Some? <==> d.concludedNorms.Some? && d.cf.Some? && d.cf.value != 0.0)
    && (row.pieces.Some? ==> row.pieces.value * d.cf.value == d.concludedNorms.value)
    && (row.requirement.Some? <==> row.pieces.Some? && ConsumptionOf(row).Some?)
    && (row.requirement.Some? ==> row.requirement.value == row.pieces.value * ConsumptionOf(row).value)
    && (row.norm.None? ==> row.requirement.None?)
  }

  lemma CalculatedHolds(row: MergedRow)
    ensures CalculatedColumnsHold(Calculated(row))
  {
  }

  /** Every row of the calculated sheet satisfies `CalculatedColumnsHold`, whatever the join produced. */
  lemma CalculatedRowsHold(rows: seq<MergedRow>)
    ensures forall row :: row in CalculatedRows(rows) ==> CalculatedColumnsHold(row)
  {
    forall row | row in CalculatedRows(rows) ensures CalculatedColumnsHold(row) {
      var i :| 0 <= i < |rows| && CalculatedRows(rows)[i] == row;
      CalculatedHolds(rows[i]);
    }
  }

  /** The calculated rows keep each row's demand and norm columns, row by row. */
  lemma CalculatedRowsKeepJoin(rows: seq<MergedRow>)
    ensures forall i :: 0 <= i < |rows| ==>
              CalculatedRows(rows)[i].demand == rows[i].demand && CalculatedRows(rows)[i].norm == rows[i].norm
  {
  }

  /** Each row's calculated values depend on that row alone: computing over two halves is computing over each. */
  lemma CalculatedRowsAppend(a: seq<MergedRow>, b: seq<MergedRow>)
    ensures CalculatedRows(a + b) == CalculatedRows(a) + CalculatedRows(b)
  {
  }

  /** Line 131: the `No of Pieces` column, assigned row by row. */
  method AddPiecesColumn(a: array<MergedRow>)
    modifies a
    ensures forall k :: 0 <= k < a.Length ==> a[k] == WithPieces(old(a[k]))
  {
    forall k | 0 <= k < a.Length {
      a[k] := WithPieces(a[k]);
    }
  }

  /** Line 132: the `Requirement` column, assigned row by row. */
  method AddRequirementColumn(a: array<MergedRow>)
    modifies a
    ensures forall k :: 0 <= k < a.Length ==> a[k] == WithRequirement(old(a[k]))
  {
    forall k | 0 <= k < a.Length {
      a[k] := WithRequirement(a[k]);
    }
  }

  /** Lines 131-132, in order: `Requirement` reads the `No of Pieces` column just written. */
  method AddCalculatedFields(a: array<MergedRow>)
    modifies a
    ensures a[..] == CalculatedRows(old(a[..]))
  {
    AddPiecesColumn(a);
    AddRequirementColumn(a);
  }
}
