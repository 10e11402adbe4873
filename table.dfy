/**
 * The records of the two workbooks and of the merged result. A spreadsheet
 * sheet is a sequence of rows; numeric columns hold reals or a missing value.
 */
module Table {

  import opened Wrappers
  import opened Strings

  /** A cell of a text-or-number column as pandas reads it from a workbook. */
  datatype Cell = Str(s: string) | Int(n: int) | Null

  /** The text of one cell as pandas renders it: a missing value becomes "nan". */
  function CellText(c: Cell): (r: string)
    ensures c.Str? ==> r == c.s
    ensures c.Int? && c.n >= 0 ==> CanonicalDecimal(r) && DecimalValue(r) == c.n
    ensures c.Int? && c.n < 0 ==>
              |r| >= 2 && r[0] == '-' && CanonicalDecimal(r[1..]) && r[1] != '0' && DecimalValue(r[1..]) == -c.n
    ensures c.Null? ==> r == "nan"
  {
    match c
    case Str(s) => s
    case Int(n) => IntText(n)
    case Null => "nan"
  }

  /**
   * One row of the norm-sensing sheet. `rest` holds every other column
   * (the date columns among them), which the pipeline carries along.
   */
  datatype DemandRow = DemandRow(
    program: Cell,
    style: Cell,
    color: Cell,
    concludedNorms: Option<real>,
    cf: Option<real>,
    rest: seq<Cell>)

  /** One row of the RM-macro sheet. */
  datatype MacroRow = MacroRow(procGrp: Cell, l: Cell, colour: Cell, consumption: Option<real>)

  /** One row of the grouped norms: a `(l, GMT colour, PROC_GRP)` group and its mean consumption. */
  datatype NormRow = NormRow(l: Cell, colour: Cell, procGrp: Cell, consumption: Option<real>)

  /**
   * One row of the merged sheet: the demand row, the matched norm row
   * (`None` when the left join found no match, i.e. null `l`, `GMT colour`,
   * `PROC_GRP` and `CONSUMPTION`), and the two calculated columns.
   */
  datatype MergedRow = MergedRow(
    demand: DemandRow,
    norm: Option<NormRow>,
    pieces: Option<real>,
    requirement: Option<real>)

  /** Boolean-mask selection: the rows that satisfy `keep`, in their order. */
  function Filter<T>(s: seq<T>, keep: T -> bool): (r: seq<T>)
    ensures |r| <= |s|
    ensures forall x :: x in r ==> x in s && keep(x)
  {
    if s == [] then []
    else (if keep(s[0]) then [s[0]] else []) + Filter(s[1..], keep)
  }

  /** Each row is kept as often as it occurs, if it satisfies `keep`, and dropped otherwise. */
  lemma {:induction false} FilterCount<T>(s: seq<T>, keep: T -> bool)
    ensures forall x :: multiset(Filter(s, keep))[x] == if keep(x) then multiset(s)[x] else 0
  {
    if s != [] {
      FilterCount(s[1..], keep);
      assert s == [s[0]] + s[1..];
    }
  }

  /** Selection commutes with concatenation, so the kept rows keep their relative order. */
  lemma {:induction false} FilterAppend<T>(a: seq<T>, b: seq<T>, keep: T -> bool)
    ensures Filter(a + b, keep) == Filter(a, keep) + Filter(b, keep)
  {
    if a != [] {
      assert (a + b)[1..] == a[1..] + b;
      FilterAppend(a[1..], b, keep);
    } else {
      assert a + b == b;
    }
  }

  /** A mask that holds on every row selects the whole sheet. */
  lemma {:induction false} FilterKeepsAll<T>(s: seq<T>, keep: T -> bool)
    requires forall x :: x in s ==> keep(x)
    ensures Filter(s, keep) == s
  {
    if s != [] {
      assert forall x :: x in s[1..] ==> x in s;
      FilterKeepsAll(s[1..], keep);
      assert s == [s[0]] + s[1..];
    }
  }
}
