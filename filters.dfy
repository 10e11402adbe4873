/** The two row selections that start the pipeline. */
module Filters {

  import opened Table

  /** The row mask of line 93: the row's `Program` is one of the selected ones. */
  function ProgramSelector(selected: set<Cell>): DemandRow -> bool {
    (d: DemandRow) => d.program in selected
  }

  /** Line 93: the demand rows of the selected programs. */
  function SelectPrograms(ds: seq<DemandRow>, selected: set<Cell>): (r: seq<DemandRow>)
    ensures |r| <= |ds|
    ensures forall d :: d in r ==> d in ds && d.program in selected
  {
    Filter(ds, ProgramSelector(selected))
  }

  /**
   * A row of the demand sheet is kept exactly as often as it occurs there
   * when its program is selected, and never otherwise.
   */
  lemma SelectProgramsExact(ds: seq<DemandRow>, selected: set<Cell>)
    ensures forall d :: multiset(SelectPrograms(ds, selected))[d]
                          == if d.program in selected then multiset(ds)[d] else 0
  {
    FilterCount(ds, ProgramSelector(selected));
  }

  /** Selecting from two halves is selecting from each: the kept rows stay in sheet order. */
  lemma SelectProgramsKeepsOrder(a: seq<DemandRow>, b: seq<DemandRow>, selected: set<Cell>)
    ensures SelectPrograms(a + b, selected) == SelectPrograms(a, selected) + SelectPrograms(b, selected)
  {
    FilterAppend(a, b, ProgramSelector(selected));
  }

  /** The process groups the macro sheet is restricted to. */
  predicate RelevantGroup(c: Cell) {
    c == Str("ELS") || c == Str("LAC")
  }

  predicate IsRelevantRow(m: MacroRow) {
    RelevantGroup(m.procGrp)
  }

  /** Line 99: the macro rows of process group ELS or LAC. */
  function KeepRelevantGroups(ms: seq<MacroRow>): (r: seq<MacroRow>)
    ensures |r| <= |ms|
    ensures forall m :: m in r ==> m in ms && RelevantGroup(m.procGrp)
  {
    Filter(ms, IsRelevantRow)
  }

  /** A macro row survives the filter exactly as often as it occurs, iff its group is ELS or LAC. */
  lemma KeepRelevantGroupsExact(ms: seq<MacroRow>)
    ensures forall m :: multiset(KeepRelevantGroups(ms))[m]
                          == if RelevantGroup(m.procGrp) then multiset(ms)[m] else 0
  {
    FilterCount(ms, IsRelevantRow);
  }
}
