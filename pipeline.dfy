/**
 * The `Run` branch of the app: the two uploaded sheets (already read) and
 * the selected programs go in, the merged sheet with its calculated columns
 * comes out.
 */
module Pipeline {

  import opened Wrappers
  import opened Strings
  import opened Table
  import opened Filters
  import opened LengthKey
  import opened Aggregate
  import opened Canonical
  import opened Join
  import opened Derived

  /** The left side of the merge: the selected demand rows with canonical `Style` and `GMT Color`. */
  function DemandSide(demand: seq<DemandRow>, selected: set<Cell>): (r: seq<DemandRow>)
    ensures |r| <= |demand|
    ensures forall i :: 0 <= i < |r| ==>
              r[i].program in selected && r[i].style.Str? && Stripped(r[i].style.s)
              && r[i].color.Str? && Stripped(r[i].color.s)
  {
    CanonicalDemands(SelectPrograms(demand, selected))
  }

  /** The macro rows that reach the grouping: ELS and LAC only, with normalised `l`. */
  function GroupInput(macro: seq<MacroRow>): (r: seq<MacroRow>)
    ensures |r| <= |macro|
    ensures forall i :: 0 <= i < |r| ==> RelevantGroup(r[i].procGrp) && r[i].l.Str? && AllDigits(r[i].l.s)
  {
    NormaliseLengths(KeepRelevantGroups(macro))
  }

  /** The right side of the merge: the grouped norms with canonical `l` and `GMT colour`. */
  function NormSide(macro: seq<MacroRow>): (r: seq<NormRow>)
    ensures |r| == |GroupKeys(GroupInput(macro))|
    ensures forall i :: 0 <= i < |r| ==>
              r[i].l.Str? && Stripped(r[i].l.s) && r[i].colour.Str? && Stripped(r[i].colour.s)
  {
    CanonicalNorms(GroupMeans(GroupInput(macro)))
  }

  /** Lines 93-132 as one function of the inputs. */
  function Reconcile(demand: seq<DemandRow>, macro: seq<MacroRow>, selected: set<Cell>): (r: seq<MergedRow>)
    ensures |r| >= |DemandSide(demand, selected)|
    ensures forall i :: 0 <= i < |r| ==> CalculatedColumnsHold(r[i])
  {
    CalculatedRows(LeftJoin(DemandSide(demand, selected), NormSide(macro)))
  }

  /** Lines 93 and 109-110: the selected demand rows, keys rewritten in place. */
  method PrepareDemand(demand: seq<DemandRow>, selected: set<Cell>) returns (left: seq<DemandRow>)
    ensures left == DemandSide(demand, selected)
  {
    var filtered := SelectPrograms(demand, selected);
    var df := new DemandRow[|filtered|](i requires 0 <= i < |filtered| => filtered[i]);
    assert df[..] == filtered;
    CanonicaliseDemandKeys(df);
    left := df[..];
  }

  /** Lines 99-106 and 112-113: filter, rewrite `l` in place, group, rewrite the keys in place. */
  method PrepareNorms(macro: seq<MacroRow>) returns (right: seq<NormRow>)
    ensures right == NormSide(macro)
  {
    var relevant := KeepRelevantGroups(macro);
    var df1 := new MacroRow[|relevant|](i requires 0 <= i < |relevant| => relevant[i]);
    assert df1[..] == relevant;
    NormaliseLengthColumn(df1);
    var grouped := GroupMeans(df1[..]);
    var gn := new NormRow[|grouped|](i requires 0 <= i < |grouped| => grouped[i]);
    assert gn[..] == grouped;
    CanonicaliseNormKeys(gn);
    right := gn[..];
  }

  /** Lines 116 and 131-132: merge, then assign the two calculated columns in place. */
  method MergeAndCalculate(left: seq<DemandRow>, right: seq<NormRow>) returns (merged: seq<MergedRow>)
    ensures merged == CalculatedRows(LeftJoin(left, right))
  {
    var joined := LeftJoin(left, right);
    var out := new MergedRow[|joined|](i requires 0 <= i < |joined| => joined[i]);
    assert out[..] == joined;
    AddCalculatedFields(out);
    merged := out[..];
  }

  /** Lines 93-132 step by step. */
  method Run(demand: seq<DemandRow>, macro: seq<MacroRow>, selected: set<Cell>)
    returns (merged: seq<MergedRow>)
    ensures merged == Reconcile(demand, macro, selected)
  {
    var left := PrepareDemand(demand, selected);
    var right := PrepareNorms(macro);
    merged := MergeAndCalculate(left, right);
  }

  // ---------------------------------------------------------------------
  // What the merged sheet holds
  // ---------------------------------------------------------------------

  lemma DemandsOfCalculated(rows: seq<MergedRow>)
    ensures Demands(CalculatedRows(rows)) == Demands(rows)
  {
  }

  /**
   * Each demand-side row occurs in the merged sheet once per match, or once
   * when it has no match; so every selected row is there.
   */
  lemma ReconcileCount(demand: seq<DemandRow>, macro: seq<MacroRow>, selected: set<Cell>)
    ensures forall e :: multiset(Demands(Reconcile(demand, macro, selected)))[e]
                          == multiset(DemandSide(demand, selected))[e] * Fan(e, NormSide(macro))
  {
    var joined := LeftJoin(DemandSide(demand, selected), NormSide(macro));
    DemandsOfCalculated(joined);
    LeftJoinCount(DemandSide(demand, selected), NormSide(macro));
  }

  /** The demand side holds the canonical form of every selected row, and of nothing else. */
  lemma DemandSideRows(demand: seq<DemandRow>, selected: set<Cell>)
    ensures forall d :: d in demand && d.program in selected ==> CanonicalDemand(d) in DemandSide(demand, selected)
    ensures forall e :: e in DemandSide(demand, selected) ==>
              exists d :: d in demand && d.program in selected && e == CanonicalDemand(d)
  {
    var filtered := SelectPrograms(demand, selected);
    SelectProgramsExact(demand, selected);
    forall d | d in demand && d.program in selected ensures d in filtered {
      assert multiset(filtered)[d] > 0;
    }
    CanonicalDemandsMembers(filtered);
  }

  /** The calculated join keeps exactly the demand rows it was given. */
  lemma JoinedDemandRows(ds: seq<DemandRow>, gs: seq<NormRow>)
    ensures forall d :: d in ds <==> d in Demands(CalculatedRows(LeftJoin(ds, gs)))
  {
    var joined := LeftJoin(ds, gs);
    DemandsOfCalculated(joined);
    LeftJoinKeepsEveryDemandRow(ds, gs);
    LeftJoinRows(ds, gs);
    forall e | e in Demands(joined) ensures e in ds {
      var j :| 0 <= j < |joined| && Demands(joined)[j] == e;
      assert joined[j] in joined;
    }
  }

  /**
   * The merged sheet holds every selected demand row (with canonical keys)
   * and nothing else on its demand side.
   */
  lemma ReconcileDemandRows(demand: seq<DemandRow>, macro: seq<MacroRow>, selected: set<Cell>)
    ensures forall d :: d in demand && d.program in selected ==>
              CanonicalDemand(d) in Demands(Reconcile(demand, macro, selected))
    ensures forall e :: e in Demands(Reconcile(demand, macro, selected)) ==>
              exists d :: d in demand && d.program in selected && e == CanonicalDemand(d)
  {
    DemandSideRows(demand, selected);
    JoinedDemandRows(DemandSide(demand, selected), NormSide(macro));
  }

  /** Every macro row that reaches the grouping has an ELS or LAC group and a digit-string `l`. */
  lemma GroupInputShape(macro: seq<MacroRow>)
    ensures forall m :: m in GroupInput(macro) ==>
              && RelevantGroup(m.procGrp) && m.l.Str? && m.l.s != [] && AllDigits(m.l.s)
              && exists m0 :: m0 in macro && m0.colour == m.colour
  {
    var relevant := KeepRelevantGroups(macro);
    NormaliseLengthsShape(relevant);
    forall m | m in GroupInput(macro)
      ensures && RelevantGroup(m.procGrp) && m.l.Str? && m.l.s != [] && AllDigits(m.l.s)
              && exists m0 :: m0 in macro && m0.colour == m.colour
    {
      var i :| 0 <= i < |relevant| && GroupInput(macro)[i] == m;
      assert relevant[i] in relevant;
    }
  }

  /** Every grouped norm row has an ELS or LAC group, a digit-string `l` and a colour from the macro sheet. */
  lemma GroupMeansShape(macro: seq<MacroRow>)
    ensures forall g :: g in GroupMeans(GroupInput(macro)) ==>
              && RelevantGroup(g.procGrp) && g.l.Str? && AllDigits(g.l.s)
              && exists m0 :: m0 in macro && m0.colour == g.colour
  {
    var ms := GroupInput(macro);
    GroupInputShape(macro);
    GroupMeansCoversGroups(ms);
    forall g | g in GroupMeans(ms)
      ensures && RelevantGroup(g.procGrp) && g.l.Str? && AllDigits(g.l.s)
              && exists m0 :: m0 in macro && m0.colour == g.colour
    {
      assert NormKey(g) in (set g' | g' in GroupMeans(ms) :: NormKey(g'));
      assert NormKey(g) in GroupedKeySet(ms);
      var m :| m in ms && Grouped(m) && KeyOf(m) == NormKey(g);
      assert m.procGrp == g.procGrp && m.l == g.l && m.colour == g.colour;
    }
  }

  /** Every norm row on the right of the merge has a digit-string `l` and an ELS or LAC group. */
  lemma NormSideShape(macro: seq<MacroRow>)
    ensures forall g :: g in NormSide(macro) ==>
              g.l.Str? && AllDigits(g.l.s) && RelevantGroup(g.procGrp)
  {
    var gs := GroupMeans(GroupInput(macro));
    var cs := NormSide(macro);
    GroupMeansShape(macro);
    forall g | g in cs ensures g.l.Str? && AllDigits(g.l.s) && RelevantGroup(g.procGrp) {
      var i :| 0 <= i < |cs| && cs[i] == g;
      assert gs[i] in gs;
      CanonicalKeyKeepsDigits(gs[i].l.s);
    }
  }

  /** A matched row of the calculated join carries a norm row of the right side whose keys equal its own. */
  lemma JoinedMatches(ds: seq<DemandRow>, gs: seq<NormRow>)
    ensures forall row :: row in CalculatedRows(LeftJoin(ds, gs)) && row.norm.Some? ==>
              row.norm.value in gs && Matches(row.demand, row.norm.value)
  {
    var joined := LeftJoin(ds, gs);
    CalculatedRowsKeepJoin(joined);
    LeftJoinRows(ds, gs);
    forall row | row in CalculatedRows(joined) && row.norm.Some?
      ensures row.norm.value in gs && Matches(row.demand, row.norm.value)
    {
      var j :| 0 <= j < |joined| && CalculatedRows(joined)[j] == row;
      assert joined[j] in joined;
    }
  }

  /**
   * A matched row of the merged sheet carries a norm row of the grouped
   * frame whose `l` and `GMT colour` equal its `Style` and `GMT Color`,
   * whose `l` is a digit string and whose group is ELS or LAC.
   */
  lemma ReconcileMatches(demand: seq<DemandRow>, macro: seq<MacroRow>, selected: set<Cell>)
    ensures forall row :: row in Reconcile(demand, macro, selected) && row.norm.Some? ==>
              && row.norm.value in NormSide(macro)
              && row.norm.value.l == row.demand.style
              && row.norm.value.colour == row.demand.color
              && row.norm.value.l.Str? && AllDigits(row.norm.value.l.s)
              && RelevantGroup(row.norm.value.procGrp)
  {
    NormSideShape(macro);
    JoinedMatches(DemandSide(demand, selected), NormSide(macro));
  }

  /**
   * Conversely, a selected demand row is merged with every grouped norm row
   * whose canonical `l` and `GMT colour` equal its canonical `Style` and
   * `GMT Color`, and that norm row arrives with its canonical keys.
   */
  lemma ReconcileFindsGroup(demand: seq<DemandRow>, macro: seq<MacroRow>, selected: set<Cell>,
                            d: DemandRow, g: NormRow)
    requires d in demand && d.program in selected
    requires g in GroupMeans(GroupInput(macro))
    requires CanonicalKey(g.l) == CanonicalKey(d.style) && CanonicalKey(g.colour) == CanonicalKey(d.color)
    ensures exists row :: row in Reconcile(demand, macro, selected)
                          && row.demand == CanonicalDemand(d) && row.norm == Some(CanonicalNorm(g))
  {
    DemandSideRows(demand, selected);
    CanonicalNormInNormSide(macro, g);
    JoinedFindsMatch(DemandSide(demand, selected), NormSide(macro), CanonicalDemand(d), CanonicalNorm(g));
  }

  /** A grouped row reaches the right side of the merge with its canonical keys. */
  lemma CanonicalNormInNormSide(macro: seq<MacroRow>, g: NormRow)
    requires g in GroupMeans(GroupInput(macro))
    ensures CanonicalNorm(g) in NormSide(macro)
  {
    var gs := GroupMeans(GroupInput(macro));
    var k :| 0 <= k < |gs| && gs[k] == g;
    assert NormSide(macro)[k] == CanonicalNorm(g);
  }

  /** The calculated join pairs a demand row with every norm row that matches it. */
  lemma JoinedFindsMatch(ds: seq<DemandRow>, gs: seq<NormRow>, d: DemandRow, g: NormRow)
    requires d in ds && g in gs && Matches(d, g)
    ensures exists row :: row in CalculatedRows(LeftJoin(ds, gs)) && row.demand == d && row.norm == Some(g)
  {
    LeftJoinFindsMatch(ds, gs, d, g);
    var joined := LeftJoin(ds, gs);
    var row :| row in joined && row.demand == d && row.norm == Some(g);
    var j :| 0 <= j < |joined| && joined[j] == row;
    assert CalculatedRows(joined)[j] in CalculatedRows(joined);
  }

  /**
   * The calculated columns of every merged row: `No of Pieces` whenever
   * `CF` is present and non-zero, matched or not; `Requirement` only on a
   * matched row whose mean consumption is present.
   */
  lemma ReconcileCalculated(demand: seq<DemandRow>, macro: seq<MacroRow>, selected: set<Cell>)
    ensures forall row :: row in Reconcile(demand, macro, selected) ==> CalculatedColumnsHold(row)
  {
    CalculatedRowsHold(LeftJoin(DemandSide(demand, selected), NormSide(macro)));
  }

  // ---------------------------------------------------------------------
  // How far a demand row can fan out
  // ---------------------------------------------------------------------

  /**
   * Stripping never merges two different colour cells of the macro sheet
   * (no two spellings such as "Red" and "Red " of one colour).
   */
  predicate ColoursCanonicallyDistinct(macro: seq<MacroRow>) {
    forall i, j ::
      0 <= i < |macro| && 0 <= j < |macro| && CanonicalKey(macro[i].colour) == CanonicalKey(macro[j].colour)
      ==> macro[i].colour == macro[j].colour
  }

  /** Under that condition the canonical norm rows keep unique `(l, GMT colour, PROC_GRP)` keys. */
  lemma NormSideKeysUnique(macro: seq<MacroRow>)
    requires ColoursCanonicallyDistinct(macro)
    ensures UniqueKeys(NormSide(macro))
  {
    var gs := GroupMeans(GroupInput(macro));
    var cs := NormSide(macro);
    GroupMeansShape(macro);
    GroupMeansKeysUnique(GroupInput(macro));
    forall i, j | 0 <= i < j < |cs| ensures NormKey(cs[i]) != NormKey(cs[j]) {
      assert gs[i] in gs && gs[j] in gs;
      CanonicalKeyKeepsDigits(gs[i].l.s);
      CanonicalKeyKeepsDigits(gs[j].l.s);
      var mi :| mi in macro && mi.colour == gs[i].colour;
      var mj :| mj in macro && mj.colour == gs[j].colour;
      var ii :| 0 <= ii < |macro| && macro[ii] == mi;
      var jj :| 0 <= jj < |macro| && macro[jj] == mj;
      assert NormKey(gs[i]) != NormKey(gs[j]);
    }
  }

  lemma AtMostTwice(c: nat, f: nat)
    requires f <= 2
    ensures c * f <= 2 * c
  {
  }

  /**
   * When stripping merges no colours, a demand row becomes at most two
   * merged rows: one for ELS and one for LAC.
   */
  lemma ReconcileFanOutAtMostTwo(demand: seq<DemandRow>, macro: seq<MacroRow>, selected: set<Cell>, e: DemandRow)
    requires ColoursCanonicallyDistinct(macro)
    ensures multiset(Demands(Reconcile(demand, macro, selected)))[e] <= 2 * multiset(DemandSide(demand, selected))[e]
  {
    var ns := NormSide(macro);
    NormSideKeysUnique(macro);
    NormSideShape(macro);
    FanAtMostTwo(e, ns);
    ReconcileCount(demand, macro, selected);
    AtMostTwice(multiset(DemandSide(demand, selected))[e], Fan(e, ns));
  }
}
