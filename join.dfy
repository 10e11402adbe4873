/**
 * The reconciliation join of line 116: a left outer merge of the demand rows
 * with the grouped norms on `(Style, GMT Color) = (l, GMT colour)`.
 * Output rows follow the demand rows; a demand row with several matching
 * norm rows is repeated once per match, in the norm rows' order.
 */
module Join {

  import opened Wrappers
  import opened Table
  import opened Filters
  import opened Aggregate

  /** The merge predicate: `Style == l` and `GMT Color == GMT colour`, as exact cell equality. */
  predicate Matches(d: DemandRow, g: NormRow) {
    d.style == g.l && d.color == g.colour
  }

  function Matcher(d: DemandRow): NormRow -> bool {
    (g: NormRow) => Matches(d, g)
  }

  /** The norm rows that match `d`, in their order. */
  function MatchingNorms(d: DemandRow, gs: seq<NormRow>): (r: seq<NormRow>)
    ensures forall g :: g in r ==> g in gs && Matches(d, g)
  {
    Filter(gs, Matcher(d))
  }

  /** When every norm row matches, all of them are found, in order. */
  lemma MatchingNormsAll(d: DemandRow, gs: seq<NormRow>)
    requires forall g :: g in gs ==> Matches(d, g)
    ensures MatchingNorms(d, gs) == gs
  {
    FilterKeepsAll(gs, Matcher(d));
  }

  /** Every matching norm row is found, as often as it occurs. */
  lemma MatchingNormsExact(d: DemandRow, gs: seq<NormRow>)
    ensures forall g :: multiset(MatchingNorms(d, gs))[g] == if Matches(d, g) then multiset(gs)[g] else 0
  {
    FilterCount(gs, Matcher(d));
  }

  /** How many output rows a demand row becomes: its number of matches, or one when it has none. */
  function Fan(d: DemandRow, gs: seq<NormRow>): nat {
    var n := |MatchingNorms(d, gs)|;
    if n == 0 then 1 else n
  }

  /** The output row for an unmatched demand row: the norm columns are all missing. */
  function UnmatchedRow(d: DemandRow): MergedRow {
    MergedRow(d, None, None, None)
  }

  /** The output rows of one demand row. */
  function JoinRow(d: DemandRow, gs: seq<NormRow>): (r: seq<MergedRow>)
    ensures |r| == Fan(d, gs)
    ensures forall row :: row in r ==> row.demand == d && row.pieces.None? && row.requirement.None?
    ensures forall row :: row in r ==> (row.norm.None? <==> MatchingNorms(d, gs) == [])
    ensures MatchingNorms(d, gs) != [] ==>
              forall i :: 0 <= i < |r| ==> r[i].norm == Some(MatchingNorms(d, gs)[i])
  {
    var ms := MatchingNorms(d, gs);
    if ms == [] then [UnmatchedRow(d)]
    else seq(|ms|, i requires 0 <= i < |ms| => MergedRow(d, Some(ms[i]), None, None))
  }

  /**
   * The left join, before the calculated columns exist (they are missing
   * here). Every demand row yields at least one output row.
   */
  function LeftJoin(ds: seq<DemandRow>, gs: seq<NormRow>): (r: seq<MergedRow>)
    ensures |r| >= |ds|
  {
    if ds == [] then [] else JoinRow(ds[0], gs) + LeftJoin(ds[1..], gs)
  }

  /**
   * Every output row comes from an input demand row; its norm columns are
   * missing exactly when that row has no match, and otherwise hold a norm
   * row that matches it.
   */
  lemma {:induction false} LeftJoinRows(ds: seq<DemandRow>, gs: seq<NormRow>)
    ensures forall row :: row in LeftJoin(ds, gs) ==> row.demand in ds
    ensures forall row :: row in LeftJoin(ds, gs) ==> (row.norm.None? <==> MatchingNorms(row.demand, gs) == [])
    ensures forall row :: row in LeftJoin(ds, gs) && row.norm.Some? ==>
              row.norm.value in gs && Matches(row.demand, row.norm.value)
  {
    if ds != [] {
      LeftJoinRows(ds[1..], gs);
      forall row | row in LeftJoin(ds, gs) ensures row.demand in ds {
        if row !in JoinRow(ds[0], gs) {
          assert row in LeftJoin(ds[1..], gs);
        }
      }
    }
  }

  /** The demand-side part of each output row. */
  function Demands(rows: seq<MergedRow>): (r: seq<DemandRow>)
    ensures |r| == |rows|
  {
    seq(|rows|, i requires 0 <= i < |rows| => rows[i].demand)
  }

  lemma DemandsAppend(a: seq<MergedRow>, b: seq<MergedRow>)
    ensures Demands(a + b) == Demands(a) + Demands(b)
  {
  }

  /**
   * Every demand row occurs in the output exactly `Fan` times per occurrence
   * in the input: k times when it has k >= 1 matches, once when it has none,
   * with all its own columns unchanged.
   */
  lemma {:induction false} LeftJoinCount(ds: seq<DemandRow>, gs: seq<NormRow>)
    ensures forall d :: multiset(Demands(LeftJoin(ds, gs)))[d] == multiset(ds)[d] * Fan(d, gs)
  {
    if ds != [] {
      LeftJoinCount(ds[1..], gs);
      forall d ensures multiset(Demands(LeftJoin(ds, gs)))[d] == multiset(ds)[d] * Fan(d, gs) {
        LeftJoinCountStep(ds, gs, d);
      }
    }
  }

  /** The inductive step of `LeftJoinCount`: the head row adds `Fan` copies of itself. */
  lemma LeftJoinCountStep(ds: seq<DemandRow>, gs: seq<NormRow>, d: DemandRow)
    requires ds != []
    requires multiset(Demands(LeftJoin(ds[1..], gs)))[d] == multiset(ds[1..])[d] * Fan(d, gs)
    ensures multiset(Demands(LeftJoin(ds, gs)))[d] == multiset(ds)[d] * Fan(d, gs)
  {
    LeftJoinSplit(ds, gs, d);
    JoinRowCount(ds[0], gs, d);
    HeadCount(ds, d);
    if d == ds[0] {
      Distribute(multiset(ds[1..])[d], Fan(d, gs));
    }
  }

  lemma HeadCount(ds: seq<DemandRow>, d: DemandRow)
    requires ds != []
    ensures multiset(ds)[d] == (if d == ds[0] then 1 else 0) + multiset(ds[1..])[d]
  {
    assert ds == [ds[0]] + ds[1..];
  }

  /** The output of the join is the head row's rows followed by the rest's. */
  lemma LeftJoinSplit(ds: seq<DemandRow>, gs: seq<NormRow>, d: DemandRow)
    requires ds != []
    ensures multiset(Demands(LeftJoin(ds, gs)))[d]
              == multiset(Demands(JoinRow(ds[0], gs)))[d] + multiset(Demands(LeftJoin(ds[1..], gs)))[d]
  {
    var head, tail := JoinRow(ds[0], gs), LeftJoin(ds[1..], gs);
    assert LeftJoin(ds, gs) == head + tail;
    DemandsAppend(head, tail);
  }

  /** One demand row becomes `Fan` copies of itself. */
  lemma JoinRowCount(d0: DemandRow, gs: seq<NormRow>, d: DemandRow)
    ensures multiset(Demands(JoinRow(d0, gs)))[d] == if d == d0 then Fan(d0, gs) else 0
  {
    var head := JoinRow(d0, gs);
    var front := Demands(head);
    assert forall i :: 0 <= i < |front| ==> front[i] == head[i].demand;
    RepeatedCount(front, d0);
  }

  lemma Distribute(c: nat, f: nat)
    ensures (1 + c) * f == f + c * f
  {
  }

  lemma AtLeastOnce(c: nat, f: nat)
    requires c >= 1 && f >= 1
    ensures c * f >= 1
  {
  }

  /** A sequence that repeats one row holds that row once per position and nothing else. */
  lemma RepeatedCount(s: seq<DemandRow>, x: DemandRow)
    requires forall i :: 0 <= i < |s| ==> s[i] == x
    ensures forall y :: multiset(s)[y] == if y == x then |s| else 0
  {
    if s != [] {
      RepeatedCount(s[1..], x);
      assert s == [s[0]] + s[1..];
    }
  }

  /** Left-join completeness: no demand row is lost. */
  lemma LeftJoinKeepsEveryDemandRow(ds: seq<DemandRow>, gs: seq<NormRow>)
    ensures forall d :: d in ds ==> d in Demands(LeftJoin(ds, gs))
  {
    LeftJoinCount(ds, gs);
    forall d | d in ds ensures d in Demands(LeftJoin(ds, gs)) {
      AtLeastOnce(multiset(ds)[d], Fan(d, gs));
    }
  }

  /** Left-join completeness for matches: a demand row is paired with every norm row that matches it. */
  lemma {:induction false} LeftJoinFindsMatch(ds: seq<DemandRow>, gs: seq<NormRow>, d: DemandRow, g: NormRow)
    requires d in ds && g in gs && Matches(d, g)
    ensures exists row :: row in LeftJoin(ds, gs) && row.demand == d && row.norm == Some(g)
  {
    if ds[0] == d {
      var ms := MatchingNorms(d, gs);
      MatchingNormsExact(d, gs);
      assert multiset(ms)[g] > 0;
      var i :| 0 <= i < |ms| && ms[i] == g;
      var r := JoinRow(d, gs);
      assert r[i] in r && r[i].demand == d && r[i].norm == Some(g);
      assert LeftJoin(ds, gs) == r + LeftJoin(ds[1..], gs);
    } else {
      LeftJoinFindsMatch(ds[1..], gs, d, g);
      var row :| row in LeftJoin(ds[1..], gs) && row.demand == d && row.norm == Some(g);
      assert LeftJoin(ds, gs) == JoinRow(ds[0], gs) + LeftJoin(ds[1..], gs);
      assert row in LeftJoin(ds, gs);
    }
  }

  /** Joining two halves is joining each: the output keeps the demand rows' order. */
  lemma {:induction false} LeftJoinKeepsOrder(a: seq<DemandRow>, b: seq<DemandRow>, gs: seq<NormRow>)
    ensures LeftJoin(a + b, gs) == LeftJoin(a, gs) + LeftJoin(b, gs)
  {
    if a == [] {
      assert a + b == b;
    } else {
      var ab := a + b;
      assert ab[0] == a[0] && ab[1..] == a[1..] + b;
      LeftJoinKeepsOrder(a[1..], b, gs);
      calc {
        LeftJoin(ab, gs);
        JoinRow(a[0], gs) + LeftJoin(a[1..] + b, gs);
        JoinRow(a[0], gs) + (LeftJoin(a[1..], gs) + LeftJoin(b, gs));
        (JoinRow(a[0], gs) + LeftJoin(a[1..], gs)) + LeftJoin(b, gs);
        LeftJoin(a, gs) + LeftJoin(b, gs);
      }
    }
  }

  /** The process groups among the norm rows that match `d`. */
  function MatchGroups(d: DemandRow, gs: seq<NormRow>): set<Cell> {
    set g | g in gs && Matches(d, g) :: g.procGrp
  }

  predicate UniqueKeys(gs: seq<NormRow>) {
    forall i, j :: 0 <= i < j < |gs| ==> NormKey(gs[i]) != NormKey(gs[j])
  }

  lemma MatchingNormsCons(d: DemandRow, gs: seq<NormRow>)
    requires gs != []
    ensures MatchingNorms(d, gs) == (if Matches(d, gs[0]) then [gs[0]] else []) + MatchingNorms(d, gs[1..])
  {
  }

  lemma MatchGroupsCons(d: DemandRow, gs: seq<NormRow>)
    requires gs != []
    ensures MatchGroups(d, gs) == (if Matches(d, gs[0]) then {gs[0].procGrp} else {}) + MatchGroups(d, gs[1..])
  {
    assert gs == [gs[0]] + gs[1..];
  }

  lemma UniqueKeysTail(gs: seq<NormRow>)
    requires gs != [] && UniqueKeys(gs)
    ensures UniqueKeys(gs[1..])
  {
    var tail := gs[1..];
    forall i, j | 0 <= i < j < |tail| ensures NormKey(tail[i]) != NormKey(tail[j]) {
      assert tail[i] == gs[i + 1] && tail[j] == gs[j + 1];
    }
  }

  /** The first matching row's group is not the group of any later match. */
  lemma HeadGroupIsNew(d: DemandRow, gs: seq<NormRow>)
    requires gs != [] && UniqueKeys(gs) && Matches(d, gs[0])
    ensures gs[0].procGrp !in MatchGroups(d, gs[1..])
  {
    var tail := gs[1..];
    forall g | g in tail && Matches(d, g) ensures g.procGrp != gs[0].procGrp {
      var j :| 0 <= j < |tail| && tail[j] == g;
      assert NormKey(gs[0]) != NormKey(gs[j + 1]);
    }
  }

  /** With unique keys, the matches of a demand row differ in their process group. */
  lemma {:induction false} MatchesHaveDistinctGroups(d: DemandRow, gs: seq<NormRow>)
    requires UniqueKeys(gs)
    ensures |MatchingNorms(d, gs)| == |MatchGroups(d, gs)|
  {
    if gs != [] {
      UniqueKeysTail(gs);
      MatchesHaveDistinctGroups(d, gs[1..]);
      MatchingNormsCons(d, gs);
      MatchGroupsCons(d, gs);
      if Matches(d, gs[0]) {
        HeadGroupIsNew(d, gs);
      }
    }
  }

  /**
   * With unique `(l, GMT colour, PROC_GRP)` keys and only ELS and LAC as
   * process groups, a demand row matches at most two norm rows.
   */
  lemma FanAtMostTwo(d: DemandRow, gs: seq<NormRow>)
    requires UniqueKeys(gs)
    requires forall g :: g in gs ==> RelevantGroup(g.procGrp)
    ensures |MatchingNorms(d, gs)| <= 2
  {
    MatchesHaveDistinctGroups(d, gs);
    var groups := MatchGroups(d, gs);
    assert groups <= {Str("ELS"), Str("LAC")};
    assert |{Str("ELS"), Str("LAC")}| == 2;
    assert groups <= {Str("ELS"), Str("LAC")} ==> |groups| <= 2 by {
      var both := {Str("ELS"), Str("LAC")};
      assert both == groups + (both - groups);
    }
  }
}
