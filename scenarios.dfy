/** Small sheets run through the whole pipeline. */
module Scenarios {

  import opened Wrappers
  import opened Strings
  import opened Table
  import opened Filters
  import opened LengthKey
  import opened Aggregate
  import opened Canonical
  import opened Join
  import opened Derived
  import opened Pipeline

  const order := DemandRow(Str("A1"), Str("32"), Str("Red"), Some(300.0), Some(3.0), [])

  /** One colour spelt three ways in the macro sheet, all under ELS. */
  const spelledColours := [
    MacroRow(Str("ELS"), Str("32"), Str("Red"), Some(2.0)),
    MacroRow(Str("ELS"), Str("32"), Str("Red "), Some(4.0)),
    MacroRow(Str("ELS"), Str("32"), Str(" Red"), Some(1.0))
  ]

  lemma StripRedSpellings()
    ensures Strip("Red") == "Red" && Strip("Red ") == "Red" && Strip(" Red") == "Red"
  {
    assert TrimStart("Red") == "Red";
    assert TrimEnd("Red") == "Red";
    assert TrimEnd("Red ") == TrimEnd("Red");
    assert TrimStart(" Red") == TrimStart("Red");
  }

  /** A row with a new key adds that key at the end. */
  lemma GroupKeysSnoc(ms: seq<MacroRow>, m: MacroRow)
    requires Grouped(m) && KeyOf(m) !in GroupKeys(ms)
    ensures GroupKeys(ms + [m]) == GroupKeys(ms) + [KeyOf(m)]
  {
    assert (ms + [m])[..|ms|] == ms;
  }

  lemma GroupKeysOfThree(a: MacroRow, b: MacroRow, c: MacroRow)
    requires Grouped(a) && Grouped(b) && Grouped(c)
    requires KeyOf(a) != KeyOf(b) && KeyOf(a) != KeyOf(c) && KeyOf(b) != KeyOf(c)
    ensures GroupKeys([a, b, c]) == [KeyOf(a), KeyOf(b), KeyOf(c)]
  {
    GroupKeysSnoc([], a);
    assert [] + [a] == [a];
    GroupKeysSnoc([a], b);
    assert [a] + [b] == [a, b];
    GroupKeysSnoc([a, b], c);
    assert [a, b] + [c] == [a, b, c];
  }

  /** The three spellings all belong to ELS and already carry a digit length, so they reach the grouping unchanged. */
  lemma SpelledColoursGroupInput()
    ensures GroupInput(spelledColours) == spelledColours
  {
    var ms := spelledColours;
    FilterKeepsAll(ms, IsRelevantRow);
    NormaliseLengthsOfDigits(ms);
  }

  /** The three spellings form three groups. */
  lemma SpelledColoursGroups()
    ensures GroupInput(spelledColours) == spelledColours
    ensures GroupKeys(spelledColours) == [KeyOf(spelledColours[0]), KeyOf(spelledColours[1]), KeyOf(spelledColours[2])]
  {
    var ms := spelledColours;
    SpelledColoursGroupInput();
    GroupKeysOfThree(ms[0], ms[1], ms[2]);
  }

  lemma ThreeAllMatch(d: DemandRow, ns: seq<NormRow>)
    requires |ns| == 3 && Matches(d, ns[0]) && Matches(d, ns[1]) && Matches(d, ns[2])
    ensures forall g :: g in ns ==> Matches(d, g)
  {
    assert ns == [ns[0], ns[1], ns[2]];
  }

  /** After stripping, all three grouped rows carry the order's keys. */
  lemma SpelledColoursAllMatch()
    ensures |NormSide(spelledColours)| == 3
    ensures forall g :: g in NormSide(spelledColours) ==> Matches(order, g)
  {
    var ms := spelledColours;
    SpelledColoursGroups();
    StripRedSpellings();
    CanonicalKeyKeepsDigits("32");
    var gs := GroupMeans(ms);
    var ns := NormSide(ms);
    assert ns[0] == CanonicalNorm(gs[0]) && NormKey(gs[0]) == KeyOf(ms[0]);
    assert ns[1] == CanonicalNorm(gs[1]) && NormKey(gs[1]) == KeyOf(ms[1]);
    assert ns[2] == CanonicalNorm(gs[2]) && NormKey(gs[2]) == KeyOf(ms[2]);
    assert Matches(order, ns[0]) && Matches(order, ns[1]) && Matches(order, ns[2]);
    ThreeAllMatch(order, ns);
  }

  /**
   * Stripping happens after the grouping, so "Red", "Red " and " Red" form
   * three groups that all match the order's `GMT Color`: the single order
   * becomes three merged rows, although there is only one process group.
   */
  lemma ColourSpellingsFanOutThree()
    ensures !ColoursCanonicallyDistinct(spelledColours)
    ensures DemandSide([order], {Str("A1")}) == [order]
    ensures |Reconcile([order], spelledColours, {Str("A1")})| == 3
  {
    var ms := spelledColours;
    StripRedSpellings();
    assert CanonicalKey(ms[0].colour) == CanonicalKey(ms[1].colour);
    StripKeepsDigits("32");
    assert SelectPrograms([order], {Str("A1")}) == [order];
    assert CanonicalDemand(order) == order;
    assert DemandSide([order], {Str("A1")}) == [order];
    SpelledColoursAllMatch();
    MatchingNormsAll(order, NormSide(ms));
    assert |LeftJoin([order], NormSide(ms))| == 3;
  }

  // ---------------------------------------------------------------------
  // A matched and an unmatched order
  // ---------------------------------------------------------------------

  /** An order whose `Style` carries a suffix, which the demand side never strips off. */
  const suffixedOrder := DemandRow(Str("A1"), Str("100A"), Str("Red"), Some(300.0), Some(3.0), [])

  /** Two ELS rows for length 32 ("32L-Red" normalises to "32") and one KNT row the filter drops. */
  const consumptions := [
    MacroRow(Str("ELS"), Str("32"), Str("Red"), Some(2.0)),
    MacroRow(Str("ELS"), Str("32L-Red"), Str("Red"), Some(4.0)),
    MacroRow(Str("KNT"), Str("32"), Str("Red"), Some(9.0))
  ]

  const redNorm := NormRow(Str("32"), Str("Red"), Str("ELS"), Some(3.0))

  /** Two kept rows followed by a dropped one: the filter keeps the first two. */
  lemma FilterTwoOfThree<T>(a: T, b: T, c: T, keep: T -> bool)
    requires keep(a) && keep(b) && !keep(c)
    ensures Filter([a, b, c], keep) == [a, b]
  {
    var s := [a, b, c];
    assert s[1..] == [b, c] && s[1..][1..] == [c] && s[1..][1..][1..] == [];
    assert Filter([c], keep) == [];
    assert Filter([b, c], keep) == [b];
  }

  /** Normalising two rows normalises each. */
  lemma NormaliseTwo(a: MacroRow, b: MacroRow)
    ensures NormaliseLengths([a, b]) == [WithLengthKey(a), WithLengthKey(b)]
  {
  }

  lemma ConsumptionsGroupInput()
    ensures GroupInput(consumptions) ==
              [MacroRow(Str("ELS"), Str("32"), Str("Red"), Some(2.0)), MacroRow(Str("ELS"), Str("32"), Str("Red"), Some(4.0))]
  {
    var ms := consumptions;
    FilterTwoOfThree(ms[0], ms[1], ms[2], IsRelevantRow);
    NormaliseTwo(ms[0], ms[1]);
    LengthKeyIdempotent("32");
    LengthKeyOfSuffixedText();
  }

  lemma MeanOfTwoAndFour()
    ensures Mean([Some(2.0), Some(4.0)]) == Some(3.0)
  {
    var vs: seq<Option<real>> := [Some(2.0), Some(4.0)];
    assert vs[1..] == [Some(4.0)];
    assert vs[1..][1..] == [];
    assert Present(vs) == [2.0, 4.0];
    assert [2.0, 4.0][1..] == [4.0];
    assert Sum([2.0, 4.0]) == 6.0;
  }

  /** Two rows with one key form one group holding both consumptions. */
  lemma GroupOfTwo(a: MacroRow, b: MacroRow)
    requires Grouped(a) && KeyOf(a) == KeyOf(b)
    ensures GroupMeans([a, b]) == [NormRow(a.l, a.colour, a.procGrp, Mean([a.consumption, b.consumption]))]
  {
    var ms, k := [a, b], KeyOf(a);
    GroupKeysSnoc([], a);
    assert [] + [a] == [a];
    assert ms[..1] == [a];
    assert GroupKeys(ms) == [k];
    assert ms[1..] == [b];
    assert GroupValues(ms, k) == [a.consumption, b.consumption];
  }

  /** The two ELS rows form one group whose mean consumption is 3.0. */
  lemma ConsumptionsGroupMeans()
    ensures GroupMeans(GroupInput(consumptions)) == [redNorm]
  {
    ConsumptionsGroupInput();
    var ms := GroupInput(consumptions);
    GroupOfTwo(ms[0], ms[1]);
    MeanOfTwoAndFour();
  }

  lemma RedNormIsCanonical()
    ensures CanonicalNorm(redNorm) == redNorm
  {
    CanonicalKeyKeepsDigits("32");
    StripRedSpellings();
  }

  lemma ConsumptionsNormSide()
    ensures NormSide(consumptions) == [redNorm]
  {
    ConsumptionsGroupMeans();
    RedNormIsCanonical();
  }

  lemma JoinMatchedAndUnmatched()
    ensures LeftJoin([order, suffixedOrder], [redNorm]) ==
              [MergedRow(order, Some(redNorm), None, None), UnmatchedRow(suffixedOrder)]
  {
    var ds := [order, suffixedOrder];
    var ns := [redNorm];
    assert ns[1..] == [];
    assert MatchingNorms(order, ns) == ns;
    assert MatchingNorms(suffixedOrder, ns) == [];
    assert JoinRow(order, ns) == [MergedRow(order, Some(redNorm), None, None)];
    assert JoinRow(suffixedOrder, ns) == [UnmatchedRow(suffixedOrder)];
    assert ds[1..] == [suffixedOrder];
    assert ds[1..][1..] == [];
    assert LeftJoin(ds[1..], ns) == JoinRow(suffixedOrder, ns) + LeftJoin([], ns);
    assert LeftJoin(ds, ns) == JoinRow(order, ns) + LeftJoin(ds[1..], ns);
  }

  lemma CalculatedMatchedAndUnmatched()
    ensures CalculatedRows([MergedRow(order, Some(redNorm), None, None), UnmatchedRow(suffixedOrder)]) ==
              [ MergedRow(order, Some(redNorm), Some(100.0), Some(300.0)),
                MergedRow(suffixedOrder, None, Some(100.0), None) ]
  {
    assert 300.0 / 3.0 == 100.0;
    assert 100.0 * 3.0 == 300.0;
  }

  lemma OrderIsCanonical()
    ensures CanonicalDemand(order) == order
  {
    StripKeepsDigits("32");
    StripRedSpellings();
  }

  lemma SuffixedOrderIsCanonical()
    ensures CanonicalDemand(suffixedOrder) == suffixedOrder
  {
    assert TrimStart("100A") == "100A" && TrimEnd("100A") == "100A";
    StripRedSpellings();
  }

  /** Both orders belong to programme A1 and their keys are already stripped. */
  lemma OrdersDemandSide()
    ensures DemandSide([order, suffixedOrder], {Str("A1")}) == [order, suffixedOrder]
  {
    var ds := [order, suffixedOrder];
    FilterKeepsAll(ds, ProgramSelector({Str("A1")}));
    OrderIsCanonical();
    SuffixedOrderIsCanonical();
    CanonicalDemandsFixed(ds);
  }

  /**
   * The matched order gets the group's mean: 300 / 3 = 100 pieces and a
   * requirement of 100 * 3.0 = 300. The suffixed order matches nothing:
   * its pieces are still computed and its requirement is missing.
   */
  lemma MatchedAndUnmatchedOrders()
    ensures Reconcile([order, suffixedOrder], consumptions, {Str("A1")}) ==
              [ MergedRow(order, Some(redNorm), Some(100.0), Some(300.0)),
                MergedRow(suffixedOrder, None, Some(100.0), None) ]
  {
    OrdersDemandSide();
    ConsumptionsNormSide();
    JoinMatchedAndUnmatched();
    CalculatedMatchedAndUnmatched();
  }
}
