/**
 * The norm aggregator: the macro rows grouped by `(l, GMT colour, PROC_GRP)`,
 * each group reduced to the mean of its `CONSUMPTION`.
 * Rows whose key has a missing part are dropped (pandas' default), and the
 * mean skips missing consumptions; a group with none left has a missing mean.
 */
module Aggregate {

  import opened Wrappers
  import opened Table

  datatype GroupKey = GroupKey(l: Cell, colour: Cell, procGrp: Cell)

  function KeyOf(m: MacroRow): GroupKey {
    GroupKey(m.l, m.colour, m.procGrp)
  }

  function NormKey(g: NormRow): GroupKey {
    GroupKey(g.l, g.colour, g.procGrp)
  }

  /** The row takes part in the grouping: no part of its key is missing. */
  predicate Grouped(m: MacroRow) {
    m.l != Null && m.colour != Null && m.procGrp != Null
  }

  /** The distinct keys present among the grouped rows. */
  function GroupedKeySet(ms: seq<MacroRow>): set<GroupKey> {
    set m | m in ms && Grouped(m) :: KeyOf(m)
  }

  /** The group keys, each once, in order of first appearance. */
  function GroupKeys(ms: seq<MacroRow>): (ks: seq<GroupKey>)
    ensures forall i, j :: 0 <= i < j < |ks| ==> ks[i] != ks[j]
    ensures forall k :: k in ks <==> k in GroupedKeySet(ms)
  {
    if ms == [] then []
    else
      var init := ms[..|ms| - 1];
      var m := ms[|ms| - 1];
      var ks := GroupKeys(init);
      assert ms == init + [m];
      assert GroupedKeySet(ms) == GroupedKeySet(init) + (if Grouped(m) then {KeyOf(m)} else {});
      if !Grouped(m) || KeyOf(m) in ks then ks else ks + [KeyOf(m)]
  }

  // ---------------------------------------------------------------------
  // The mean, skipping missing values
  // ---------------------------------------------------------------------

  /** The values that are present, in order. */
  function Present(vs: seq<Option<real>>): seq<real> {
    if vs == [] then []
    else (if vs[0].Some? then [vs[0].value] else []) + Present(vs[1..])
  }

  function Sum(xs: seq<real>): real {
    if xs == [] then 0.0 else xs[0] + Sum(xs[1..])
  }

  /** `Series.mean()`: the arithmetic mean of the present values, missing when there are none. */
  function Mean(vs: seq<Option<real>>): (r: Option<real>)
    ensures r.None? <==> Present(vs) == []
    ensures r.Some? ==> r.value * (|Present(vs)| as real) == Sum(Present(vs))
  {
    var xs := Present(vs);
    if xs == [] then None else Some(Sum(xs) / (|xs| as real))
  }

  /** A single value is its own mean (a missing one stays missing). */
  lemma MeanOfSingleton(v: Option<real>)
    ensures Mean([v]) == v
  {
    assert [v][1..] == [];
    assert Present([v]) == if v.Some? then [v.value] else [];
    if v.Some? {
      assert Sum([v.value]) == v.value + Sum([]);
    }
  }

  lemma SumBounds(xs: seq<real>, lo: real, hi: real)
    requires forall x :: x in xs ==> lo <= x <= hi
    ensures lo * (|xs| as real) <= Sum(xs) <= hi * (|xs| as real)
  {
    SumAtLeast(xs, lo);
    SumAtMost(xs, hi);
  }

  lemma {:induction false} SumAtLeast(xs: seq<real>, lo: real)
    requires forall x :: x in xs ==> lo <= x
    ensures lo * (|xs| as real) <= Sum(xs)
  {
    if xs != [] {
      var rest := xs[1..];
      assert forall y :: y in rest ==> y in xs;
      SumAtLeast(rest, lo);
      assert xs[0] in xs;
      assert Sum(xs) == xs[0] + Sum(rest);
      assert |xs| as real == |rest| as real + 1.0;
      OneMore(|rest| as real, lo);
    }
  }

  lemma {:induction false} SumAtMost(xs: seq<real>, hi: real)
    requires forall x :: x in xs ==> x <= hi
    ensures Sum(xs) <= hi * (|xs| as real)
  {
    if xs != [] {
      var rest := xs[1..];
      assert forall y :: y in rest ==> y in xs;
      SumAtMost(rest, hi);
      assert xs[0] in xs;
      assert Sum(xs) == xs[0] + Sum(rest);
      assert |xs| as real == |rest| as real + 1.0;
      OneMore(|rest| as real, hi);
    }
  }

  lemma OneMore(n: real, v: real)
    ensures v * (n + 1.0) == v + v * n
  {
  }

  /** The mean lies between any bounds of the values it averages. */
  lemma MeanWithinBounds(vs: seq<Option<real>>, lo: real, hi: real)
    requires forall x :: x in Present(vs) ==> lo <= x <= hi
    ensures Mean(vs).Some? ==> lo <= Mean(vs).value <= hi
  {
    var xs := Present(vs);
    SumBounds(xs, lo, hi);
    if xs != [] {
      var n := |xs| as real;
      QuotientBounds(Mean(vs).value, n, Sum(xs), lo, hi);
    }
  }

  /** If `m * n == s` with `n` positive, bounds on `s` scaled by `n` bound `m`. */
  lemma QuotientBounds(m: real, n: real, s: real, lo: real, hi: real)
    requires n > 0.0 && m * n == s && lo * n <= s <= hi * n
    ensures lo <= m <= hi
  {
    if m < lo {
      ScaleStrict(n, m, lo);
    }
    if hi < m {
      ScaleStrict(n, hi, m);
    }
  }

  lemma ScaleStrict(n: real, x: real, y: real)
    requires n > 0.0 && x < y
    ensures x * n < y * n
  {
    assert y * n - x * n == (y - x) * n;
  }

  lemma {:induction false} SumAppend(a: seq<real>, b: seq<real>)
    ensures Sum(a + b) == Sum(a) + Sum(b)
  {
    if a == [] {
      assert a + b == b;
    } else {
      assert (a + b)[1..] == a[1..] + b;
      SumAppend(a[1..], b);
    }
  }

  /**
   * When `b` is a reordering of `a` and `b[j]` is `a[0]`, the rest of `b`
   * is a reordering of the rest of `a`.
   */
  lemma RemoveMatching<T>(a: seq<T>, b: seq<T>, j: nat)
    requires multiset(a) == multiset(b) && a != [] && j < |b| && b[j] == a[0]
    ensures multiset(a[1..]) == multiset(b[..j] + b[j + 1..])
  {
    assert a == [a[0]] + a[1..];
    assert b == b[..j] + [b[j]] + b[j + 1..];
    assert multiset(b) == multiset(b[..j] + b[j + 1..]) + multiset{b[j]};
    calc {
      multiset(a[1..]);
      multiset(a) - multiset{a[0]};
      multiset(b) - multiset{a[0]};
      multiset(b[..j] + b[j + 1..]);
    }
  }

  lemma SplitAt<T>(b: seq<T>, j: nat)
    requires j < |b|
    ensures b == b[..j] + ([b[j]] + b[j + 1..])
  {
  }

  lemma SumOfSingleton(x: real)
    ensures Sum([x]) == x
  {
    assert [x][1..] == [];
  }

  lemma SumRemoveAt(b: seq<real>, j: nat)
    requires j < |b|
    ensures Sum(b) == b[j] + Sum(b[..j] + b[j + 1..])
  {
    var p, x, q := b[..j], b[j], b[j + 1..];
    SplitAt(b, j);
    SumAppend(p, [x] + q);
    SumAppend([x], q);
    SumAppend(p, q);
    SumOfSingleton(x);
  }

  /** The sum does not depend on the order of the values. */
  lemma {:induction false} SumPermutation(a: seq<real>, b: seq<real>)
    requires multiset(a) == multiset(b)
    ensures Sum(a) == Sum(b)
  {
    if a == [] {
      assert |b| == |multiset(b)| == 0;
    } else {
      assert a[0] in multiset(b);
      var j :| 0 <= j < |b| && b[j] == a[0];
      RemoveMatching(a, b, j);
      SumPermutation(a[1..], b[..j] + b[j + 1..]);
      SumRemoveAt(b, j);
    }
  }

  /** Each present value occurs in `Present(vs)` as often as `Some` of it occurs in `vs`. */
  lemma {:induction false} PresentCount(vs: seq<Option<real>>)
    ensures forall x :: multiset(Present(vs))[x] == multiset(vs)[Some(x)]
  {
    if vs != [] {
      PresentCount(vs[1..]);
      assert vs == [vs[0]] + vs[1..];
    }
  }

  /** The mean does not depend on the order of the values. */
  lemma MeanPermutation(a: seq<Option<real>>, b: seq<Option<real>>)
    requires multiset(a) == multiset(b)
    ensures Mean(a) == Mean(b)
  {
    PresentCount(a);
    PresentCount(b);
    assert multiset(Present(a)) == multiset(Present(b)) by {
      forall x ensures multiset(Present(a))[x] == multiset(Present(b))[x] {
      }
    }
    assert |Present(a)| == |multiset(Present(a))| == |multiset(Present(b))| == |Present(b)|;
    SumPermutation(Present(a), Present(b));
  }

  // ---------------------------------------------------------------------
  // Groups and the grouped frame
  // ---------------------------------------------------------------------

  /** The consumptions of the grouped rows with key `k`, in row order. */
  function GroupValues(ms: seq<MacroRow>, k: GroupKey): (r: seq<Option<real>>)
    ensures |r| <= |ms|
  {
    if ms == [] then []
    else (if Grouped(ms[0]) && KeyOf(ms[0]) == k then [ms[0].consumption] else [])
         + GroupValues(ms[1..], k)
  }

  /** A key is present exactly when its group is not empty. */
  lemma {:induction false} GroupValuesNonEmpty(ms: seq<MacroRow>, k: GroupKey)
    ensures GroupValues(ms, k) != [] <==> k in GroupedKeySet(ms)
  {
    if ms != [] {
      GroupValuesNonEmpty(ms[1..], k);
      assert ms == [ms[0]] + ms[1..];
      assert GroupedKeySet(ms) == GroupedKeySet(ms[1..]) + (if Grouped(ms[0]) then {KeyOf(ms[0])} else {});
    }
  }

  lemma {:induction false} GroupValuesAppend(a: seq<MacroRow>, b: seq<MacroRow>, k: GroupKey)
    ensures GroupValues(a + b, k) == GroupValues(a, k) + GroupValues(b, k)
  {
    if a == [] {
      assert a + b == b;
    } else {
      assert (a + b)[1..] == a[1..] + b;
      GroupValuesAppend(a[1..], b, k);
    }
  }

  lemma GroupValuesRemoveAt(b: seq<MacroRow>, j: nat, k: GroupKey)
    requires j < |b|
    ensures multiset(GroupValues(b, k))
              == multiset(GroupValues([b[j]], k)) + multiset(GroupValues(b[..j] + b[j + 1..], k))
  {
    assert b == b[..j] + ([b[j]] + b[j + 1..]);
    GroupValuesAppend(b[..j], [b[j]] + b[j + 1..], k);
    GroupValuesAppend([b[j]], b[j + 1..], k);
    GroupValuesAppend(b[..j], b[j + 1..], k);
  }

  /** Reordering the macro rows reorders each group's values and changes nothing else. */
  lemma {:induction false} GroupValuesPermutation(a: seq<MacroRow>, b: seq<MacroRow>, k: GroupKey)
    requires multiset(a) == multiset(b)
    ensures multiset(GroupValues(a, k)) == multiset(GroupValues(b, k))
  {
    if a == [] {
      assert |b| == |multiset(b)| == 0;
    } else {
      assert a[0] in multiset(b);
      var j :| 0 <= j < |b| && b[j] == a[0];
      RemoveMatching(a, b, j);
      GroupValuesPermutation(a[1..], b[..j] + b[j + 1..], k);
      GroupValuesRemoveAt(b, j, k);
      assert a == [a[0]] + a[1..];
      GroupValuesAppend([a[0]], a[1..], k);
    }
  }

  /** A group with a single member holds just that member's consumption. */
  lemma {:induction false} GroupValuesOfSingleton(ms: seq<MacroRow>, i: nat)
    requires i < |ms| && Grouped(ms[i])
    requires forall j :: 0 <= j < |ms| && j != i && Grouped(ms[j]) ==> KeyOf(ms[j]) != KeyOf(ms[i])
    ensures GroupValues(ms, KeyOf(ms[i])) == [ms[i].consumption]
  {
    var k := KeyOf(ms[i]);
    if i == 0 {
      GroupValuesNonEmpty(ms[1..], k);
    } else {
      assert ms[1..][i - 1] == ms[i];
      forall j | 0 <= j < |ms[1..]| && j != i - 1 && Grouped(ms[1..][j])
        ensures KeyOf(ms[1..][j]) != k
      {
        assert ms[1..][j] == ms[j + 1];
      }
      GroupValuesOfSingleton(ms[1..], i - 1);
      assert !(Grouped(ms[0]) && KeyOf(ms[0]) == k);
    }
  }

  /** The grouped row for key `k`: the key columns and the group's mean consumption. */
  function GroupRow(ms: seq<MacroRow>, k: GroupKey): NormRow {
    NormRow(k.l, k.colour, k.procGrp, Mean(GroupValues(ms, k)))
  }

  /** The grouped frame of line 106: one row per key, with the group's mean consumption. */
  function GroupMeans(ms: seq<MacroRow>): (gs: seq<NormRow>)
    ensures |gs| == |GroupKeys(ms)|
    ensures forall i :: 0 <= i < |gs| ==> NormKey(gs[i]) == GroupKeys(ms)[i]
  {
    var ks := GroupKeys(ms);
    seq(|ks|, i requires 0 <= i < |ks| => GroupRow(ms, ks[i]))
  }

  /** No two grouped rows share a `(l, GMT colour, PROC_GRP)` key. */
  lemma GroupMeansKeysUnique(ms: seq<MacroRow>)
    ensures forall i, j :: 0 <= i < j < |GroupMeans(ms)| ==> NormKey(GroupMeans(ms)[i]) != NormKey(GroupMeans(ms)[j])
  {
  }

  /** There is a grouped row for every key present among the grouped macro rows, and for no other. */
  lemma GroupMeansCoversGroups(ms: seq<MacroRow>)
    ensures (set g | g in GroupMeans(ms) :: NormKey(g)) == GroupedKeySet(ms)
  {
    var gs := GroupMeans(ms);
    var ks := GroupKeys(ms);
    forall k | k in GroupedKeySet(ms) ensures k in (set g | g in gs :: NormKey(g)) {
      var i :| 0 <= i < |ks| && ks[i] == k;
      assert NormKey(gs[i]) == k;
    }
  }

  /**
   * A row is in the grouped frame exactly when its key is present among the
   * macro rows and its consumption is the mean of that group.
   */
  lemma GroupMeansMember(ms: seq<MacroRow>, g: NormRow)
    ensures g in GroupMeans(ms) <==>
              NormKey(g) in GroupedKeySet(ms) && g.consumption == Mean(GroupValues(ms, NormKey(g)))
  {
    var gs := GroupMeans(ms);
    var ks := GroupKeys(ms);
    if NormKey(g) in GroupedKeySet(ms) && g.consumption == Mean(GroupValues(ms, NormKey(g))) {
      var i :| 0 <= i < |ks| && ks[i] == NormKey(g);
      assert gs[i] == g;
    }
  }

  /** A group with a single member passes that member's consumption through unchanged. */
  lemma GroupMeansOfSingletonGroup(ms: seq<MacroRow>, i: nat)
    requires i < |ms| && Grouped(ms[i])
    requires forall j :: 0 <= j < |ms| && j != i && Grouped(ms[j]) ==> KeyOf(ms[j]) != KeyOf(ms[i])
    ensures NormRow(ms[i].l, ms[i].colour, ms[i].procGrp, ms[i].consumption) in GroupMeans(ms)
  {
    GroupValuesOfSingleton(ms, i);
    MeanOfSingleton(ms[i].consumption);
    assert KeyOf(ms[i]) in GroupedKeySet(ms);
    GroupMeansMember(ms, NormRow(ms[i].l, ms[i].colour, ms[i].procGrp, ms[i].consumption));
  }

  /** The grouped rows do not depend on the order of the macro rows (only their own order does). */
  lemma GroupMeansOrderIndependent(a: seq<MacroRow>, b: seq<MacroRow>)
    requires multiset(a) == multiset(b)
    ensures forall g :: g in GroupMeans(a) <==> g in GroupMeans(b)
  {
    assert GroupedKeySet(a) == GroupedKeySet(b) by {
      assert forall m :: m in a <==> m in b by {
        forall m ensures m in a <==> m in b {
          assert m in a <==> m in multiset(a);
          assert m in b <==> m in multiset(b);
        }
      }
    }
    forall g ensures g in GroupMeans(a) <==> g in GroupMeans(b) {
      GroupMeansMember(a, g);
      GroupMeansMember(b, g);
      GroupValuesPermutation(a, b, NormKey(g));
      MeanPermutation(GroupValues(a, NormKey(g)), GroupValues(b, NormKey(g)));
    }
  }
}
