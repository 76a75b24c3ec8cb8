/** The aggregator `sumData`: it folds the features a selection matched into
    the five totals the bar chart shows, in the order male, female, urban,
    village, city-district. */
module Aggregate {
  import opened Features

  /** Every feature of `fs` carries a number under `field`. */
  predicate Counted(fs: seq<Feature>, field: string)
  {
    forall i :: 0 <= i < |fs| ==> HasCount(fs[i], field)
  }

  /** The sum of `field` over `fs`, accumulated from the first feature to the
      last, as the loop of `sumData` does. */
  function Total(fs: seq<Feature>, field: string): int
    requires Counted(fs, field)
  {
    if fs == [] then 0 else Total(fs[..|fs| - 1], field) + Count(fs[|fs| - 1], field)
  }

  /** An independent definition of the same sum: head plus the sum of the rest. */
  function SumOver(fs: seq<Feature>, field: string): int
    requires Counted(fs, field)
  {
    if fs == [] then 0 else Count(fs[0], field) + SumOver(fs[1..], field)
  }

  /** The totals `sumData` returns, in the order of the chart's category axis. */
  function Totals(fs: seq<Feature>): seq<int>
    requires AllCounted(fs)
  {
    [Total(fs, Male), Total(fs, Female), Total(fs, Urban), Total(fs, Village), Total(fs, City)]
  }

  /** The sum over a concatenation is the sum of the sums. */
  lemma {:induction false} TotalConcat(a: seq<Feature>, b: seq<Feature>, field: string)
    requires Counted(a, field) && Counted(b, field)
    ensures Counted(a + b, field)
    ensures Total(a + b, field) == Total(a, field) + Total(b, field)
  {
    if b == [] {
      assert a + b == a;
    } else {
      var b' := b[..|b| - 1];
      assert (a + b)[..|a + b| - 1] == a + b';
      TotalConcat(a, b', field);
    }
  }

  /** The loop's left-to-right accumulation agrees with the head-first sum. */
  lemma {:induction false} TotalIsSumOver(fs: seq<Feature>, field: string)
    requires Counted(fs, field)
    ensures Total(fs, field) == SumOver(fs, field)
  {
    if fs != [] {
      assert fs == [fs[0]] + fs[1..];
      TotalConcat([fs[0]], fs[1..], field);
      assert [fs[0]][..0] == [];
      TotalIsSumOver(fs[1..], field);
    }
  }

  /** Taking one feature out of a list takes its count out of the total. */
  lemma TotalRemoveAt(b: seq<Feature>, k: nat, field: string)
    requires Counted(b, field) && k < |b|
    ensures Counted(b[..k] + b[k + 1..], field)
    ensures Total(b, field) == Total(b[..k] + b[k + 1..], field) + Count(b[k], field)
  {
    var l, r := b[..k], b[k + 1..];
    assert b == (l + [b[k]]) + r;
    assert Counted(l, field) && Counted(r, field);
    TotalConcat(l, [b[k]], field);
    assert [b[k]][..0] == [];
    TotalConcat(l + [b[k]], r, field);
    TotalConcat(l, r, field);
  }

  /** Removing the element at `k` removes one occurrence of it from the multiset. */
  lemma MultisetRemoveAt(b: seq<Feature>, k: nat)
    requires k < |b|
    ensures multiset(b[..k] + b[k + 1..]) == multiset(b) - multiset{b[k]}
  {
    assert b == b[..k] + [b[k]] + b[k + 1..];
  }

  /** An element of a list's multiset sits at some position of the list. */
  lemma PositionOf(b: seq<Feature>, x: Feature) returns (k: nat)
    requires x in multiset(b)
    ensures k < |b| && b[k] == x
  {
    assert x in b;
    k :| k < |b| && b[k] == x;
  }

  /** The total of a field does not depend on the order the features come in. */
  lemma {:induction false} TotalPermutation(a: seq<Feature>, b: seq<Feature>, field: string)
    requires Counted(a, field) && Counted(b, field)
    requires multiset(a) == multiset(b)
    ensures Total(a, field) == Total(b, field)
  {
    if a == [] {
      assert |b| == |multiset(b)| == 0;
    } else {
      var n := |a| - 1;
      var k := PositionOf(b, a[n]);
      var a', b' := a[..n], b[..k] + b[k + 1..];
      assert multiset(a') == multiset(b') by {
        MultisetRemoveAt(a, n);
        assert a[..n] + a[n + 1..] == a';
        MultisetRemoveAt(b, k);
      }
      assert Counted(a', field);
      TotalRemoveAt(b, k, field);
      TotalPermutation(a', b', field);
    }
  }

  /** Totals of two selections taken together are the field-wise sums. */
  lemma TotalsConcat(a: seq<Feature>, b: seq<Feature>)
    requires AllCounted(a) && AllCounted(b)
    ensures AllCounted(a + b)
    ensures forall j :: 0 <= j < 5 ==> Totals(a + b)[j] == Totals(a)[j] + Totals(b)[j]
  {
    TotalConcat(a, b, Male);
    TotalConcat(a, b, Female);
    TotalConcat(a, b, Urban);
    TotalConcat(a, b, Village);
    TotalConcat(a, b, City);
  }

  /** The chart's totals do not depend on the order the query returns features in. */
  lemma TotalsPermutation(a: seq<Feature>, b: seq<Feature>)
    requires AllCounted(a) && AllCounted(b)
    requires multiset(a) == multiset(b)
    ensures Totals(a) == Totals(b)
  {
    TotalPermutation(a, b, Male);
    TotalPermutation(a, b, Female);
    TotalPermutation(a, b, Urban);
    TotalPermutation(a, b, Village);
    TotalPermutation(a, b, City);
  }

  /** `sumData`: five accumulators folded over the features in one pass. Each
      result is the sum of its attribute over every feature; an empty list
      gives five zeros. */
  method SumData(features: seq<Feature>) returns (data: seq<int>)
    requires AllCounted(features)
    ensures |data| == 5
    ensures data[0] == SumOver(features, Male) && data[1] == SumOver(features, Female)
    ensures data[2] == SumOver(features, Urban) && data[3] == SumOver(features, Village)
    ensures data[4] == SumOver(features, City)
    ensures data == Totals(features)
    ensures features == [] ==> data == [0, 0, 0, 0, 0]
  {
    var male, female, urban, village, city := 0, 0, 0, 0, 0;
    for i := 0 to |features|
      invariant male == Total(features[..i], Male)
      invariant female == Total(features[..i], Female)
      invariant urban == Total(features[..i], Urban)
      invariant village == Total(features[..i], Village)
      invariant city == Total(features[..i], City)
    {
      assert features[..i + 1][..i] == features[..i];
      var attributes := features[i].attributes;
      male := male + attributes[Male].n;
      female := female + attributes[Female].n;
      urban := urban + attributes[Urban].n;
      village := village + attributes[Village].n;
      city := city + attributes[City].n;
    }
    assert features[..|features|] == features;
    data := [male, female, urban, village, city];
    TotalIsSumOver(features, Male);
    TotalIsSumOver(features, Female);
    TotalIsSumOver(features, Urban);
    TotalIsSumOver(features, Village);
    TotalIsSumOver(features, City);
  }
}
