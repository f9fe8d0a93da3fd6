/**
 * The expected number of transactions, shown before the rows are collected:
 * the revenue counts of every month of every period, added up.
 */
module Estimate {
  import opened Settlement

  /** The counts of a month's revenue lines, added up. */
  function RevenueCount(revenue: seq<Revenue>): int
  {
    if revenue == [] then 0
    else RevenueCount(revenue[..|revenue| - 1]) + revenue[|revenue| - 1].count
  }

  /** The revenue counts of every month in `months`, added up. */
  function CountOver(months: seq<MonthlySettlement>): int
  {
    if months == [] then 0
    else CountOver(months[..|months| - 1]) + RevenueCount(months[|months| - 1].revenue)
  }

  /** The estimate for a settlement's periods: every revenue count of every month of every year. */
  function Expected(periods: seq<seq<MonthlySettlement>>): int
  {
    CountOver(Concat(periods))
  }

  /** The walk over years, months and revenue lines that adds up the counts. */
  method CountTransactions(periods: seq<seq<MonthlySettlement>>) returns (count: int)
    ensures count == Expected(periods)
  {
    count := 0;
    for y := 0 to |periods|
      invariant count == CountOver(Concat(periods[..y]))
    {
      count := CountYear(count, periods[y]);
      ConcatSnoc(periods, y);
      CountOverAppend(Concat(periods[..y]), periods[y]);
    }
    assert periods[..|periods|] == periods;
  }

  /** The middle loop: one year's months added to `count0`. */
  method CountYear(count0: int, months: seq<MonthlySettlement>) returns (count: int)
    ensures count == count0 + CountOver(months)
  {
    count := count0;
    for m := 0 to |months|
      invariant count == count0 + CountOver(months[..m])
    {
      count := CountMonth(count, months[m]);
      assert months[..m + 1][..m] == months[..m];
    }
    assert months[..|months|] == months;
  }

  /** The innermost loop: one month's revenue counts added to `count0`. */
  method CountMonth(count0: int, monthly: MonthlySettlement) returns (count: int)
    ensures count == count0 + RevenueCount(monthly.revenue)
  {
    count := count0;
    for r := 0 to |monthly.revenue|
      invariant count == count0 + RevenueCount(monthly.revenue[..r])
    {
      assert monthly.revenue[..r + 1][..r] == monthly.revenue[..r];
      count := count + monthly.revenue[r].count;
    }
    assert monthly.revenue[..|monthly.revenue|] == monthly.revenue;
  }

  /** Counting months one after another adds their counts. */
  lemma {:induction false} CountOverAppend(a: seq<MonthlySettlement>, b: seq<MonthlySettlement>)
    ensures CountOver(a + b) == CountOver(a) + CountOver(b)
    decreases |b|
  {
    if b != [] {
      var n := |b| - 1;
      assert (a + b)[..|a + b| - 1] == a + b[..n];
      assert (a + b)[|a + b| - 1] == b[n];
      CountOverAppend(a, b[..n]);
    } else {
      assert a + b == a;
    }
  }

  /** The estimate is additive over years: more periods add their counts. */
  lemma ExpectedAppend(a: seq<seq<MonthlySettlement>>, b: seq<seq<MonthlySettlement>>)
    ensures Expected(a + b) == Expected(a) + Expected(b)
  {
    ConcatAppend(a, b);
    CountOverAppend(Concat(a), Concat(b));
  }

  /** A settlement whose periods hold no months expects no transactions. */
  lemma {:induction false} ExpectedOfEmptyYears(periods: seq<seq<MonthlySettlement>>)
    requires forall y :: 0 <= y < |periods| ==> periods[y] == []
    ensures Expected(periods) == 0
  {
    if periods != [] {
      var n := |periods| - 1;
      assert forall y :: 0 <= y < n ==> periods[..n][y] == periods[y];
      ExpectedOfEmptyYears(periods[..n]);
      ConcatSnoc(periods, n);
      assert periods[..n + 1] == periods;
      assert Concat(periods) == Concat(periods[..n]) + [];
      assert Concat(periods[..n]) + [] == Concat(periods[..n]);
    }
  }

  /** With no negative counts the estimate is never negative. */
  lemma {:induction false} ExpectedNonNegative(periods: seq<seq<MonthlySettlement>>)
    requires forall y, m, r :: 0 <= y < |periods| && 0 <= m < |periods[y]| && 0 <= r < |periods[y][m].revenue| ==>
      periods[y][m].revenue[r].count >= 0
    ensures Expected(periods) >= 0
  {
    if periods != [] {
      var n := |periods| - 1;
      ExpectedNonNegative(periods[..n]);
      assert periods == periods[..n] + [periods[n]];
      ExpectedAppend(periods[..n], [periods[n]]);
      MonthsNonNegative(periods[n]);
      assert Concat([periods[n]]) == periods[n] by {
        assert [periods[n]][..0] == [];
      }
    }
  }

  lemma {:induction false} MonthsNonNegative(months: seq<MonthlySettlement>)
    requires forall m, r :: 0 <= m < |months| && 0 <= r < |months[m].revenue| ==> months[m].revenue[r].count >= 0
    ensures CountOver(months) >= 0
  {
    if months != [] {
      var n := |months| - 1;
      MonthsNonNegative(months[..n]);
      RevenueNonNegative(months[n].revenue);
    }
  }

  lemma {:induction false} RevenueNonNegative(revenue: seq<Revenue>)
    requires forall r :: 0 <= r < |revenue| ==> revenue[r].count >= 0
    ensures RevenueCount(revenue) >= 0
  {
    if revenue != [] {
      RevenueNonNegative(revenue[..|revenue| - 1]);
    }
  }

  /** Two months in one year with counts 3 and 5 expect 8 transactions. */
  lemma TwoMonthsExample(a: MonthlySettlement, b: MonthlySettlement)
    requires a.revenue == [Revenue(3)] && b.revenue == [Revenue(5)]
    ensures Expected([[a, b]]) == 8
  {
    assert [[a, b]][..0] == [];
    assert Concat([[a, b]]) == [a, b];
    assert [a, b][..1] == [a];
    assert [a][..0] == [];
    assert [Revenue(3)][..0] == [];
    assert [Revenue(5)][..0] == [];
    assert RevenueCount(a.revenue) == 3;
    assert RevenueCount(b.revenue) == 5;
    assert CountOver([a]) == 3;
  }
}
