/**
 * The withheld-fee entries of a settlement: a dictionary keyed by invoice
 * reference, built from the cost breakdown of every month of every period.
 */
module Fees {
  import opened Settlement

  /**
   * The fee dictionary as the ordered array it is: its keys in insertion
   * order, and the amount, in cents, held under each key.
   */
  datatype FeeTable = FeeTable(refs: seq<string>, amounts: map<string, int>)
  {
    /** Every key is listed once, and the listed keys are exactly the keys held. */
    ghost predicate WellFormed()
    {
      (forall i, j :: 0 <= i < j < |refs| ==> refs[i] != refs[j]) &&
      (forall k :: k in amounts <==> k in refs)
    }
  }

  const EmptyTable := FeeTable([], map[])

  /** Assigning to a key: an existing key keeps its position, a new key goes last. */
  function Put(t: FeeTable, k: string, v: int): (r: FeeTable)
    ensures k in r.amounts && r.amounts[k] == v
    ensures k in t.amounts ==> r.refs == t.refs
    ensures k !in t.amounts ==> r.refs == t.refs + [k]
    ensures forall j {:trigger r.amounts[j]} :: j != k ==>
      (j in r.amounts <==> j in t.amounts) && (j in t.amounts ==> r.amounts[j] == t.amounts[j])
  {
    FeeTable(if k in t.amounts then t.refs else t.refs + [k], t.amounts[k := v])
  }

  /** The sum of the gross amounts of `costs`. */
  function SumCosts(costs: seq<Cost>): int
  {
    if costs == [] then 0 else SumCosts(costs[..|costs| - 1]) + costs[|costs| - 1].amountGross
  }

  /** What one month withholds: all its gross costs, subtracted from zero. */
  function MonthFee(m: MonthlySettlement): int
  {
    -SumCosts(m.costs)
  }

  /** The months of all periods, year by year, each year in month order. */
  function Months(periods: seq<seq<MonthlySettlement>>): seq<MonthlySettlement>
  {
    Concat(periods)
  }

  /**
   * The dictionary after walking `months`: each month sets the entry of its
   * invoice reference to that month's fee, replacing whatever was there.
   */
  function Aggregate(months: seq<MonthlySettlement>): FeeTable
  {
    if months == [] then EmptyTable
    else
      var m := months[|months| - 1];
      Put(Aggregate(months[..|months| - 1]), m.invoiceReference, MonthFee(m))
  }

  /** The walk over all years and months: the fee dictionary of a settlement's periods. */
  method WithheldFees(periods: seq<seq<MonthlySettlement>>) returns (refs: seq<string>, fees: map<string, int>)
    ensures FeeTable(refs, fees) == Aggregate(Months(periods))
  {
    refs, fees := [], map[];
    for y := 0 to |periods|
      invariant FeeTable(refs, fees) == Aggregate(Concat(periods[..y]))
    {
      refs, fees := AddYear(refs, fees, periods[y], Concat(periods[..y]));
      ConcatSnoc(periods, y);
    }
    assert periods[..|periods|] == periods;
  }

  /** The middle loop: the months of one year, after the months `done` of earlier years. */
  method AddYear(refs0: seq<string>, fees0: map<string, int>, months: seq<MonthlySettlement>,
                 ghost done: seq<MonthlySettlement>)
    returns (refs: seq<string>, fees: map<string, int>)
    requires FeeTable(refs0, fees0) == Aggregate(done)
    ensures FeeTable(refs, fees) == Aggregate(done + months)
  {
    refs, fees := refs0, fees0;
    ghost var walked := done;
    for m := 0 to |months|
      invariant walked == done + months[..m]
      invariant FeeTable(refs, fees) == Aggregate(walked)
    {
      refs, fees := AddMonth(refs, fees, months[m], walked);
      assert months[..m + 1] == months[..m] + [months[m]];
      walked := walked + [months[m]];
    }
    assert months[..|months|] == months;
  }

  /** One more month assigns its fee to its invoice reference. */
  lemma AggregateSnoc(ms: seq<MonthlySettlement>, m: MonthlySettlement)
    ensures Aggregate(ms + [m]) == Put(Aggregate(ms), m.invoiceReference, MonthFee(m))
  {
    assert (ms + [m])[..|ms|] == ms;
  }

  /**
   * One month: the entry of its invoice reference is reset to zero (a new
   * reference goes last, a known one keeps its place), then every gross cost
   * of the month is subtracted from it.
   */
  method AddMonth(refs0: seq<string>, fees0: map<string, int>, monthly: MonthlySettlement,
                  ghost done: seq<MonthlySettlement>)
    returns (refs: seq<string>, fees: map<string, int>)
    requires FeeTable(refs0, fees0) == Aggregate(done)
    ensures FeeTable(refs, fees) == Put(FeeTable(refs0, fees0), monthly.invoiceReference, MonthFee(monthly))
    ensures FeeTable(refs, fees) == Aggregate(done + [monthly])
  {
    var ref := monthly.invoiceReference;
    refs, fees := refs0, fees0;
    if ref !in fees {
      refs := refs + [ref];
    }
    fees := fees[ref := 0];
    for c := 0 to |monthly.costs|
      invariant fees == fees0[ref := -SumCosts(monthly.costs[..c])]
    {
      assert monthly.costs[..c + 1][..c] == monthly.costs[..c];
      fees := fees[ref := fees[ref] - monthly.costs[c].amountGross];
    }
    assert monthly.costs[..|monthly.costs|] == monthly.costs;
    AggregateSnoc(done, monthly);
  }

  /** Assigning keeps a well-formed dictionary well formed. */
  lemma PutWellFormed(t: FeeTable, k: string, v: int)
    requires t.WellFormed()
    ensures Put(t, k, v).WellFormed()
  {
  }

  /** The dictionary lists each of its keys exactly once. */
  lemma {:induction false} AggregateWellFormed(ms: seq<MonthlySettlement>)
    ensures Aggregate(ms).WellFormed()
  {
    if ms != [] {
      var n := |ms| - 1;
      AggregateWellFormed(ms[..n]);
      PutWellFormed(Aggregate(ms[..n]), ms[n].invoiceReference, MonthFee(ms[n]));
    }
  }

  /** Some month of `ms` carries invoice reference `k`. */
  predicate Carries(ms: seq<MonthlySettlement>, k: string)
  {
    exists i :: 0 <= i < |ms| && ms[i].invoiceReference == k
  }

  /** The position of the first month that carries `k`. */
  function FirstIndex(ms: seq<MonthlySettlement>, k: string): (r: nat)
    requires Carries(ms, k)
    ensures r < |ms| && ms[r].invoiceReference == k
    ensures forall i :: 0 <= i < r ==> ms[i].invoiceReference != k
  {
    var n := |ms| - 1;
    if Carries(ms[..n], k) then FirstIndex(ms[..n], k) else n
  }

  /** The position of the last month that carries `k`. */
  function LastIndex(ms: seq<MonthlySettlement>, k: string): (r: nat)
    requires Carries(ms, k)
    ensures r < |ms| && ms[r].invoiceReference == k
    ensures forall i :: r < i < |ms| ==> ms[i].invoiceReference != k
  {
    var n := |ms| - 1;
    if ms[n].invoiceReference == k then n
    else
      assert Carries(ms[..n], k) by {
        var i :| 0 <= i < |ms| && ms[i].invoiceReference == k;
        assert ms[..n][i] == ms[i];
      }
      LastIndex(ms[..n], k)
  }

  /** The dictionary holds exactly the invoice references the months carry. */
  lemma {:induction false} AggregateKeys(ms: seq<MonthlySettlement>, k: string)
    ensures k in Aggregate(ms).amounts <==> Carries(ms, k)
  {
    if ms != [] {
      var n := |ms| - 1;
      AggregateKeys(ms[..n], k);
      if Carries(ms[..n], k) {
        var i :| 0 <= i < n && ms[..n][i].invoiceReference == k;
        assert ms[i] == ms[..n][i];
      }
      if Carries(ms, k) && ms[n].invoiceReference != k {
        var i :| 0 <= i < |ms| && ms[i].invoiceReference == k;
        assert ms[..n][i] == ms[i];
      }
    }
  }

  /**
   * The amount under each reference is the fee of the LAST month carrying it:
   * a later month with the same reference replaces, not adds to, an earlier one;
   * so a last month without costs leaves zero.
   */
  lemma {:induction false} AggregateValue(ms: seq<MonthlySettlement>, k: string)
    requires k in Aggregate(ms).amounts
    ensures Carries(ms, k)
    ensures Aggregate(ms).amounts[k] == MonthFee(ms[LastIndex(ms, k)])
    ensures ms[LastIndex(ms, k)].costs == [] ==> Aggregate(ms).amounts[k] == 0
  {
    AggregateKeys(ms, k);
    var n := |ms| - 1;
    if ms[n].invoiceReference != k {
      AggregateValue(ms[..n], k);
    }
  }

  /** References are listed in the order of their first month. */
  lemma {:induction false} AggregateOrder(ms: seq<MonthlySettlement>)
    ensures forall i :: 0 <= i < |Aggregate(ms).refs| ==> Carries(ms, Aggregate(ms).refs[i])
    ensures forall i, j :: 0 <= i < j < |Aggregate(ms).refs| ==>
      FirstIndex(ms, Aggregate(ms).refs[i]) < FirstIndex(ms, Aggregate(ms).refs[j])
  {
    var t := Aggregate(ms);
    AggregateWellFormed(ms);
    forall i | 0 <= i < |t.refs| ensures Carries(ms, t.refs[i]) {
      AggregateKeys(ms, t.refs[i]);
    }
    if ms != [] {
      var n := |ms| - 1;
      var init := ms[..n];
      var k := ms[n].invoiceReference;
      var before := Aggregate(init);
      AggregateOrder(init);
      // a reference the earlier months carry keeps its first index
      forall r | Carries(init, r) ensures FirstIndex(ms, r) == FirstIndex(init, r) {
      }
      if k !in before.amounts {
        AggregateKeys(init, k);
        assert t.refs == before.refs + [k];
        assert !Carries(init, k);
        assert FirstIndex(ms, k) == n;
        forall i | 0 <= i < |before.refs| ensures FirstIndex(ms, t.refs[i]) < n {
          assert Carries(init, before.refs[i]);
        }
      }
    }
  }

  /** What a reading of the fees as a sum over every month carrying a reference would give. */
  function AccumulatedFee(ms: seq<MonthlySettlement>, k: string): int
  {
    if ms == [] then 0
    else
      var m := ms[|ms| - 1];
      AccumulatedFee(ms[..|ms| - 1], k) + (if m.invoiceReference == k then MonthFee(m) else 0)
  }

  /** When one month alone carries a reference, replacing and accumulating agree. */
  lemma {:induction false} AggregateAgreesWhenUnique(ms: seq<MonthlySettlement>, k: string, i: nat)
    requires i < |ms| && ms[i].invoiceReference == k
    requires forall j :: 0 <= j < |ms| && j != i ==> ms[j].invoiceReference != k
    ensures k in Aggregate(ms).amounts
    ensures Aggregate(ms).amounts[k] == AccumulatedFee(ms, k) == MonthFee(ms[i])
  {
    AggregateKeys(ms, k);
    AggregateValue(ms, k);
    AccumulatedOfOne(ms, k, i);
  }

  lemma {:induction false} AccumulatedOfOne(ms: seq<MonthlySettlement>, k: string, i: nat)
    requires i < |ms| && ms[i].invoiceReference == k
    requires forall j :: 0 <= j < |ms| && j != i ==> ms[j].invoiceReference != k
    ensures AccumulatedFee(ms, k) == MonthFee(ms[i])
  {
    var n := |ms| - 1;
    if i < n {
      AccumulatedOfOne(ms[..n], k, i);
    } else {
      AccumulatedOfNone(ms[..n], k);
    }
  }

  lemma {:induction false} AccumulatedOfNone(ms: seq<MonthlySettlement>, k: string)
    requires forall j :: 0 <= j < |ms| ==> ms[j].invoiceReference != k
    ensures AccumulatedFee(ms, k) == 0
  {
    if ms != [] {
      AccumulatedOfNone(ms[..|ms| - 1], k);
    }
  }

  /**
   * Two months with the same reference: the dictionary keeps only the second
   * month's fee, where accumulating would have kept both.
   */
  lemma LaterMonthReplacesEarlier(first: MonthlySettlement, second: MonthlySettlement)
    requires first.invoiceReference == second.invoiceReference
    ensures Aggregate([first, second]).refs == [first.invoiceReference]
    ensures Aggregate([first, second]).amounts[first.invoiceReference] == MonthFee(second)
    ensures AccumulatedFee([first, second], first.invoiceReference) == MonthFee(first) + MonthFee(second)
  {
    var k := first.invoiceReference;
    assert [first, second][..1] == [first];
    assert [first][..0] == [];
    assert Aggregate([first]) == FeeTable([k], map[k := MonthFee(first)]);
    assert Aggregate([first, second]) == FeeTable([k], map[k := MonthFee(second)]);
    assert AccumulatedFee([first], k) == MonthFee(first);
  }

  /** One month under "INV-1" with gross costs of 12.34 and 7.66 gives one entry of -20.00. */
  lemma OneMonthExample(m: MonthlySettlement)
    requires m.invoiceReference == "INV-1" && m.costs == [Cost(1234), Cost(766)]
    ensures Aggregate([m]).refs == ["INV-1"]
    ensures Aggregate([m]).amounts["INV-1"] == -2000
  {
    assert [m][..0] == [];
    assert m.costs[..1] == [Cost(1234)] && m.costs[..1][..0] == [];
    assert SumCosts(m.costs[..1]) == 1234;
    assert SumCosts(m.costs) == 2000;
  }
}
