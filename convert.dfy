/**
 * The whole conversion of one settlement: the rows of its exported
 * transactions, then one row per withheld-fee entry.
 */
module Convert {
  import opened Wrappers
  import opened Settlement
  import opened Rows
  import opened Collect
  import opened Fees
  import opened Estimate

  /** The fee rows, one per listed invoice reference, in the order listed. */
  function FeeRows(refs: seq<string>, amounts: map<string, int>, s: Settlement): (r: seq<Row>)
    requires forall i :: 0 <= i < |refs| ==> refs[i] in amounts
    ensures |r| == |refs|
  {
    if refs == [] then []
    else
      var k := refs[|refs| - 1];
      FeeRows(refs[..|refs| - 1], amounts, s) + [FeeRow(k, Round2(amounts[k]), s)]
  }

  /** Row `i` of the fee rows is the fee row of the `i`-th reference, with its rounded amount. */
  lemma {:induction false} FeeRowsAt(refs: seq<string>, amounts: map<string, int>, s: Settlement)
    requires forall i :: 0 <= i < |refs| ==> refs[i] in amounts
    ensures forall i :: 0 <= i < |refs| ==>
      FeeRows(refs, amounts, s)[i] == FeeRow(refs[i], Round2(amounts[refs[i]]), s)
  {
    if refs != [] {
      var n := |refs| - 1;
      FeeRowsAt(refs[..n], amounts, s);
    }
  }

  /** The fee dictionary of a settlement: every month of every period walked in order. */
  function SettlementFees(s: Settlement): FeeTable
  {
    Aggregate(Months(s.periods))
  }

  /**
   * The rows written for a settlement, or the error that aborts the run before
   * anything is written.
   */
  function Export(s: Settlement, payments: map<string, string>): Result<seq<Row>, Error>
  {
    match Collected(s, payments)
    case Failure(e) => Failure(e)
    case Success(rows) =>
      var fees := SettlementFees(s);
      AggregateWellFormed(Months(s.periods));
      Success(rows + FeeRows(fees.refs, fees.amounts, s))
  }

  /**
   * The conversion: the expected count, then the transaction rows, then the
   * withheld fees and their rows.
   */
  method Convert(s: Settlement, payments: map<string, string>)
    returns (expected: int, res: Result<seq<Row>, Error>)
    ensures expected == Expected(s.periods)
    ensures res == Export(s, payments)
  {
    expected := CountTransactions(s.periods);
    var collected := CollectRows(s, payments);
    if collected.Failure? {
      return expected, Failure(collected.error);
    }
    var refs, fees := WithheldFees(s.periods);
    AggregateWellFormed(Months(s.periods));
    var rows := AppendFeeRows(collected.value, refs, fees, s);
    return expected, Success(rows);
  }

  /** The loop over the fee dictionary: one fee row appended per entry, in the dictionary's order. */
  method AppendFeeRows(rows0: seq<Row>, refs: seq<string>, fees: map<string, int>, s: Settlement)
    returns (rows: seq<Row>)
    requires forall i :: 0 <= i < |refs| ==> refs[i] in fees
    ensures rows == rows0 + FeeRows(refs, fees, s)
  {
    rows := rows0;
    for i := 0 to |refs|
      invariant rows == rows0 + FeeRows(refs[..i], fees, s)
    {
      assert refs[..i + 1][..i] == refs[..i];
      rows := rows + [FeeRow(refs[i], Round2(fees[refs[i]]), s)];
    }
    assert refs[..|refs|] == refs;
  }

  /**
   * The run fails exactly when an exported capture refers to a payment the
   * lookup lacks, and then with the payment id of the first such capture in
   * walking order.
   */
  lemma ExportOutcome(s: Settlement, payments: map<string, string>)
    ensures Export(s, payments).Success? <==>
      forall t :: t in Kept(AllItems(s)) && t.Capture? ==> t.paymentId in payments
    ensures Export(s, payments).Failure? ==>
      var kept := Kept(AllItems(s));
      exists i :: 0 <= i < |kept| && Unresolved(kept[i], payments) &&
                  Export(s, payments).error == PaymentNotFound(kept[i].paymentId) &&
                  forall j :: 0 <= j < i ==> !Unresolved(kept[j], payments)
  {
    CollectedOutcome(s, payments);
    if Export(s, payments).Failure? {
      WalkIsMapOfKept(AllItems(s), s, payments);
      MapAllFailure(Kept(AllItems(s)), s, payments);
    }
  }

  /** A successful run writes the collected rows, then the fee rows. */
  lemma ExportParts(s: Settlement, payments: map<string, string>)
    requires Export(s, payments).Success?
    ensures Collected(s, payments).Success?
    ensures forall i :: 0 <= i < |SettlementFees(s).refs| ==> SettlementFees(s).refs[i] in SettlementFees(s).amounts
    ensures Export(s, payments).value ==
      Collected(s, payments).value + FeeRows(SettlementFees(s).refs, SettlementFees(s).amounts, s)
  {
    AggregateWellFormed(Months(s.periods));
  }

  /**
   * The layout of a successful run: every exported transaction's row first,
   * in walking order, then one fee row per invoice reference, in the order of
   * first appearance.
   */
  lemma ExportLayout(s: Settlement, payments: map<string, string>)
    requires Export(s, payments).Success?
    ensures
      var rows, kept, fees := Export(s, payments).value, Kept(AllItems(s)), SettlementFees(s);
      |rows| == |kept| + |fees.refs| &&
      (forall i :: 0 <= i < |kept| ==>
         TransactionRow(kept[i], s, payments).Success? && rows[i] == TransactionRow(kept[i], s, payments).value) &&
      (forall i :: 0 <= i < |fees.refs| ==>
         fees.refs[i] in fees.amounts &&
         rows[|kept| + i] == FeeRow(fees.refs[i], Round2(fees.amounts[fees.refs[i]]), s))
  {
    ExportParts(s, payments);
    CollectedRows(s, payments);
    var fees := SettlementFees(s);
    FeeRowsAt(fees.refs, fees.amounts, s);
    var collected, kept := Collected(s, payments).value, Kept(AllItems(s));
    var feeRows := FeeRows(fees.refs, fees.amounts, s);
    var rows := Export(s, payments).value;
    forall i | 0 <= i < |fees.refs|
      ensures rows[|kept| + i] == FeeRow(fees.refs[i], Round2(fees.amounts[fees.refs[i]]), s)
    {
      assert rows[|kept| + i] == feeRows[i];
    }
  }

  /**
   * Every row of a successful run has the header's width, and the id slot
   * is empty exactly on the fee rows, which all come after the transaction
   * rows.
   */
  lemma ExportIdSlots(s: Settlement, payments: map<string, string>)
    requires Export(s, payments).Success?
    ensures
      var rows, kept := Export(s, payments).value, Kept(AllItems(s));
      forall i :: 0 <= i < |rows| ==>
        |rows[i]| == |Header| && (rows[i][IdColumn] == Null <==> i >= |kept|)
  {
    ExportLayout(s, payments);
    var rows, kept, fees := Export(s, payments).value, Kept(AllItems(s)), SettlementFees(s);
    forall i | 0 <= i < |rows| ensures |rows[i]| == |Header| && (rows[i][IdColumn] == Null <==> i >= |kept|) {
      if i < |kept| {
        var row := TransactionRowSlots(kept[i], s, payments);
        assert rows[i] == row;
        assert Keep(kept[i]);
      } else {
        var j := i - |kept|;
        assert rows[i] == FeeRow(fees.refs[j], Round2(fees.amounts[fees.refs[j]]), s);
      }
    }
  }

  /**
   * The fee rows name each invoice reference of the periods exactly once, and
   * no other.
   */
  lemma FeeRowsPerReference(s: Settlement, k: string)
    ensures (exists i :: 0 <= i < |SettlementFees(s).refs| && SettlementFees(s).refs[i] == k) <==>
      Carries(Months(s.periods), k)
    ensures forall i, j :: 0 <= i < j < |SettlementFees(s).refs| ==>
      SettlementFees(s).refs[i] != SettlementFees(s).refs[j]
  {
    AggregateWellFormed(Months(s.periods));
    AggregateKeys(Months(s.periods), k);
    var refs := SettlementFees(s).refs;
    if k in refs {
      var i :| 0 <= i < |refs| && refs[i] == k;
    }
  }
}
