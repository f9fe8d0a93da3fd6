/**
 * The fixed-width rows of the export and the two mappers that fill them:
 * one for a transaction, one for a withheld-fee entry.
 */
module Rows {
  import opened Wrappers
  import opened Settlement

  /** A CSV cell: empty (PHP null), a string, or a money value in cents. */
  datatype Cell = Null | Text(text: string) | Cents(value: int)

  type Row = seq<Cell>

  /** Why a run aborts: the payment a capture points to could not be fetched. */
  datatype Error = PaymentNotFound(paymentId: string)

  /** The header line written before the rows. */
  const Header: seq<string> := [
    "Date", "Payment method", "Currency", "Amount", "Status", "ID", "Description",
    "Consumer name", "Consumer bank account", "Consumer BIC",
    "Settlement currency", "Settlement amount", "Settlement reference", "Amount refunded"]

  const Width: nat := 14

  const DateColumn: nat := 0
  const MethodColumn: nat := 1
  const CurrencyColumn: nat := 2
  const AmountColumn: nat := 3
  const StatusColumn: nat := 4
  const IdColumn: nat := 5
  const DescriptionColumn: nat := 6
  const ConsumerNameColumn: nat := 7
  const ConsumerAccountColumn: nat := 8
  const ConsumerBicColumn: nat := 9
  const SettlementCurrencyColumn: nat := 10
  const SettlementAmountColumn: nat := 11
  const SettlementReferenceColumn: nat := 12
  const AmountRefundedColumn: nat := 13

  /** The header names one column per row slot, each slot under its own name. */
  lemma HeaderMatchesColumns()
    ensures |Header| == Width
    ensures Header[DateColumn] == "Date" && Header[MethodColumn] == "Payment method"
    ensures Header[CurrencyColumn] == "Currency" && Header[AmountColumn] == "Amount"
    ensures Header[StatusColumn] == "Status" && Header[IdColumn] == "ID"
    ensures Header[DescriptionColumn] == "Description"
    ensures Header[ConsumerNameColumn] == "Consumer name"
    ensures Header[ConsumerAccountColumn] == "Consumer bank account"
    ensures Header[ConsumerBicColumn] == "Consumer BIC"
    ensures Header[SettlementCurrencyColumn] == "Settlement currency"
    ensures Header[SettlementAmountColumn] == "Settlement amount"
    ensures Header[SettlementReferenceColumn] == "Settlement reference"
    ensures Header[AmountRefundedColumn] == "Amount refunded"
  {
  }

  /** A nullable string as a cell. */
  function Nullable(o: Option<string>): Cell
  {
    if o.Some? then Text(o.value) else Null
  }

  /** A nullable money value as a cell. */
  function NullableCents(o: Option<int>): Cell
  {
    if o.Some? then Cents(o.value) else Null
  }

  /** Slot 1: the payment method, or a literal naming the kind. */
  function MethodCell(t: Transaction): Cell
  {
    match t
    case Payment(_, m, _) => Nullable(m)
    case Refund(_, _) => Text("refund")
    case Chargeback(_) => Text("chargeback")
    case Capture(_, _) => Null
  }

  /** Slot 3: money leaving the merchant is written with its sign flipped. */
  function SignedAmount(t: Transaction): int
  {
    if t.Chargeback? || t.Refund? then t.info.amount.cents * -1 else t.info.amount.cents
  }

  /** The description of a capture, built from the payment it captures. */
  function CaptureDescription(paymentId: string, paymentDescription: string): string
  {
    "Original payment: " + paymentId + " - " + paymentDescription
  }

  /**
   * Slot 6. `payments` maps payment ids to payment descriptions and stands for
   * the payment lookup; a capture of a payment it lacks aborts the run.
   */
  function DescriptionCell(t: Transaction, payments: map<string, string>): Result<Cell, Error>
  {
    match t
    case Payment(_, _, d) => Success(Text(d))
    case Refund(_, d) => Success(Text(d))
    case Capture(_, pid) =>
      if pid in payments then Success(Text(CaptureDescription(pid, payments[pid])))
      else Failure(PaymentNotFound(pid))
    case Chargeback(_) => Success(Null)
  }

  /** Slots 7 to 9 come from `details` when the transaction has it. */
  function ConsumerCells(d: Option<Details>): (r: seq<Cell>)
    ensures |r| == 3
  {
    if d.Some? then
      [Nullable(d.value.consumerName), Nullable(d.value.consumerAccount), Nullable(d.value.consumerBic)]
    else [Null, Null, Null]
  }

  /** One transaction as a row of the export; it fails only for a capture whose payment is missing. */
  function TransactionRow(t: Transaction, s: Settlement, payments: map<string, string>): (r: Result<Row, Error>)
    ensures r.Failure? <==> t.Capture? && t.paymentId !in payments
    ensures r.Failure? ==> r.error == PaymentNotFound(t.paymentId)
    ensures r.Success? ==> |r.value| == Width == |Header|
  {
    match DescriptionCell(t, payments)
    case Failure(e) => Failure(e)
    case Success(description) =>
      Success([Text(t.info.createdAt), MethodCell(t), Text(t.info.amount.currency),
               Cents(SignedAmount(t)), Nullable(t.info.status), Nullable(t.info.id), description]
              + ConsumerCells(t.info.details)
              + [Text(t.info.settlementAmount.currency), Cents(t.info.settlementAmount.cents),
                 Text(s.reference), NullableCents(t.info.amountRefunded)])
  }

  /** What each slot of a transaction row holds, by kind of transaction. */
  lemma TransactionRowSlots(t: Transaction, s: Settlement, payments: map<string, string>) returns (row: Row)
    requires TransactionRow(t, s, payments).Success?
    ensures TransactionRow(t, s, payments) == Success(row)
    // date, currency, status and id are passed through
    ensures row[DateColumn] == Text(t.info.createdAt)
    ensures row[CurrencyColumn] == Text(t.info.amount.currency)
    ensures row[StatusColumn] == Nullable(t.info.status)
    ensures t.info.id.Some? ==> row[IdColumn] == Text(t.info.id.value)
    ensures t.info.id.None? ==> row[IdColumn] == Null
    // payment method by kind
    ensures t.Payment? ==> row[MethodColumn] == Nullable(t.paymentMethod)
    ensures t.Refund? ==> row[MethodColumn] == Text("refund")
    ensures t.Chargeback? ==> row[MethodColumn] == Text("chargeback")
    ensures t.Capture? ==> row[MethodColumn] == Null
    // amount: negated for refunds and chargebacks only
    ensures (t.Refund? || t.Chargeback?) ==> row[AmountColumn] == Cents(-t.info.amount.cents)
    ensures (t.Payment? || t.Capture?) ==> row[AmountColumn] == Cents(t.info.amount.cents)
    // description by kind
    ensures (t.Payment? || t.Refund?) ==> row[DescriptionColumn] == Text(t.description)
    ensures t.Capture? ==>
      row[DescriptionColumn] == Text("Original payment: " + t.paymentId + " - " + payments[t.paymentId])
    ensures t.Chargeback? ==> row[DescriptionColumn] == Null
    // consumer details only when the transaction has them
    ensures t.info.details.None? ==>
      row[ConsumerNameColumn] == row[ConsumerAccountColumn] == row[ConsumerBicColumn] == Null
    ensures t.info.details.Some? ==>
      row[ConsumerNameColumn] == Nullable(t.info.details.value.consumerName) &&
      row[ConsumerAccountColumn] == Nullable(t.info.details.value.consumerAccount) &&
      row[ConsumerBicColumn] == Nullable(t.info.details.value.consumerBic)
    // settlement amount and reference
    ensures row[SettlementCurrencyColumn] == Text(t.info.settlementAmount.currency)
    ensures row[SettlementAmountColumn] == Cents(t.info.settlementAmount.cents)
    ensures row[SettlementReferenceColumn] == Text(s.reference)
    ensures row[AmountRefundedColumn] == NullableCents(t.info.amountRefunded)
  {
    row := TransactionRow(t, s, payments).value;
  }

  /** `round($amount, 2)`: amounts are whole cents, so rounding changes nothing. */
  function Round2(cents: int): int
  {
    cents
  }

  /** The currency written on fee rows; it is not taken from the settlement. */
  const FeeCurrency: string := "EUR"

  /** The description that marks a withheld-fee row. */
  function FeeDescription(invoiceReference: string): string
  {
    "Withheld transaction fees " + invoiceReference
  }

  /** One withheld-fee entry as a row of the export. */
  function FeeRow(invoiceReference: string, withheldFees: int, s: Settlement): (r: Row)
    ensures |r| == Width == |Header|
    ensures r[DateColumn] == Text(s.createdAt)
    ensures r[CurrencyColumn] == r[SettlementCurrencyColumn] == Text("EUR")
    ensures r[AmountColumn] == r[SettlementAmountColumn] == Cents(withheldFees)
    ensures r[DescriptionColumn] == Text("Withheld transaction fees " + invoiceReference)
    ensures r[SettlementReferenceColumn] == Text(s.reference)
    ensures r[MethodColumn] == r[StatusColumn] == r[IdColumn] == r[AmountRefundedColumn] == Null
    ensures r[ConsumerNameColumn] == r[ConsumerAccountColumn] == r[ConsumerBicColumn] == Null
  {
    var amount := Cents(withheldFees);
    [Text(s.createdAt), Null, Text(FeeCurrency), amount, Null, Null, Text(FeeDescription(invoiceReference))]
    + ConsumerCells(None)
    + [Text(FeeCurrency), amount, Text(s.reference), Null]
  }

  /**
   * A fee row can never be mistaken for the row of a transaction that has an
   * id: the id slot tells them apart.
   */
  lemma FeeRowIsNoTransactionRow(t: Transaction, s: Settlement, payments: map<string, string>,
                                 invoiceReference: string, withheldFees: int)
    requires t.info.id.Some?
    requires TransactionRow(t, s, payments).Success?
    ensures TransactionRow(t, s, payments).value != FeeRow(invoiceReference, withheldFees, s)
  {
    var row := TransactionRowSlots(t, s, payments);
    assert row[IdColumn] != FeeRow(invoiceReference, withheldFees, s)[IdColumn];
  }
}
