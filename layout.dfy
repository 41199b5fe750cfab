/** The fixed column layouts of the income, payment, penalty and name
    tables: the records, their headers, and the serialisers that turn a
    record into a row (and, for income, back). */
module Layout {
  import opened Cells

  /** Gross amount, percentage and operator's share for one payment source. */
  datatype Share = Share(gross: Cell, percent: Cell, operatorShare: Cell)

  datatype Sources = Sources(onlyfans: Share, crypto: Share, paypal: Share)

  datatype Total = Total(gross: Cell, operatorShare: Cell)

  /** One income record as the dashboard sends it and as getIncomes rebuilds it. */
  datatype Income = Income(
    id: Cell, date: Cell, timestamp: Cell, operator: Cell, anketa: Cell, shift: Cell,
    sources: Sources, total: Total)

  /** An advance or salary payment; `kind` is the request's `type` field. */
  datatype Payment = Payment(id: Cell, operator: Cell, kind: Cell, amount: Cell, date: Cell)

  datatype Penalty = Penalty(id: Cell, operator: Cell, amount: Cell, reason: Cell, date: Cell)

  /** Number of columns of an income row. */
  const IncomeWidth: nat := 17

  const IncomeHeader: Row := [
    Text("ID"), Text("Дата"), Text("Время"), Text("Оператор"), Text("Анкета"), Text("Смена"),
    Text("OnlyFans Брутто"), Text("OnlyFans %"), Text("OnlyFans Чистыми"),
    Text("Крипто Брутто"), Text("Крипто %"), Text("Крипто Чистыми"),
    Text("PayPal Брутто"), Text("PayPal %"), Text("PayPal Чистыми"),
    Text("Общий Брутто"), Text("Общий Чистыми")]

  const PaymentHeader: Row := [Text("ID"), Text("Оператор"), Text("Тип"), Text("Сумма"), Text("Дата")]

  const PenaltyHeader: Row := [Text("ID"), Text("Оператор"), Text("Сумма"), Text("Причина"), Text("Дата")]

  /** Header of the operator, anketa and admin tables. */
  const NameHeader: Row := [Text("Имя")]

  /** Reads an income record back from a row, column by column. */
  function DecodeIncome(row: Row): (x: Income)
    ensures x.id == KeyOf(row)
    ensures |row| >= IncomeWidth ==> x.total == Total(row[15], row[16])
  {
    Income(
      CellAt(row, 0), CellAt(row, 1), CellAt(row, 2), CellAt(row, 3), CellAt(row, 4), CellAt(row, 5),
      Sources(
        Share(CellAt(row, 6), CellAt(row, 7), CellAt(row, 8)),
        Share(CellAt(row, 9), CellAt(row, 10), CellAt(row, 11)),
        Share(CellAt(row, 12), CellAt(row, 13), CellAt(row, 14))),
      Total(CellAt(row, 15), CellAt(row, 16)))
  }

  /** The 17-column income row; decoding it gives the record back, and its
      key column is the record's id. */
  function EncodeIncome(x: Income): (r: Row)
    ensures |r| == IncomeWidth == |IncomeHeader|
    ensures KeyOf(r) == x.id
    ensures DecodeIncome(r) == x
  {
    [x.id, x.date, x.timestamp, x.operator, x.anketa, x.shift,
     x.sources.onlyfans.gross, x.sources.onlyfans.percent, x.sources.onlyfans.operatorShare,
     x.sources.crypto.gross, x.sources.crypto.percent, x.sources.crypto.operatorShare,
     x.sources.paypal.gross, x.sources.paypal.percent, x.sources.paypal.operatorShare,
     x.total.gross, x.total.operatorShare]
  }

  /** Every full-width row is the encoding of what it decodes to. */
  lemma EncodeDecodeIncome(row: Row)
    requires |row| == IncomeWidth
    ensures EncodeIncome(DecodeIncome(row)) == row
  {
    var r := EncodeIncome(DecodeIncome(row));
    forall k | 0 <= k < IncomeWidth
      ensures r[k] == row[k]
    {
    }
  }

  /** The label stored for a payment type: only the exact string "advance"
      is an advance; anything else is a salary. */
  function PaymentKindLabel(kind: Cell): (r: Cell)
    ensures r == Text("Аванс") <==> kind == Text("advance")
    ensures r == Text("Аванс") || r == Text("Зарплата")
  {
    if kind == Text("advance") then Text("Аванс") else Text("Зарплата")
  }

  /** The payment row: as wide as its header, keyed by the payment id,
      with the type column holding the label. */
  function EncodePayment(p: Payment): (r: Row)
    ensures |r| == |PaymentHeader|
    ensures KeyOf(r) == p.id
    ensures r[2] == Text("Аванс") <==> p.kind == Text("advance")
  {
    [p.id, p.operator, PaymentKindLabel(p.kind), p.amount, p.date]
  }

  /** The penalty row: as wide as its header and keyed by the penalty id. */
  function EncodePenalty(p: Penalty): (r: Row)
    ensures |r| == |PenaltyHeader|
    ensures KeyOf(r) == p.id
  {
    [p.id, p.operator, p.amount, p.reason, p.date]
  }
}
