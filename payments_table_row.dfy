/** The table body: one row per payment of the response, in order. The date and
    amount cells are whatever the two formatters make of the raw values. */
module PaymentsTableRow {
  import opened I18n
  import opened PaymentTypes

  /** One rendered row: its React key, its six cells, and the status that
      selects the badge's style. */
  datatype Row = Row(
    key: string,
    id: Text,
    date: Text,
    amount: Text,
    customer: Text,
    currency: Text,
    status: Text,
    badge: Status)

  /** The row of one payment. The customer and currency cells fall back to
      their placeholders when the field is empty, so neither is ever blank. */
  function PaymentRow(p: Payment, formatDate: string -> string, formatAmount: real -> string): (row: Row)
    ensures row.key == p.id && row.id == Str(p.id)
    ensures row.date == Str(formatDate(p.date)) && row.amount == Str(formatAmount(p.amount))
    ensures !IsBlank(row.customer) && !IsBlank(row.currency)
    ensures p.customerName != "" ==> row.customer == Str(p.customerName)
    ensures p.customerName == "" ==> row.customer == Translated(EmptyCustomer)
    ensures p.currency != "" ==> row.currency == Str(p.currency)
    ensures p.currency == "" ==> row.currency == Translated(EmptyCurrency)
    ensures row.status == Str(StatusName(p.status)) && row.badge == p.status
  {
    Row(
      p.id,
      Str(p.id),
      Str(formatDate(p.date)),
      Str(formatAmount(p.amount)),
      OrElse(p.customerName, EmptyCustomer),
      OrElse(p.currency, EmptyCurrency),
      Str(StatusName(p.status)),
      p.status)
  }

  /** `data.payments.map(...)`: row `i` is the row of payment `i`. */
  function Rows(data: SearchResponse, formatDate: string -> string, formatAmount: real -> string): (rows: seq<Row>)
    ensures |rows| == |data.payments|
    ensures forall i :: 0 <= i < |rows| ==> rows[i] == PaymentRow(data.payments[i], formatDate, formatAmount)
  {
    seq(|data.payments|, i requires 0 <= i < |data.payments| => PaymentRow(data.payments[i], formatDate, formatAmount))
  }

  /** The keys of the rows, in order, are the payment ids. */
  function Keys(rows: seq<Row>): (keys: seq<string>)
    ensures |keys| == |rows|
    ensures forall i :: 0 <= i < |rows| ==> keys[i] == rows[i].key
  {
    if rows == [] then [] else [rows[0].key] + Keys(rows[1..])
  }

  function Ids(payments: seq<Payment>): (ids: seq<string>)
    ensures |ids| == |payments|
    ensures forall i :: 0 <= i < |payments| ==> ids[i] == payments[i].id
  {
    if payments == [] then [] else [payments[0].id] + Ids(payments[1..])
  }

  /** The rows appear in payment order: their keys are the payment ids. */
  lemma RowsInPaymentOrder(data: SearchResponse, formatDate: string -> string, formatAmount: real -> string)
    ensures Keys(Rows(data, formatDate, formatAmount)) == Ids(data.payments)
  {
  }

  /** Mapping commutes with concatenation: the rows of two lists of payments,
      one after the other, are the rows of the first then those of the second. */
  lemma RowsOfConcatenation(a: SearchResponse, b: SearchResponse, formatDate: string -> string, formatAmount: real -> string)
    ensures Rows(a.(payments := a.payments + b.payments), formatDate, formatAmount)
              == Rows(a, formatDate, formatAmount) + Rows(b, formatDate, formatAmount)
  {
  }

  /** An empty page has no rows. */
  lemma NoPaymentsNoRows(data: SearchResponse, formatDate: string -> string, formatAmount: real -> string)
    requires data.payments == []
    ensures Rows(data, formatDate, formatAmount) == []
  {
  }

  /** The status cell tells the four statuses apart. */
  lemma StatusCellsDistinct(a: Status, b: Status)
    ensures StatusName(a) == StatusName(b) ==> a == b
  {
  }
}
