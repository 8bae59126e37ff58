/** The records exchanged between the views and the payments API. */
module PaymentTypes {
  import opened Wrappers

  /** The four payment states the API reports. */
  datatype Status = Completed | Pending | Failed | Refunded

  /** The wire spelling of a status, shown verbatim in the status cell. */
  function StatusName(s: Status): (name: string)
    ensures name != ""
  {
    match s
    case Completed => "completed"
    case Pending => "pending"
    case Failed => "failed"
    case Refunded => "refunded"
  }

  /** One payment record as the server sends it. JavaScript numbers are
      modelled as reals; the amount is only ever handed to a formatter. */
  datatype Payment = Payment(
    id: string,
    customerName: string,
    amount: real,
    customerAddress: string,
    currency: string,
    status: Status,
    date: string,
    description: string,
    clientId: Option<string>)

  /** One page of search results; `total` counts matches over all pages. */
  datatype SearchResponse = SearchResponse(
    payments: seq<Payment>,
    total: int,
    page: int,
    pageSize: int)

  /** The committed filter state that drives a fetch. An empty `search` or
      `currency` means "no filter"; `page` is 1-indexed. */
  datatype Filters = Filters(
    search: string,
    currency: string,
    page: int,
    pageSize: int)
}
