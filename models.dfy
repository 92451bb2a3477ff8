/** The order status enumeration and the two record shapes of the API. */
module Models {
  import opened Wrappers

  /** The lifecycle of an order; each value is stored as its lower-case name. */
  datatype OrderStatus = Pending | Processing | Completed | Failed
  {
    function Value(): string
    {
      match this
      case Pending => "pending"
      case Processing => "processing"
      case Completed => "completed"
      case Failed => "failed"
    }

    predicate IsTerminal()
    {
      this == Completed || this == Failed
    }
  }

  /** OrderStatus(t): the status whose stored value is `t`; any other string
      raises ValueError, modelled as None. */
  function ParseStatus(t: string): (r: Option<OrderStatus>)
    ensures r.Some? ==> r.value.Value() == t
    ensures r.None? ==> forall s: OrderStatus :: s.Value() != t
  {
    if t == "pending" then Some(Pending)
    else if t == "processing" then Some(Processing)
    else if t == "completed" then Some(Completed)
    else if t == "failed" then Some(Failed)
    else None
  }

  /** Writing a status and reading it back gives the same status, so the four
      values are pairwise distinct. */
  lemma StatusRoundTrip(s: OrderStatus)
    ensures ParseStatus(s.Value()) == Some(s)
    ensures forall s': OrderStatus :: s'.Value() == s.Value() ==> s' == s
  {
  }

  /** The price is kept as the decimal text Python's str() gives the float. */
  type Price = string

  /** A submitted order, before it has an id. */
  datatype OrderCreate = OrderCreate(customerId: string, productId: string, quantity: int, price: Price)

  /** An order as read back: the stream record with its id, its status and the
      optional processing time (absent unless a value is given). */
  datatype Order = Order(
    id: string,
    customerId: string,
    productId: string,
    quantity: int,
    price: Price,
    status: OrderStatus,
    createdAt: string,
    processedAt: Option<string>)
}
