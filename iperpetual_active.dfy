/**
 * Active orders of the inverse-perpetual product line: the query descriptor
 * whose response shape depends on whether an order is named, cancel-all,
 * replace, and the unwrapping step of query-by-id.
 */
module ActiveOrders {
  import opened Wrappers
  import opened Transport
  import opened InversePerpetual

  /** The endpoint suffixes handed to the helper. */
  const OrderPath: string := "order"
  const CancelAllPath: string := "order/cancelAll"
  const ReplacePath: string := "order/replace"

  /** A queried active order: a few identifying fields of the record. */
  datatype Order = Order(symbol: string, orderID: string, orderLinkID: string, orderStatus: string, qty: int)

  /** Go's zero value of Order. */
  const ZeroOrder: Order := Order("", "", "", "", 0)

  /** One order reported by cancel-all: its identifying fields. */
  datatype CancelOrderItem = CancelOrderItem(symbol: string, orderID: string, orderLinkID: string)

  /** The payload of replace: only its `order_id` is decoded. */
  datatype ReplaceResult = ReplaceResult(orderID: string)

  /** Query-active-order descriptor: a symbol and two optional identifiers. */
  datatype QueryOrder = QueryOrder(symbol: string, orderID: Option<string>, orderLinkID: Option<string>) {

    /** The query names no order: the reply is a list rather than one order.
        Holds exactly for the bare-symbol query of its symbol. */
    function OnlySymbol(): (b: bool)
      ensures b <==> this == QueryOrder(symbol, None, None)
    {
      orderID == None && orderLinkID == None
    }

    /** Asks for the list shape when only the symbol is given and for the
        single shape otherwise; the single order is wrapped into a one-element
        list, also when the transport failed. The error is the transport's. */
    function Do(client: Client, getList: ErrExchange<QueryOrder, seq<Order>>, getOne: ErrExchange<QueryOrder, Order>)
      : (r: (seq<Order>, Option<Error>))
      ensures OnlySymbol() ==>
                var reply := getList(client, Request(GET, OrderPath, this));
                r.0 == reply.value && r.1 == Lift(reply.err)
      ensures !OnlySymbol() ==>
                var reply := getOne(client, Request(GET, OrderPath, this));
                |r.0| == 1 && r.0[0] == reply.value && r.1 == Lift(reply.err)
    {
      if OnlySymbol() then
        var reply := getList(client, Request(GET, OrderPath, this));
        (reply.value, Lift(reply.err))
      else
        var reply := getOne(client, Request(GET, OrderPath, this));
        ([reply.value], Lift(reply.err))
    }
  }

  /** Cancel-all descriptor: the symbol only. */
  datatype CancelAllOrders = CancelAllOrders(symbol: string) {

    /** Posts the descriptor to the cancel-all endpoint and passes the list and
        the error through. */
    function Do(client: Client, post: ErrExchange<CancelAllOrders, seq<CancelOrderItem>>)
      : (r: (seq<CancelOrderItem>, Option<Error>))
      ensures var reply := post(client, Request(POST, CancelAllPath, this));
              r.0 == reply.value && r.1 == Lift(reply.err)
    {
      var reply := post(client, Request(POST, CancelAllPath, this));
      (reply.value, Lift(reply.err))
    }
  }

  /** Replace-active-order descriptor (the floating-point take-profit and
      stop-loss prices are not modelled). */
  datatype ReplaceOrder = ReplaceOrder(
    symbol: string,
    orderID: Option<string>,
    orderLinkID: Option<string>,
    qty: Option<int>,
    price: Option<string>,
    tpTrigger: Option<string>,
    slTrigger: Option<string>)
  {

    /** Posts the descriptor and keeps only the `order_id` of the payload. */
    function Do(client: Client, post: ErrExchange<ReplaceOrder, ReplaceResult>): (r: (string, Option<Error>))
      ensures var reply := post(client, Request(POST, ReplacePath, this));
              r.0 == reply.value.orderID && r.1 == Lift(reply.err)
    {
      var reply := post(client, Request(POST, ReplacePath, this));
      (reply.value.orderID, Lift(reply.err))
    }
  }

  /** The unwrapping step of query-by-id: the one order on success with exactly
      one element, the cardinality error on success with any other count, and
      the error unchanged on failure; the zero order whenever it fails. */
  function ExpectOne(ret: seq<Order>, err: Option<Error>): (r: (Order, Option<Error>))
    ensures r.1 == None <==> err == None && |ret| == 1
    ensures r.1 == None ==> r.0 == ret[0]
    ensures r.1 != None ==> r.0 == ZeroOrder
    ensures err != None ==> r.1 == err
    ensures err == None && |ret| != 1 ==> r.1 == Some(ResultLen)
  {
    if err == None then
      if |ret| == 1 then (ret[0], None) else (ZeroOrder, Some(ResultLen))
    else
      (ZeroOrder, err)
  }

  /** Only the query that names no order asks for the list shape: setting
      either identifier makes it a narrowed query. */
  lemma OnlySymbolNarrowing(q: QueryOrder, id: string)
    ensures QueryOrder(q.symbol, None, None).OnlySymbol()
    ensures !q.(orderID := Some(id)).OnlySymbol()
    ensures !q.(orderLinkID := Some(id)).OnlySymbol()
  {
  }

  /** A narrowed query always yields exactly one element, so unwrapping it
      never reports the cardinality error: on success it yields the decoded
      order, on failure the transport's error. */
  lemma NarrowedQueryNeverMismatches(client: Client, q: QueryOrder,
                                     getList: ErrExchange<QueryOrder, seq<Order>>, getOne: ErrExchange<QueryOrder, Order>)
    requires !q.OnlySymbol()
    ensures var (ret, err) := q.Do(client, getList, getOne);
            var reply := getOne(client, Request(GET, OrderPath, q));
            ExpectOne(ret, err) == if reply.err == None then (reply.value, None) else (ZeroOrder, Lift(reply.err))
  {
  }

  /** The cardinality check fires on a successful list with no element and
      on one with two elements. */
  lemma EmptyListMismatches(o1: Order, o2: Order)
    ensures ExpectOne([], None) == (ZeroOrder, Some(ResultLen))
    ensures ExpectOne([o1, o2], None) == (ZeroOrder, Some(ResultLen))
  {
  }
}
