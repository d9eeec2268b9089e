/**
 * The inverse-perpetual client's operations: each runs a descriptor, and the
 * convenience ones build the descriptor from their arguments and, for the
 * id- and symbol-narrowed queries, unwrap the one-element list.
 */
module InversePerpetualClient {
  import opened Wrappers
  import opened Transport
  import opened InversePerpetual
  import A = ActiveOrders
  import P = Positions

  /** Runs a query-active-order descriptor. */
  function QueryOrder(c: Client, v: A.QueryOrder,
                      getList: ErrExchange<A.QueryOrder, seq<A.Order>>, getOne: ErrExchange<A.QueryOrder, A.Order>)
    : (r: (seq<A.Order>, Option<Error>))
    ensures v.OnlySymbol() ==>
              var reply := getList(c, Request(GET, A.OrderPath, v));
              r == (reply.value, Lift(reply.err))
    ensures !v.OnlySymbol() ==>
              var reply := getOne(c, Request(GET, A.OrderPath, v));
              r == ([reply.value], Lift(reply.err))
  {
    v.Do(c, getList, getOne)
  }

  /** Queries one order by symbol and id. The query names an order, so the
      single shape is used: the result is the transport's order and no error
      on success, the zero order and the transport's error on failure, and
      never the cardinality error. */
  function QueryOrderByID(c: Client, symbol: string, orderID: string,
                          getList: ErrExchange<A.QueryOrder, seq<A.Order>>, getOne: ErrExchange<A.QueryOrder, A.Order>)
    : (r: (A.Order, Option<Error>))
    ensures var reply := getOne(c, Request(GET, A.OrderPath, A.QueryOrder(symbol, Some(orderID), None)));
            r == if reply.err == None then (reply.value, None) else (A.ZeroOrder, Lift(reply.err))
    ensures r.1 != Some(ResultLen)
  {
    var (ret, err) := QueryOrder(c, A.QueryOrder(symbol, Some(orderID), None), getList, getOne);
    A.ExpectOne(ret, err)
  }

  /** Cancels every active order of `symbol`. */
  function CancelAllOrders(c: Client, symbol: string, post: ErrExchange<A.CancelAllOrders, seq<A.CancelOrderItem>>)
    : (r: (seq<A.CancelOrderItem>, Option<Error>))
    ensures var reply := post(c, Request(POST, A.CancelAllPath, A.CancelAllOrders(symbol)));
            r == (reply.value, Lift(reply.err))
  {
    A.CancelAllOrders(symbol).Do(c, post)
  }

  /** Positions for an optional symbol. */
  function GetPosition(c: Client, symbol: Option<string>,
                       getList: OkExchange<P.GetPosition, seq<P.PositionItem>>, getOne: OkExchange<P.GetPosition, P.PositionItem>)
    : (r: (seq<P.PositionItem>, bool))
    ensures symbol == None ==>
              var reply := getList(c, Request(GET, P.PositionListPath, P.GetPosition(None)));
              r == (reply.value, reply.ok)
    ensures symbol != None ==>
              var reply := getOne(c, Request(GET, P.PositionListPath, P.GetPosition(symbol)));
              r == ([reply.value], reply.ok)
  {
    P.GetPosition(symbol).Do(c, getList, getOne)
  }

  /** The position of one symbol. The query names a symbol, so the single
      shape is used: success is exactly the transport's success, with its
      item; the zero item otherwise. */
  function GetOnePosition(c: Client, symbol: string,
                          getList: OkExchange<P.GetPosition, seq<P.PositionItem>>, getOne: OkExchange<P.GetPosition, P.PositionItem>)
    : (r: (P.PositionItem, bool))
    ensures var reply := getOne(c, Request(GET, P.PositionListPath, P.GetPosition(Some(symbol))));
            r == if reply.ok then (reply.value, true) else (P.ZeroPositionItem, false)
  {
    var (ret, ok) := P.GetPosition(Some(symbol)).Do(c, getList, getOne);
    P.ExpectOnePosition(ret, ok)
  }

  /** Positions of every symbol. */
  function GetAllPositions(c: Client, getList: OkExchange<P.GetPosition, seq<P.PositionItem>>, getOne: OkExchange<P.GetPosition, P.PositionItem>)
    : (r: (seq<P.PositionItem>, bool))
    ensures var reply := getList(c, Request(GET, P.PositionListPath, P.GetPosition(None)));
            r == (reply.value, reply.ok)
  {
    P.GetPosition(None).Do(c, getList, getOne)
  }

  /** Cancel-all for a symbol is the same call as running any hand-built
      cancel-all descriptor that carries that symbol. */
  lemma CancelAllOrdersIsDescriptor(c: Client, symbol: string, d: A.CancelAllOrders,
                                    post: ErrExchange<A.CancelAllOrders, seq<A.CancelOrderItem>>)
    requires d.symbol == symbol
    ensures CancelAllOrders(c, symbol, post) == d.Do(c, post)
  {
  }

  /** The position wrappers are the descriptor run by hand: with the given
      symbol, and with none for all positions. */
  lemma PositionWrappersAreDescriptors(c: Client, symbol: Option<string>,
                                       getList: OkExchange<P.GetPosition, seq<P.PositionItem>>, getOne: OkExchange<P.GetPosition, P.PositionItem>)
    ensures GetPosition(c, symbol, getList, getOne) == P.GetPosition(symbol).Do(c, getList, getOne)
    ensures GetAllPositions(c, getList, getOne) == P.GetPosition(None).Do(c, getList, getOne)
    ensures GetAllPositions(c, getList, getOne) == GetPosition(c, None, getList, getOne)
  {
  }

  /** The length check of get-one-position never turns a success of the
      underlying query into a failure: both flags agree. */
  lemma GetOnePositionKeepsFlag(c: Client, symbol: string,
                                getList: OkExchange<P.GetPosition, seq<P.PositionItem>>, getOne: OkExchange<P.GetPosition, P.PositionItem>)
    ensures GetOnePosition(c, symbol, getList, getOne).1 == P.GetPosition(Some(symbol)).Do(c, getList, getOne).1
  {
  }

  /** Query-by-id is the narrowed query run by hand and unwrapped. */
  lemma QueryOrderByIDIsDescriptor(c: Client, symbol: string, orderID: string,
                                   getList: ErrExchange<A.QueryOrder, seq<A.Order>>, getOne: ErrExchange<A.QueryOrder, A.Order>)
    ensures !A.QueryOrder(symbol, Some(orderID), None).OnlySymbol()
    ensures var (ret, err) := A.QueryOrder(symbol, Some(orderID), None).Do(c, getList, getOne);
            QueryOrderByID(c, symbol, orderID, getList, getOne) == A.ExpectOne(ret, err)
  {
  }
}
