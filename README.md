# Bybit REST client binding: shape resolution, cardinality checks and account paths

This project models the small amount of local decision logic in a Go client
binding for a cryptocurrency exchange's REST API, and proves properties of
that model. Everything else in the binding is glue: request structures,
response structures and one-line calls into a shared transport package. The
transport itself is not modelled. Each operation receives it as an oracle, a
function-typed parameter that maps a request (verb, relative path, parameter
object) to what the transport hands back.

Three pieces of logic are modelled.

- **Inverse-perpetual active orders** (`iperpetual/account_active.go`). The
  query-order descriptor has a predicate, `OnlySymbol`, that holds when neither
  an order id nor an order link id is set. When it holds, the reply is decoded
  as a list. When it does not, the reply is decoded as one order and wrapped
  into a one-element list. Query-by-id builds a narrowed descriptor, unwraps
  the list, and reports the error `query order result len != 1` when the count
  is not one. Cancel-all for a symbol is the cancel-all descriptor with that
  symbol. Replace keeps only the `order_id` of the decoded payload.
- **Inverse-perpetual positions** (`iperpetual/account_position.go`). This is
  the same pattern, keyed on whether a symbol is given. Get-one-position
  unwraps the list and succeeds only on success with exactly one element. The
  TP/SL switch keeps only the `tp_sl_mode` of its payload. The margin switch
  reports only the success flag.
- **Account asset** (`account/client.go`). Paths are composed as
  `asset/v1/<access>/<path>`. Every call goes through the private prefix. The
  generic `Get`/`Post` helpers decode into a fresh, zero-valued response
  envelope and report success exactly when the transport's error is nil.

Modules: `Wrappers` (the `Option` type), `Transport` (the interface types of
the transport collaborator), `Account`, `InversePerpetual` (the client handle,
the helper reply shapes and the error values), `ActiveOrders`, `Positions`,
and `InversePerpetualClient` (the client's operations).

Modelling choices:

- The two inverse-perpetual files disagree on what the package's `Get[T]` and
  `Post[T]` helpers return. In `account_active.go` they return the value and an
  error. In `account_position.go` they return the value and a boolean. Each file
  is modelled with its own helper shape: `Reply` (value and optional `Fault`)
  and `OkReply` (value and flag). Both helpers are defined in files that are
  not part of this model.
- A Go function returning `(T, error)` always returns some `T`, also together
  with a non-nil error. The model leaves that value unconstrained, and
  `QueryOrder.Do` wraps it into a one-element list whatever the error, as the
  code does (iperpetual/account_active.go:189-190).
- A transport error and the cardinality error are distinct values of `Error`
  (`TransportError(fault)` and `ResultLen`). In Go the latter is a freshly
  created error value, so it is never equal to a transport error.
- In the account package, the transport decodes into the envelope in place.
  Its oracle therefore receives the envelope's payload from before the call.
  Go's zero value of the payload type is passed explicitly as `zero`.
- Go's nil-able fields become `Option` fields. Records keep a few identifying
  fields (symbol, ids, status, quantity, mode); the rest are listed under
  "Left out".
- `Client.Url`'s partner is `SplitUrl`, which reads a path back into its
  access segment and suffix. The two are proved inverse in both directions.
  Injectivity and the disjointness of the public and private namespaces follow
  from that.
- The length check in query-by-id and in get-one-position can never fire after
  a successful transport call, because the narrowed branch always wraps into
  exactly one element. This is proved. The check itself is modelled as
  `ActiveOrders.ExpectOne`, and `ActiveOrders.EmptyListMismatches` states the
  counts on which it fires.

## Model

| member | source | states |
|---|---|---|
| `Account.Client.Url` | account/client.go:39-41 | the path is the fixed `asset/v1/` prefix, then the access segment, then one slash, then the suffix, and has exactly that length |
| `Account.Client.UrlPublic` | account/client.go:43-45 | the public path reads back as access `public` with the given suffix |
| `Account.Client.UrlPrivate` | account/client.go:47-49 | the private path reads back as access `private` with the given suffix |
| `Account.Client.Get` | account/client.go:19-21 | issues one GET to the private path of the suffix through the client's transport handle; the envelope holds what the transport filled in; the transport's error is returned |
| `Account.Client.Post` | account/client.go:23-25 | the same with POST |
| `Account.Response.constructor` | account/client.go:28 | a new envelope holds the zero value of its payload type |
| `Account.Get` | account/client.go:27-31 | the result is what the transport filled into a fresh zero-valued envelope for a GET to the private path; success exactly when the transport's error is nil |
| `Account.Post` | account/client.go:33-37 | the same with POST |
| `Account.SplitUrlInvertsUrl` | account/client.go:39-41 | splitting a composed path recovers its access segment (one without a slash) and its suffix |
| `Account.UrlInvertsSplitUrl` | account/client.go:39-41 | every path that splits is the composition of its two parts |
| `Account.UrlInjective` | account/client.go:39-41 | for slash-free access segments, equal paths have equal access segments and equal suffixes |
| `Account.UrlSuffixInjective` | account/client.go:39-41 | for any one access segment, different endpoint suffixes give different paths |
| `Account.PublicPrivateDiffer` | account/client.go:43-49 | for the same suffix, the public and the private path differ |
| `Account.PrivateNeverPublic` | account/client.go:19-25 | no private path, for any suffix, equals a public path for any suffix, so the client's Get and Post never reach the public namespace |
| `InversePerpetual.Error.Message` | iperpetual/account_active.go:219 | the cardinality error's text is `query order result len != 1`; a transport error keeps its own text |
| `ActiveOrders.QueryOrder.OnlySymbol` | iperpetual/account_active.go:180-182 | holds exactly when neither the order id nor the order link id is set, that is, exactly for the bare-symbol query of its symbol |
| `ActiveOrders.OnlySymbolNarrowing` | iperpetual/account_active.go:180-182 | a query with both identifiers absent is a bare-symbol query; setting either identifier makes it a narrowed one |
| `ActiveOrders.QueryOrder.Do` | iperpetual/account_active.go:185-191 | a bare-symbol query returns the list decoded from a GET of `order` and the transport's error; any other query returns a one-element list holding the order decoded from a GET of `order`, also on failure, and the transport's error |
| `ActiveOrders.CancelAllOrders.Do` | iperpetual/account_active.go:126-128 | posts the descriptor to `order/cancelAll`; returns the decoded list and the transport's error |
| `ActiveOrders.ReplaceOrder.Do` | iperpetual/account_active.go:158-164 | posts the descriptor to `order/replace`; returns only the payload's `order_id` and the transport's error |
| `ActiveOrders.ExpectOne` | iperpetual/account_active.go:215-222 | no error exactly when the call succeeded and the list has one element, which is then returned; a success with any other count gives the cardinality error; a failure passes the error through; every failure gives the zero order |
| `ActiveOrders.NarrowedQueryNeverMismatches` | iperpetual/account_active.go:185-222 | for every narrowed query, unwrapping the result gives the decoded order on transport success and the zero order with the transport's error on failure, never the cardinality error |
| `ActiveOrders.EmptyListMismatches` | iperpetual/account_active.go:215-221 | a successful list with no element or with two elements unwraps to the zero order and the cardinality error |
| `InversePerpetualClient.QueryOrder` | iperpetual/account_active.go:206-208 | a bare-symbol query returns the list decoded from a GET of `order` and the transport's error; any other query the one-element list of the decoded order and the transport's error |
| `InversePerpetualClient.QueryOrderByID` | iperpetual/account_active.go:210-223 | asks for one order with a GET of `order` whose descriptor has the symbol, the order id and no link id; returns that order and no error on success, and the zero order and the transport's error on failure; never the cardinality error |
| `InversePerpetualClient.QueryOrderByIDIsDescriptor` | iperpetual/account_active.go:206-223 | query-by-id's descriptor is never a bare-symbol query, and query-by-id equals running that descriptor by hand and unwrapping the result |
| `InversePerpetualClient.CancelAllOrders` | iperpetual/account_active.go:141-143 | posts a cancel-all descriptor carrying exactly the given symbol to `order/cancelAll`; returns the decoded list and the transport's error |
| `InversePerpetualClient.CancelAllOrdersIsDescriptor` | iperpetual/account_active.go:141-143 | cancel-all for a symbol equals running any hand-built cancel-all descriptor with that symbol |
| `Positions.GetPosition.Do` | iperpetual/account_position.go:15-21 | without a symbol, returns the list decoded from a GET of `position/list` and the transport's flag; with a symbol, returns a one-element list holding the decoded position, also on failure, and the transport's flag |
| `Positions.ExpectOnePosition` | iperpetual/account_position.go:76-82 | succeeds exactly when the call succeeded and the list has one element, which is then the item; otherwise the zero item |
| `Positions.TpSlModeSwitch.Do` | iperpetual/account_position.go:161-167 | posts the descriptor to `tpsl/switch-mode`; returns only the payload's `tp_sl_mode` and the transport's flag |
| `Positions.MarginSwitch.Do` | iperpetual/account_position.go:183-186 | posts the descriptor to `position/switch-isolated`; returns only the transport's flag |
| `InversePerpetualClient.GetPosition` | iperpetual/account_position.go:70-72 | without a symbol, the decoded list of a GET of `position/list` with an empty descriptor; with one, the one-element list of the decoded position; in both cases the transport's flag |
| `InversePerpetualClient.GetOnePosition` | iperpetual/account_position.go:74-83 | asks for the single shape with the symbol set; succeeds exactly when the transport succeeded, with the transport's item; otherwise the zero item |
| `InversePerpetualClient.GetAllPositions` | iperpetual/account_position.go:85-87 | the decoded list of a GET of `position/list` with no symbol, and the transport's flag |
| `InversePerpetualClient.PositionWrappersAreDescriptors` | iperpetual/account_position.go:70-87 | get-position equals the descriptor with the given symbol run by hand; get-all-positions equals the descriptor with no symbol, and equals get-position with no symbol |
| `InversePerpetualClient.GetOnePositionKeepsFlag` | iperpetual/account_position.go:15-83 | get-one-position's flag equals the flag of the symbol query it runs, so the length check never turns a success into a failure |

## Left out

- The transport package (HTTP GET/POST, request signing, proxying, base URLs, encoding of parameters by their wire names, decoding of the JSON envelope) is not part of this model. It is represented by oracles.
- The inverse-perpetual helpers `Get[T]`/`Post[T]` and the inverse-perpetual `Client` type are defined in files that are not part of this model. Their path prefix is not modelled: the oracles receive the endpoint suffix that the code passes.
- The response envelope `Response[T]` is defined in a file that is not part of this model. Only its `Result` field is modelled, because it is the only field these files read.
- JSON and parameter wire names are not modelled, because encoding and decoding happen in the transport. This includes the garbled tag on `CancelOrderItem.OrderLinkID`.
- Floating-point and time fields of requests and records are not modelled. Examples are prices, take-profit and stop-loss values, and creation times. No decision in the modelled code depends on them.
- Several non-floating-point record fields are not modelled either, because no modelled decision reads them: in `Order`, UserID, Side, OrderType, TimeInForce, RejectReason, TpTrigger, SlTrigger, LastExecTime, LeavesValue, PositionIdx, CancelType and ExtFields; in `CancelOrderItem`, UserID, Side, OrderType, Qty, TimeInForce, OrderStatus, LeavesValue, CreateType, CancelType, CrossStatus and CrossSeq; in `PositionData`, ID, UserID, RiskID, IsIsolated, AutoAddMargin, PositionStatus, DeleverageIndicator, OcCalcData, CrossSeq and PositionSeq.
- Pass-through operations are not modelled. Each is one call to the helper with a fixed verb and path, with no decision of its own: `PlaceActiveOrder`, `OrderList`, `CancelOrder`, `ChangeMargin`, `SetLeverage`, `SetTradingStop`, `GetTradeRecords`, `ClosedProfitLoss`, and the client methods `ReplaceOrder`, `TpSlModeSwitch` and `MarginSwitch`, which only call `Do`.
- The constructors `NewClient`, the top-level client wiring, the inverse-futures delegation and the USDT-perpetual market paths are not modelled. They only wire handles together or fix path constants.
- Go compares error values by identity. The model compares errors as values, and keeps the locally created cardinality error apart by giving it its own constructor.
- Concurrency is not modelled. Each call is independent, and the transport's thread safety belongs to the transport.
