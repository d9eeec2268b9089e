/**
 * Positions of the inverse-perpetual product line: the position descriptor
 * whose response shape depends on whether a symbol is given, the TP/SL and
 * margin switches, and the unwrapping step of get-one-position.
 */
module Positions {
  import opened Wrappers
  import opened Transport
  import opened InversePerpetual

  /** The endpoint suffixes handed to the helper. */
  const PositionListPath: string := "position/list"
  const TpSlSwitchPath: string := "tpsl/switch-mode"
  const MarginSwitchPath: string := "position/switch-isolated"

  /** Full or partial take-profit/stop-loss mode: an open, string-backed token. */
  type TpSlMode = string

  /** A few identifying fields of a position record. */
  datatype PositionData = PositionData(symbol: string, side: string, size: int, positionIdx: int, mode: int, tpSlMode: TpSlMode)

  /** One position entry. */
  datatype PositionItem = PositionItem(data: PositionData, isValid: bool)

  /** Go's zero value of PositionItem. */
  const ZeroPositionItem: PositionItem := PositionItem(PositionData("", "", 0, 0, 0, ""), false)

  /** The payload of the TP/SL mode switch: only its `tp_sl_mode` is decoded. */
  datatype TpSlModeResult = TpSlModeResult(tpSlMode: TpSlMode)

  /** My-position descriptor: an optional symbol. */
  datatype GetPosition = GetPosition(symbol: Option<string>) {

    /** Asks for the list shape without a symbol and for the single shape with
        one; the single position is wrapped into a one-element list, also when
        the transport failed. The flag is the transport's. */
    function Do(client: Client, getList: OkExchange<GetPosition, seq<PositionItem>>, getOne: OkExchange<GetPosition, PositionItem>)
      : (r: (seq<PositionItem>, bool))
      ensures symbol == None ==>
                var reply := getList(client, Request(GET, PositionListPath, this));
                r.0 == reply.value && r.1 == reply.ok
      ensures symbol != None ==>
                var reply := getOne(client, Request(GET, PositionListPath, this));
                |r.0| == 1 && r.0[0] == reply.value && r.1 == reply.ok
    {
      if symbol == None then
        var reply := getList(client, Request(GET, PositionListPath, this));
        (reply.value, reply.ok)
      else
        var reply := getOne(client, Request(GET, PositionListPath, this));
        ([reply.value], reply.ok)
    }
  }

  /** The unwrapping step of get-one-position: success only when the call
      succeeded with exactly one element, which is then the item; the zero item
      otherwise. */
  function ExpectOnePosition(ret: seq<PositionItem>, ok: bool): (r: (PositionItem, bool))
    ensures r.1 <==> ok && |ret| == 1
    ensures r.1 ==> r.0 == ret[0]
    ensures !r.1 ==> r.0 == ZeroPositionItem
  {
    if ok && |ret| == 1 then (ret[0], true) else (ZeroPositionItem, false)
  }

  /** TP/SL mode switch descriptor. */
  datatype TpSlModeSwitch = TpSlModeSwitch(symbol: string, tpSlMode: Option<TpSlMode>) {

    /** Posts the descriptor and keeps only the `tp_sl_mode` of the payload. */
    function Do(client: Client, post: OkExchange<TpSlModeSwitch, TpSlModeResult>): (r: (TpSlMode, bool))
      ensures var reply := post(client, Request(POST, TpSlSwitchPath, this));
              r.0 == reply.value.tpSlMode && r.1 == reply.ok
    {
      var reply := post(client, Request(POST, TpSlSwitchPath, this));
      (reply.value.tpSlMode, reply.ok)
    }
  }

  /** Cross/isolated margin switch descriptor. */
  datatype MarginSwitch = MarginSwitch(symbol: string, isIsolated: bool, buyLeverage: int, sellLeverage: int) {

    /** Posts the descriptor with an empty payload and reports only the flag. */
    function Do(client: Client, post: OkExchange<MarginSwitch, ()>): (ok: bool)
      ensures ok == post(client, Request(POST, MarginSwitchPath, this)).ok
    {
      post(client, Request(POST, MarginSwitchPath, this)).ok
    }
  }
}
