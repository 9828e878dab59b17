/**
 * The domain records the Binance sources produce, and the producer they
 * push events into.
 */
module Domain {
  import opened Wire
  import opened Builtins

  /** A tradable instrument. */
  datatype Pair = Pair(baseSymbol: string, quoteSymbol: string)

  /**
   * A point in time. `FromTimestamp(ms)` stands for the value
   * `helpers.timestamp_to_datetime(ms)`, treated as an uninterpreted conversion
   * of a millisecond timestamp; a wall-clock reading is whatever value the
   * caller supplies.
   */
  datatype DateTime = FromTimestamp(ms: int)

  /** A finalized candlestick; `json` is the kline payload it was built from. */
  datatype Bar = Bar(
    datetime: DateTime,
    pair: Pair,
    open: Decimal,
    high: Decimal,
    low: Decimal,
    close: Decimal,
    volume: Decimal,
    json: Json)

  /** One price level of an order book. */
  datatype Entry = Entry(price: Decimal, volume: Decimal)

  /** A trade whose `e` field has been checked; its other fields are read lazily by the accessors. */
  datatype FuturesTrade = FuturesTrade(pair: Pair, json: map<string, Json>)

  /** An order-book snapshot; bids and asks are read lazily from `json`. */
  datatype FuturesOrderBook = FuturesOrderBook(pair: Pair, json: Json)

  datatype Event =
    | BarEvent(when: DateTime, bar: Bar)
    | FuturesTradeEvent(when: DateTime, trade: FuturesTrade)
    | FuturesOrderBookEvent(when: DateTime, orderBook: FuturesOrderBook)

  /** The shared sink the WebSocket sources push events into, in push order. */
  class Producer {
    var events: seq<Event>

    constructor ()
      ensures events == []
    {
      events := [];
    }

    method Push(event: Event)
      modifies this
      ensures events == old(events) + [event]
    {
      events := events + [event];
    }
  }
}
