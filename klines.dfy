/**
 * The Binance WebSocket adapters: decoding of candlestick, trade and
 * order-book messages into events, the event sources that push them, and
 * the builders of the stream (channel) names.
 *
 * `pair_to_order_book_symbol` is not part of this model; the channel
 * builders take it as the parameter `symbolOf`.
 */
module Klines {
  import opened Wrappers
  import opened Wire
  import opened Builtins
  import opened Domain

  // ---------------------------------------------------------------------
  // Field access along the paths the decoders read
  // ---------------------------------------------------------------------

  /** `message["data"][key]` */
  function DataField(message: Json, key: string): Result<Json, Error>
  {
    var data :- Subscript(message, "data");
    Subscript(data, key)
  }

  /** `message["data"]["k"][key]` */
  function KlineField(message: Json, key: string): Result<Json, Error>
  {
    var data :- Subscript(message, "data");
    var kline :- Subscript(data, "k");
    Subscript(kline, key)
  }

  /** `int(...)` of a looked-up field. */
  function AsInt(field: Result<Json, Error>): Result<int, Error>
  {
    var v :- field;
    ToInt(v)
  }

  /** `Decimal(...)` of a looked-up field. */
  function AsDecimal(field: Result<Json, Error>): Result<Decimal, Error>
  {
    var v :- field;
    ToDecimal(v)
  }

  // ---------------------------------------------------------------------
  // Candlesticks
  // ---------------------------------------------------------------------

  /**
   * `Bar(pair, json)`: the bar's time is the conversion of `t`, and
   * open/high/low/close/volume are the decimal parses of `o`, `h`, `l`, `c`, `v`.
   * It fails exactly when one of those conversions fails.
   */
  function NewBar(pair: Pair, json: Json): (r: Result<Bar, Error>)
    ensures r.Ok? <==>
      && AsInt(Subscript(json, "t")).Ok?
      && AsDecimal(Subscript(json, "o")).Ok? && AsDecimal(Subscript(json, "h")).Ok?
      && AsDecimal(Subscript(json, "l")).Ok? && AsDecimal(Subscript(json, "c")).Ok?
      && AsDecimal(Subscript(json, "v")).Ok?
    ensures r.Ok? ==>
      && r.value.pair == pair && r.value.json == json
      && AsInt(Subscript(json, "t")) == Ok(r.value.datetime.ms)
      && AsDecimal(Subscript(json, "o")) == Ok(r.value.open)
      && AsDecimal(Subscript(json, "h")) == Ok(r.value.high)
      && AsDecimal(Subscript(json, "l")) == Ok(r.value.low)
      && AsDecimal(Subscript(json, "c")) == Ok(r.value.close)
      && AsDecimal(Subscript(json, "v")) == Ok(r.value.volume)
  {
    var t :- Subscript(json, "t");
    var openTime :- ToInt(t);
    var o :- Subscript(json, "o");
    var open :- ToDecimal(o);
    var h :- Subscript(json, "h");
    var high :- ToDecimal(h);
    var l :- Subscript(json, "l");
    var low :- ToDecimal(l);
    var c :- Subscript(json, "c");
    var close :- ToDecimal(c);
    var v :- Subscript(json, "v");
    var volume :- ToDecimal(v);
    Ok(Bar(FromTimestamp(openTime), pair, open, high, low, close, volume, json))
  }

  /** `FuturesBar(pair, json)`: built from the kline payload exactly as `Bar` is. */
  function NewFuturesBar(pair: Pair, json: Json): (r: Result<Bar, Error>)
    ensures r == NewBar(pair, json)
  {
    var t :- Subscript(json, "t");
    var openTime :- ToInt(t);
    var o :- Subscript(json, "o");
    var open :- ToDecimal(o);
    var h :- Subscript(json, "h");
    var high :- ToDecimal(h);
    var l :- Subscript(json, "l");
    var low :- ToDecimal(l);
    var c :- Subscript(json, "c");
    var close :- ToDecimal(c);
    var v :- Subscript(json, "v");
    var volume :- ToDecimal(v);
    Ok(Bar(FromTimestamp(openTime), pair, open, high, low, close, volume, json))
  }

  /**
   * What the spot candlestick source does with one message: nothing when
   * `k.x` is `False`, otherwise a `BarEvent` stamped with `E` around the bar
   * built from `k`.
   */
  function DecodeKlineMessage(pair: Pair, message: Json): (r: Result<Option<Event>, Error>)
    ensures r == Ok(None) <==> KlineField(message, "x") == Ok(JBool(false))
    ensures r.Err? <==>
      || KlineField(message, "x").Err?
      || (&& KlineField(message, "x") != Ok(JBool(false))
          && (|| AsInt(DataField(message, "E")).Err?
              || NewBar(pair, DataField(message, "k").value).Err?))
    ensures r.Ok? && r.value.Some? ==>
      var event := r.value.value;
      && event.BarEvent?
      && AsInt(DataField(message, "E")) == Ok(event.when.ms)
      && DataField(message, "k") == Ok(event.bar.json)
      && NewBar(pair, event.bar.json) == Ok(event.bar)
  {
    var klineEvent :- Subscript(message, "data");
    var kline :- Subscript(klineEvent, "k");
    var closed :- Subscript(kline, "x");
    if closed == JBool(false) then Ok(None)
    else
      var e :- Subscript(klineEvent, "E");
      var eventTime :- ToInt(e);
      var bar :- NewBar(pair, kline);
      Ok(Some(BarEvent(FromTimestamp(eventTime), bar)))
  }

  /** What the futures candlestick source does with one message; it builds a `FuturesBar`. */
  function DecodeFuturesKlineMessage(pair: Pair, message: Json): (r: Result<Option<Event>, Error>)
    ensures r == DecodeKlineMessage(pair, message)
  {
    var klineEvent :- Subscript(message, "data");
    var kline :- Subscript(klineEvent, "k");
    var closed :- Subscript(kline, "x");
    if closed == JBool(false) then Ok(None)
    else
      var e :- Subscript(klineEvent, "E");
      var eventTime :- ToInt(e);
      var bar :- NewFuturesBar(pair, kline);
      Ok(Some(BarEvent(FromTimestamp(eventTime), bar)))
  }

  /** The events a candlestick decode hands to the producer: none or one. */
  function Emitted(decoded: Result<Option<Event>, Error>): (r: seq<Event>)
    ensures |r| <= 1
    ensures |r| == 1 <==> decoded.Ok? && decoded.value.Some?
    ensures |r| == 1 ==> r[0] == decoded.value.value
  {
    if decoded.Ok? && decoded.value.Some? then [decoded.value.value] else []
  }

  // ---------------------------------------------------------------------
  // Trades
  // ---------------------------------------------------------------------

  /** `FuturesTrade(pair, json)`: succeeds only for a payload whose `e` is `"trade"`. */
  function NewFuturesTrade(pair: Pair, json: Json): (r: Result<FuturesTrade, Error>)
    ensures r.Ok? <==> Subscript(json, "e") == Ok(JStr("trade"))
    ensures r.Ok? ==> r.value.pair == pair && json == JObject(r.value.json)
    ensures Subscript(json, "e").Ok? && r.Err? ==> r.error == AssertionError("")
  {
    var kind :- Subscript(json, "e");
    if kind == JStr("trade") then Ok(FuturesTrade(pair, json.fields))
    else Err(AssertionError(""))
  }

  /** `trade.id`: `str` of field `t`; an integer id is its canonical decimal text, which reads back as the id. */
  function Id(trade: FuturesTrade): (r: Result<string, Error>)
    ensures "t" !in trade.json ==> r == Err(KeyError(JStr("t")))
    ensures "t" in trade.json && trade.json["t"].JInt? ==> r == Ok(IntToString(trade.json["t"].i))
    ensures "t" in trade.json && trade.json["t"].JInt? ==> r.Ok? && ParseInt(r.value) == Ok(trade.json["t"].i)
    ensures "t" in trade.json && trade.json["t"].JStr? ==> r == Ok(trade.json["t"].s)
  {
    var v :- Subscript(JObject(trade.json), "t");
    ToStr(v)
  }

  /** `trade.datetime`: the conversion of the trade time `T` (not the event time `E`). */
  function Datetime(trade: FuturesTrade): (r: Result<DateTime, Error>)
    ensures r.Ok? <==> "T" in trade.json && ToInt(trade.json["T"]).Ok?
    ensures r.Ok? ==> ToInt(trade.json["T"]) == Ok(r.value.ms)
  {
    var v :- Subscript(JObject(trade.json), "T");
    var ms :- ToInt(v);
    Ok(FromTimestamp(ms))
  }

  /** `trade.price`: the decimal parse of `p`. */
  function Price(trade: FuturesTrade): (r: Result<Decimal, Error>)
    ensures r.Ok? <==> "p" in trade.json && ToDecimal(trade.json["p"]).Ok?
    ensures r.Ok? ==> ToDecimal(trade.json["p"]) == r
  {
    var v :- Subscript(JObject(trade.json), "p");
    ToDecimal(v)
  }

  /** `trade.amount`: the decimal parse of `q`. */
  function Amount(trade: FuturesTrade): (r: Result<Decimal, Error>)
    ensures r.Ok? <==> "q" in trade.json && ToDecimal(trade.json["q"]).Ok?
    ensures r.Ok? ==> ToDecimal(trade.json["q"]) == r
  {
    var v :- Subscript(JObject(trade.json), "q");
    ToDecimal(v)
  }

  /** `trade.buy_order_id`: `str` of field `b`. */
  function BuyOrderId(trade: FuturesTrade): (r: Result<string, Error>)
    ensures "b" !in trade.json ==> r == Err(KeyError(JStr("b")))
    ensures "b" in trade.json && trade.json["b"].JInt? ==> r == Ok(IntToString(trade.json["b"].i))
    ensures "b" in trade.json && trade.json["b"].JInt? ==> r.Ok? && ParseInt(r.value) == Ok(trade.json["b"].i)
    ensures "b" in trade.json && trade.json["b"].JStr? ==> r == Ok(trade.json["b"].s)
  {
    var v :- Subscript(JObject(trade.json), "b");
    ToStr(v)
  }

  /** `trade.sell_order_id`: `str` of field `a`. */
  function SellOrderId(trade: FuturesTrade): (r: Result<string, Error>)
    ensures "a" !in trade.json ==> r == Err(KeyError(JStr("a")))
    ensures "a" in trade.json && trade.json["a"].JInt? ==> r == Ok(IntToString(trade.json["a"].i))
    ensures "a" in trade.json && trade.json["a"].JInt? ==> r.Ok? && ParseInt(r.value) == Ok(trade.json["a"].i)
    ensures "a" in trade.json && trade.json["a"].JStr? ==> r == Ok(trade.json["a"].s)
  {
    var v :- Subscript(JObject(trade.json), "a");
    ToStr(v)
  }

  /**
   * What the trade source does with one message: always one
   * `FuturesTradeEvent` stamped with `E`, unless a field it reads is missing
   * or the payload is not of kind `"trade"`.
   */
  function DecodeTradeMessage(pair: Pair, message: Json): (r: Result<Event, Error>)
    ensures r.Ok? <==> AsInt(DataField(message, "E")).Ok? && DataField(message, "e") == Ok(JStr("trade"))
    ensures r.Ok? ==>
      && r.value.FuturesTradeEvent?
      && AsInt(DataField(message, "E")) == Ok(r.value.when.ms)
      && r.value.trade.pair == pair
      && Subscript(message, "data") == Ok(JObject(r.value.trade.json))
  {
    var tradeEvent :- Subscript(message, "data");
    var e :- Subscript(tradeEvent, "E");
    var eventTime :- ToInt(e);
    var trade :- NewFuturesTrade(pair, tradeEvent);
    Ok(FuturesTradeEvent(FromTimestamp(eventTime), trade))
  }

  // ---------------------------------------------------------------------
  // Order book
  // ---------------------------------------------------------------------

  /**
   * `Entry(price=Decimal(entry[0]), volume=Decimal(entry[1]))`: the price is read
   * and converted before the volume is looked at, so its error comes first.
   */
  function ParseEntry(entry: Json): (r: Result<Entry, Error>)
    ensures r.Ok? <==>
      && Index(entry, 0).Ok? && ToDecimal(Index(entry, 0).value).Ok?
      && Index(entry, 1).Ok? && ToDecimal(Index(entry, 1).value).Ok?
    ensures r.Ok? ==>
      && Ok(r.value.price) == ToDecimal(Index(entry, 0).value)
      && Ok(r.value.volume) == ToDecimal(Index(entry, 1).value)
    ensures Index(entry, 0).Err? ==> r == Err(Index(entry, 0).error)
  {
    var p :- Index(entry, 0);
    var price :- ToDecimal(p);
    var v :- Index(entry, 1);
    var volume :- ToDecimal(v);
    Ok(Entry(price, volume))
  }

  /** The list comprehension over a side of the book: same length and order as the wire list. */
  function ParseEntries(entries: seq<Json>): (r: Result<seq<Entry>, Error>)
    ensures r.Ok? <==> forall k :: 0 <= k < |entries| ==> ParseEntry(entries[k]).Ok?
    ensures r.Ok? ==> |r.value| == |entries|
    ensures r.Ok? ==> forall k :: 0 <= k < |entries| ==> ParseEntry(entries[k]) == Ok(r.value[k])
  {
    if |entries| == 0 then Ok([])
    else
      var first :- ParseEntry(entries[0]);
      var rest :- ParseEntries(entries[1..]);
      Ok([first] + rest)
  }

  /**
   * `r` is what reading `side` of an order-book payload gives: it succeeds
   * exactly when the side is present, iterable and every entry parses, and
   * then holds one entry per wire entry, in wire order.
   */
  predicate ReadsSide(json: Json, side: string, r: Result<seq<Entry>, Error>) {
    && (r.Ok? <==>
         && Subscript(json, side).Ok? && Iterate(Subscript(json, side).value).Ok?
         && forall k :: 0 <= k < |Iterate(Subscript(json, side).value).value| ==>
              ParseEntry(Iterate(Subscript(json, side).value).value[k]).Ok?)
    && (r.Ok? ==>
         && var entries := Iterate(Subscript(json, side).value).value;
         && |r.value| == |entries|
         && forall k :: 0 <= k < |entries| ==> ParseEntry(entries[k]) == Ok(r.value[k]))
  }

  function BookSide(json: Json, side: string): (r: Result<seq<Entry>, Error>)
    ensures ReadsSide(json, side, r)
  {
    var list :- Subscript(json, side);
    var entries :- Iterate(list);
    ParseEntries(entries)
  }

  /** `order_book.bids` */
  function Bids(orderBook: FuturesOrderBook): (r: Result<seq<Entry>, Error>)
    ensures ReadsSide(orderBook.json, "bids", r)
  {
    BookSide(orderBook.json, "bids")
  }

  /** `order_book.asks` */
  function Asks(orderBook: FuturesOrderBook): (r: Result<seq<Entry>, Error>)
    ensures ReadsSide(orderBook.json, "asks", r)
  {
    BookSide(orderBook.json, "asks")
  }

  /**
   * What the order-book source does with one message: always one event,
   * stamped with the supplied clock reading `now`, around the unparsed payload.
   */
  function DecodeOrderBookMessage(pair: Pair, message: Json, now: DateTime): (r: Result<Event, Error>)
    ensures r.Ok? <==> Subscript(message, "data").Ok?
    ensures r.Ok? ==>
      && r.value.FuturesOrderBookEvent? && r.value.when == now
      && r.value.orderBook.pair == pair
      && Subscript(message, "data") == Ok(r.value.orderBook.json)
  {
    var orderBookEvent :- Subscript(message, "data");
    Ok(FuturesOrderBookEvent(now, FuturesOrderBook(pair, orderBookEvent)))
  }

  // ---------------------------------------------------------------------
  // Event sources
  // ---------------------------------------------------------------------

  /** Generates `BarEvent`s from spot candlestick messages. */
  class WebSocketEventSource {
    const pair: Pair
    const producer: Producer

    constructor (pair: Pair, producer: Producer)
      ensures this.pair == pair && this.producer == producer
    {
      this.pair := pair;
      this.producer := producer;
    }

    method PushFromMessage(message: Json) returns (r: Result<(), Error>)
      modifies producer
      ensures r.Err? <==> DecodeKlineMessage(pair, message).Err?
      ensures r.Err? ==> r.error == DecodeKlineMessage(pair, message).error
      ensures producer.events == old(producer.events) + Emitted(DecodeKlineMessage(pair, message))
    {
      match DecodeKlineMessage(pair, message)
      case Err(e) => r := Err(e);
      case Ok(None) => r := Ok(());
      case Ok(Some(event)) =>
        producer.Push(event);
        r := Ok(());
    }
  }

  /** Generates `BarEvent`s from futures candlestick messages. */
  class FuturesWebSocketEventSource {
    const pair: Pair
    const producer: Producer

    constructor (pair: Pair, producer: Producer)
      ensures this.pair == pair && this.producer == producer
    {
      this.pair := pair;
      this.producer := producer;
    }

    method PushFromMessage(message: Json) returns (r: Result<(), Error>)
      modifies producer
      ensures r.Err? <==> DecodeFuturesKlineMessage(pair, message).Err?
      ensures r.Err? ==> r.error == DecodeFuturesKlineMessage(pair, message).error
      ensures producer.events == old(producer.events) + Emitted(DecodeFuturesKlineMessage(pair, message))
    {
      match DecodeFuturesKlineMessage(pair, message)
      case Err(e) => r := Err(e);
      case Ok(None) => r := Ok(());
      case Ok(Some(event)) =>
        producer.Push(event);
        r := Ok(());
    }
  }

  /** Generates `FuturesTradeEvent`s from futures trade messages. */
  class FuturesTradeWebSocketEventSource {
    const pair: Pair
    const producer: Producer

    constructor (pair: Pair, producer: Producer)
      ensures this.pair == pair && this.producer == producer
    {
      this.pair := pair;
      this.producer := producer;
    }

    method PushFromMessage(message: Json) returns (r: Result<(), Error>)
      modifies producer
      ensures r.Err? <==> DecodeTradeMessage(pair, message).Err?
      ensures r.Err? ==> r.error == DecodeTradeMessage(pair, message).error
      ensures r.Ok? ==> producer.events == old(producer.events) + [DecodeTradeMessage(pair, message).value]
      ensures r.Err? ==> producer.events == old(producer.events)
    {
      match DecodeTradeMessage(pair, message)
      case Err(e) => r := Err(e);
      case Ok(event) =>
        producer.Push(event);
        r := Ok(());
    }
  }

  /** Generates `FuturesOrderBookEvent`s from futures depth messages, stamped with the clock reading `now`. */
  class FuturesOrderBookWebSocketEventSource {
    const pair: Pair
    const producer: Producer

    constructor (pair: Pair, producer: Producer)
      ensures this.pair == pair && this.producer == producer
    {
      this.pair := pair;
      this.producer := producer;
    }

    method PushFromMessage(message: Json, now: DateTime) returns (r: Result<(), Error>)
      modifies producer
      ensures r.Err? <==> DecodeOrderBookMessage(pair, message, now).Err?
      ensures r.Err? ==> r.error == DecodeOrderBookMessage(pair, message, now).error
      ensures r.Ok? ==> producer.events == old(producer.events) + [DecodeOrderBookMessage(pair, message, now).value]
      ensures r.Err? ==> producer.events == old(producer.events)
    {
      match DecodeOrderBookMessage(pair, message, now)
      case Err(e) => r := Err(e);
      case Ok(event) =>
        producer.Push(event);
        r := Ok(());
    }
  }

  // ---------------------------------------------------------------------
  // Channel names
  // ---------------------------------------------------------------------

  /** `<symbol>@kline_<interval>`; the interval is not validated. */
  function GetChannel(symbolOf: Pair -> string, pair: Pair, interval: string): (r: string)
    ensures var n := |symbolOf(pair)|;
      && |r| == n + 7 + |interval|
      && r[..n] == Lower(symbolOf(pair)) && r[n..n + 7] == "@kline_" && r[n + 7..] == interval
  {
    Lower(symbolOf(pair)) + "@kline_" + interval
  }

  /** The futures kline channel has the same shape as the spot one. */
  function GetFuturesChannel(symbolOf: Pair -> string, pair: Pair, interval: string): (r: string)
    ensures r == GetChannel(symbolOf, pair, interval)
  {
    Lower(symbolOf(pair)) + "@kline_" + interval
  }

  /** `<symbol>@trade` */
  function GetFuturesTradeChannel(symbolOf: Pair -> string, pair: Pair): (r: string)
    ensures var n := |symbolOf(pair)|;
      && |r| == n + 6 && r[..n] == Lower(symbolOf(pair)) && r[n..] == "@trade"
  {
    Lower(symbolOf(pair)) + "@trade"
  }

  /** `<symbol>@depth<depth>`, for a depth on the allow-list 5, 10, 20 only. */
  function GetFuturesOrderBookChannel(symbolOf: Pair -> string, pair: Pair, depth: int): (r: Result<string, Error>)
    ensures r.Ok? <==> depth == 5 || depth == 10 || depth == 20
    ensures r.Err? ==> r.error == AssertionError("Invalid depth")
  {
    if depth in [5, 10, 20] then Ok(Lower(symbolOf(pair)) + "@depth" + IntToString(depth))
    else Err(AssertionError("Invalid depth"))
  }
}
