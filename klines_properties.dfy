/**
 * Properties of the Binance WebSocket adapters: the finalization rule, the
 * fields of the events built from well-formed wire messages, the agreement of
 * the spot and futures variants, and the shape of the channel names.
 */
module KlinesProperties {
  import opened Wrappers
  import opened Wire
  import opened Builtins
  import opened Domain
  import opened Klines

  // ---------------------------------------------------------------------
  // Well-formed wire messages, as the exchange sends them
  // ---------------------------------------------------------------------

  /** `{data: {E, k: {t, o, h, l, c, v, x}}}` */
  function KlineMessage(eventTime: int, openTime: int, o: string, h: string, l: string, c: string, v: string, closed: bool): Json
  {
    JObject(map["data" := JObject(map[
      "e" := JStr("kline"),
      "E" := JInt(eventTime),
      "k" := KlinePayload(openTime, o, h, l, c, v, closed)])])
  }

  function KlinePayload(openTime: int, o: string, h: string, l: string, c: string, v: string, closed: bool): Json
  {
    JObject(map[
      "t" := JInt(openTime),
      "o" := JStr(o), "h" := JStr(h), "l" := JStr(l), "c" := JStr(c), "v" := JStr(v),
      "x" := JBool(closed)])
  }

  /** `{data: {e: kind, E, T, t, p, q, b, a}}` */
  function TradeMessage(kind: string, eventTime: int, tradeTime: int, id: int, p: string, q: string, buyer: int, seller: int): Json
  {
    JObject(map["data" := JObject(map[
      "e" := JStr(kind),
      "E" := JInt(eventTime),
      "T" := JInt(tradeTime),
      "t" := JInt(id),
      "p" := JStr(p),
      "q" := JStr(q),
      "b" := JInt(buyer),
      "a" := JInt(seller)])])
  }

  /** `[[price, volume], ...]` */
  function Levels(levels: seq<(string, string)>): (r: seq<Json>)
    ensures |r| == |levels|
  {
    seq(|levels|, k requires 0 <= k < |levels| => JArray([JStr(levels[k].0), JStr(levels[k].1)]))
  }

  /** `{data: {bids: [...], asks: [...]}}` */
  function OrderBookMessage(bids: seq<(string, string)>, asks: seq<(string, string)>): Json
  {
    JObject(map["data" := JObject(map["bids" := JArray(Levels(bids)), "asks" := JArray(Levels(asks))])])
  }

  /** The entries a side of the book should decode to: each level's price and volume parsed, in wire order. */
  function ExpectedEntries(levels: seq<(string, string)>): (r: seq<Entry>)
    ensures |r| == |levels|
  {
    seq(|levels|, k requires 0 <= k < |levels| => Entry(DecimalOf(levels[k].0), DecimalOf(levels[k].1)))
  }

  // ---------------------------------------------------------------------
  // Candlesticks
  // ---------------------------------------------------------------------

  /**
   * An open candle (`x` false) decodes to nothing; a closed one to exactly one
   * `BarEvent` whose time is `E`, whose bar time is `t`, and whose prices and
   * volume are the parses of `o`, `h`, `l`, `c`, `v`.
   */
  lemma KlineMessageDecodes(pair: Pair, eventTime: int, openTime: int, o: string, h: string, l: string, c: string, v: string, closed: bool)
    ensures var decoded := DecodeKlineMessage(pair, KlineMessage(eventTime, openTime, o, h, l, c, v, closed));
      decoded == Ok(if closed then
        Some(BarEvent(FromTimestamp(eventTime),
          Bar(FromTimestamp(openTime), pair, DecimalOf(o), DecimalOf(h), DecimalOf(l), DecimalOf(c), DecimalOf(v),
              KlinePayload(openTime, o, h, l, c, v, closed))))
        else None)
  {
  }

  /** For any message whose `k.x` is `False`, the spot and futures candlestick sources push nothing. */
  lemma OpenKlinePushesNothing(pair: Pair, message: Json)
    requires KlineField(message, "x") == Ok(JBool(false))
    ensures Emitted(DecodeKlineMessage(pair, message)) == []
    ensures Emitted(DecodeFuturesKlineMessage(pair, message)) == []
    ensures DecodeKlineMessage(pair, message).Ok?
    ensures DecodeFuturesKlineMessage(pair, message).Ok?
  {
  }

  /** A decoded candlestick event is stamped with `E` and carries a bar read from `k`: time from `t`, OHLCV from `o h l c v`. */
  lemma ClosedKlineFields(pair: Pair, message: Json)
    requires DecodeKlineMessage(pair, message).Ok? && DecodeKlineMessage(pair, message).value.Some?
    ensures var event := DecodeKlineMessage(pair, message).value.value;
      && event.BarEvent?
      && AsInt(DataField(message, "E")) == Ok(event.when.ms)
      && AsInt(KlineField(message, "t")) == Ok(event.bar.datetime.ms)
      && AsDecimal(KlineField(message, "o")) == Ok(event.bar.open)
      && AsDecimal(KlineField(message, "h")) == Ok(event.bar.high)
      && AsDecimal(KlineField(message, "l")) == Ok(event.bar.low)
      && AsDecimal(KlineField(message, "c")) == Ok(event.bar.close)
      && AsDecimal(KlineField(message, "v")) == Ok(event.bar.volume)
      && event.bar.pair == pair
  {
    var event := DecodeKlineMessage(pair, message).value.value;
    var kline := DataField(message, "k").value;
    assert forall key :: KlineField(message, key) == Subscript(kline, key);
  }

  /** The spot and futures candlestick sources decode every message alike, and their channel names agree. */
  lemma SpotAndFuturesKlinesAgree(symbolOf: Pair -> string, pair: Pair, message: Json, interval: string)
    ensures DecodeFuturesKlineMessage(pair, message) == DecodeKlineMessage(pair, message)
    ensures GetFuturesChannel(symbolOf, pair, interval) == GetChannel(symbolOf, pair, interval)
  {
  }

  // ---------------------------------------------------------------------
  // Trades
  // ---------------------------------------------------------------------

  /**
   * A trade message of kind `"trade"` decodes to one event stamped with `E`;
   * the trade's datetime is `T`, its price and amount are the parses of `p`
   * and `q`, and its ids are the decimal forms of `t`, `b` and `a`.
   */
  lemma {:induction false} TradeMessageDecodes(pair: Pair, eventTime: int, tradeTime: int, id: int, p: string, q: string, buyer: int, seller: int)
    ensures var decoded := DecodeTradeMessage(pair, TradeMessage("trade", eventTime, tradeTime, id, p, q, buyer, seller));
      && decoded.Ok? && decoded.value.FuturesTradeEvent?
      && decoded.value.when == FromTimestamp(eventTime)
      && var trade := decoded.value.trade;
      && trade.pair == pair
      && Datetime(trade) == Ok(FromTimestamp(tradeTime))
      && Price(trade) == Ok(DecimalOf(p))
      && Amount(trade) == Ok(DecimalOf(q))
      && Id(trade) == Ok(IntToString(id)) && ParseInt(Id(trade).value) == Ok(id)
      && BuyOrderId(trade) == Ok(IntToString(buyer)) && ParseInt(BuyOrderId(trade).value) == Ok(buyer)
      && SellOrderId(trade) == Ok(IntToString(seller)) && ParseInt(SellOrderId(trade).value) == Ok(seller)
  {
    var message := TradeMessage("trade", eventTime, tradeTime, id, p, q, buyer, seller);
    var payload := message.fields["data"];
    assert Subscript(message, "data") == Ok(payload);
    assert DataField(message, "e") == Ok(JStr("trade"));
    assert AsInt(DataField(message, "E")) == Ok(eventTime);
    var trade := DecodeTradeMessage(pair, message).value.trade;
    assert trade.json == payload.fields;
    assert trade.json["T"] == JInt(tradeTime);
    assert trade.json["p"] == JStr(p) && trade.json["q"] == JStr(q);
    assert trade.json["t"] == JInt(id) && trade.json["b"] == JInt(buyer) && trade.json["a"] == JInt(seller);
    ParseIntOfIntToString(id);
    ParseIntOfIntToString(buyer);
    ParseIntOfIntToString(seller);
  }

  /** A trade message of any other kind fails the `e == "trade"` assertion, so nothing is pushed for it. */
  lemma TradeMessageOfOtherKindRejected(pair: Pair, kind: string, eventTime: int, tradeTime: int, id: int, p: string, q: string, buyer: int, seller: int)
    requires kind != "trade"
    ensures DecodeTradeMessage(pair, TradeMessage(kind, eventTime, tradeTime, id, p, q, buyer, seller)) == Err(AssertionError(""))
  {
  }

  /** A payload whose `e` is present but is not `"trade"` is rejected, so the trade source pushes nothing for it. */
  lemma NonTradeKindRejected(pair: Pair, message: Json)
    requires DataField(message, "e").Ok? && DataField(message, "e") != Ok(JStr("trade"))
    ensures DecodeTradeMessage(pair, message).Err?
  {
  }

  // ---------------------------------------------------------------------
  // Order book
  // ---------------------------------------------------------------------

  /**
   * An order-book message decodes to one event stamped with the supplied
   * clock reading, whose bids and asks are the parsed wire levels in wire
   * order and of the same length.
   */
  lemma {:induction false} OrderBookMessageDecodes(pair: Pair, now: DateTime, bids: seq<(string, string)>, asks: seq<(string, string)>)
    ensures var decoded := DecodeOrderBookMessage(pair, OrderBookMessage(bids, asks), now);
      && decoded.Ok? && decoded.value.FuturesOrderBookEvent?
      && decoded.value.when == now
      && decoded.value.orderBook.pair == pair
      && Bids(decoded.value.orderBook) == Ok(ExpectedEntries(bids))
      && Asks(decoded.value.orderBook) == Ok(ExpectedEntries(asks))
  {
    var decoded := DecodeOrderBookMessage(pair, OrderBookMessage(bids, asks), now);
    var orderBook := decoded.value.orderBook;
    LevelsParse(bids);
    LevelsParse(asks);
    assert Subscript(orderBook.json, "bids") == Ok(JArray(Levels(bids)));
    assert Subscript(orderBook.json, "asks") == Ok(JArray(Levels(asks)));
  }

  lemma {:induction false} LevelsParse(levels: seq<(string, string)>)
    ensures ParseEntries(Levels(levels)) == Ok(ExpectedEntries(levels))
  {
    var entries := Levels(levels);
    forall k | 0 <= k < |entries|
      ensures ParseEntry(entries[k]) == Ok(ExpectedEntries(levels)[k])
    {
      assert entries[k] == JArray([JStr(levels[k].0), JStr(levels[k].1)]);
    }
    var r := ParseEntries(entries);
    assert r.Ok?;
    assert r.value == ExpectedEntries(levels);
  }

  // ---------------------------------------------------------------------
  // Channel names
  // ---------------------------------------------------------------------

  /** The kind of stream a channel name subscribes to. */
  datatype Stream = KlineStream(interval: string) | TradeStream | DepthStream(depth: int)

  function FirstIndexOf(s: string, c: char): (r: Option<nat>)
    ensures r.Some? ==> r.value < |s| && s[r.value] == c && c !in s[..r.value]
    ensures r.None? ==> c !in s
  {
    if |s| == 0 then None
    else if s[0] == c then Some(0)
    else match FirstIndexOf(s[1..], c)
      case None => None
      case Some(k) => Some(k + 1)
  }

  /** How the builders spell a stream after the `@`. */
  function StreamName(stream: Stream): string
  {
    match stream
    case KlineStream(interval) => "kline_" + interval
    case TradeStream => "trade"
    case DepthStream(depth) => "depth" + IntToString(depth)
  }

  /**
   * The stream part of a channel name: `kline_<interval>`, `trade` or
   * `depth<n>` with `n` in its canonical decimal form (no sign, padding or
   * leading zero). Whatever it reads is spelled back exactly.
   */
  function ParseStream(rest: string): (r: Option<Stream>)
    ensures r.Some? ==> rest == StreamName(r.value)
  {
    if |rest| >= 6 && rest[..6] == "kline_" then
      assert rest == "kline_" + rest[6..];
      Some(KlineStream(rest[6..]))
    else if rest == "trade" then Some(TradeStream)
    else if |rest| >= 5 && rest[..5] == "depth" then
      match ParseInt(rest[5..])
      case Ok(n) =>
        if rest[5..] == IntToString(n) then
          assert rest == "depth" + rest[5..];
          Some(DepthStream(n))
        else None
      case Err(_) => None
    else None
  }

  /** A reference reading of a Binance stream name: the symbol before the first `@`, then the stream. */
  function ParseChannel(channel: string): Option<(string, Stream)>
  {
    match FirstIndexOf(channel, '@')
    case None => None
    case Some(at) =>
      match ParseStream(channel[at + 1..])
      case None => None
      case Some(stream) => Some((channel[..at], stream))
  }

  predicate IsLowercase(s: string) {
    forall k :: 0 <= k < |s| ==> !IsUpper(s[k])
  }

  /** Splitting `symbol + "@" + rest` at its first `@` gives back `symbol` when the symbol has none. */
  lemma SplitAtSymbol(symbol: string, rest: string)
    requires '@' !in symbol
    ensures FirstIndexOf(symbol + "@" + rest, '@') == Some(|symbol|)
    ensures (symbol + "@" + rest)[..|symbol|] == symbol
    ensures (symbol + "@" + rest)[|symbol| + 1..] == rest
    ensures ParseChannel(symbol + "@" + rest) ==
      if ParseStream(rest).Some? then Some((symbol, ParseStream(rest).value)) else None
  {
    var channel := symbol + "@" + rest;
    assert channel[..|symbol|] == symbol;
    assert channel[|symbol|] == '@';
  }

  lemma LowerKeepsAtSignOut(s: string)
    requires '@' !in s
    ensures '@' !in Lower(s)
    ensures IsLowercase(Lower(s))
  {
  }

  /** `symbol@depth<n>` reads back as a depth stream of `n`, for every int `n`. */
  lemma DepthChannelParses(symbol: string, depth: int)
    requires '@' !in symbol
    ensures ParseChannel(symbol + "@" + ("depth" + IntToString(depth))) == Some((symbol, DepthStream(depth)))
  {
    SplitAtSymbol(symbol, "depth" + IntToString(depth));
    DepthStreamParses(depth);
  }

  /** `depth<n>` reads back as a depth stream of `n`, for every int `n`. */
  lemma DepthStreamParses(depth: int)
    ensures ParseStream("depth" + IntToString(depth)) == Some(DepthStream(depth))
  {
    var rest := "depth" + IntToString(depth);
    assert rest[0] == 'd';
    assert !(|rest| >= 6 && rest[..6] == "kline_");
    assert rest != "trade";
    assert |rest| >= 5 && rest[..5] == "depth" && rest[5..] == IntToString(depth);
    ParseIntOfIntToString(depth);
  }

  /** The kline channel is the lower-cased symbol, `@kline_`, and the interval exactly as given. */
  lemma KlineChannelShape(symbolOf: Pair -> string, pair: Pair, interval: string)
    requires '@' !in symbolOf(pair)
    ensures ParseChannel(GetChannel(symbolOf, pair, interval)) == Some((Lower(symbolOf(pair)), KlineStream(interval)))
    ensures IsLowercase(Lower(symbolOf(pair)))
  {
    var symbol := Lower(symbolOf(pair));
    LowerKeepsAtSignOut(symbolOf(pair));
    var rest := "kline_" + interval;
    assert GetChannel(symbolOf, pair, interval) == symbol + "@" + rest;
    SplitAtSymbol(symbol, rest);
    assert rest[..6] == "kline_" && rest[6..] == interval;
  }

  /** The trade channel is the lower-cased symbol followed by `@trade`. */
  lemma TradeChannelShape(symbolOf: Pair -> string, pair: Pair)
    requires '@' !in symbolOf(pair)
    ensures ParseChannel(GetFuturesTradeChannel(symbolOf, pair)) == Some((Lower(symbolOf(pair)), TradeStream))
    ensures IsLowercase(Lower(symbolOf(pair)))
  {
    var symbol := Lower(symbolOf(pair));
    LowerKeepsAtSignOut(symbolOf(pair));
    assert GetFuturesTradeChannel(symbolOf, pair) == symbol + "@" + "trade";
    SplitAtSymbol(symbol, "trade");
  }

  /** The depth channel exists only for depths 5, 10 and 20, and is then the lower-cased symbol, `@depth` and the depth. */
  lemma OrderBookChannelShape(symbolOf: Pair -> string, pair: Pair, depth: int)
    requires '@' !in symbolOf(pair)
    ensures GetFuturesOrderBookChannel(symbolOf, pair, depth).Ok? <==> depth in {5, 10, 20}
    ensures GetFuturesOrderBookChannel(symbolOf, pair, depth).Ok? ==>
      ParseChannel(GetFuturesOrderBookChannel(symbolOf, pair, depth).value) == Some((Lower(symbolOf(pair)), DepthStream(depth)))
  {
    var r := GetFuturesOrderBookChannel(symbolOf, pair, depth);
    if r.Ok? {
      var symbol := Lower(symbolOf(pair));
      LowerKeepsAtSignOut(symbolOf(pair));
      assert r.value == symbol + "@" + ("depth" + IntToString(depth));
      DepthChannelParses(symbol, depth);
    }
  }

  /**
   * The read-back is one-to-one: a name that parses is exactly the symbol, `@`
   * and the canonical spelling of its stream, so `@depth05` or `@depth+5` is
   * no depth channel.
   */
  lemma ParseChannelInverse(channel: string)
    ensures ParseChannel(channel).Some? ==>
      channel == ParseChannel(channel).value.0 + "@" + StreamName(ParseChannel(channel).value.1)
  {
    var found := FirstIndexOf(channel, '@');
    if found.Some? {
      var at := found.value;
      var stream := ParseStream(channel[at + 1..]);
      if stream.Some? {
        assert ParseChannel(channel) == Some((channel[..at], stream.value));
        assert channel[at + 1..] == StreamName(stream.value);
        RejoinAt(channel, at);
      }
    }
  }

  lemma RejoinAt(channel: string, at: nat)
    requires at < |channel| && channel[at] == '@'
    ensures channel == channel[..at] + "@" + channel[at + 1..]
  {
    assert channel == channel[..at] + [channel[at]] + channel[at + 1..];
  }

  /** A depth written with a leading zero or a plus sign is no channel, although `int()` reads it. */
  lemma NonCanonicalDepthRejected(symbol: string, t: string)
    requires '@' !in symbol
    requires (|t| > 1 && t[0] == '0') || (|t| > 0 && t[0] == '+')
    ensures ParseChannel(symbol + "@" + ("depth" + t)) == None
  {
    var rest := "depth" + t;
    SplitAtSymbol(symbol, rest);
    assert rest[0] == 'd';
    assert !(|rest| >= 6 && rest[..6] == "kline_");
    assert rest != "trade";
    assert |rest| >= 5 && rest[..5] == "depth" && rest[5..] == t;
    if ParseInt(t).Ok? {
      assert IntToString(ParseInt(t).value) != t;
    }
  }

  /** The three depth channels, spelled out. */
  lemma DepthChannelNames(symbolOf: Pair -> string, pair: Pair)
    ensures GetFuturesOrderBookChannel(symbolOf, pair, 5) == Ok(Lower(symbolOf(pair)) + "@depth5")
    ensures GetFuturesOrderBookChannel(symbolOf, pair, 10) == Ok(Lower(symbolOf(pair)) + "@depth10")
    ensures GetFuturesOrderBookChannel(symbolOf, pair, 20) == Ok(Lower(symbolOf(pair)) + "@depth20")
  {
    assert IntToString(5) == "5" by { assert DigitChar(5) == '5'; }
    assert IntToString(10) == "10" by {
      assert DigitChar(1) == '1' && DigitChar(0) == '0';
      assert NatToString(10) == NatToString(1) + [DigitChar(0)];
    }
    assert IntToString(20) == "20" by {
      assert DigitChar(2) == '2' && DigitChar(0) == '0';
      assert NatToString(20) == NatToString(2) + [DigitChar(0)];
    }
    var symbol := Lower(symbolOf(pair));
    assert symbol + "@depth" + "5" == symbol + "@depth5";
    assert symbol + "@depth" + "10" == symbol + "@depth10";
    assert symbol + "@depth" + "20" == symbol + "@depth20";
  }

  /**
   * Kline, trade and depth channels of one pair never collide, for every
   * symbol: past the lowered symbol and the `@` they start with `k`, `t` and
   * `d` respectively.
   */
  lemma ChannelKindsDistinct(symbolOf: Pair -> string, pair: Pair, interval: string, depth: int)
    ensures GetChannel(symbolOf, pair, interval) != GetFuturesTradeChannel(symbolOf, pair)
    ensures GetFuturesOrderBookChannel(symbolOf, pair, depth).Ok? ==>
      && GetFuturesOrderBookChannel(symbolOf, pair, depth).value != GetChannel(symbolOf, pair, interval)
      && GetFuturesOrderBookChannel(symbolOf, pair, depth).value != GetFuturesTradeChannel(symbolOf, pair)
  {
    var n := |symbolOf(pair)|;
    var kline, trade := GetChannel(symbolOf, pair, interval), GetFuturesTradeChannel(symbolOf, pair);
    assert kline[n + 1] == 'k';
    assert trade[n + 1] == 't';
    var r := GetFuturesOrderBookChannel(symbolOf, pair, depth);
    if r.Ok? {
      assert r.value[n + 1] == 'd';
    }
  }
}
