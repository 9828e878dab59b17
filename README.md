# Binance WebSocket event sources and futures REST requests, in Dafny

This project models two pieces of the Binance adapter of the basana trading framework.

1. **WebSocket message decoding** (`basana/external/binance/klines.py`). Each event source takes one
   streamed message `{data: ...}`, decodes it into a domain record and pushes zero or one event to
   the shared producer.
   - The spot and futures candlestick sources drop a message unless its kline is closed, i.e. unless
     `k.x` is anything other than `False`. A closed kline becomes a `Bar` built from
     `k.t/o/h/l/c/v`, wrapped in a `BarEvent` stamped with the message's event time `E`.
   - The trade source always emits. The trade payload must have kind `e == "trade"`.
   - The order-book source always emits, stamped with the caller's clock reading.
   - The channel-name builders produce `<symbol>@kline_<interval>`, `<symbol>@trade` and
     `<symbol>@depth<n>`. The depth builder accepts only n in {5, 10, 20}.
2. **Futures account requests** (`basana/external/binance/client/futures.py`). Each operation becomes
   the request it hands to the HTTP client: an HTTP method, a path, a parameter map and a
   credential (signed, or API key only). Query and cancel fail unless exactly one of `order_id`
   and `orig_client_order_id` is given.

Files and modules:

- `wrappers.dfy` (`Wrappers`): `Option` and `Result`.
- `wire.dfy` (`Wire`): decoded JSON values, Python's exceptions, and subscripting, indexing and
  iteration on JSON values.
- `builtins.dfy` (`Builtins`): Python's `int()`, `str()`, `Decimal()` and `str.lower()` on wire
  values.
- `domain.dfy` (`Domain`): `Pair`, `DateTime`, `Bar`, `Entry`, `FuturesTrade`, `FuturesOrderBook`,
  `Event`, and the `Producer` class whose `events` sequence `Push` appends to.
- `klines.dfy` (`Klines`) holds the decoders, the trade accessors, the bids/asks readers, the four
  event-source classes and the channel builders.
- `klines_properties.dfy` (`KlinesProperties`): well-formed wire messages, a reference parser for
  channel names, and lemmas relating the decoders and channel names to them.
- `futures.dfy` (`FuturesAccount`): the request builders.

Modelling choices:

- Python exceptions are `Err` values of `Wire.Error`: `KeyError`, `IndexError`, `TypeError`,
  `ValueError` and `AssertionError`. Each decoder evaluates fields in the source's left-to-right
  order, so the first failure is the one reported. An event-source method that fails pushes
  nothing.
- `helpers.timestamp_to_datetime(ms)` is the symbolic value `FromTimestamp(ms)`. `Decimal(text)` is
  the value `DecimalOf(text)`, kept as the text that produced it. Two different texts are therefore
  two different values, even where Python's decimals compare equal (`" 1"` and `"1"`). `helpers.pair_to_order_book_symbol` is the function parameter `symbolOf`. `dt.utc_now()` is
  the parameter `now`.
- `klines.py` uses `datetime`, `List`, `order_book` and `dt` without importing them (lines 104, 125,
  153, 166, 179). As written, this is a `NameError`. The model follows the evident intent: those
  modules are imported.
- `bar.Bar`, `event.Event` and `order_book.Entry` are not part of this model. Their constructors are
  taken to store their arguments, so `Bar`, `Event` and `Entry` are plain records.
- `base.set_optional_params` is not part of this model. It is assumed to set `params[key] = value`
  for each pair, in order, whose value is not `None`: `FuturesAccount.OptionalEntries`. Nothing more
  is claimed about it.
- Python rejects a call whose `**kwargs` repeats a named parameter of `create_order`. For that
  reason `CreateOrder` requires `kwargs` to avoid those names. As a result, `symbol`, `side`, `type`,
  `quantity` and `price` are never overridden. `timeInForce`, `stopPrice` and `newClientOrderId` can
  be overridden by a keyword argument.
- Error kinds follow the code, not the prose around it. Both the depth allow-list and the
  exactly-one-identifier rule are `assert` statements, so they raise `AssertionError`
  ("Invalid depth", "Either order_id or orig_client_order_id should be set"). They do not raise a
  dedicated invalid-argument error. The REST paths are the full `/fapi/v1/...` paths.
- `FuturesTrade` and `FuturesOrderBook` read their fields lazily. Only `e` (and `E` for the event
  time) is read when a trade message arrives. For an order-book message, only `data` is read. A
  missing `p`, `bids`, etc. surfaces when the accessor is called, not when the message is pushed, and
  the model keeps that split.

## Model

| member | source | states |
|---|---|---|
| `Klines.NewBar` | basana/external/binance/klines.py:28-35 | the bar's time is the conversion of `t`, open/high/low/close/volume are the decimal parses of `o h l c v`, the pair and payload are kept; it fails exactly when one of those conversions fails |
| `Klines.NewFuturesBar` | basana/external/binance/klines.py:60-67 | `FuturesBar` is built from a kline payload exactly as `Bar` is |
| `Klines.DecodeKlineMessage` | basana/external/binance/klines.py:44-53 | no event exactly when `data.k.x` is `False`; otherwise one `BarEvent` whose time is `int(data.E)` and whose bar is `Bar(pair, data.k)`; failure exactly when `data.k.x` is unreadable or, for a closed kline, `E` or a bar field fails |
| `Klines.DecodeFuturesKlineMessage` | basana/external/binance/klines.py:76-85 | the futures candlestick decode agrees with the spot one on every message |
| `Klines.WebSocketEventSource.constructor` | basana/external/binance/klines.py:40-42 | the source keeps its pair and its producer |
| `Klines.WebSocketEventSource.PushFromMessage` | basana/external/binance/klines.py:44-53 | the producer's events grow by exactly the decoded event, or stay unchanged when the kline is open or the message fails; a failure is reported with the decode's own error |
| `Klines.FuturesWebSocketEventSource.constructor` | basana/external/binance/klines.py:72-74 | the source keeps its pair and its producer |
| `Klines.FuturesWebSocketEventSource.PushFromMessage` | basana/external/binance/klines.py:76-85 | as the spot source, with the futures decode |
| `Klines.NewFuturesTrade` | basana/external/binance/klines.py:93-97 | succeeds exactly when the payload's `e` is `"trade"`, keeping pair and payload; a present `e` of another value is an `AssertionError` |
| `Klines.Id` | basana/external/binance/klines.py:99-101 | `str(t)`: a missing `t` is a `KeyError`, a string `t` is returned as is, and an integer `t` gives its canonical decimal text, which `int()` reads back as `t` |
| `Klines.Datetime` | basana/external/binance/klines.py:103-105 | the conversion of `int(T)`, failing exactly when `T` is missing or `int(T)` raises (a numeral string or a bool converts) |
| `Klines.Price` | basana/external/binance/klines.py:107-109 | the decimal parse of `p` |
| `Klines.Amount` | basana/external/binance/klines.py:111-113 | the decimal parse of `q` |
| `Klines.BuyOrderId` | basana/external/binance/klines.py:115-117 | `str(b)`, with the same cases as `Id` |
| `Klines.SellOrderId` | basana/external/binance/klines.py:119-121 | `str(a)`, with the same cases as `Id` |
| `Klines.DecodeTradeMessage` | basana/external/binance/klines.py:135-140 | succeeds exactly when `data.E` converts to an int and `data.e == "trade"`; the event's time is `int(data.E)` and its trade holds the pair and the whole payload |
| `Klines.FuturesTradeWebSocketEventSource.constructor` | basana/external/binance/klines.py:131-133 | the source keeps its pair and its producer |
| `Klines.FuturesTradeWebSocketEventSource.PushFromMessage` | basana/external/binance/klines.py:135-140 | exactly one event appended on success, nothing on failure, and the decode's error reported |
| `Klines.ParseEntry` | basana/external/binance/klines.py:155 | an entry parses exactly when `entry[0]` and `entry[1]` exist and convert to decimals, which become its price and volume; a missing `entry[0]` is reported first |
| `Klines.ParseEntries` | basana/external/binance/klines.py:154-156 | the entry list has the wire list's length and order, entry i being the parse of wire entry i; it fails exactly when some wire entry fails |
| `Klines.BookSide` | basana/external/binance/klines.py:152-162 | `bids`/`asks` read the named list of the payload and parse every entry as `(Decimal(e[0]), Decimal(e[1]))`, in order |
| `Klines.Bids` | basana/external/binance/klines.py:152-156 | `bids` succeeds exactly when the payload's `bids` list exists, is iterable and every entry parses; it then holds one entry per wire entry, in wire order |
| `Klines.Asks` | basana/external/binance/klines.py:158-162 | the same for the `asks` list |
| `Klines.DecodeOrderBookMessage` | basana/external/binance/klines.py:176-181 | succeeds exactly when `data` is present; the event is stamped with the supplied clock reading, not a wire field, and holds the pair and the unparsed payload |
| `Klines.FuturesOrderBookWebSocketEventSource.constructor` | basana/external/binance/klines.py:172-174 | the source keeps its pair and its producer |
| `Klines.FuturesOrderBookWebSocketEventSource.PushFromMessage` | basana/external/binance/klines.py:176-181 | exactly one event appended on success, nothing on failure, and the decode's error reported |
| `Klines.GetChannel` | basana/external/binance/klines.py:56-57 | the name is the lower-cased symbol, then `@kline_`, then the interval unchanged, and nothing else |
| `Klines.GetFuturesChannel` | basana/external/binance/klines.py:88-89 | the futures kline channel equals the spot kline channel for every pair and interval |
| `Klines.GetFuturesTradeChannel` | basana/external/binance/klines.py:143-144 | the name is the lower-cased symbol followed by `@trade`, and nothing else |
| `Klines.GetFuturesOrderBookChannel` | basana/external/binance/klines.py:184-186 | succeeds exactly for depth 5, 10 or 20, and otherwise fails with the assertion "Invalid depth" |
| `Wire.Subscript` | basana/external/binance/klines.py:45-46 | `d[key]` gives the entry exactly when `d` is a dict holding `key`; a dict without it raises KeyError naming the key, anything else TypeError |
| `Wire.Index` | basana/external/binance/klines.py:155 | `entry[i]` on a list gives item `i` when in range and IndexError otherwise; on a string gives the one-character string; on a dict raises KeyError for `i`; anything else TypeError |
| `Wire.Iterate` | basana/external/binance/klines.py:155 | `for entry in v` visits a list's items in order and a string's characters one by one; anything else that is not a dict raises TypeError |
| `Builtins.Lower` | basana/external/binance/klines.py:57 | `lower()` keeps the length and lowers each character |
| `Builtins.LowerIsLowercase` | basana/external/binance/klines.py:57 | a lowered symbol has no upper-case letter and is its own lowering |
| `Builtins.IntToString` | basana/external/binance/klines.py:101 | `str(i)` is canonical: a minus sign exactly for negative values, then only digits, with no leading zero |
| `Builtins.ParseInt` | basana/external/binance/klines.py:31 | `int(s)` succeeds exactly when the whitespace-stripped text is an optional sign and a digit run (single underscores between digits); it otherwise raises ValueError, and a negative result needs a minus sign; on success `str(int(s))` is the stripped text with `+`, underscores and leading zeros dropped and `-0` written `0`, so the value is pinned |
| `Builtins.CanonicalDigits` | basana/external/binance/klines.py:31 | the value of a digit run is spelled by `str()` as the run without underscores and leading zeros, and is zero exactly when that spelling is `0` |
| `Builtins.LeadingCharacter` | basana/external/binance/klines.py:31 | for every int `i`, `int()` of `str(i)` preceded by any character `int()` counts as whitespace gives `i`, and preceded by any of U+001C..U+001F raises ValueError |
| `Builtins.SeparatorsAreNotWhitespace` | basana/external/binance/klines.py:31 | `int()` rejects a numeral preceded by U+001C or U+001F, and strips a preceding no-break space or tab |
| `Builtins.ToInt` | basana/external/binance/klines.py:51 | `int(v)`: an int is returned unchanged, a bool gives 1 or 0, a string gives exactly what `int(s)` gives (so it converts exactly when it is a numeral, to the value `ParseInt` pins), and null, lists and dicts raise TypeError |
| `Builtins.ToStr` | basana/external/binance/klines.py:101 | `str(v)`: a string is returned unchanged, an int gives its canonical decimal text, which `int()` reads back as that int, bools give `True`/`False`, null gives `None`, and lists and dicts are not modelled |
| `Builtins.ToDecimal` | basana/external/binance/klines.py:109 | `Decimal(v)` succeeds exactly for strings, ints and bools; a string is kept as its text, an int becomes the decimal of its canonical text (which reads back as that int), a bool the decimal `1` or `0`, and other values raise TypeError (lists are not modelled) |
| `Builtins.ParseIntOfIntToString` | basana/external/binance/klines.py:101 | `int(str(i)) == i`: the decimal string of an integer id reads back as that id |
| `KlinesProperties.KlineMessageDecodes` | basana/external/binance/klines.py:44-53 | for a well-formed kline message: when `x` is false nothing is decoded; when it is true exactly one `BarEvent` is decoded, stamped `E`, with bar time `t` (not `E`) and OHLCV the parses of `o h l c v` |
| `KlinesProperties.OpenKlinePushesNothing` | basana/external/binance/klines.py:48-49 | for every message whose `k.x` is `False`, both candlestick decodes succeed and emit nothing |
| `KlinesProperties.ClosedKlineFields` | basana/external/binance/klines.py:29-34 | every decoded candlestick event is stamped with `int(data.E)` and its bar's time, open, high, low, close and volume are `int(k.t)` and the parses of `k.o`, `k.h`, `k.l`, `k.c`, `k.v`, with the source's pair |
| `KlinesProperties.SpotAndFuturesKlinesAgree` | basana/external/binance/klines.py:44-89 | the spot and futures candlestick sources decode every message identically and their channel builders agree on all inputs |
| `KlinesProperties.TradeMessageDecodes` | basana/external/binance/klines.py:99-140 | a well-formed trade message decodes to one event stamped `E`, whose trade datetime is `T`, price and amount the parses of `p` and `q`, and ids the decimal forms of `t`, `b`, `a` |
| `KlinesProperties.TradeMessageOfOtherKindRejected` | basana/external/binance/klines.py:94 | a trade message of any kind other than `"trade"` fails the assertion |
| `KlinesProperties.NonTradeKindRejected` | basana/external/binance/klines.py:135-140 | any message whose `data.e` is present and not `"trade"` fails, so nothing is pushed |
| `KlinesProperties.OrderBookMessageDecodes` | basana/external/binance/klines.py:153-181 | a depth message decodes to one event stamped with the clock reading, whose bids and asks are the parsed wire levels in wire order and of the same length |
| `KlinesProperties.LevelsParse` | basana/external/binance/klines.py:154-156 | a list of `[price, volume]` string pairs parses to the entries of those decimals, position by position |
| `KlinesProperties.KlineChannelShape` | basana/external/binance/klines.py:56-57 | for a pair whose symbol contains no `@`, the kline channel reads back as the lower-cased symbol and the interval exactly as given |
| `KlinesProperties.TradeChannelShape` | basana/external/binance/klines.py:143-144 | for a pair whose symbol contains no `@`, the trade channel reads back as the lower-cased symbol and the trade stream |
| `KlinesProperties.OrderBookChannelShape` | basana/external/binance/klines.py:184-186 | the depth channel exists exactly for depths 5, 10, 20; for a pair whose symbol contains no `@`, it reads back as the lower-cased symbol and that depth |
| `KlinesProperties.DepthChannelNames` | basana/external/binance/klines.py:184-186 | the three depth channels are exactly `<symbol>@depth5`, `<symbol>@depth10` and `<symbol>@depth20` |
| `KlinesProperties.ParseChannelInverse` | basana/external/binance/klines.py:56-186 | the read-back is one-to-one: every name it accepts is exactly the name the builders spell for what it reads, so a read-back pins the channel string |
| `KlinesProperties.NonCanonicalDepthRejected` | basana/external/binance/klines.py:186 | a depth written with a leading zero or a plus sign (`@depth05`, `@depth+5`) is no channel name, although `int()` accepts it |
| `KlinesProperties.ChannelKindsDistinct` | basana/external/binance/klines.py:56-186 | for every pair, the kline, trade and depth channels never coincide |
| `FuturesAccount.OptionalEntries` | basana/external/binance/client/futures.py:37-43 | under the stated assumption, every key given with a non-None value is written |
| `FuturesAccount.OptionalEntriesSpec` | basana/external/binance/client/futures.py:37-43 | under the stated assumption, a key is written exactly when some pair names it with a non-None value, and it holds the last such value |
| `FuturesAccount.OptionalEntriesOfTwo` | basana/external/binance/client/futures.py:56-59 | the entries of a two-pair list are the two pairs written in order, each only when given |
| `FuturesAccount.OptionalEntriesOfFive` | basana/external/binance/client/futures.py:37-43 | the entries of a five-pair list are the five pairs written in order, each only when given |
| `FuturesAccount.SetOptionalParams` | basana/external/binance/client/futures.py:37-43 | updating the map pair by pair yields the original map overridden by the written entries |
| `FuturesAccount.OrderFieldsWritten` | basana/external/binance/client/futures.py:37-43 | the optional order fields are written exactly when given, and no other key is written |
| `FuturesAccount.OrderData` | basana/external/binance/client/futures.py:32-44 | the order body always holds `symbol`, `side`, `type` and every keyword argument, and holds no key other than the eight order fields and the keyword arguments |
| `FuturesAccount.CreateOrder` | basana/external/binance/client/futures.py:27-45 | a signed POST to `/fapi/v1/order` whose body is the required fields, overridden by the given optional fields, overridden by `kwargs` |
| `FuturesAccount.OrderDataRequiredFields` | basana/external/binance/client/futures.py:32-36 | `symbol`, `side` and `type` are always sent with the given values |
| `FuturesAccount.OrderDataOptionalFields` | basana/external/binance/client/futures.py:37-44 | each optional field is sent exactly when given, unless a keyword argument of that name overrides it |
| `FuturesAccount.OrderDataKeywordArguments` | basana/external/binance/client/futures.py:44 | every keyword argument is sent with its value, overriding earlier keys, and nothing beyond the order fields and the keyword arguments is sent |
| `FuturesAccount.QueryOrder` | basana/external/binance/client/futures.py:47-60 | fails with the assertion exactly when both or neither identifier is given; otherwise a signed GET on `/fapi/v1/order` whose query keys are exactly `symbol` and the given identifier, with their values |
| `FuturesAccount.GetOpenOrders` | basana/external/binance/client/futures.py:62-68 | a signed GET on `/fapi/v1/openOrders` whose query is empty without a symbol and exactly `{symbol}` with one |
| `FuturesAccount.CancelOrder` | basana/external/binance/client/futures.py:70-83 | as `QueryOrder`, with DELETE |
| `FuturesAccount.GetTrades` | basana/external/binance/client/futures.py:85-91 | a signed GET on `/fapi/v1/userTrades` whose query always holds `symbol` and holds `orderId` exactly when given |
| `FuturesAccount.CreateListenKey` | basana/external/binance/client/futures.py:93-94 | a POST on `/fapi/v1/listenKey` with the API key and no parameters |
| `FuturesAccount.KeepAliveListenKey` | basana/external/binance/client/futures.py:96-100 | a PUT on `/fapi/v1/listenKey` with the API key and the body exactly `{listenKey}` |

## Left out

- The producer and `core_ws.ChannelEventSource`: delivery, queueing and scheduling are not part of this model. `Domain.Producer.Push` only appends to a sequence.
- The `async`/`await` structure: each handler runs to completion without suspending, so it is a sequential method.
- `helpers.timestamp_to_datetime`, `helpers.pair_to_order_book_symbol` and `Decimal` arithmetic are not part of this model. They are uninterpreted, as described above.
- `Decimal(text)` is total in the model. A string Python's `Decimal` rejects (`InvalidOperation`) is not distinguished. The tuple/list form of `Decimal` is reported as `NotModelled`. Equality between spellings is not modelled either: `DecimalOf(" 1")` and `DecimalOf("1")` are different values, although Python's decimals compare equal.
- JSON numbers with a fraction or exponent (Python floats) are not represented.
- Iterating a dict in place of a bids/asks list (Python yields its keys in insertion order) is reported as `NotModelled`. So is `str()` of a list or dict field (Python yields its repr).
- `Builtins.ParseInt`: accepts only ASCII digits. Python's `int()` also accepts other Unicode decimal digits. For whitespace, `int()` strips ASCII `\t\n\v\f\r` and space, plus the non-ASCII characters `str.isspace()` recognises. The model strips exactly that set. U+001C..U+001F are not stripped, although `str.isspace()` is true for them.
- `Builtins.ParseInt` and `Builtins.IntToString` never fail on length. From Python 3.11 on, `int()` and `str()` raise ValueError for integers of more than 4300 digits.
- The parameter maps are Dafny `map`s, so the insertion order of Python's dicts is lost. Only the final key-to-value contents are modelled, and the order of keys in the request is not.
- `Builtins.Lower`: models `str.lower()` on ASCII letters only. Python also lowers other Unicode letters, sometimes changing the length.
- `assert` statements are treated as always enabled. Under `python -O` Python removes them, and the trade-kind, depth and identifier checks would then not run.
- `make_request`, HTTP transport, signing, API keys and the responses are not part of this model. The REST operations stop at the request they would send.
- The Python subclass identities (`Bar` vs `FuturesBar`, the event classes) are not represented. Both kinds of bar are `Domain.Bar` values with the same fields.
- Logging (`klines.py:25`) is not part of this model.
- `tests/test_binance_futures.py` calls live exchange endpoints and checks only server responses, so it has no local behaviour to model.
