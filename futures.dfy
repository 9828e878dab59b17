/**
 * The Binance futures REST account: each operation as the request it hands
 * to `make_request` (HTTP method, path, parameter map and credential). The
 * transport, signing and the responses are not part of this model.
 */
module FuturesAccount {
  import opened Wrappers
  import opened Wire
  import opened Builtins

  datatype HttpMethod = GET | POST | PUT | DELETE

  /** A request parameter value. */
  datatype Param = PNone | PBool(b: bool) | PInt(i: int) | PStr(s: string) | PDecimal(d: Decimal)

  /** How the parameters travel: none, as `qs_params`, or as `data`. */
  datatype Payload = NoParams | QueryString(qsParams: map<string, Param>) | Body(data: map<string, Param>)

  /** `send_sig=True` (signed request) or `send_key=True` (API key only). */
  datatype Credential = SendSig | SendKey

  datatype Request = Request(verb: HttpMethod, path: string, payload: Payload, credential: Credential)

  const OrderPath := "/fapi/v1/order"
  const OpenOrdersPath := "/fapi/v1/openOrders"
  const UserTradesPath := "/fapi/v1/userTrades"
  const ListenKeyPath := "/fapi/v1/listenKey"
  const ExactlyOneIdMessage := "Either order_id or orig_client_order_id should be set"

  /** The argument names of `create_order`; Python refuses a keyword argument in `**kwargs` that repeats one. */
  const CreateOrderParameterNames: set<string> :=
    {"self", "symbol", "side", "type", "time_in_force", "quantity", "price", "stop_price", "new_client_order_id"}

  function StrParam(value: Option<string>): Option<Param>
  {
    if value.Some? then Some(PStr(value.value)) else None
  }

  function IntParam(value: Option<int>): Option<Param>
  {
    if value.Some? then Some(PInt(value.value)) else None
  }

  function DecimalParam(value: Option<Decimal>): Option<Param>
  {
    if value.Some? then Some(PDecimal(value.value)) else None
  }

  /** Entry `j` of an optional-parameter list names `key` and carries a value (is not None). */
  predicate SuppliedAt(optional: seq<(string, Option<Param>)>, j: int, key: string)
  {
    0 <= j < |optional| && optional[j].0 == key && optional[j].1.Some?
  }

  /** `key` is in `params` exactly when `value` is given, and then maps to it. */
  predicate Carries(params: map<string, Param>, key: string, value: Option<Param>)
  {
    && (key in params <==> value.Some?)
    && (value.Some? ==> params[key] == value.value)
  }

  /**
   * The entries `base.set_optional_params(params, optional)` writes, under the
   * assumption that it sets `params[key] = value` for each pair, in order,
   * whose value is not None.
   */
  function OptionalEntries(optional: seq<(string, Option<Param>)>): (r: map<string, Param>)
    ensures forall j :: 0 <= j < |optional| && optional[j].1.Some? ==> optional[j].0 in r
  {
    if |optional| == 0 then map[]
    else
      var earlier := OptionalEntries(optional[..|optional| - 1]);
      var (key, value) := optional[|optional| - 1];
      if value.Some? then earlier[key := value.value] else earlier
  }

  /**
   * A key is written exactly when some pair names it with a value, and it
   * then holds the value of the last such pair.
   */
  lemma {:induction false} OptionalEntriesSpec(optional: seq<(string, Option<Param>)>, key: string)
    ensures key in OptionalEntries(optional) <==> exists j :: SuppliedAt(optional, j, key)
    ensures key in OptionalEntries(optional) ==>
      exists j :: && SuppliedAt(optional, j, key)
                  && OptionalEntries(optional)[key] == optional[j].1.value
                  && forall m :: j < m < |optional| ==> !SuppliedAt(optional, m, key)
  {
    if |optional| > 0 {
      var n := |optional| - 1;
      var earlier := optional[..n];
      OptionalEntriesSpec(earlier, key);
      forall j | SuppliedAt(earlier, j, key) ensures SuppliedAt(optional, j, key) {
      }
      forall j | 0 <= j < n && SuppliedAt(optional, j, key) ensures SuppliedAt(earlier, j, key) {
      }
      if SuppliedAt(optional, n, key) {
        assert OptionalEntries(optional)[key] == optional[n].1.value;
      } else if key in OptionalEntries(optional) {
        var j :| && SuppliedAt(earlier, j, key)
                 && OptionalEntries(earlier)[key] == earlier[j].1.value
                 && forall m :: j < m < |earlier| ==> !SuppliedAt(earlier, m, key);
        assert SuppliedAt(optional, j, key);
      }
    }
  }

  function Written(params: map<string, Param>, key: string, value: Option<Param>): map<string, Param>
  {
    if value.Some? then params[key := value.value] else params
  }

  lemma OptionalEntriesSnoc(optional: seq<(string, Option<Param>)>, key: string, value: Option<Param>)
    ensures OptionalEntries(optional + [(key, value)]) == Written(OptionalEntries(optional), key, value)
  {
    assert (optional + [(key, value)])[..|optional|] == optional;
  }

  /** The entries of a list of two optional pairs, written one after the other. */
  lemma OptionalEntriesOfTwo(p0: (string, Option<Param>), p1: (string, Option<Param>))
    ensures OptionalEntries([p0, p1]) == Written(Written(map[], p0.0, p0.1), p1.0, p1.1)
  {
    assert [p0] == [] + [p0];
    assert [p0, p1] == [p0] + [p1];
    OptionalEntriesSnoc([], p0.0, p0.1);
    OptionalEntriesSnoc([p0], p1.0, p1.1);
  }

  /** The entries of a list of five optional pairs, written one after the other. */
  lemma OptionalEntriesOfFive(
    p0: (string, Option<Param>), p1: (string, Option<Param>), p2: (string, Option<Param>),
    p3: (string, Option<Param>), p4: (string, Option<Param>))
    ensures OptionalEntries([p0, p1, p2, p3, p4])
      == Written(Written(Written(Written(Written(map[], p0.0, p0.1), p1.0, p1.1), p2.0, p2.1), p3.0, p3.1), p4.0, p4.1)
  {
    OptionalEntriesOfTwo(p0, p1);
    assert [p0, p1, p2] == [p0, p1] + [p2];
    assert [p0, p1, p2, p3] == [p0, p1, p2] + [p3];
    assert [p0, p1, p2, p3, p4] == [p0, p1, p2, p3] + [p4];
    OptionalEntriesSnoc([p0, p1], p2.0, p2.1);
    OptionalEntriesSnoc([p0, p1, p2], p3.0, p3.1);
    OptionalEntriesSnoc([p0, p1, p2, p3], p4.0, p4.1);
  }

  /** `base.set_optional_params(params, optional)`, updating `params` pair by pair. */
  method SetOptionalParams(params: map<string, Param>, optional: seq<(string, Option<Param>)>)
    returns (result: map<string, Param>)
    ensures result == params + OptionalEntries(optional)
  {
    result := params;
    for i := 0 to |optional|
      invariant result == params + OptionalEntries(optional[..i])
    {
      assert optional[..i + 1][..i] == optional[..i];
      var (key, value) := optional[i];
      if value.Some? {
        result := result[key := value.value];
      }
    }
    assert optional[..|optional|] == optional;
  }

  /** The optional pairs `create_order` hands to `set_optional_params`, in its order. */
  function OrderOptionalFields(
    timeInForce: Option<string>, quantity: Option<Decimal>, price: Option<Decimal>,
    stopPrice: Option<Decimal>, newClientOrderId: Option<string>): seq<(string, Option<Param>)>
  {
    [
      ("timeInForce", StrParam(timeInForce)),
      ("quantity", DecimalParam(quantity)),
      ("price", DecimalParam(price)),
      ("stopPrice", DecimalParam(stopPrice)),
      ("newClientOrderId", StrParam(newClientOrderId))
    ]
  }

  /** What `create_order` asks `set_optional_params` to write: each optional order field exactly when given. */
  lemma OrderFieldsWritten(
    timeInForce: Option<string>, quantity: Option<Decimal>, price: Option<Decimal>,
    stopPrice: Option<Decimal>, newClientOrderId: Option<string>)
    ensures var supplied := OptionalEntries(OrderOptionalFields(timeInForce, quantity, price, stopPrice, newClientOrderId));
      && supplied.Keys <= {"timeInForce", "quantity", "price", "stopPrice", "newClientOrderId"}
      && Carries(supplied, "timeInForce", StrParam(timeInForce))
      && Carries(supplied, "quantity", DecimalParam(quantity))
      && Carries(supplied, "price", DecimalParam(price))
      && Carries(supplied, "stopPrice", DecimalParam(stopPrice))
      && Carries(supplied, "newClientOrderId", StrParam(newClientOrderId))
  {
    var optional := OrderOptionalFields(timeInForce, quantity, price, stopPrice, newClientOrderId);
    OptionalEntriesOfFive(optional[0], optional[1], optional[2], optional[3], optional[4]);
    assert optional == [optional[0], optional[1], optional[2], optional[3], optional[4]];
  }

  /** The parameter map `create_order` sends: the three required fields, then the optional ones, then `kwargs`. */
  function OrderData(
    symbol: string, side: string, orderType: string, timeInForce: Option<string>,
    quantity: Option<Decimal>, price: Option<Decimal>, stopPrice: Option<Decimal>,
    newClientOrderId: Option<string>, kwargs: map<string, Param>): (r: map<string, Param>)
    ensures {"symbol", "side", "type"} + kwargs.Keys <= r.Keys
    ensures r.Keys <= {"symbol", "side", "type", "timeInForce", "quantity", "price", "stopPrice", "newClientOrderId"} + kwargs.Keys
  {
    OrderFieldsWritten(timeInForce, quantity, price, stopPrice, newClientOrderId);
    map["symbol" := PStr(symbol), "side" := PStr(side), "type" := PStr(orderType)]
    + OptionalEntries(OrderOptionalFields(timeInForce, quantity, price, stopPrice, newClientOrderId))
    + kwargs
  }

  /**
   * `create_order`: POST to the order endpoint, signed, with `symbol`, `side`
   * and `type`, each optional field only when given, and the keyword arguments
   * applied last so that they override an optional field of the same name.
   */
  method CreateOrder(
    symbol: string, side: string, orderType: string, timeInForce: Option<string>,
    quantity: Option<Decimal>, price: Option<Decimal>, stopPrice: Option<Decimal>,
    newClientOrderId: Option<string>, kwargs: map<string, Param>)
    returns (request: Request)
    requires forall key :: key in kwargs ==> key !in CreateOrderParameterNames
    ensures request.verb == POST && request.path == OrderPath && request.credential == SendSig
    ensures request.payload == Body(OrderData(symbol, side, orderType, timeInForce, quantity, price, stopPrice, newClientOrderId, kwargs))
  {
    var params := map["symbol" := PStr(symbol), "side" := PStr(side), "type" := PStr(orderType)];
    var optional := OrderOptionalFields(timeInForce, quantity, price, stopPrice, newClientOrderId);
    params := SetOptionalParams(params, optional);
    params := params + kwargs;
    request := Request(POST, OrderPath, Body(params), SendSig);
  }

  /** `symbol`, `side` and `type` are always sent as given: no keyword argument can repeat those names. */
  lemma OrderDataRequiredFields(
    symbol: string, side: string, orderType: string, timeInForce: Option<string>,
    quantity: Option<Decimal>, price: Option<Decimal>, stopPrice: Option<Decimal>,
    newClientOrderId: Option<string>, kwargs: map<string, Param>)
    requires forall key :: key in kwargs ==> key !in CreateOrderParameterNames
    ensures var data := OrderData(symbol, side, orderType, timeInForce, quantity, price, stopPrice, newClientOrderId, kwargs);
      && "symbol" in data && data["symbol"] == PStr(symbol)
      && "side" in data && data["side"] == PStr(side)
      && "type" in data && data["type"] == PStr(orderType)
  {
    var supplied := OptionalEntries(OrderOptionalFields(timeInForce, quantity, price, stopPrice, newClientOrderId));
    OrderFieldsWritten(timeInForce, quantity, price, stopPrice, newClientOrderId);
    assert "symbol" !in supplied && "side" !in supplied && "type" !in supplied;
    assert "symbol" in CreateOrderParameterNames && "side" in CreateOrderParameterNames && "type" in CreateOrderParameterNames;
    var required := map["symbol" := PStr(symbol), "side" := PStr(side), "type" := PStr(orderType)];
    KeptUnderOverrides(required, supplied, kwargs, "symbol");
    KeptUnderOverrides(required, supplied, kwargs, "side");
    KeptUnderOverrides(required, supplied, kwargs, "type");
  }

  /** A key of the first map that neither later map holds keeps its value in their union. */
  lemma KeptUnderOverrides(first: map<string, Param>, second: map<string, Param>, third: map<string, Param>, key: string)
    requires key in first && key !in second && key !in third
    ensures key in first + second + third && (first + second + third)[key] == first[key]
  {
  }

  /**
   * The optional fields are sent exactly when given; `quantity` and `price`
   * always so, the others unless a keyword argument of the same name overrides them.
   */
  lemma OrderDataOptionalFields(
    symbol: string, side: string, orderType: string, timeInForce: Option<string>,
    quantity: Option<Decimal>, price: Option<Decimal>, stopPrice: Option<Decimal>,
    newClientOrderId: Option<string>, kwargs: map<string, Param>)
    requires forall key :: key in kwargs ==> key !in CreateOrderParameterNames
    ensures var data := OrderData(symbol, side, orderType, timeInForce, quantity, price, stopPrice, newClientOrderId, kwargs);
      && Carries(data, "quantity", DecimalParam(quantity))
      && Carries(data, "price", DecimalParam(price))
      && ("timeInForce" !in kwargs ==> Carries(data, "timeInForce", StrParam(timeInForce)))
      && ("stopPrice" !in kwargs ==> Carries(data, "stopPrice", DecimalParam(stopPrice)))
      && ("newClientOrderId" !in kwargs ==> Carries(data, "newClientOrderId", StrParam(newClientOrderId)))
  {
    OrderFieldsWritten(timeInForce, quantity, price, stopPrice, newClientOrderId);
    assert "quantity" !in kwargs && "price" !in kwargs;
  }

  /** Every keyword argument is sent with its value, and no key other than the order fields and the keyword arguments is sent. */
  lemma OrderDataKeywordArguments(
    symbol: string, side: string, orderType: string, timeInForce: Option<string>,
    quantity: Option<Decimal>, price: Option<Decimal>, stopPrice: Option<Decimal>,
    newClientOrderId: Option<string>, kwargs: map<string, Param>)
    ensures var data := OrderData(symbol, side, orderType, timeInForce, quantity, price, stopPrice, newClientOrderId, kwargs);
      && (forall key :: key in kwargs ==> key in data && data[key] == kwargs[key])
      && (forall key :: key in data ==>
            key in kwargs || key in {"symbol", "side", "type", "timeInForce", "quantity", "price", "stopPrice", "newClientOrderId"})
  {
    OrderFieldsWritten(timeInForce, quantity, price, stopPrice, newClientOrderId);
  }

  /** Exactly one of the two order identifiers is given. */
  predicate ExactlyOneId(orderId: Option<int>, origClientOrderId: Option<string>)
  {
    orderId.Some? != origClientOrderId.Some?
  }

  /**
   * `query_order`: fails unless exactly one identifier is given; otherwise a
   * signed GET on the order endpoint whose query holds `symbol` and the given
   * identifier, and nothing else.
   */
  method QueryOrder(symbol: string, orderId: Option<int>, origClientOrderId: Option<string>)
    returns (r: Result<Request, Error>)
    ensures r.Err? <==> !ExactlyOneId(orderId, origClientOrderId)
    ensures r.Err? ==> r.error == AssertionError(ExactlyOneIdMessage)
    ensures r.Ok? ==>
      && r.value.verb == GET && r.value.path == OrderPath && r.value.credential == SendSig
      && r.value.payload.QueryString?
      && var qs := r.value.payload.qsParams;
      && qs.Keys == {"symbol", if orderId.Some? then "orderId" else "origClientOrderId"}
      && qs["symbol"] == PStr(symbol)
      && Carries(qs, "orderId", IntParam(orderId))
      && Carries(qs, "origClientOrderId", StrParam(origClientOrderId))
  {
    if !ExactlyOneId(orderId, origClientOrderId) {
      return Err(AssertionError(ExactlyOneIdMessage));
    }
    var params := map["symbol" := PStr(symbol)];
    var optional := [("orderId", IntParam(orderId)), ("origClientOrderId", StrParam(origClientOrderId))];
    OptionalEntriesOfTwo(optional[0], optional[1]);
    params := SetOptionalParams(params, optional);
    return Ok(Request(GET, OrderPath, QueryString(params), SendSig));
  }

  /** `get_open_orders`: a signed GET on the open-orders endpoint; the query is `{symbol}` when a symbol is given and empty otherwise. */
  method GetOpenOrders(symbol: Option<string>) returns (request: Request)
    ensures request.verb == GET && request.path == OpenOrdersPath && request.credential == SendSig
    ensures request.payload.QueryString?
    ensures Carries(request.payload.qsParams, "symbol", StrParam(symbol))
    ensures request.payload.qsParams.Keys <= {"symbol"}
  {
    var params: map<string, Param> := map[];
    if symbol.Some? {
      params := params["symbol" := PStr(symbol.value)];
    }
    request := Request(GET, OpenOrdersPath, QueryString(params), SendSig);
  }

  /**
   * `cancel_order`: fails unless exactly one identifier is given; otherwise a
   * signed DELETE on the order endpoint whose query holds `symbol` and the
   * given identifier, and nothing else.
   */
  method CancelOrder(symbol: string, orderId: Option<int>, origClientOrderId: Option<string>)
    returns (r: Result<Request, Error>)
    ensures r.Err? <==> !ExactlyOneId(orderId, origClientOrderId)
    ensures r.Err? ==> r.error == AssertionError(ExactlyOneIdMessage)
    ensures r.Ok? ==>
      && r.value.verb == DELETE && r.value.path == OrderPath && r.value.credential == SendSig
      && r.value.payload.QueryString?
      && var qs := r.value.payload.qsParams;
      && qs.Keys == {"symbol", if orderId.Some? then "orderId" else "origClientOrderId"}
      && qs["symbol"] == PStr(symbol)
      && Carries(qs, "orderId", IntParam(orderId))
      && Carries(qs, "origClientOrderId", StrParam(origClientOrderId))
  {
    if !ExactlyOneId(orderId, origClientOrderId) {
      return Err(AssertionError(ExactlyOneIdMessage));
    }
    var params := map["symbol" := PStr(symbol)];
    var optional := [("orderId", IntParam(orderId)), ("origClientOrderId", StrParam(origClientOrderId))];
    OptionalEntriesOfTwo(optional[0], optional[1]);
    params := SetOptionalParams(params, optional);
    return Ok(Request(DELETE, OrderPath, QueryString(params), SendSig));
  }

  /** `get_trades`: a signed GET on the user-trades endpoint whose query holds `symbol`, and `orderId` exactly when one is given. */
  method GetTrades(symbol: string, orderId: Option<int>) returns (request: Request)
    ensures request.verb == GET && request.path == UserTradesPath && request.credential == SendSig
    ensures request.payload.QueryString?
    ensures var qs := request.payload.qsParams;
      && qs.Keys <= {"symbol", "orderId"}
      && "symbol" in qs && qs["symbol"] == PStr(symbol)
      && Carries(qs, "orderId", IntParam(orderId))
  {
    var params := map["symbol" := PStr(symbol)];
    if orderId.Some? {
      params := params["orderId" := PInt(orderId.value)];
    }
    request := Request(GET, UserTradesPath, QueryString(params), SendSig);
  }

  /** `create_listen_key`: a POST on the listen-key endpoint with the API key and no parameters. */
  method CreateListenKey() returns (request: Request)
    ensures request.verb == POST && request.path == ListenKeyPath
    ensures request.credential == SendKey && request.payload == NoParams
  {
    request := Request(POST, ListenKeyPath, NoParams, SendKey);
  }

  /** `keep_alive_listen_key`: a PUT on the listen-key endpoint with the API key and the body `{listenKey}` only. */
  method KeepAliveListenKey(listenKey: string) returns (request: Request)
    ensures request.verb == PUT && request.path == ListenKeyPath && request.credential == SendKey
    ensures request.payload.Body?
    ensures request.payload.data.Keys == {"listenKey"} && request.payload.data["listenKey"] == PStr(listenKey)
  {
    var params := map["listenKey" := PStr(listenKey)];
    request := Request(PUT, ListenKeyPath, Body(params), SendKey);
  }
}
