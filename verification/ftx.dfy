/** The FTX client: every request is signed, over
    `ts + method + path + "?" + params` plus the JSON body when there is
    one, with the key, hex signature and timestamp in `FTX-*` headers. */
module Ftx {

  import opened Prelude
  import opened PyValue
  import opened Json
  import JsonValue = Json
  import opened ExchangeBase
  import Crypto
  import Hex
  import Utf8
  import Decimal
  import UrlEncode

  /** The replacement field of the market-data path templates. */
  const SymbolField: string := "{symbol}"
  const Candles: string := "/markets/" + SymbolField + "/candles"
  const Orderbook: string := "/markets/" + SymbolField + "/orderbook"

  const PositionsEndpoint := Endpoint("GET", "/positions", 50)
  const CancelEndpoint := Endpoint("DELETE", "/orders", 50)
  const CandlesEndpoint := Endpoint("GET", Candles, 50)
  const OrderbookEndpoint := Endpoint("GET", Orderbook, 50)
  const BalanceEndpoint := Endpoint("GET", "/wallet/balances", 50)
  const OrderEndpoint := Endpoint("POST", "/orders", 50)
  const HistoryEndpoint := Endpoint("GET", "/orders/history", 50)
  const OpenOrdersEndpoint := Endpoint("GET", "/orders", 50)

  /** `_path_config`: both order kinds share one entry, and
      `get_closed_orders` is never looked up by the façade (it uses the
      `limit_order` entry). */
  const PathConfig: map<string, Endpoint> := map[
    "get_positions" := PositionsEndpoint,
    "cancel_orders" := CancelEndpoint,
    "get_data" := CandlesEndpoint,
    "get_orderbook" := OrderbookEndpoint,
    "get_balance" := BalanceEndpoint,
    "market_order" := OrderEndpoint,
    "limit_order" := OrderEndpoint,
    "get_closed_orders" := HistoryEndpoint,
    "get_open_orders" := OpenOrdersEndpoint
  ]

  /** `FTX.__init__`: the base URL is chosen by `debug` alone; a `base_url`
      passed by the caller is overwritten. */
  function Init(key: string, secret: string, debug: bool, baseUrl: Kwarg<Option<string>>,
                showLimitUsage: Value, urls: Urls): (e: Exchange)
    ensures var url := if debug then urls.ftxFuturesTest else urls.ftxFutures;
      e.baseUrl == (if url == "" then None else Some(url))
    ensures e.key == key && e.secret == secret
    ensures e.showLimitUsage <==> showLimitUsage == VBool(true)
  {
    var url := if debug then urls.ftxFuturesTest else urls.ftxFutures;
    ExchangeBase.Init("FTX", key, secret, None, Some(url), showLimitUsage)
  }

  // ---------------------------------------------------------------------
  // Path templates

  /** `template.format(symbol=symbol)` on templates whose only replacement
      field is `{symbol}`. */
  function Format(template: string, symbol: string): string
    decreases |template|
  {
    if |template| == 0 then ""
    else if |template| >= 8 && template[..8] == SymbolField then symbol + Format(template[8..], symbol)
    else [template[0]] + Format(template[1..], symbol)
  }

  /** A first character other than `{` is copied as it is. */
  lemma FormatCopies(t: string, symbol: string)
    requires |t| > 0 && t[0] != '{'
    ensures Format(t, symbol) == [t[0]] + Format(t[1..], symbol)
  {
    assert |t| >= 8 ==> t[..8][0] == t[0];
    assert SymbolField[0] == '{';
  }

  /** A template without a replacement field is left unchanged. */
  lemma {:induction false} FormatPlain(t: string, symbol: string)
    requires '{' !in t
    ensures Format(t, symbol) == t
    decreases |t|
  {
    if |t| > 0 {
      assert t[0] in t;
      FormatCopies(t, symbol);
      FormatPlain(t[1..], symbol);
      assert [t[0]] + t[1..] == t;
    }
  }

  /** Filling one field changes nothing before or after it. */
  lemma {:induction false} FormatOneField(a: string, b: string, symbol: string)
    requires '{' !in a && '{' !in b
    ensures Format(a + SymbolField + b, symbol) == a + symbol + b
    decreases |a|
  {
    if |a| == 0 {
      assert a + SymbolField + b == SymbolField + b;
      FormatFieldFirst(b, symbol);
    } else {
      assert forall c :: c in a[1..] ==> c in a;
      FormatOneField(a[1..], b, symbol);
      FormatOneFieldStep(a, b, symbol);
    }
  }

  /** A template that starts with the field. */
  lemma FormatFieldFirst(b: string, symbol: string)
    requires '{' !in b
    ensures Format(SymbolField + b, symbol) == symbol + b
  {
    var t := SymbolField + b;
    assert t[..8] == SymbolField;
    assert t[8..] == b;
    FormatPlain(b, symbol);
  }

  /** One plain character in front of the field is copied. */
  lemma FormatOneFieldStep(a: string, b: string, symbol: string)
    requires |a| > 0 && a[0] != '{'
    requires Format(a[1..] + SymbolField + b, symbol) == a[1..] + symbol + b
    ensures Format(a + SymbolField + b, symbol) == a + symbol + b
  {
    HeadOfJoin(a, SymbolField, b);
    HeadOfJoin(a, symbol, b);
    FormatCopies(a + SymbolField + b, symbol);
  }

  /** Splitting the first character off `a + m + b`. */
  lemma HeadOfJoin(a: string, m: string, b: string)
    requires |a| > 0
    ensures (a + m + b)[0] == a[0]
    ensures (a + m + b)[1..] == a[1..] + m + b
    ensures [a[0]] + (a[1..] + m + b) == a + m + b
  {
    assert [a[0]] + a[1..] == a;
  }

  /** The market-data paths with the symbol filled in. */
  lemma CandlesPath(symbol: string)
    ensures Format(Candles, symbol) == "/markets/" + symbol + "/candles"
  {
    FormatOneField("/markets/", "/candles", symbol);
  }

  lemma OrderbookPath(symbol: string)
    ensures Format(Orderbook, symbol) == "/markets/" + symbol + "/orderbook"
  {
    FormatOneField("/markets/", "/orderbook", symbol);
  }

  // ---------------------------------------------------------------------
  // Signing

  /** `f"{params}"` for the urlencoded text or `None`. */
  function ParamsText(params: Option<string>): string {
    match params
    case Some(p) => p
    case None => "None"
  }

  /** The text `_get_request_credentials` signs: `ts`, method, path, `?`,
      the params text (`None` when there are none) and, when it is a
      non-empty text, the body. */
  function SignString(ts: string, verb: string, path: string, params: Option<string>, data: Option<string>): string
  {
    var s := ts + verb + path + "?" + ParamsText(params);
    if data.Some? && data.value != "" then s + data.value else s
  }

  const KeyHeader: string := "FTX-KEY"
  const SignHeader: string := "FTX-SIGN"
  const TsHeader: string := "FTX-TS"

  /** `_get_request_credentials`: exactly the three `FTX-*` headers; the
      timestamp header is the very text that was signed. */
  function RequestCredentials(ex: Exchange, mac: Crypto.Mac, ts: string, verb: string, path: string,
                              params: Option<string>, data: Option<string>): (h: Headers)
    ensures h.Keys == {KeyHeader, SignHeader, TsHeader}
    ensures h[KeyHeader] == ex.key && h[TsHeader] == ts
    ensures |h[SignHeader]| == 64
    ensures Hex.Decode(h[SignHeader])
            == Some(mac(Utf8.Encode(ex.secret), Utf8.Encode(SignString(ts, verb, path, params, data))))
  {
    var sign := Crypto.HexDigest(mac, ex.secret, SignString(ts, verb, path, params, data));
    map[KeyHeader := ex.key, SignHeader := sign, TsHeader := ts]
  }

  /** The params text of a sent request, as it appears in the signed text. */
  function SentParamsText(req: Request): string {
    if req.params.Some? && req.params.value.Text? then req.params.value.text else "None"
  }

  /** The body text of a sent request. */
  function SentDataText(req: Request): string {
    if req.data.Some? && req.data.value.Text? then req.data.value.text else ""
  }

  /** The request's `FTX-SIGN` is the MAC of its own `FTX-TS`, verb, path,
      params text and body text: what is signed is what is sent. */
  predicate SignedAsSent(ex: Exchange, mac: Crypto.Mac, req: Request) {
    && req.headers.Some?
    && req.headers.value.Keys == {KeyHeader, SignHeader, TsHeader}
    && req.headers.value[KeyHeader] == ex.key
    && Hex.Decode(req.headers.value[SignHeader]) == Some(mac(Utf8.Encode(ex.secret), Utf8.Encode(
         req.headers.value[TsHeader] + req.verb + req.path + "?" + SentParamsText(req) + SentDataText(req))))
  }

  /** `_signed_request`: a fresh clock reading becomes the `ts` text; params
      are urlencoded only when there are some (else `None`); the body text
      is used only when there is a body. Both are sent exactly as signed. */
  function SignedRequest(ex: Exchange, mac: Crypto.Mac, clock: nat, verb: string, path: string,
                         params: Option<Dict>, data: Option<string>): (req: Request)
    ensures SignedAsSent(ex, mac, req)
    ensures req.verb == verb && req.path == path
    ensures Decimal.Parse(req.headers.value[TsHeader]) == Some(clock)
    ensures params.None? || params == Some([]) <==> req.params.None?
    ensures req.params.Some? ==> req.params == Some(Text(UrlEncode.Urlencode(params.value)))
    ensures data.None? || data == Some("") <==> req.data.None?
    ensures req.data.Some? ==> req.data == Some(Text(data.value))
  {
    var ts := Decimal.Show(clock);
    Decimal.ParseShow(clock);
    var p := if params.Some? && |params.value| > 0 then Some(UrlEncode.Urlencode(params.value)) else None;
    var d := if data.Some? && data.value != "" then data else None;
    var header := RequestCredentials(ex, mac, ts, verb, path, p, d);
    var req := Request(verb, path, Some(header),
                       if p.Some? then Some(Text(p.value)) else None,
                       if d.Some? then Some(Text(d.value)) else None);
    assert SignString(ts, verb, path, p, d) == ts + verb + path + "?" + SentParamsText(req) + SentDataText(req);
    req
  }

  // ---------------------------------------------------------------------
  // Façade methods

  /** `get_positions`, request half: a signed GET without params, whose
      signed text therefore ends in `/positions?None`. */
  function GetPositions(ex: Exchange, mac: Crypto.Mac, clock: nat): (p: Plan)
    ensures p.Sends? && |p.requests| == 1
    ensures var req := p.requests[0];
      && req.verb == "GET" && req.path == "/positions" && req.params.None? && req.data.None?
      && SignedAsSent(ex, mac, req) && SentParamsText(req) == "None"
  {
    var e := PositionsEndpoint;
    Sends([SignedRequest(ex, mac, clock, e.verb, e.path, None, None)])
  }

  /** The test `pos.get("future") == symbol`. */
  function IsForMarket(symbol: string): Json -> Outcome<bool> {
    (pos: Json) =>
      match GetKey(pos, "future", JNull)
      case Returned(v) => Returned(v == JStr(symbol))
      case Raised(e) => Raised(e)
  }

  /** A position of the market: the selection the filter makes. */
  function ForMarket(symbol: string): Json -> bool {
    (pos: Json) => pos.JObj? && Field(pos.fields, "future") == Some(JStr(symbol))
  }

  /** On dict entries, the test answers as `ForMarket` does. */
  lemma IsForMarketAgrees(items: seq<Json>, symbol: string)
    requires forall i :: 0 <= i < |items| ==> items[i].JObj?
    ensures forall i :: 0 <= i < |items| ==> IsForMarket(symbol)(items[i]) == Returned(ForMarket(symbol)(items[i]))
  {}

  /** `result` is a list of dicts. */
  predicate DictList(j: Json) {
    j.JArr? && forall i :: 0 <= i < |j.items| ==> j.items[i].JObj?
  }

  /** `get_positions`, reply half: when `result` is truthy, exactly the
      positions whose `future` is the symbol, in order; otherwise the reply
      unchanged. A reply that is not a dict raises `AttributeError`. */
  function Positions(response: Json, symbol: string): (r: Outcome<Json>)
    ensures !response.JObj? ==> r == Raised(AttributeError("get"))
    ensures response.JObj? && !JsonValue.Truthy(Field(response.fields, "result").GetOr(JNull)) ==> r == Returned(response)
    ensures response.JObj? && r.Returned? && r.value != response ==>
      (r.value.JArr? &&
       forall x :: x in r.value.items ==> x.JObj? && Field(x.fields, "future") == Some(JStr(symbol)))
    ensures response.JObj? && JsonValue.Truthy(Field(response.fields, "result").GetOr(JNull)) &&
      DictList(Field(response.fields, "result").value)
      ==> r == Returned(JArr(Select(Field(response.fields, "result").value.items, ForMarket(symbol))))
  {
    match GetKey(response, "result", JNull)
    case Raised(e) => Raised(e)
    case Returned(result) =>
      if !JsonValue.Truthy(result) then Returned(response)
      else
        match Elements(result)
        case Raised(e) => Raised(e)
        case Returned(items) =>
          match Filter(items, IsForMarket(symbol))
          case Raised(e) => Raised(e)
          case Returned(kept) =>
            assert DictList(result) ==> kept == Select(items, ForMarket(symbol)) by {
              if DictList(result) {
                IsForMarketAgrees(items, symbol);
                FilterSelect(items, IsForMarket(symbol), ForMarket(symbol));
              }
            }
            Returned(JArr(kept))
  }

  /** What `get_data` and `get_orderbook` hand back: a table built from
      `result`, whose contents are not modelled, or the reply itself. */
  datatype Presented = Table(source: Json) | AsIs(value: Json)

  /** `get_data` / `get_orderbook`, reply half: the reply is asked for
      `is_dataframe` and `result` with `get`, so anything but a dict (an
      error text, a list) raises `AttributeError`; a dict is returned as it
      is unless both keys are truthy, when a table is built from `result`. */
  function DataReply(response: Json): (r: Outcome<Presented>)
    ensures r.Raised? <==> !response.JObj?
    ensures r.Raised? ==> r.error == AttributeError("get")
    ensures r.Returned? && r.value.AsIs? ==> r.value.value == response
    ensures response.JObj? ==>
      (r.Returned? && r.value.Table? <==>
        JsonValue.Truthy(Field(response.fields, "is_dataframe").GetOr(JNull))
        && JsonValue.Truthy(Field(response.fields, "result").GetOr(JNull)))
    ensures r.Returned? && r.value.Table? ==> Field(response.fields, "result") == Some(r.value.source)
  {
    match GetKey(response, "is_dataframe", JNull)
    case Raised(e) => Raised(e)
    case Returned(frame) =>
      if !JsonValue.Truthy(frame) then Returned(AsIs(response))
      else
        match GetKey(response, "result", JNull)
        case Raised(e) => Raised(e)
        case Returned(result) =>
          if JsonValue.Truthy(result) then Returned(Table(result)) else Returned(AsIs(response))
  }

  /** `cancel_orders`: the market is passed as params, so the signed text
      ends in `/orders?market=` and the escaped symbol. */
  function CancelOrders(ex: Exchange, mac: Crypto.Mac, symbol: string, clock: nat): (p: Plan)
    ensures p.Sends? && |p.requests| == 1
    ensures var req := p.requests[0];
      && req.verb == "DELETE" && req.path == "/orders" && req.data.None?
      && SignedAsSent(ex, mac, req)
      && SentParamsText(req) == "market=" + UrlEncode.QuotePlus(symbol)
  {
    var e := CancelEndpoint;
    var req := SignedRequest(ex, mac, clock, e.verb, e.path, Some([("market", VStr(symbol))]), None);
    UrlEncode.MarketParam(symbol);
    Sends([req])
  }

  /** The query of `get_data`: `resolution` (15 by default) first, then the
      caller's keyword arguments, which override it. */
  function CandleParams(interval: Option<Value>, kwargs: Dict): (d: Dict)
    ensures |d| > 0
    ensures Get(kwargs, "resolution").None? ==> Get(d, "resolution") == Some(interval.GetOr(VInt(15)))
    ensures Distinct(kwargs) ==> forall k :: Get(kwargs, k).Some? ==> Get(d, k) == Get(kwargs, k)
    ensures forall k :: k != "resolution" && Get(kwargs, k).None? ==> Get(d, k).None?
    ensures Distinct([("resolution", interval.GetOr(VInt(15)))] + kwargs)
            ==> d == [("resolution", interval.GetOr(VInt(15)))] + kwargs
  {
    var first := [("resolution", interval.GetOr(VInt(15)))];
    assert Distinct(first + kwargs) ==> Update(first, kwargs) == first + kwargs by {
      if Distinct(first + kwargs) { UpdateAppends(first, kwargs); }
    }
    Update(first, kwargs)
  }

  /** `get_data`, request half: the candle query, urlencoded and signed, to
      the candles path of the symbol. */
  function GetData(ex: Exchange, mac: Crypto.Mac, symbol: string, interval: Option<Value>, kwargs: Dict,
                   clock: nat): (p: Plan)
    ensures p.Sends? && |p.requests| == 1
    ensures var req := p.requests[0];
      && req.verb == "GET" && req.path == "/markets/" + symbol + "/candles"
      && SignedAsSent(ex, mac, req)
      && req.params == Some(Text(UrlEncode.Urlencode(CandleParams(interval, kwargs))))
  {
    var e := CandlesEndpoint;
    CandlesPath(symbol);
    Sends([SignedRequest(ex, mac, clock, e.verb, Format(e.path, symbol), Some(CandleParams(interval, kwargs)), None)])
  }

  /** `get_orderbook`, request half: `depth` signed, to the order-book path
      of the symbol. */
  function GetOrderbook(ex: Exchange, mac: Crypto.Mac, symbol: string, limit: Option<Value>, clock: nat)
    : (p: Plan)
    ensures p.Sends? && |p.requests| == 1
    ensures var req := p.requests[0];
      && req.verb == "GET" && req.path == "/markets/" + symbol + "/orderbook"
      && SignedAsSent(ex, mac, req)
      && req.params == Some(Text("depth=" + UrlEncode.QuotePlus(Str(limit.GetOr(VInt(100))))))
  {
    var e := OrderbookEndpoint;
    OrderbookPath(symbol);
    var params := [("depth", limit.GetOr(VInt(100)))];
    UrlEncode.DepthParam(limit.GetOr(VInt(100)));
    Sends([SignedRequest(ex, mac, clock, e.verb, Format(e.path, symbol), Some(params), None)])
  }

  /** `get_balance`: a signed GET without params. */
  function GetBalance(ex: Exchange, mac: Crypto.Mac, clock: nat): (p: Plan)
    ensures p.Sends? && |p.requests| == 1
    ensures var req := p.requests[0];
      && req.verb == "GET" && req.path == "/wallet/balances" && req.params.None? && req.data.None?
      && SignedAsSent(ex, mac, req)
  {
    var e := BalanceEndpoint;
    Sends([SignedRequest(ex, mac, clock, e.verb, e.path, None, None)])
  }

  /** The order payload: fixed entries first, then the keyword arguments,
      which override any fixed entry of the same name. */
  function OrderPayload(fixed: Dict, kwargs: Dict): (d: Dict)
    requires Distinct(fixed) && Distinct(kwargs)
    ensures Distinct(d)
    ensures forall k :: Get(kwargs, k).Some? ==> Get(d, k) == Get(kwargs, k)
    ensures forall k :: Get(kwargs, k).None? ==> Get(d, k) == Get(fixed, k)
  {
    UpdateDistinct(fixed, kwargs);
    Update(fixed, kwargs)
  }

  /** The payload of `market_order`: `type` is `market` unless a keyword
      argument says otherwise. */
  function MarketOrderPayload(symbol: Value, side: Value, quantity: Value, kwargs: Dict): (d: Dict)
    requires Distinct(kwargs)
    ensures Distinct(d)
    ensures Get(kwargs, "type").None? ==> Get(d, "type") == Some(VStr("market"))
    ensures Get(kwargs, "market").None? ==> Get(d, "market") == Some(symbol)
    ensures forall k :: Get(kwargs, k).Some? ==> Get(d, k) == Get(kwargs, k)
  {
    var fixed := [("market", symbol), ("side", side), ("type", VStr("market")), ("size", quantity)];
    GetEntry(fixed, 0);
    GetEntry(fixed, 2);
    OrderPayload(fixed, kwargs)
  }

  /** The payload of `limit_order`: `type` is `limit` unless a keyword
      argument says otherwise. */
  function LimitOrderPayload(symbol: Value, side: Value, quantity: Value, price: Value, kwargs: Dict)
    : (d: Dict)
    requires Distinct(kwargs)
    ensures Distinct(d)
    ensures Get(kwargs, "type").None? ==> Get(d, "type") == Some(VStr("limit"))
    ensures Get(kwargs, "price").None? ==> Get(d, "price") == Some(price)
    ensures forall k :: Get(kwargs, k).Some? ==> Get(d, k) == Get(kwargs, k)
  {
    var fixed := [("market", symbol), ("side", side), ("price", price), ("type", VStr("limit")),
                  ("size", quantity)];
    GetEntry(fixed, 2);
    GetEntry(fixed, 3);
    OrderPayload(fixed, kwargs)
  }

  /** `market_order`: a signed POST to `/orders` whose body is the
      serialised payload; `dump` stands for the JSON serialiser. */
  function MarketOrder(ex: Exchange, mac: Crypto.Mac, symbol: Value, side: Value, quantity: Value,
                       kwargs: Dict, dump: Dict -> string, clock: nat): (p: Plan)
    requires Distinct(kwargs)
    ensures p.Sends? && |p.requests| == 1
    ensures var req := p.requests[0];
      && req.verb == "POST" && req.path == "/orders" && req.params.None?
      && SignedAsSent(ex, mac, req) && SentParamsText(req) == "None"
      && SentDataText(req) == dump(MarketOrderPayload(symbol, side, quantity, kwargs))
  {
    var e := OrderEndpoint;
    var payload := MarketOrderPayload(symbol, side, quantity, kwargs);
    Sends([SignedRequest(ex, mac, clock, e.verb, e.path, None, Some(dump(payload)))])
  }

  /** `limit_order`: as `market_order`, with the limit payload. */
  function LimitOrder(ex: Exchange, mac: Crypto.Mac, symbol: Value, side: Value, quantity: Value,
                      price: Value, kwargs: Dict, dump: Dict -> string, clock: nat): (p: Plan)
    requires Distinct(kwargs)
    ensures p.Sends? && |p.requests| == 1
    ensures var req := p.requests[0];
      && req.verb == "POST" && req.path == "/orders" && req.params.None?
      && SignedAsSent(ex, mac, req) && SentParamsText(req) == "None"
      && SentDataText(req) == dump(LimitOrderPayload(symbol, side, quantity, price, kwargs))
  {
    var e := OrderEndpoint;
    var payload := LimitOrderPayload(symbol, side, quantity, price, kwargs);
    Sends([SignedRequest(ex, mac, clock, e.verb, e.path, None, Some(dump(payload)))])
  }

  /** `get_closed_orders`, request half: it looks up the `limit_order`
      entry, so it signs and sends a POST to `/orders` without params. */
  function GetClosedOrders(ex: Exchange, mac: Crypto.Mac, clock: nat): (p: Plan)
    ensures p.Sends? && |p.requests| == 1
    ensures var req := p.requests[0];
      && req.verb == "POST" && req.path == "/orders" && req.params.None? && req.data.None?
      && SignedAsSent(ex, mac, req)
  {
    var e := OrderEndpoint;
    Sends([SignedRequest(ex, mac, clock, e.verb, e.path, None, None)])
  }

  /** `get_closed_orders` looks up the `limit_order` entry of the table,
      not its own: it sends a POST to `/orders` instead of a GET to
      `/orders/history`. */
  lemma ClosedOrdersEntry(ex: Exchange, mac: Crypto.Mac, clock: nat)
    ensures var req := GetClosedOrders(ex, mac, clock).requests[0];
      && req.verb == PathConfig["limit_order"].verb && req.path == PathConfig["limit_order"].path
      && req.verb != PathConfig["get_closed_orders"].verb && req.path != PathConfig["get_closed_orders"].path
  {}

  /** The test `order.get("status", "") == "closed"`. */
  function IsClosed(order: Json): Outcome<bool> {
    match GetKey(order, "status", JStr(""))
    case Returned(v) => Returned(v == JStr("closed"))
    case Raised(e) => Raised(e)
  }

  /** A closed order: the selection the filter makes. A dict without a
      status is not one, since the default `""` is not `closed`. */
  predicate Closed(order: Json) {
    order.JObj? && Field(order.fields, "status") == Some(JStr("closed"))
  }

  /** On dict entries, the test answers as `Closed` does. */
  lemma IsClosedAgrees(items: seq<Json>)
    requires forall i :: 0 <= i < |items| ==> items[i].JObj?
    ensures forall i :: 0 <= i < |items| ==> IsClosed(items[i]) == Returned(Closed(items[i]))
  {}

  /** `get_closed_orders`, reply half: when `result` is truthy, exactly the
      orders whose status is `closed` (a missing status counts as `""`),
      in order; otherwise the reply unchanged. */
  function ClosedOrders(response: Json): (r: Outcome<Json>)
    ensures !response.JObj? ==> r == Raised(AttributeError("get"))
    ensures response.JObj? && !JsonValue.Truthy(Field(response.fields, "result").GetOr(JNull)) ==> r == Returned(response)
    ensures response.JObj? && r.Returned? && r.value != response ==>
      (r.value.JArr? &&
       forall x :: x in r.value.items ==> x.JObj? && Field(x.fields, "status") == Some(JStr("closed")))
    ensures response.JObj? && JsonValue.Truthy(Field(response.fields, "result").GetOr(JNull)) &&
      DictList(Field(response.fields, "result").value)
      ==> r == Returned(JArr(Select(Field(response.fields, "result").value.items, Closed)))
  {
    match GetKey(response, "result", JNull)
    case Raised(e) => Raised(e)
    case Returned(result) =>
      if !JsonValue.Truthy(result) then Returned(response)
      else
        match Elements(result)
        case Raised(e) => Raised(e)
        case Returned(items) =>
          match Filter(items, IsClosed)
          case Raised(e) => Raised(e)
          case Returned(kept) =>
            assert DictList(result) ==> kept == Select(items, Closed) by {
              if DictList(result) {
                IsClosedAgrees(items);
                FilterSelect(items, IsClosed, Closed);
              }
            }
            Returned(JArr(kept))
  }

  /** `get_open_orders`: a signed GET to `/orders` without params. */
  function GetOpenOrders(ex: Exchange, mac: Crypto.Mac, clock: nat): (p: Plan)
    ensures p.Sends? && |p.requests| == 1
    ensures var req := p.requests[0];
      && req.verb == "GET" && req.path == "/orders" && req.params.None? && req.data.None?
      && SignedAsSent(ex, mac, req)
  {
    var e := OpenOrdersEndpoint;
    Sends([SignedRequest(ex, mac, clock, e.verb, e.path, None, None)])
  }
}
