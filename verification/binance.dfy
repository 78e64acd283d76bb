/** The Binance USDⓈ-M futures client: `str(params)` signed with
    HMAC-SHA256 in hex, the signature appended as a `signature` parameter,
    the API key in `X-MBX-APIKEY`. */
module Binance {

  import opened Prelude
  import opened PyValue
  import opened Json
  import opened ExchangeBase
  import Crypto
  import Hex
  import Utf8
  import Strings

  const PathConfig: map<string, Endpoint> := map[
    "get_position" := Endpoint("GET", "/fapi/v2/positionRisk", 50),
    "cancel_order" := Endpoint("DELETE", "/fapi/v1/batchOrders", 50),
    "get_data" := Endpoint("GET", "/fapi/v1/klines", 50),
    "get_orderbook" := Endpoint("GET", "/fapi/v1/depth", 50),
    "get_balance" := Endpoint("GET", "/fapi/v2/balance", 50),
    "market_order" := Endpoint("POST", "/fapi/v1/order", 50),
    "limit_order" := Endpoint("POST", "/fapi/v1/order", 50),
    "get_closed_orders" := Endpoint("GET", "/fapi/v1/allOrders", 50),
    "get_open_orders" := Endpoint("GET", "/fapi/v1/openOrders", 50)
  ]

  /** `self._path_config.get(op).get("method")`: a missing entry is `None`,
      which has no `get`. Both order kinds share one endpoint, and the names
      `get_positions` and `cancel_orders` look up entries the table spells
      `get_position` and `cancel_order`. */
  function Descriptor(op: string): (r: Outcome<Endpoint>)
    ensures r.Returned? <==> op in PathConfig
    ensures r.Raised? ==> r.error == AttributeError("get")
    ensures op == "market_order" || op == "limit_order" ==> r == Returned(Endpoint("POST", "/fapi/v1/order", 50))
    ensures op == "get_positions" || op == "cancel_orders" ==> r.Raised?
  {
    if op in PathConfig then Returned(PathConfig[op]) else Raised(AttributeError("get"))
  }

  /** `Binance.__init__`: the futures URL unless the caller passes one. */
  function Init(key: string, secret: string, baseUrl: Kwarg<Option<string>>,
                showLimitUsage: Value, urls: Urls): (e: Exchange)
    ensures baseUrl.Omitted? && urls.binanceFutures != "" ==> e.baseUrl == Some(urls.binanceFutures)
    ensures baseUrl.Passed? ==> e.baseUrl == (if baseUrl.value == Some("") then None else baseUrl.value)
    ensures e.key == key && e.secret == secret
    ensures e.showLimitUsage <==> showLimitUsage == VBool(true)
  {
    ExchangeBase.Init("Binance", key, secret, None, DefaultBaseUrl(baseUrl, urls.binanceFutures), showLimitUsage)
  }

  /** `_get_sign`: the hex HMAC-SHA256 of the text `str(params)`. */
  function Sign(ex: Exchange, mac: Crypto.Mac, params: Dict): (s: string)
    ensures |s| == 64 && forall i :: 0 <= i < |s| ==> Hex.IsLowerHexDigit(s[i])
    ensures Hex.Decode(s) == Some(mac(Utf8.Encode(ex.secret), Utf8.Encode(DictRepr(params))))
  {
    Crypto.HexDigest(mac, ex.secret, DictRepr(params))
  }

  /** `sent` is `unsigned` plus a final `signature` entry holding the hex MAC
      of `str(unsigned)`: the signature covers everything but itself. */
  predicate SignedWith(ex: Exchange, mac: Crypto.Mac, sent: Dict, unsigned: Dict) {
    && |sent| == |unsigned| + 1
    && sent[..|unsigned|] == unsigned
    && sent[|unsigned|].0 == "signature"
    && sent[|unsigned|].1.VStr?
    && Hex.Decode(sent[|unsigned|].1.s) == Some(mac(Utf8.Encode(ex.secret), Utf8.Encode(DictRepr(unsigned))))
  }

  const ApiKeyHeader: string := "X-MBX-APIKEY"

  /** `_get_request_credentials`: the header holds only the API key; the
      signed params are `{**params, "signature": sign}`, so every original
      entry keeps its key, value and place, and a new `signature` key comes
      last. */
  function RequestCredentials(ex: Exchange, mac: Crypto.Mac, params: Dict): (r: (Headers, Dict))
    ensures r.0 == map[ApiKeyHeader := ex.key]
    ensures Get(r.1, "signature") == Some(VStr(Sign(ex, mac, params)))
    ensures forall k :: k != "signature" ==> Get(r.1, k) == Get(params, k)
    ensures Get(params, "signature").None? ==> SignedWith(ex, mac, r.1, params)
    ensures Distinct(params) ==> Distinct(r.1)
  {
    var sig := Sign(ex, mac, params);
    var signed := Put(params, "signature", VStr(sig));
    assert Distinct(params) ==> Distinct(signed) by {
      if Distinct(params) { PutDistinct(params, "signature", VStr(sig)); }
    }
    assert Get(params, "signature").None? ==> signed == params + [("signature", VStr(sig))] by {
      if Get(params, "signature").None? { PutNewAppends(params, "signature", VStr(sig)); }
    }
    assert Get(params, "signature").None? ==> signed[..|params|] == params;
    (map[ApiKeyHeader := ex.key], signed)
  }

  /** `_signed_request`: the request carries the signed params. */
  function SignedRequest(ex: Exchange, mac: Crypto.Mac, e: Endpoint, params: Dict): Request {
    var (header, signed) := RequestCredentials(ex, mac, params);
    Request(e.verb, e.path, Some(header), Some(Fields(signed)), None)
  }

  /** A signed façade call of operation `op`. */
  function SignedPlan(ex: Exchange, mac: Crypto.Mac, op: string, params: Dict): Plan {
    match Descriptor(op)
    case Raised(err) => Raises(err)
    case Returned(e) => Sends([SignedRequest(ex, mac, e, params)])
  }

  /** The one request a signed façade call sends: to the endpoint of `op`,
      with the key header and the params signed as `unsigned`. */
  predicate SendsSigned(ex: Exchange, mac: Crypto.Mac, p: Plan, e: Endpoint, unsigned: Dict) {
    && p.Sends? && |p.requests| == 1
    && var req := p.requests[0];
    && req.verb == e.verb && req.path == e.path
    && req.headers == Some(map[ApiKeyHeader := ex.key])
    && req.params.Some? && req.params.value.Fields?
    && SignedWith(ex, mac, req.params.value.dict, unsigned)
    && req.data.None?
  }

  /** The table entries of the signed read-only calls. */
  lemma SignedEndpoints()
    ensures PathConfig["get_balance"] == Endpoint("GET", "/fapi/v2/balance", 50)
    ensures PathConfig["get_closed_orders"] == Endpoint("GET", "/fapi/v1/allOrders", 50)
    ensures PathConfig["get_open_orders"] == Endpoint("GET", "/fapi/v1/openOrders", 50)
  {
  }

  /** A listed operation whose params hold no `signature` key sends one
      request, signed over exactly those params. */
  lemma SignedPlanSends(ex: Exchange, mac: Crypto.Mac, op: string, params: Dict)
    requires op in PathConfig
    requires forall i :: 0 <= i < |params| ==> params[i].0 != "signature"
    ensures SendsSigned(ex, mac, SignedPlan(ex, mac, op, params), PathConfig[op], params)
  {
    assert Get(params, "signature").None?;
  }

  function Ts(ts: nat): (string, Value) { ("timestamp", VInt(ts)) }

  /** `get_positions`: the endpoint name is missing from the table, so the
      call raises before anything is sent. */
  function GetPositions(ex: Exchange, mac: Crypto.Mac, symbol: string, ts: nat): (p: Plan)
    ensures p == Raises(AttributeError("get"))
  {
    SignedPlan(ex, mac, "get_positions", [("symbol", VStr(symbol)), Ts(ts)])
  }

  /** `cancel_orders`: likewise raises before anything is sent. */
  function CancelOrders(ex: Exchange, mac: Crypto.Mac, symbol: string, ts: nat): (p: Plan)
    ensures p == Raises(AttributeError("get"))
  {
    SignedPlan(ex, mac, "cancel_orders", [("symbol", VStr(symbol)), Ts(ts)])
  }

  /** `get_data` (no dataframe): a public request with the key header and
      unsigned params; `startMs`/`endMs` stand for the converted dates. */
  function GetData(ex: Exchange, symbol: string, interval: Value, startMs: int, endMs: int,
                   limit: Option<Value>, ts: nat): (p: Plan)
    ensures p.Sends? && |p.requests| == 1
    ensures p.requests[0] == Request("GET", "/fapi/v1/klines", Some(map[ApiKeyHeader := ex.key]),
      Some(Fields([("symbol", VStr(symbol)), ("interval", interval), Ts(ts),
                   ("limit", limit.GetOr(VInt(500))), ("startTime", VInt(startMs)), ("endTime", VInt(endMs))])),
      None)
  {
    var params := ([("symbol", VStr(symbol)), ("interval", interval), Ts(ts),
                             ("limit", limit.GetOr(VInt(500))), ("startTime", VInt(startMs)),
                             ("endTime", VInt(endMs))]);
    var e := PathConfig["get_data"];
    Sends([Request(e.verb, e.path, Some(map[ApiKeyHeader := ex.key]), Some(Fields(params)), None)])
  }

  /** `get_orderbook` (no dataframe): public, the key header, no signature. */
  function GetOrderbook(ex: Exchange, symbol: string, limit: Option<Value>): (p: Plan)
    ensures p.Sends? && |p.requests| == 1
    ensures p.requests[0] == Request("GET", "/fapi/v1/depth", Some(map[ApiKeyHeader := ex.key]),
      Some(Fields([("symbol", VStr(symbol)), ("limit", limit.GetOr(VInt(500)))])), None)
  {
    var params := ([("symbol", VStr(symbol)), ("limit", limit.GetOr(VInt(500)))]);
    var e := PathConfig["get_orderbook"];
    Sends([Request(e.verb, e.path, Some(map[ApiKeyHeader := ex.key]), Some(Fields(params)), None)])
  }

  /** `get_balance`: only the timestamp is signed. */
  function GetBalance(ex: Exchange, mac: Crypto.Mac, ts: nat): (p: Plan)
    ensures SendsSigned(ex, mac, p, Endpoint("GET", "/fapi/v2/balance", 50), [Ts(ts)])
  {
    SignedEndpoints();
    SignedPlanSends(ex, mac, "get_balance", [Ts(ts)]);
    SignedPlan(ex, mac, "get_balance", [Ts(ts)])
  }

  /** The params of `market_order`. */
  function MarketOrderParams(symbol: string, side: string, quantity: Value, ts: nat): Dict {
    ([("symbol", VStr(symbol)), ("side", VStr(Strings.Upper(side))), ("type", VStr("MARKET")),
               ("quantity", quantity), Ts(ts)])
  }

  /** `market_order`: a signed POST whose side is upper-cased and whose
      type is fixed to `MARKET`. */
  function MarketOrder(ex: Exchange, mac: Crypto.Mac, symbol: string, side: string, quantity: Value,
                       ts: nat): (p: Plan)
    ensures SendsSigned(ex, mac, p, Endpoint("POST", "/fapi/v1/order", 50),
      [("symbol", VStr(symbol)), ("side", VStr(Strings.Upper(side))), ("type", VStr("MARKET")),
       ("quantity", quantity), Ts(ts)])
  {
    var params := MarketOrderParams(symbol, side, quantity, ts);
    SignedPlanSends(ex, mac, "market_order", params);
    SignedPlan(ex, mac, "market_order", params)
  }

  /** The params of `limit_order`; `timeInForce` defaults to `GTC`. */
  function LimitOrderParams(symbol: string, side: string, quantity: Value, price: Value,
                            timeInForce: Option<Value>, ts: nat): Dict {
    ([("symbol", VStr(symbol)), ("side", VStr(Strings.Upper(side))), ("type", VStr("LIMIT")),
               ("quantity", quantity), ("price", price), ("timeInForce", timeInForce.GetOr(VStr("GTC"))),
               Ts(ts)])
  }

  /** `limit_order`: a signed POST to the same endpoint as `market_order`,
      side upper-cased, type `LIMIT`, time in force `GTC` unless given. */
  function LimitOrder(ex: Exchange, mac: Crypto.Mac, symbol: string, side: string, quantity: Value,
                      price: Value, timeInForce: Option<Value>, ts: nat): (p: Plan)
    ensures SendsSigned(ex, mac, p, Endpoint("POST", "/fapi/v1/order", 50),
      [("symbol", VStr(symbol)), ("side", VStr(Strings.Upper(side))), ("type", VStr("LIMIT")),
       ("quantity", quantity), ("price", price), ("timeInForce", timeInForce.GetOr(VStr("GTC"))), Ts(ts)])
  {
    var params := LimitOrderParams(symbol, side, quantity, price, timeInForce, ts);
    SignedPlanSends(ex, mac, "limit_order", params);
    SignedPlan(ex, mac, "limit_order", params)
  }

  /** `get_closed_orders`, request half: signed symbol and timestamp. */
  function GetClosedOrders(ex: Exchange, mac: Crypto.Mac, symbol: string, ts: nat): (p: Plan)
    ensures SendsSigned(ex, mac, p, Endpoint("GET", "/fapi/v1/allOrders", 50), [("symbol", VStr(symbol)), Ts(ts)])
  {
    SignedEndpoints();
    SignedPlanSends(ex, mac, "get_closed_orders", [("symbol", VStr(symbol)), Ts(ts)]);
    SignedPlan(ex, mac, "get_closed_orders", [("symbol", VStr(symbol)), Ts(ts)])
  }

  /** The test `order["status"] == "FILLED"`. */
  function IsFilled(order: Json): Outcome<bool> {
    match Item(order, "status")
    case Returned(v) => Returned(v == JStr("FILLED"))
    case Raised(e) => Raised(e)
  }

  /** An order whose status is `FILLED`: the selection the filter makes. */
  predicate Filled(order: Json) {
    order.JObj? && Field(order.fields, "status") == Some(JStr("FILLED"))
  }

  /** On orders that carry a status, the test answers as `Filled` does. */
  lemma IsFilledAgrees(items: seq<Json>)
    requires forall i :: 0 <= i < |items| ==> items[i].JObj? && Field(items[i].fields, "status").Some?
    ensures forall i :: 0 <= i < |items| ==> IsFilled(items[i]) == Returned(Filled(items[i]))
  {}

  /** `get_closed_orders`, reply half:
      `list(filter(lambda order: order["status"] == "FILLED", response))`.
      The result holds exactly the orders whose status is `FILLED`, in the
      order of the response; an order without a status raises `KeyError`,
      and a reply that is not a list of orders raises `TypeError` unless it
      is empty. */
  function ClosedOrders(response: Json): (r: Outcome<Json>)
    ensures response.JArr? && (forall i :: 0 <= i < |response.items| ==>
              response.items[i].JObj? && Field(response.items[i].fields, "status").Some?)
            ==> r.Returned? && r.value.JArr?
    ensures r.Returned? ==> r.value.JArr? && forall x :: x in r.value.items ==>
              x.JObj? && Field(x.fields, "status") == Some(JStr("FILLED"))
    ensures response.JArr? && r.Returned? ==> forall x :: x in r.value.items ==> x in response.items
    ensures response.JArr? && r.Returned? ==> forall x :: (x in response.items && x.JObj?
              && Field(x.fields, "status") == Some(JStr("FILLED"))) ==> x in r.value.items
    ensures response.JStr? && |response.s| > 0 ==> r == Raised(TypeError)
    ensures response.JArr? && (forall i :: 0 <= i < |response.items| ==>
              response.items[i].JObj? && Field(response.items[i].fields, "status").Some?)
            ==> r == Returned(JArr(Select(response.items, Filled)))
  {
    match Elements(response)
    case Raised(e) => Raised(e)
    case Returned(items) =>
      match Filter(items, IsFilled)
      case Raised(e) => Raised(e)
      case Returned(kept) =>
        KeptAreFilled(items, kept);
        assert response.JArr? && (forall i :: 0 <= i < |items| ==>
                 items[i].JObj? && Field(items[i].fields, "status").Some?)
               ==> kept == Select(items, Filled) by {
          if response.JArr? && (forall i :: 0 <= i < |items| ==>
               items[i].JObj? && Field(items[i].fields, "status").Some?) {
            IsFilledAgrees(items);
            FilterSelect(items, IsFilled, Filled);
          }
        }
        Returned(JArr(kept))
  }

  lemma KeptAreFilled(items: seq<Json>, kept: seq<Json>)
    requires Filter(items, IsFilled) == Returned(kept)
    ensures forall x :: x in kept ==> x.JObj? && Field(x.fields, "status") == Some(JStr("FILLED"))
    ensures forall x :: x in items && x.JObj? && Field(x.fields, "status") == Some(JStr("FILLED")) ==> x in kept
  {
    forall x | x in items && x.JObj? && Field(x.fields, "status") == Some(JStr("FILLED"))
      ensures x in kept
    {
      FilterKeepsPassing(items, IsFilled, x);
    }
  }

  /** `get_open_orders`: signed symbol and timestamp, reply returned as is. */
  function GetOpenOrders(ex: Exchange, mac: Crypto.Mac, symbol: string, ts: nat): (p: Plan)
    ensures SendsSigned(ex, mac, p, Endpoint("GET", "/fapi/v1/openOrders", 50), [("symbol", VStr(symbol)), Ts(ts)])
  {
    SignedEndpoints();
    SignedPlanSends(ex, mac, "get_open_orders", [("symbol", VStr(symbol)), Ts(ts)]);
    SignedPlan(ex, mac, "get_open_orders", [("symbol", VStr(symbol)), Ts(ts)])
  }
}
