/** The Phemex client: every call, public or private, is signed over
    `path + str(params) + timestamp` and carries the key and the hex
    signature in two `x-phemex-*` headers. */
module Phemex {

  import opened Prelude
  import opened PyValue
  import opened Json
  import opened ExchangeBase
  import Crypto
  import Hex
  import Utf8
  import Decimal

  /** `Phemex.__init__`: the futures URL unless the caller passes one. */
  function Init(key: string, secret: string, baseUrl: Kwarg<Option<string>>, showLimitUsage: Value,
                urls: Urls): (e: Exchange)
    ensures baseUrl.Omitted? && urls.phemexFutures != "" ==> e.baseUrl == Some(urls.phemexFutures)
    ensures baseUrl.Passed? ==> e.baseUrl == (if baseUrl.value == Some("") then None else baseUrl.value)
    ensures e.key == key && e.secret == secret
    ensures e.showLimitUsage <==> showLimitUsage == VBool(true)
  {
    ExchangeBase.Init("Phemex", key, secret, None, DefaultBaseUrl(baseUrl, urls.phemexFutures), showLimitUsage)
  }

  // ---------------------------------------------------------------------
  // Signing

  /** The `params` argument of `_get_request_credentials`: a dict, or the
      empty text `get_balance` passes. */
  datatype SignedParams = DictParams(dict: Dict) | TextParams(text: string)

  /** `str(params)`. */
  function ParamsText(p: SignedParams): string {
    match p
    case DictParams(d) => DictRepr(d)
    case TextParams(t) => t
  }

  /** The text `_get_request_credentials` signs. */
  function SignText(path: string, params: SignedParams, clock: nat): string {
    path + ParamsText(params) + Decimal.Show(clock)
  }

  /** `_get_sign`: the hex HMAC-SHA256 of the text under the secret. */
  function GetSign(ex: Exchange, mac: Crypto.Mac, text: string): (s: string)
    ensures |s| == 64 && forall i :: 0 <= i < |s| ==> Hex.IsLowerHexDigit(s[i])
    ensures Hex.Decode(s) == Some(mac(Utf8.Encode(ex.secret), Utf8.Encode(text)))
  {
    Crypto.HexDigest(mac, ex.secret, text)
  }

  /** `_get_sign` as written: `super().secret` raises, because the secret
      lives on the instance. */
  function GetSignAsWritten(ex: Exchange, mac: Crypto.Mac, text: string): (r: Outcome<string>)
    ensures r == Raised(AttributeError("secret"))
  {
    match SuperAttribute("secret")
    case Raised(e) => Raised(e)
    case Returned(_) => Returned(GetSign(ex, mac, text))
  }

  /** For every text the code as written raises where the intended
      `_get_sign` returns a digest that decodes to the MAC. */
  lemma SuperSecretNeverSigns(ex: Exchange, mac: Crypto.Mac, text: string)
    ensures GetSignAsWritten(ex, mac, text).Raised?
    ensures Hex.Decode(GetSign(ex, mac, text)) == Some(mac(Utf8.Encode(ex.secret), Utf8.Encode(text)))
  {
  }

  const TokenHeader: string := "x-phemex-access-token"
  const SignatureHeader: string := "x-phemex-request-signature"

  /** `_get_request_credentials`: exactly the key and the signature. */
  function RequestCredentials(ex: Exchange, mac: Crypto.Mac, path: string, params: SignedParams, clock: nat)
    : (h: Headers)
    ensures h.Keys == {TokenHeader, SignatureHeader}
    ensures h[TokenHeader] == ex.key
    ensures |h[SignatureHeader]| == 64
    ensures Hex.Decode(h[SignatureHeader])
            == Some(mac(Utf8.Encode(ex.secret), Utf8.Encode(path + ParamsText(params) + Decimal.Show(clock))))
  {
    map[TokenHeader := ex.key, SignatureHeader := GetSign(ex, mac, SignText(path, params, clock))]
  }

  /** The request's signature covers its own path, the rendering of the
      dict it sends (as query or body) and the timestamp: the path signed
      is the path sent. */
  predicate SignedAsSent(ex: Exchange, mac: Crypto.Mac, req: Request, sent: Dict, clock: nat) {
    && req.headers.Some?
    && req.headers.value.Keys == {TokenHeader, SignatureHeader}
    && req.headers.value[TokenHeader] == ex.key
    && Hex.Decode(req.headers.value[SignatureHeader])
       == Some(mac(Utf8.Encode(ex.secret), Utf8.Encode(req.path + DictRepr(sent) + Decimal.Show(clock))))
  }

  /** A call that sends `params` as the query, signed with the same path. */
  function SignedQuery(ex: Exchange, mac: Crypto.Mac, verb: string, path: string, params: Dict, clock: nat)
    : (req: Request)
    ensures req.verb == verb && req.path == path
    ensures req.params == Some(Fields(params)) && req.data.None?
    ensures SignedAsSent(ex, mac, req, params, clock)
  {
    Request(verb, path, Some(RequestCredentials(ex, mac, path, DictParams(params), clock)), Some(Fields(params)), None)
  }

  /** A call that sends `payload` as the body, signed with the same path. */
  function SignedBody(ex: Exchange, mac: Crypto.Mac, verb: string, path: string, payload: Dict, clock: nat)
    : (req: Request)
    ensures req.verb == verb && req.path == path
    ensures req.params.None? && req.data == Some(Fields(payload))
    ensures SignedAsSent(ex, mac, req, payload, clock)
  {
    Request(verb, path, Some(RequestCredentials(ex, mac, path, DictParams(payload), clock)), None, Some(Fields(payload)))
  }

  // ---------------------------------------------------------------------
  // Façade methods

  /** A guarded query call: `None` for a falsy symbol, else one signed
      request of `params` to `path`. */
  predicate QueriesWhenTruthy(ex: Exchange, mac: Crypto.Mac, p: Plan, symbol: Value, verb: string, path: string,
                              params: Dict, clock: nat) {
    && (!PyValue.Truthy(symbol) <==> p == ReturnsNone)
    && (PyValue.Truthy(symbol) ==>
          && p.Sends? && |p.requests| == 1
          && p.requests[0].verb == verb && p.requests[0].path == path
          && p.requests[0].params == Some(Fields(params)) && p.requests[0].data.None?
          && SignedAsSent(ex, mac, p.requests[0], params, clock))
  }

  /** `get_positions`: the path is the text `'accounts/positions'`, quotes
      included and without a leading slash, in both the signature and the
      URL. */
  function GetPositions(ex: Exchange, mac: Crypto.Mac, symbol: Value, clock: nat): (p: Plan)
    ensures QueriesWhenTruthy(ex, mac, p, symbol, "GET", "'accounts/positions'", [("symbol", symbol)], clock)
  {
    if !PyValue.Truthy(symbol) then ReturnsNone
    else Sends([SignedQuery(ex, mac, "GET", "'accounts/positions'", [("symbol", symbol)], clock)])
  }

  /** `cancel_orders`: symbol and `untriggered` (`None` by default). */
  function CancelOrders(ex: Exchange, mac: Crypto.Mac, symbol: Value, unTriggered: Option<Value>, clock: nat)
    : (p: Plan)
    ensures QueriesWhenTruthy(ex, mac, p, symbol, "DELETE", "/spot/orders/all",
                              [("symbol", symbol), ("untriggered", unTriggered.GetOr(VNone))], clock)
  {
    var params := [("symbol", symbol), ("untriggered", unTriggered.GetOr(VNone))];
    if !PyValue.Truthy(symbol) then ReturnsNone
    else Sends([SignedQuery(ex, mac, "DELETE", "/spot/orders/all", params, clock)])
  }

  /** `get_data`: the 24-hour ticker of the symbol. */
  function GetData(ex: Exchange, mac: Crypto.Mac, symbol: Value, clock: nat): (p: Plan)
    ensures QueriesWhenTruthy(ex, mac, p, symbol, "GET", "/md/spot/ticker/24hr", [("symbol", symbol)], clock)
  {
    if !PyValue.Truthy(symbol) then ReturnsNone
    else Sends([SignedQuery(ex, mac, "GET", "/md/spot/ticker/24hr", [("symbol", symbol)], clock)])
  }

  /** `get_orderbook`: the order book of the symbol. */
  function GetOrderbook(ex: Exchange, mac: Crypto.Mac, symbol: Value, clock: nat): (p: Plan)
    ensures QueriesWhenTruthy(ex, mac, p, symbol, "GET", "/md/orderbook", [("symbol", symbol)], clock)
  {
    if !PyValue.Truthy(symbol) then ReturnsNone
    else Sends([SignedQuery(ex, mac, "GET", "/md/orderbook", [("symbol", symbol)], clock)])
  }

  const BalancePath: string := "accounts/accountPositions"

  /** `get_balance`, request half: unguarded; the empty text stands for the
      params in the signature, and nothing but the headers is sent. */
  function GetBalance(ex: Exchange, mac: Crypto.Mac, clock: nat): (p: Plan)
    ensures p.Sends? && |p.requests| == 1
    ensures var req := p.requests[0];
      && req.verb == "GET" && req.path == BalancePath && req.params.None? && req.data.None?
      && req.headers.Some? && req.headers.value.Keys == {TokenHeader, SignatureHeader}
      && Hex.Decode(req.headers.value[SignatureHeader])
         == Some(mac(Utf8.Encode(ex.secret), Utf8.Encode(req.path + Decimal.Show(clock))))
  {
    var h := RequestCredentials(ex, mac, BalancePath, TextParams(""), clock);
    assert BalancePath + "" == BalancePath;
    Sends([Request("GET", BalancePath, Some(h), None, None)])
  }

  /** `get_balance`, reply half: only the `data` field of the reply; an
      error text or a reply without `data` raises. */
  function Balance(reply: Reply): (r: Outcome<Json>)
    ensures reply.Decoded? && reply.value.JObj? && Field(reply.value.fields, "data").Some? ==>
      r == Returned(Field(reply.value.fields, "data").value)
    ensures reply.Decoded? && reply.value.JObj? && Field(reply.value.fields, "data").None? ==>
      r == Raised(KeyError("data"))
    ensures reply.ErrorText? ==> r == Raised(TypeError)
  {
    Item(AsPython(reply), "data")
  }

  /** The payload of `market_order`, with `ByBase`, 0 and 0 as defaults. */
  function MarketPayload(symbol: Value, side: Value, qtyType: Option<Value>, quoteQtyEv: Option<Value>,
                         baseQtyEv: Option<Value>): Dict
  {
    [("symbol", symbol), ("side", side), ("ordType", VStr("Market")), ("qtyType", qtyType.GetOr(VStr("ByBase"))),
     ("quoteQtyEv", quoteQtyEv.GetOr(VInt(0))), ("baseQtyEv", baseQtyEv.GetOr(VInt(0)))]
  }

  /** The payload of `limit_order`: the market one with `Limit` and a time in
      force, `GoodTillCancel` by default. */
  function LimitPayload(symbol: Value, side: Value, qtyType: Option<Value>, quoteQtyEv: Option<Value>,
                        baseQtyEv: Option<Value>, timeInForce: Option<Value>): Dict
  {
    [("symbol", symbol), ("side", side), ("ordType", VStr("Limit")), ("qtyType", qtyType.GetOr(VStr("ByBase"))),
     ("quoteQtyEv", quoteQtyEv.GetOr(VInt(0))), ("baseQtyEv", baseQtyEv.GetOr(VInt(0))),
     ("timeInForce", timeInForce.GetOr(VStr("GoodTillCancel")))]
  }

  /** What `get` finds in the limit payload under the keys with defaults. */
  lemma LimitDefaults(symbol: Value, side: Value, qtyType: Option<Value>, quoteQtyEv: Option<Value>,
                      baseQtyEv: Option<Value>, timeInForce: Option<Value>)
    ensures var d := LimitPayload(symbol, side, qtyType, quoteQtyEv, baseQtyEv, timeInForce);
      && Get(d, "ordType") == Some(VStr("Limit"))
      && Get(d, "qtyType") == Some(qtyType.GetOr(VStr("ByBase")))
      && Get(d, "timeInForce") == Some(timeInForce.GetOr(VStr("GoodTillCancel")))
  {
    var d := LimitPayload(symbol, side, qtyType, quoteQtyEv, baseQtyEv, timeInForce);
    assert Distinct(d);
    GetEntry(d, 2);
    GetEntry(d, 3);
    GetEntry(d, 6);
  }

  /** A guarded order call: `None` for a falsy symbol, else one signed POST
      of the payload to `/spot/orders`. */
  predicate PostsWhenTruthy(ex: Exchange, mac: Crypto.Mac, p: Plan, symbol: Value, payload: Dict, clock: nat) {
    && (!PyValue.Truthy(symbol) <==> p == ReturnsNone)
    && (PyValue.Truthy(symbol) ==>
          && p.Sends? && |p.requests| == 1
          && p.requests[0].verb == "POST" && p.requests[0].path == "/spot/orders"
          && p.requests[0].params.None? && p.requests[0].data == Some(Fields(payload))
          && SignedAsSent(ex, mac, p.requests[0], payload, clock))
  }

  /** `market_order`: order type `Market`, quantity type `ByBase` unless
      given. */
  function MarketOrder(ex: Exchange, mac: Crypto.Mac, symbol: Value, side: Value, qtyType: Option<Value>,
                       quoteQtyEv: Option<Value>, baseQtyEv: Option<Value>, clock: nat): (p: Plan)
    ensures PostsWhenTruthy(ex, mac, p, symbol, MarketPayload(symbol, side, qtyType, quoteQtyEv, baseQtyEv), clock)
    ensures var d := MarketPayload(symbol, side, qtyType, quoteQtyEv, baseQtyEv);
      && Get(d, "ordType") == Some(VStr("Market"))
      && (qtyType.None? ==> Get(d, "qtyType") == Some(VStr("ByBase")))
  {
    var payload := MarketPayload(symbol, side, qtyType, quoteQtyEv, baseQtyEv);
    GetEntry(payload, 2);
    GetEntry(payload, 3);
    if !PyValue.Truthy(symbol) then ReturnsNone
    else Sends([SignedBody(ex, mac, "POST", "/spot/orders", payload, clock)])
  }

  /** `limit_order`: order type `Limit`, quantity type `ByBase` and time in
      force `GoodTillCancel` unless given. */
  function LimitOrder(ex: Exchange, mac: Crypto.Mac, symbol: Value, side: Value, qtyType: Option<Value>,
                      quoteQtyEv: Option<Value>, baseQtyEv: Option<Value>, timeInForce: Option<Value>, clock: nat)
    : (p: Plan)
    ensures PostsWhenTruthy(ex, mac, p, symbol,
                            LimitPayload(symbol, side, qtyType, quoteQtyEv, baseQtyEv, timeInForce), clock)
    ensures var d := LimitPayload(symbol, side, qtyType, quoteQtyEv, baseQtyEv, timeInForce);
      && Get(d, "ordType") == Some(VStr("Limit"))
      && (qtyType.None? ==> Get(d, "qtyType") == Some(VStr("ByBase")))
      && (timeInForce.None? ==> Get(d, "timeInForce") == Some(VStr("GoodTillCancel")))
  {
    var payload := LimitPayload(symbol, side, qtyType, quoteQtyEv, baseQtyEv, timeInForce);
    LimitDefaults(symbol, side, qtyType, quoteQtyEv, baseQtyEv, timeInForce);
    if !PyValue.Truthy(symbol) then ReturnsNone
    else Sends([SignedBody(ex, mac, "POST", "/spot/orders", payload, clock)])
  }

  /** `get_closed_orders`: the orders of the symbol with status `Filled`. */
  function GetClosedOrders(ex: Exchange, mac: Crypto.Mac, symbol: Value, clock: nat): (p: Plan)
    ensures QueriesWhenTruthy(ex, mac, p, symbol, "GET", "/exchange/spot/order",
                              [("symbol", symbol), ("ordStatus", VStr("Filled"))], clock)
  {
    var params := [("symbol", symbol), ("ordStatus", VStr("Filled"))];
    if !PyValue.Truthy(symbol) then ReturnsNone
    else Sends([SignedQuery(ex, mac, "GET", "/exchange/spot/order", params, clock)])
  }

  /** `get_open_orders`: the open orders of the symbol. */
  function GetOpenOrders(ex: Exchange, mac: Crypto.Mac, symbol: Value, clock: nat): (p: Plan)
    ensures QueriesWhenTruthy(ex, mac, p, symbol, "GET", "/spot/orders", [("symbol", symbol)], clock)
  {
    if !PyValue.Truthy(symbol) then ReturnsNone
    else Sends([SignedQuery(ex, mac, "GET", "/spot/orders", [("symbol", symbol)], clock)])
  }
}
