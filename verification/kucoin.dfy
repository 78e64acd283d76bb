/** The Kucoin futures client: the signed text is
    `timestamp + method + path + data` (the query is never part of it); the
    signature and the pass phrase are both sent as base64 HMACs, next to a
    timestamp header that comes from a second clock reading. */
module Kucoin {

  import opened Prelude
  import opened PyValue
  import opened ExchangeBase
  import Crypto
  import Base64
  import Utf8
  import Decimal

  const DefaultUrl: string := "https://api-futures.kucoin.com"

  /** `Kucoin.__init__`: the futures URL unless the caller passes one. */
  function Init(key: string, secret: string, passPhrase: Option<string>, baseUrl: Kwarg<Option<string>>,
                showLimitUsage: Value): (e: Exchange)
    ensures baseUrl.Omitted? ==> e.baseUrl == Some(DefaultUrl)
    ensures baseUrl.Passed? ==> e.baseUrl == (if baseUrl.value == Some("") then None else baseUrl.value)
    ensures e.key == key && e.secret == secret && e.passPhrase == passPhrase
    ensures e.showLimitUsage <==> showLimitUsage == VBool(true)
  {
    ExchangeBase.Init("Kucoin", key, secret, passPhrase, DefaultBaseUrl(baseUrl, DefaultUrl), showLimitUsage)
  }

  // ---------------------------------------------------------------------
  // Signing

  /** The two base64 values `_get_sign` returns. */
  datatype Signature = Signature(sign: string, passphrase: string)

  /** A base64 text of one 32-byte digest: 44 characters, the last one the
      only `=`. */
  predicate DigestShaped(s: string) {
    |s| == 44 && s[43] == '=' && forall i :: 0 <= i < 43 ==> s[i] != '='
  }

  /** `_get_sign`: the base64 HMAC of the text, and the base64 HMAC of the
      pass phrase under the same secret; without a pass phrase,
      `None.encode` raises. */
  function GetSign(ex: Exchange, mac: Crypto.Mac, text: string): (r: Outcome<Signature>)
    ensures r.Raised? <==> ex.passPhrase.None?
    ensures r.Raised? ==> r.error == AttributeError("encode")
    ensures r.Returned? ==>
      && DigestShaped(r.value.sign) && DigestShaped(r.value.passphrase)
      && Base64.Decode(r.value.sign) == Some(mac(Utf8.Encode(ex.secret), Utf8.Encode(text)))
      && Base64.Decode(r.value.passphrase)
         == Some(mac(Utf8.Encode(ex.secret), Utf8.Encode(ex.passPhrase.value)))
  {
    var sign := Crypto.Base64Digest(mac, ex.secret, text);
    match ex.passPhrase
    case None => Raised(AttributeError("encode"))
    case Some(phrase) => Returned(Signature(sign, Crypto.Base64Digest(mac, ex.secret, phrase)))
  }

  /** `_get_sign` as written: `super().secret` raises before any HMAC is
      computed, because the secret lives on the instance. */
  function GetSignAsWritten(ex: Exchange, mac: Crypto.Mac, text: string): (r: Outcome<Signature>)
    ensures r == Raised(AttributeError("secret"))
  {
    match SuperAttribute("secret")
    case Raised(e) => Raised(e)
    case Returned(_) => GetSign(ex, mac, text)
  }

  /** Whatever the instance holds, the code as written never signs, where
      the intended `_get_sign` signs whenever a pass phrase is set. */
  lemma SuperSecretNeverSigns(ex: Exchange, mac: Crypto.Mac, text: string)
    requires ex.passPhrase.Some?
    ensures GetSignAsWritten(ex, mac, text).Raised?
    ensures GetSign(ex, mac, text).Returned?
  {
  }

  const SignHeader: string := "KC-API-SIGN"
  const TimestampHeader: string := "KC-API-TIMESTAMP"
  const KeyHeader: string := "KC-API-KEY"
  const PassphraseHeader: string := "KC-API-PASSPHRASE"
  const VersionHeader: string := "KC-API-KEY-VERSION"

  const HeaderNames: set<string> := {SignHeader, TimestampHeader, KeyHeader, PassphraseHeader, VersionHeader}

  /** The text `_get_request_credentials` signs: first clock reading, verb,
      path and data; nothing else. */
  function SignText(signedClock: nat, verb: string, path: string, data: string): string {
    Decimal.Show(signedClock) + verb + path + data
  }

  /** `_get_request_credentials`: exactly five headers; the signature covers
      the first clock reading while `KC-API-TIMESTAMP` shows the second;
      the pass phrase is sent only as its HMAC. */
  function RequestCredentials(ex: Exchange, mac: Crypto.Mac, verb: string, path: string, data: string,
                              signedClock: nat, headerClock: nat): (r: Outcome<Headers>)
    ensures r.Raised? <==> ex.passPhrase.None?
    ensures r.Raised? ==> r.error == AttributeError("encode")
    ensures r.Returned? ==>
      var h := r.value;
      && h.Keys == HeaderNames
      && h[KeyHeader] == ex.key && h[VersionHeader] == "2"
      && h[TimestampHeader] == Decimal.Show(headerClock)
      && DigestShaped(h[SignHeader]) && DigestShaped(h[PassphraseHeader])
      && Base64.Decode(h[SignHeader])
         == Some(mac(Utf8.Encode(ex.secret), Utf8.Encode(SignText(signedClock, verb, path, data))))
      && Base64.Decode(h[PassphraseHeader])
         == Some(mac(Utf8.Encode(ex.secret), Utf8.Encode(ex.passPhrase.value)))
  {
    match GetSign(ex, mac, SignText(signedClock, verb, path, data))
    case Raised(e) => Raised(e)
    case Returned(s) =>
      Returned(map[SignHeader := s.sign, TimestampHeader := Decimal.Show(headerClock), KeyHeader := ex.key,
                   PassphraseHeader := s.passphrase, VersionHeader := "2"])
  }

  /** The timestamp header shows the signed timestamp exactly when the two
      clock readings agree. */
  lemma TimestampsAgree(ex: Exchange, mac: Crypto.Mac, verb: string, path: string, data: string,
                        signedClock: nat, headerClock: nat)
    requires ex.passPhrase.Some?
    ensures var h := RequestCredentials(ex, mac, verb, path, data, signedClock, headerClock).value;
      Decimal.Parse(h[TimestampHeader]) == Some(headerClock) &&
      (h[TimestampHeader] == Decimal.Show(signedClock) <==> signedClock == headerClock)
  {
    Decimal.ParseShow(headerClock);
    Decimal.ShowInjective(signedClock, headerClock);
  }

  /** One authenticated call: credentials for `(verb, path, signedData)`,
      then the request; a missing pass phrase raises before sending. */
  function Authenticated(ex: Exchange, mac: Crypto.Mac, verb: string, path: string, signedData: string,
                         params: Option<Body>, data: Option<Body>, signedClock: nat, headerClock: nat)
    : (p: Plan)
    ensures p.Raises? <==> ex.passPhrase.None?
    ensures p.Raises? ==> p.error == AttributeError("encode")
    ensures p.Sends? ==> p.requests == [Request(verb, path,
      Some(RequestCredentials(ex, mac, verb, path, signedData, signedClock, headerClock).value), params, data)]
  {
    match RequestCredentials(ex, mac, verb, path, signedData, signedClock, headerClock)
    case Raised(e) => Raises(e)
    case Returned(h) => Sends([Request(verb, path, Some(h), params, data)])
  }

  /** A plan that sends one request whose signature covers `text`. */
  predicate SignsOver(ex: Exchange, mac: Crypto.Mac, p: Plan, text: string) {
    && p.Sends? && |p.requests| == 1
    && p.requests[0].headers.Some? && SignHeader in p.requests[0].headers.value
    && Base64.Decode(p.requests[0].headers.value[SignHeader])
       == Some(mac(Utf8.Encode(ex.secret), Utf8.Encode(text)))
  }

  /** A query call: without a pass phrase it raises; otherwise it sends one
      request with `params` as the query and a signature over verb and path
      alone. */
  predicate SendsUnsignedQuery(ex: Exchange, mac: Crypto.Mac, p: Plan, verb: string, path: string, params: Dict,
                               signedClock: nat) {
    && (ex.passPhrase.None? ==> p == Raises(AttributeError("encode")))
    && (ex.passPhrase.Some? ==>
          && SignsOver(ex, mac, p, SignText(signedClock, verb, path, ""))
          && p.requests[0].verb == verb && p.requests[0].path == path
          && p.requests[0].params == Some(Fields(params)) && p.requests[0].data.None?)
  }

  // ---------------------------------------------------------------------
  // Façade methods

  /** `get_positions`: a falsy symbol returns `None`; otherwise a GET whose
      symbol goes in the query and is not signed. */
  function GetPositions(ex: Exchange, mac: Crypto.Mac, symbol: Value, signedClock: nat, headerClock: nat)
    : (p: Plan)
    ensures !Truthy(symbol) ==> p == ReturnsNone
    ensures Truthy(symbol) ==>
      SendsUnsignedQuery(ex, mac, p, "GET", "/api/v1/position", [("symbol", symbol)], signedClock)
  {
    if !Truthy(symbol) then ReturnsNone
    else
      Authenticated(ex, mac, "GET", "/api/v1/position", "", Some(Fields([("symbol", symbol)])), None,
                    signedClock, headerClock)
  }

  /** The query is never signed: two `get_positions` calls for different
      symbols at the same clock readings carry identical headers. */
  lemma QueryNotSigned(ex: Exchange, mac: Crypto.Mac, a: Value, b: Value, signedClock: nat, headerClock: nat)
    requires Truthy(a) && Truthy(b) && ex.passPhrase.Some?
    ensures GetPositions(ex, mac, a, signedClock, headerClock).Sends?
    ensures GetPositions(ex, mac, a, signedClock, headerClock).requests[0].headers
         == GetPositions(ex, mac, b, signedClock, headerClock).requests[0].headers
  {
  }

  /** `cancel_orders`: a DELETE whose symbol goes in the query, unsigned. */
  function CancelOrders(ex: Exchange, mac: Crypto.Mac, symbol: Value, signedClock: nat, headerClock: nat)
    : (p: Plan)
    ensures !Truthy(symbol) ==> p == ReturnsNone
    ensures Truthy(symbol) ==>
      SendsUnsignedQuery(ex, mac, p, "DELETE", "/api/v1/orders", [("symbol", symbol)], signedClock)
  {
    if !Truthy(symbol) then ReturnsNone
    else
      Authenticated(ex, mac, "DELETE", "/api/v1/orders", "", Some(Fields([("symbol", symbol)])), None,
                    signedClock, headerClock)
  }

  /** `from` and `to` are new keys of the symbol and granularity query, so
      they are appended in that order. */
  lemma FrameAppends(params: Dict, from: Value, to: Value)
    requires Keys(params) == ["symbol", "granularity"]
    ensures Put(Put(params, "from", from), "to", to) == params + [("from", from), ("to", to)]
  {
    assert params[0].0 == "symbol" && params[1].0 == "granularity";
    assert Get(params, "from").None?;
    PutNewAppends(params, "from", from);
    var withFrom := params + [("from", from)];
    assert withFrom[2].0 == "from";
    assert Get(withFrom, "to").None?;
    PutNewAppends(withFrom, "to", to);
  }

  /** The query of `get_data`: symbol and granularity, then `from` and `to`
      only for a time frame of exactly two instants. `toMillis` stands for
      the floating-point `timestamp() * 1000`. */
  function KlineParams(symbol: Value, interval: Value, timeFrame: seq<Value>, toMillis: Value -> Value)
    : (d: Dict)
    ensures Get(d, "symbol") == Some(symbol)
    ensures |timeFrame| == 2 <==> Get(d, "from").Some?
    ensures |timeFrame| == 2 <==> Get(d, "to").Some?
    ensures |timeFrame| == 2 ==>
      Get(d, "from") == Some(toMillis(timeFrame[0])) && Get(d, "to") == Some(toMillis(timeFrame[1]))
    ensures |timeFrame| != 2 ==> d == [("symbol", symbol), ("granularity", interval)]
    ensures |timeFrame| == 2 ==> d == [("symbol", symbol), ("granularity", interval),
                                       ("from", toMillis(timeFrame[0])), ("to", toMillis(timeFrame[1]))]
  {
    var params := [("symbol", symbol), ("granularity", interval)];
    if |timeFrame| == 2 then
      var from, to := toMillis(timeFrame[0]), toMillis(timeFrame[1]);
      FrameAppends(params, from, to);
      Put(Put(params, "from", from), "to", to)
    else params
  }

  /** `get_data`: `None` for a falsy symbol or interval (15 by default);
      otherwise a GET of the kline query, whose params are not signed. */
  function GetData(ex: Exchange, mac: Crypto.Mac, symbol: Value, interval: Option<Value>, timeFrame: seq<Value>,
                   toMillis: Value -> Value, signedClock: nat, headerClock: nat): (p: Plan)
    ensures !Truthy(symbol) || !Truthy(interval.GetOr(VInt(15))) <==> p == ReturnsNone
    ensures Truthy(symbol) && Truthy(interval.GetOr(VInt(15))) ==>
      SendsUnsignedQuery(ex, mac, p, "GET", "/api/v1/kline/query",
                         KlineParams(symbol, interval.GetOr(VInt(15)), timeFrame, toMillis), signedClock)
  {
    var granularity := interval.GetOr(VInt(15));
    if !Truthy(symbol) then ReturnsNone
    else if !Truthy(granularity) then ReturnsNone
    else
      Authenticated(ex, mac, "GET", "/api/v1/kline/query", "",
                    Some(Fields(KlineParams(symbol, granularity, timeFrame, toMillis))), None,
                    signedClock, headerClock)
  }

  /** `get_orderbook`: a GET of the level-2 snapshot, symbol unsigned. */
  function GetOrderbook(ex: Exchange, mac: Crypto.Mac, symbol: Value, signedClock: nat, headerClock: nat)
    : (p: Plan)
    ensures !Truthy(symbol) ==> p == ReturnsNone
    ensures Truthy(symbol) ==>
      SendsUnsignedQuery(ex, mac, p, "GET", "/api/v1/level2/snapshot", [("symbol", symbol)], signedClock)
  {
    if !Truthy(symbol) then ReturnsNone
    else
      Authenticated(ex, mac, "GET", "/api/v1/level2/snapshot", "", Some(Fields([("symbol", symbol)])), None,
                    signedClock, headerClock)
  }

  /** `get_balance`: the credentials are computed, then the private helper
      is called with one argument too few for `_get_request_credentials`,
      so nothing is ever sent. */
  function GetBalance(ex: Exchange, mac: Crypto.Mac, signedClock: nat, headerClock: nat): (p: Plan)
    ensures ex.passPhrase.None? ==> p == Raises(AttributeError("encode"))
    ensures ex.passPhrase.Some? ==> p == Raises(TypeError)
  {
    match RequestCredentials(ex, mac, "GET", "/api/v1/account-overview", "", signedClock, headerClock)
    case Raised(e) => Raises(e)
    case Returned(_) => Raises(TypeError)
  }

  /** The payload of `market_order`. */
  function MarketPayload(clientId: Value, symbol: Value, side: Value, quantity: Value): Dict {
    [("clientOid", clientId), ("symbol", symbol), ("side", side), ("type", VStr("market")), ("size", quantity)]
  }

  /** The payload of `limit_order`, with `GTC` and `False` as the defaults of
      time in force and post-only. */
  function LimitPayload(clientId: Value, symbol: Value, side: Value, price: Value, quantity: Value,
                        timeInForce: Option<Value>, postOnly: Option<Value>): Dict
  {
    [("clientOid", clientId), ("symbol", symbol), ("side", side), ("price", price), ("type", VStr("limit")),
     ("size", quantity), ("timeInForce", timeInForce.GetOr(VStr("GTC"))),
     ("postOnly", postOnly.GetOr(VBool(false)))]
  }

  /** An order POST: the payload is the body and `str(payload)` is the
      signed data. */
  function OrderPost(ex: Exchange, mac: Crypto.Mac, payload: Dict, signedClock: nat, headerClock: nat)
    : (p: Plan)
    ensures p.Sends? ==> |p.requests| == 1 && p.requests[0].data == Some(Fields(payload))
    ensures p.Sends? ==> p.requests[0].verb == "POST" && p.requests[0].path == "/api/v1/orders"
                         && p.requests[0].params.None?
    ensures p.Sends? ==> SignsOver(ex, mac, p, SignText(signedClock, "POST", "/api/v1/orders", DictRepr(payload)))
    ensures p.Raises? <==> ex.passPhrase.None?
  {
    Authenticated(ex, mac, "POST", "/api/v1/orders", DictRepr(payload), None, Some(Fields(payload)),
                  signedClock, headerClock)
  }

  /** `market_order`: `None` for a falsy symbol, else the order POST. */
  function MarketOrder(ex: Exchange, mac: Crypto.Mac, clientId: Value, symbol: Value, side: Value,
                       quantity: Value, signedClock: nat, headerClock: nat): (p: Plan)
    ensures !Truthy(symbol) ==> p == ReturnsNone
    ensures Truthy(symbol) ==>
      p == OrderPost(ex, mac, MarketPayload(clientId, symbol, side, quantity), signedClock, headerClock)
    ensures Get(MarketPayload(clientId, symbol, side, quantity), "type") == Some(VStr("market"))
  {
    var payload := MarketPayload(clientId, symbol, side, quantity);
    GetEntry(payload, 3);
    if !Truthy(symbol) then ReturnsNone
    else OrderPost(ex, mac, payload, signedClock, headerClock)
  }

  /** `limit_order`: `None` for a falsy symbol, else the order POST. */
  function LimitOrder(ex: Exchange, mac: Crypto.Mac, clientId: Value, symbol: Value, side: Value, price: Value,
                      quantity: Value, timeInForce: Option<Value>, postOnly: Option<Value>, signedClock: nat,
                      headerClock: nat): (p: Plan)
    ensures !Truthy(symbol) ==> p == ReturnsNone
    ensures Truthy(symbol) ==>
      p == OrderPost(ex, mac, LimitPayload(clientId, symbol, side, price, quantity, timeInForce, postOnly),
                     signedClock, headerClock)
    ensures var d := LimitPayload(clientId, symbol, side, price, quantity, timeInForce, postOnly);
      && Get(d, "type") == Some(VStr("limit"))
      && (timeInForce.None? ==> Get(d, "timeInForce") == Some(VStr("GTC")))
      && (postOnly.None? ==> Get(d, "postOnly") == Some(VBool(false)))
  {
    var payload := LimitPayload(clientId, symbol, side, price, quantity, timeInForce, postOnly);
    GetEntry(payload, 4);
    GetEntry(payload, 6);
    GetEntry(payload, 7);
    if !Truthy(symbol) then ReturnsNone
    else OrderPost(ex, mac, payload, signedClock, headerClock)
  }

  /** `get_closed_orders`: a GET of the fills, with no params at all. */
  function GetClosedOrders(ex: Exchange, mac: Crypto.Mac, signedClock: nat, headerClock: nat): (p: Plan)
    ensures p.Sends? ==> |p.requests| == 1 && p.requests[0].params.None? && p.requests[0].path == "/api/v1/fills"
    ensures p.Sends? ==> SignsOver(ex, mac, p, SignText(signedClock, "GET", "/api/v1/fills", ""))
    ensures p.Raises? <==> ex.passPhrase.None?
  {
    Authenticated(ex, mac, "GET", "/api/v1/fills", "", None, None, signedClock, headerClock)
  }

  /** `get_open_orders`: a GET of the orders with status `active`, unsigned. */
  function GetOpenOrders(ex: Exchange, mac: Crypto.Mac, signedClock: nat, headerClock: nat): (p: Plan)
    ensures SendsUnsignedQuery(ex, mac, p, "GET", "/api/v1/orders", [("status", VStr("active"))], signedClock)
  {
    Authenticated(ex, mac, "GET", "/api/v1/orders", "", Some(Fields([("status", VStr("active"))])), None,
                  signedClock, headerClock)
  }
}
