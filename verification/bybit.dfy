/** The Bybit client: every private call builds its params with the key and
    a timestamp, renders them as a `k=v` text, signs
    `timestamp + key + recv_window + text`, and then appends the signature
    to the params under `sign`. */
module Bybit {

  import opened Prelude
  import opened PyValue
  import opened Json
  import JsonValue = Json
  import opened ExchangeBase
  import Crypto
  import Hex
  import Utf8
  import Strings
  import Decimal

  const RecvWindow: string := "5000"
  const DefaultUrl: string := "https://api.bybit.com"

  /** `Bybit.__init__`: the public Bybit URL unless the caller passes one. */
  function Init(key: string, secret: string, baseUrl: Kwarg<Option<string>>, showLimitUsage: Value)
    : (e: Exchange)
    ensures baseUrl.Omitted? ==> e.baseUrl == Some(DefaultUrl)
    ensures baseUrl.Passed? ==> e.baseUrl == (if baseUrl.value == Some("") then None else baseUrl.value)
    ensures e.key == key && e.secret == secret
    ensures e.showLimitUsage <==> showLimitUsage == VBool(true)
  {
    ExchangeBase.Init("Bybit", key, secret, None, DefaultBaseUrl(baseUrl, DefaultUrl), showLimitUsage)
  }

  // ---------------------------------------------------------------------
  // The two renderings of a params dict

  /** The `k=v` items, in insertion order, with no escaping. */
  function Pairs(d: Dict): (ps: seq<string>)
    ensures |ps| == |d|
  {
    seq(|d|, i requires 0 <= i < |d| => d[i].0 + "=" + Str(d[i].1))
  }

  /** `__get_query_string`: the items joined by `&`. */
  function QueryString(d: Dict): string {
    Strings.Join("&", Pairs(d))
  }

  /** `__get_payload_string`: the items joined by `,`, in braces. */
  function PayloadString(d: Dict): string {
    "{" + Strings.Join(",", Pairs(d)) + "}"
  }

  /** No key or value text contains `c`. */
  predicate FreeOf(d: Dict, c: char) {
    forall i :: 0 <= i < |d| ==> c !in d[i].0 && c !in Str(d[i].1)
  }

  /** An item without a separator character inside it. */
  lemma PairFreeOf(d: Dict, i: int, c: char)
    requires 0 <= i < |d| && FreeOf(d, c) && c != '='
    ensures c !in Pairs(d)[i]
  {
    assert Pairs(d)[i] == d[i].0 + "=" + Str(d[i].1);
  }

  /** Splitting one item at `=` gives back its key and value text. */
  lemma PairSplit(d: Dict, i: int)
    requires 0 <= i < |d| && FreeOf(d, '=')
    ensures Strings.Split(Pairs(d)[i], '=') == [d[i].0, Str(d[i].1)]
  {
    Strings.SplitJoin([d[i].0, Str(d[i].1)], '=');
    assert Strings.Join("=", [d[i].0, Str(d[i].1)]) == d[i].0 + "=" + Str(d[i].1);
  }

  /** The query string splits at `&` back into the items, in order, and each
      item at `=` into its key and value, as long as no key or value
      contains `&` or `=`. */
  lemma {:induction false} QuerySplit(d: Dict)
    requires |d| >= 1 && FreeOf(d, '&') && FreeOf(d, '=')
    ensures Strings.Split(QueryString(d), '&') == Pairs(d)
    ensures forall i :: 0 <= i < |d| ==>
      Strings.Split(Strings.Split(QueryString(d), '&')[i], '=') == [d[i].0, Str(d[i].1)]
  {
    forall i | 0 <= i < |d| ensures '&' !in Pairs(d)[i] {
      PairFreeOf(d, i, '&');
    }
    Strings.SplitJoin(Pairs(d), '&');
    forall i | 0 <= i < |d|
      ensures Strings.Split(Strings.Split(QueryString(d), '&')[i], '=') == [d[i].0, Str(d[i].1)]
    {
      PairSplit(d, i);
    }
  }

  /** The payload string is braced, and its inside splits at `,` back into
      the items when no key or value contains `,`. */
  lemma {:induction false} PayloadSplit(d: Dict)
    requires |d| >= 1 && FreeOf(d, ',')
    ensures var s := PayloadString(d);
      |s| >= 2 && s[0] == '{' && s[|s| - 1] == '}' && Strings.Split(s[1..|s| - 1], ',') == Pairs(d)
  {
    var s := PayloadString(d);
    var inner := Strings.Join(",", Pairs(d));
    assert s[1..|s| - 1] == inner;
    forall i | 0 <= i < |d| ensures ',' !in Pairs(d)[i] {
      PairFreeOf(d, i, ',');
    }
    Strings.SplitJoin(Pairs(d), ',');
  }

  /** The payload string is the query string with `,` for `&`, in braces. */
  lemma PayloadFromQuery(d: Dict)
    requires |d| >= 1 && FreeOf(d, '&')
    ensures PayloadString(d) == "{" + Strings.Join(",", Strings.Split(QueryString(d), '&')) + "}"
  {
    forall i | 0 <= i < |d| ensures '&' !in Pairs(d)[i] {
      PairFreeOf(d, i, '&');
    }
    Strings.SplitJoin(Pairs(d), '&');
  }

  // ---------------------------------------------------------------------
  // Signing

  const KeyHeader: string := "X-BAPI-API-KEY"
  const SignHeader: string := "X-BAPI-SIGN"
  const SignTypeHeader: string := "X-BAPI-SIGN-TYPE"
  const TimestampHeader: string := "X-BAPI-TIMESTAMP"
  const RecvWindowHeader: string := "X-BAPI-RECV-WINDOW"
  const ContentTypeHeader: string := "Content-Type"

  const HeaderNames: set<string> :=
    {KeyHeader, SignHeader, SignTypeHeader, TimestampHeader, RecvWindowHeader, ContentTypeHeader}

  /** The text `_get_sign` signs. */
  function SignText(ex: Exchange, clock: nat, rendered: string): string {
    Decimal.Show(clock) + ex.key + RecvWindow + rendered
  }

  /** `_get_request_credentials`: exactly six headers; the timestamp and
      receive window are the ones in the signed text. */
  function RequestCredentials(ex: Exchange, mac: Crypto.Mac, rendered: string, clock: nat): (h: Headers)
    ensures h.Keys == HeaderNames
    ensures h[KeyHeader] == ex.key && h[SignTypeHeader] == "2" && h[RecvWindowHeader] == RecvWindow
    ensures h[ContentTypeHeader] == "application/json"
    ensures h[TimestampHeader] == Decimal.Show(clock) && Decimal.Parse(h[TimestampHeader]) == Some(clock)
    ensures |h[SignHeader]| == 64 && forall i :: 0 <= i < 64 ==> Hex.IsLowerHexDigit(h[SignHeader][i])
    ensures Hex.Decode(h[SignHeader]) == Some(mac(Utf8.Encode(ex.secret), Utf8.Encode(
      h[TimestampHeader] + ex.key + h[RecvWindowHeader] + rendered)))
  {
    Decimal.ParseShow(clock);
    var sign := Crypto.HexDigest(mac, ex.secret, SignText(ex, clock, rendered));
    map[KeyHeader := ex.key, SignHeader := sign, SignTypeHeader := "2",
        TimestampHeader := Decimal.Show(clock), RecvWindowHeader := RecvWindow,
        ContentTypeHeader := "application/json"]
  }

  /** Which of the two renderings a façade signs. */
  datatype Rendering = Query | Payload

  function Render(r: Rendering, d: Dict): string {
    match r
    case Query => QueryString(d)
    case Payload => PayloadString(d)
  }

  /** The headers and the params after `params["sign"] = …`. */
  datatype Signed = Signed(headers: Headers, params: Dict)

  /** The sign-then-append flow: the rendering of the params is signed
      first, then the signature is added as the last entry `sign`, so the
      signature never covers itself and every other entry is unchanged. */
  function SignParams(ex: Exchange, mac: Crypto.Mac, unsigned: Dict, clock: nat, r: Rendering): (s: Signed)
    requires forall i :: 0 <= i < |unsigned| ==> unsigned[i].0 != "sign"
    ensures s.headers == RequestCredentials(ex, mac, Render(r, unsigned), clock)
    ensures s.params == unsigned + [("sign", VStr(s.headers[SignHeader]))]
    ensures Get(s.params, "sign") == Some(VStr(s.headers[SignHeader]))
    ensures forall k :: k != "sign" ==> Get(s.params, k) == Get(unsigned, k)
  {
    var h := RequestCredentials(ex, mac, Render(r, unsigned), clock);
    PutNewAppends(unsigned, "sign", VStr(h[SignHeader]));
    Signed(h, Put(unsigned, "sign", VStr(h[SignHeader])))
  }

  /** A request carrying Bybit credentials for `unsigned`: the six headers,
      a signature over the rendering of `unsigned` at this timestamp, and
      `unsigned` followed by that signature as the body. */
  predicate CarriesSigned(ex: Exchange, mac: Crypto.Mac, headers: Option<Headers>, body: Option<Body>,
                          unsigned: Dict, clock: nat, r: Rendering) {
    && headers.Some?
    && var h := headers.value;
    && h.Keys == HeaderNames
    && h[KeyHeader] == ex.key
    && h[TimestampHeader] == Decimal.Show(clock)
    && Hex.Decode(h[SignHeader]) == Some(mac(Utf8.Encode(ex.secret), Utf8.Encode(
         Decimal.Show(clock) + ex.key + RecvWindow + Render(r, unsigned))))
    && body == Some(Fields(unsigned + [("sign", VStr(h[SignHeader]))]))
  }

  /** A signed GET sending the signed dict as params. */
  function SignedGet(ex: Exchange, mac: Crypto.Mac, path: string, unsigned: Dict, clock: nat): (req: Request)
    requires forall i :: 0 <= i < |unsigned| ==> unsigned[i].0 != "sign"
    ensures req.verb == "GET" && req.path == path && req.data.None?
    ensures CarriesSigned(ex, mac, req.headers, req.params, unsigned, clock, Query)
  {
    var s := SignParams(ex, mac, unsigned, clock, Query);
    Request("GET", path, Some(s.headers), Some(Fields(s.params)), None)
  }

  /** A signed request sending the signed dict as the body. */
  function SignedBody(ex: Exchange, mac: Crypto.Mac, verb: string, path: string, unsigned: Dict, clock: nat)
    : (req: Request)
    requires forall i :: 0 <= i < |unsigned| ==> unsigned[i].0 != "sign"
    ensures req.verb == verb && req.path == path && req.params.None?
    ensures CarriesSigned(ex, mac, req.headers, req.data, unsigned, clock, Payload)
  {
    var s := SignParams(ex, mac, unsigned, clock, Payload);
    Request(verb, path, Some(s.headers), None, Some(Fields(s.params)))
  }

  // ---------------------------------------------------------------------
  // Façade methods

  /** `get_positions`: nothing is signed or sent for a falsy symbol;
      otherwise one signed GET of the key, symbol and timestamp. */
  function GetPositions(ex: Exchange, mac: Crypto.Mac, symbol: Value, clock: nat): (p: Plan)
    ensures !PyValue.Truthy(symbol) <==> p == ReturnsNone
    ensures PyValue.Truthy(symbol) ==> (p.Sends? && |p.requests| == 1 &&
      var req := p.requests[0];
      && req.verb == "GET" && req.path == "/private/linear/position/list" && req.data.None?
      && CarriesSigned(ex, mac, req.headers, req.params,
                       [("api_key", VStr(ex.key)), ("symbol", symbol), ("timestamp", VInt(clock))], clock, Query))
  {
    if !PyValue.Truthy(symbol) then ReturnsNone
    else
      var params := [("api_key", VStr(ex.key)), ("symbol", symbol), ("timestamp", VInt(clock))];
      Sends([SignedGet(ex, mac, "/private/linear/position/list", params, clock)])
  }

  /** `get_positions` as written: `super().key` raises before anything is
      signed, because the key lives on the instance. */
  function GetPositionsAsWritten(ex: Exchange, mac: Crypto.Mac, symbol: Value, clock: nat): (p: Plan)
    ensures !PyValue.Truthy(symbol) ==> p == ReturnsNone
    ensures PyValue.Truthy(symbol) ==> p == Raises(AttributeError("key"))
  {
    if !PyValue.Truthy(symbol) then ReturnsNone
    else
      match SuperAttribute("key")
      case Raised(e) => Raises(e)
      case Returned(_) => GetPositions(ex, mac, symbol, clock)
  }

  /** For every truthy symbol the code as written raises where the intended
      method sends a signed request. */
  lemma SuperKeyNeverSends(ex: Exchange, mac: Crypto.Mac, symbol: Value, clock: nat)
    requires PyValue.Truthy(symbol)
    ensures GetPositionsAsWritten(ex, mac, symbol, clock) == Raises(AttributeError("key"))
    ensures GetPositions(ex, mac, symbol, clock).Sends?
  {
  }

  const CancelActive: string := "/private/linear/order/cancel-all"
  const CancelConditional: string := "/private/linear/stop-order/cancel-all"

  /** `cancel_orders`: two DELETEs, of active and of conditional orders,
      sharing one header and one signed payload. */
  function CancelOrders(ex: Exchange, mac: Crypto.Mac, symbol: Value, clock: nat): (p: Plan)
    ensures !PyValue.Truthy(symbol) <==> p == ReturnsNone
    ensures PyValue.Truthy(symbol) ==> (p.Sends? && |p.requests| == 2 &&
      var (a, c) := (p.requests[0], p.requests[1]);
      && a.verb == "DELETE" && c.verb == "DELETE"
      && a.path == CancelActive && c.path == CancelConditional
      && a.headers == c.headers && a.data == c.data && a.params.None? && c.params.None?
      && CarriesSigned(ex, mac, a.headers, a.data,
                       [("api_key", VStr(ex.key)), ("symbol", symbol), ("timestamp", VInt(clock))], clock, Payload))
  {
    if !PyValue.Truthy(symbol) then ReturnsNone
    else
      var payload := [("api_key", VStr(ex.key)), ("symbol", symbol), ("timestamp", VInt(clock))];
      var active := SignedBody(ex, mac, "DELETE", CancelActive, payload, clock);
      Sends([active, active.(path := CancelConditional)])
  }

  /** What `cancel_orders` returns: both replies under their own names. */
  function CancelResult(active: Reply, conditional: Reply): (r: Json)
    ensures r.JObj? && |r.fields| == 2
    ensures Item(r, "active_order") == Returned(AsPython(active))
    ensures Item(r, "conditional_order") == Returned(AsPython(conditional))
  {
    var fields := [("active_order", AsPython(active)), ("conditional_order", AsPython(conditional))];
    assert Field(fields, "conditional_order") == Some(AsPython(conditional)) by {
      assert fields[0].0 != "conditional_order";
      assert fields[1..] == [("conditional_order", AsPython(conditional))];
      assert Field(fields[1..], "conditional_order") == Some(AsPython(conditional));
    }
    JObj(fields)
  }

  /** `get_data`: a public GET of symbol, interval, limit (500 by default)
      and start, without headers. */
  function GetData(symbol: Value, interval: Value, startTime: Value, limit: Option<Value>): (p: Plan)
    ensures !PyValue.Truthy(symbol) <==> p == ReturnsNone
    ensures PyValue.Truthy(symbol) ==> p == Sends([Request("GET", "/public/linear/kline", None, Some(Fields(
      [("symbol", symbol), ("interval", interval), ("limit", limit.GetOr(VInt(500))), ("from", startTime)])),
      None)])
  {
    if !PyValue.Truthy(symbol) then ReturnsNone
    else
      var params := [("symbol", symbol), ("interval", interval), ("limit", limit.GetOr(VInt(500))),
                     ("from", startTime)];
      Sends([Request("GET", "/public/linear/kline", None, Some(Fields(params)), None)])
  }

  /** `get_orderbook`: a public GET of the symbol, without headers. */
  function GetOrderbook(symbol: Value): (p: Plan)
    ensures !PyValue.Truthy(symbol) <==> p == ReturnsNone
    ensures PyValue.Truthy(symbol) ==> p == Sends([Request("GET", "/v2/public/orderBook/L2", None,
                                                    Some(Fields([("symbol", symbol)])), None)])
  {
    if !PyValue.Truthy(symbol) then ReturnsNone
    else Sends([Request("GET", "/v2/public/orderBook/L2", None, Some(Fields([("symbol", symbol)])), None)])
  }

  /** `get_balance`: unguarded; a signed GET of the key and timestamp. */
  function GetBalance(ex: Exchange, mac: Crypto.Mac, clock: nat): (p: Plan)
    ensures p.Sends? && |p.requests| == 1
    ensures var req := p.requests[0];
      && req.verb == "GET" && req.path == "/v2/private/wallet/balance" && req.data.None?
      && CarriesSigned(ex, mac, req.headers, req.params,
                       [("api_key", VStr(ex.key)), ("timestamp", VInt(clock))], clock, Query)
  {
    Sends([SignedGet(ex, mac, "/v2/private/wallet/balance", [("api_key", VStr(ex.key)), ("timestamp", VInt(clock))],
                     clock)])
  }

  const OrderCreate: string := "/private/linear/order/create"

  /** The payload of `market_order`. */
  function MarketPayload(ex: Exchange, symbol: Value, side: Value, quantity: Value, clock: nat): Dict {
    [("api_key", VStr(ex.key)), ("side", side), ("symbol", symbol), ("order_type", VStr("Market")),
     ("qty", quantity), ("timestamp", VInt(clock))]
  }

  /** The payload of `limit_order`: the market one with `Limit` and a price. */
  function LimitPayload(ex: Exchange, symbol: Value, side: Value, quantity: Value, price: Value, clock: nat)
    : Dict
  {
    [("api_key", VStr(ex.key)), ("side", side), ("symbol", symbol), ("order_type", VStr("Limit")),
     ("qty", quantity), ("price", price), ("timestamp", VInt(clock))]
  }

  /** `market_order`: a signed POST of the payload as the body; the order
      type is `Market`. */
  function MarketOrder(ex: Exchange, mac: Crypto.Mac, symbol: Value, side: Value, quantity: Value, clock: nat)
    : (p: Plan)
    ensures !PyValue.Truthy(symbol) <==> p == ReturnsNone
    ensures PyValue.Truthy(symbol) ==> (p.Sends? && |p.requests| == 1 &&
      var req := p.requests[0];
      && req.verb == "POST" && req.path == OrderCreate && req.params.None?
      && CarriesSigned(ex, mac, req.headers, req.data, MarketPayload(ex, symbol, side, quantity, clock), clock,
                       Payload)
      && Get(MarketPayload(ex, symbol, side, quantity, clock), "order_type") == Some(VStr("Market")))
  {
    if !PyValue.Truthy(symbol) then ReturnsNone
    else
      var payload := MarketPayload(ex, symbol, side, quantity, clock);
      GetEntry(payload, 3);
      Sends([SignedBody(ex, mac, "POST", OrderCreate, payload, clock)])
  }

  /** `limit_order`: as `market_order` with order type `Limit` and the
      price; the time-in-force argument is accepted and never sent. */
  function LimitOrder(ex: Exchange, mac: Crypto.Mac, symbol: Value, side: Value, quantity: Value, price: Value,
                      clock: nat): (p: Plan)
    ensures !PyValue.Truthy(symbol) <==> p == ReturnsNone
    ensures PyValue.Truthy(symbol) ==> (p.Sends? && |p.requests| == 1 &&
      var req := p.requests[0];
      && req.verb == "POST" && req.path == OrderCreate && req.params.None?
      && CarriesSigned(ex, mac, req.headers, req.data, LimitPayload(ex, symbol, side, quantity, price, clock),
                       clock, Payload)
      && Get(LimitPayload(ex, symbol, side, quantity, price, clock), "order_type") == Some(VStr("Limit"))
      && Get(LimitPayload(ex, symbol, side, quantity, price, clock), "price") == Some(price))
  {
    if !PyValue.Truthy(symbol) then ReturnsNone
    else
      var payload := LimitPayload(ex, symbol, side, quantity, price, clock);
      GetEntry(payload, 3);
      GetEntry(payload, 5);
      Sends([SignedBody(ex, mac, "POST", OrderCreate, payload, clock)])
  }

  const OrderSearch: string := "/private/linear/order/search"

  /** `get_closed_orders` / `get_open_orders`, request half: one signed GET
      of the key, symbol and timestamp to the order search. */
  function SearchOrders(ex: Exchange, mac: Crypto.Mac, symbol: Value, clock: nat): (p: Plan)
    ensures !PyValue.Truthy(symbol) <==> p == ReturnsNone
    ensures PyValue.Truthy(symbol) ==> (p.Sends? && |p.requests| == 1 &&
      var req := p.requests[0];
      && req.verb == "GET" && req.path == OrderSearch && req.data.None?
      && CarriesSigned(ex, mac, req.headers, req.params,
                       [("api_key", VStr(ex.key)), ("symbol", symbol), ("timestamp", VInt(clock))], clock, Query))
  {
    if !PyValue.Truthy(symbol) then ReturnsNone
    else
      var params := [("api_key", VStr(ex.key)), ("symbol", symbol), ("timestamp", VInt(clock))];
      Sends([SignedGet(ex, mac, OrderSearch, params, clock)])
  }

  /** The test `order["order_status"] == status`. */
  function HasStatus(status: string): Json -> Outcome<Json> {
    (order: Json) =>
      match Item(order, "order_status")
      case Returned(v) => Returned(JBool(v == JStr(status)))
      case Raised(e) => Raised(e)
  }

  /** The orders of a reply: `result`, or an empty list without one. */
  function Results(response: Json): Json
    requires response.JObj?
  {
    Field(response.fields, "result").GetOr(JArr([]))
  }

  /** Every order is a dict with an `order_status`. */
  predicate WellFormedOrders(orders: Json) {
    orders.JArr? &&
    forall i :: 0 <= i < |orders.items| ==>
      orders.items[i].JObj? && Field(orders.items[i].fields, "order_status").Some?
  }

  /** `get_closed_orders` (`Filled`) / `get_open_orders` (`New`), reply half:
      not the matching orders but one boolean per order, in order, telling
      whether its status is the given one. */
  function StatusFlags(response: Json, status: string): (r: Outcome<Json>)
    ensures !response.JObj? ==> r == Raised(AttributeError("get"))
    ensures response.JObj? && WellFormedOrders(Results(response)) ==>
      var orders := Results(response).items;
      && r.Returned? && r.value.JArr? && |r.value.items| == |orders|
      && forall i :: 0 <= i < |orders| ==>
           r.value.items[i] == JBool(Field(orders[i].fields, "order_status") == Some(JStr(status)))
    ensures response.JObj? && Results(response).JArr? && r.Raised? ==>
      exists i :: 0 <= i < |Results(response).items| && HasStatus(status)(Results(response).items[i]) == r
  {
    match GetKey(response, "result", JArr([]))
    case Raised(e) => Raised(e)
    case Returned(result) =>
      match Elements(result)
      case Raised(e) => Raised(e)
      case Returned(orders) =>
        match Map(orders, HasStatus(status))
        case Raised(e) => Raised(e)
        case Returned(flags) => Returned(JArr(flags))
  }
}
