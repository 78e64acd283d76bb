# onecall request authentication, in Dafny

`onecall` is a Python client library with one class per crypto exchange:
Binance, FTX, Bybit, Kucoin and Phemex. All of them derive from a shared
`Exchange` base class. This project models the part of those classes that
can be stated precisely:

- how each client turns a logical call (positions, orders, candles,
  balance, …) into a request;
- the exact text it signs, and how the signature is encoded;
- the header map it sends;
- the small post-processing rules on replies;
- the base class's HTTP-status classification, verb table and
  error-to-text behaviour.

The model is purely functional:

- A façade method becomes a function returning a `Plan`. A plan either
  returns `None` early, raises before sending, or sends a sequence of
  `Request`s.
- A reply becomes a `Json` value. Post-processing functions act on it and
  return an `Outcome` (a value, or a Python exception).
- HMAC-SHA256 is a function parameter `mac` that returns a 32-byte digest.
- Clock readings are natural-number parameters, rendered as their decimal
  text.
- The HTTP session is a function parameter `net` of `SendRequest`.

The encoders the clients rely on are defined and proved here:

- hex and base64 (section 4 of RFC 4648);
- UTF-8;
- Python's `str`/`repr` of dicts;
- `urllib.parse.urlencode`;
- decimal rendering of integers.

Each has a round-trip lemma, with one exception. For `str` of a whole dict, only the quoting of each string inside it is proved reversible.

Modules, one per source file or library concern:

- `Prelude`: `Option`, bytes, Python exceptions and `Outcome`.
- `Strings`: `Join`, `Split` and ASCII upper-casing.
- `Decimal`, `Hex`, `Base64`, `Utf8`, `UrlEncode`: the encoders.
- `Crypto`: hex and base64 digests of the MAC.
- `PyValue`: parameter values, `str`/`repr`, and insertion-ordered dicts with `get`, item assignment and `{**d, **e}`.
- `Json`: reply values, `get`, `[]`, iteration, `filter` and `map`.
- `ExchangeBase`: `onecall/base/exchange.py`.
- `Binance`, `Ftx`, `Bybit`, `Kucoin`, `Phemex`: one per client file.

Behaviour of the code a reader might not expect:

- FTX urlencodes the params before signing them.
- When a reply body fails to decode, `send_request` returns the decoder's
  message, not the raw body.
- Binance signs `str(params)`, the Python dict text, not a URL-encoded
  query.
- Kucoin never signs the query parameters.
- A verb outside the table raises no configuration error of its own. The
  table lookup yields the string `"GET"`, calling it raises `TypeError`,
  and `send_request` returns the text `'str' object is not callable`.

## Model

| member | source | states |
|---|---|---|
| ExchangeBase.Init | onecall/base/exchange.py:11-32 | `base_url` is set exactly when a truthy one is passed, and then equals it; `show_limit_usage` is true exactly when the argument is the object `True`; the credentials are kept unchanged |
| ExchangeBase.DispatchRequest | onecall/base/exchange.py:52-58 | GET, DELETE, PUT and POST map to their own session method; every other verb yields the non-callable string `"GET"` |
| ExchangeBase.HandleException | onecall/base/exchange.py:60-70 | below 400 nothing is raised; 400–499 raises a client error carrying the body text verbatim, whether or not it parses as JSON; 500 and above raises a server error with the text; the three cases cover every status and exclude each other |
| ExchangeBase.SendRequest | onecall/base/exchange.py:34-50 | the URL is `base_url + url_path`. The decoded body comes back exactly when the verb is known, the call is delivered, the status is below 400 and the body parses. Every other path returns a message text and never raises: a missing base URL, a non-callable handler, a transport failure, the error body, or the decoder message |
| Strings.SplitJoin | onecall/bybit.py:211-215 | splitting at a separator that no part contains gives back the joined parts |
| Strings.Upper | onecall/binance.py:250 | `str.upper` on ASCII: same length, lower-case letters shifted to upper case, every other character unchanged |
| Decimal.ParseShow | onecall/ftx.py:355 | the decimal text of a clock reading parses back to that reading |
| Decimal.ShowInjective | onecall/kucoin.py:210-213 | two readings have the same decimal text exactly when they are equal |
| Hex.Encode | onecall/binance.py:398-400 | `hexdigest` text: two lower-case hex digits per byte |
| Hex.DecodeEncode | onecall/binance.py:398-400 | decoding the hex text gives back the bytes |
| Base64.Encode | onecall/kucoin.py:203-206 | `b64encode`: length 4·⌈n/3⌉, every character in the alphabet or `=` |
| Base64.DecodeEncode | onecall/kucoin.py:203-206 | decoding the base64 text gives back the bytes |
| Base64.DigestText | onecall/kucoin.py:203-206 | a 32-byte digest encodes to 44 characters whose last, and only, `=` is at index 43 |
| Utf8.DecodeEncode | onecall/binance.py:399 | `.encode("utf-8")` loses nothing: decoding gives back the string |
| Crypto.HexDigest | onecall/binance.py:398-400 | 64 lower-case hex characters that decode to the MAC of the UTF-8 secret and message |
| Crypto.Base64Digest | onecall/kucoin.py:203-204 | 44 base64 characters ending in a single `=` that decode to the MAC of the UTF-8 secret and message |
| PyValue.UnescapeEscape | onecall/binance.py:399 | the escaping `repr` applies inside quotes can be undone |
| PyValue.Quote | onecall/binance.py:399 | `repr` of a string is quoted and its inside unescapes to the string |
| PyValue.Put | onecall/binance.py:404 | after `d[k] = v`, `k` maps to `v` and every other key keeps its value |
| PyValue.PutNewAppends | onecall/bybit.py:36 | assigning a key the dict lacks appends it as the last entry |
| PyValue.Update | onecall/ftx.py:232-238 | in `{**d, **e}` the keys of `e` take `e`'s values and all other keys keep `d`'s |
| PyValue.UpdateDistinct | onecall/ftx.py:232-238 | `{**d, **e}` keeps keys distinct |
| UrlEncode.UnquoteQuote | onecall/ftx.py:356 | `quote_plus` text unquotes back to the original string |
| UrlEncode.Urlencode | onecall/ftx.py:356 | splitting the text at `&` gives one item per entry, and each item splits at `=` into the escaped key and value, in insertion order |
| Json.GetKey | onecall/ftx.py:72 | `get` works only on a dict: it returns the value of a present key, falls back to the default for a missing one, and raises `AttributeError` on anything else |
| Json.Item | onecall/phemex.py:108 | `[]` returns the field of a dict, raises `KeyError` for a missing key, and raises `TypeError` on a non-dict |
| Json.Filter | onecall/ftx.py:73 | `filter` returns only elements that pass, drawn from the input; it raises exactly when some test raises, with that error |
| Json.FilterAppend | onecall/binance.py:349 | filtering a concatenation concatenates the filtered parts, so order is preserved |
| Json.FilterKeepsPassing | onecall/binance.py:349 | every element that passes the test is kept |
| Json.Select | onecall/ftx.py:73 | the order-preserving selection, built independently of `filter`: no longer than the input, holding every element that satisfies the predicate and nothing else |
| Json.FilterSelect | onecall/binance.py:349 | when every test returns the predicate's verdict, `list(filter(...))` equals that selection exactly, so nothing is dropped, repeated or reordered |
| Json.Map | onecall/bybit.py:171 | `map` gives one result per element, element i being the function's value on input i |
| Binance.Descriptor | onecall/binance.py:16-26 | the two order kinds share POST `/fapi/v1/order`; `get_positions` and `cancel_orders` are missing from the table, so `.get(...).get` raises `AttributeError` |
| Binance.Init | onecall/binance.py:27-30 | the futures URL is the default unless the caller passes `base_url`; the credentials are kept and `show_limit_usage` is set only by `True` |
| Binance.Sign | onecall/binance.py:398-400 | the signature is the 64-character lower-case hex MAC of `str(params)` |
| Binance.RequestCredentials | onecall/binance.py:402-405 | the header is exactly `{X-MBX-APIKEY: key}`; the signed params are the input plus one final `signature` entry, the MAC of the params before it was added; every other key is unchanged |
| Binance.GetPositions | onecall/binance.py:57-64 | raises `AttributeError` before anything is signed or sent |
| Binance.CancelOrders | onecall/binance.py:102-109 | raises `AttributeError` before anything is signed or sent |
| Binance.GetData | onecall/binance.py:124-135 | one GET of `/fapi/v1/klines` with the key header and the plain params, unsigned |
| Binance.GetOrderbook | onecall/binance.py:171-178 | one GET of `/fapi/v1/depth` with the key header, symbol and limit (500 by default), unsigned |
| Binance.GetBalance | onecall/binance.py:207-213 | a signed GET of the timestamp alone |
| Binance.MarketOrder | onecall/binance.py:248-258 | a signed POST with the side upper-cased and type `MARKET` |
| Binance.LimitOrder | onecall/binance.py:295-307 | a signed POST with the side upper-cased, type `LIMIT` and time in force `GTC` unless given |
| Binance.GetClosedOrders | onecall/binance.py:342-348 | a signed GET of symbol and timestamp to `/fapi/v1/allOrders` |
| Binance.ClosedOrders | onecall/binance.py:349 | on a list of dicts that all carry a status, the reply's orders whose status is `FILLED`, in the reply's order and with none repeated (the `Select` of the reply); kept orders are always `FILLED`; an error text raises `TypeError` |
| Binance.KeptAreFilled | onecall/binance.py:349 | an order is kept exactly when it is a dict whose status is `FILLED` |
| Binance.GetOpenOrders | onecall/binance.py:384-391 | a signed GET of symbol and timestamp to `/fapi/v1/openOrders` |
| Ftx.Init | onecall/ftx.py:30-34 | the base URL is the test URL when `debug` is set and the production URL otherwise, whatever `base_url` the caller passes; `show_limit_usage` is set only by `True` |
| Ftx.FormatPlain | onecall/ftx.py:122 | a template without a replacement field comes back unchanged, as the text after `{symbol}` in the candles and orderbook templates does |
| Ftx.FormatOneField | onecall/ftx.py:122 | filling the `{symbol}` field changes nothing before or after it |
| Ftx.CandlesPath | onecall/ftx.py:22 | the candles template becomes `/markets/<symbol>/candles` |
| Ftx.OrderbookPath | onecall/ftx.py:23 | the order-book template becomes `/markets/<symbol>/orderbook` |
| Ftx.RequestCredentials | onecall/ftx.py:366-376 | exactly `FTX-KEY`, `FTX-SIGN` and `FTX-TS`; the timestamp header is the signed `ts`, and the signature decodes to the MAC of the signed text `ts + method + path + "?" + params`, with `None` standing for absent params and the body appended only when it is non-empty |
| Ftx.SignedRequest | onecall/ftx.py:354-360 | params are urlencoded only when non-empty, else absent and signed as `None`; the body is used only when non-empty; the signature covers the request's own timestamp header, verb, path, params text and body; the timestamp header parses back to the clock reading |
| Ftx.GetPositions | onecall/ftx.py:70-71 | a signed GET of `/positions` without params, whose signed text has `?None` |
| Ftx.Positions | onecall/ftx.py:72-74 | when `result` is a truthy list of dicts, exactly the positions whose `future` is the symbol, in order (the `Select` of `result`); when `result` is falsy or missing, the reply unchanged; a non-dict reply raises `AttributeError` |
| UrlEncode.MarketParam | onecall/ftx.py:86-88 | `{"market": symbol}` urlencodes to `market=` and the escaped symbol |
| Ftx.CancelOrders | onecall/ftx.py:86-92 | a signed DELETE of `/orders` whose params text is `market=` and the escaped symbol |
| Ftx.CandleParams | onecall/ftx.py:117-120 | `resolution` (15 by default) unless a keyword argument overrides it; every keyword argument is present with its value; no other key is present; with distinct keys the dict is `resolution` first and then the keyword arguments in their order, which is the order `urlencode` signs |
| Ftx.GetData | onecall/ftx.py:117-123 | a signed GET of the candles path of the symbol, carrying the urlencoded candle params |
| UrlEncode.DepthParam | onecall/ftx.py:156-158 | `{"depth": limit}` urlencodes to `depth=` and the escaped limit |
| Ftx.DataReply | onecall/ftx.py:124-129 | a non-dict reply (an error text, a list) raises `AttributeError`; a dict is handed back unchanged unless both `is_dataframe` and `result` are truthy, when a table is built from `result`; `get_orderbook` does the same at lines 162-170 |
| Ftx.GetOrderbook | onecall/ftx.py:156-161 | a signed GET of the order-book path of the symbol with `depth` (100 by default) |
| Ftx.GetBalance | onecall/ftx.py:200-202 | a signed GET of `/wallet/balances` without params |
| Ftx.OrderPayload | onecall/ftx.py:232-238 | keyword arguments override the fixed entries; every other fixed entry stays; keys stay distinct |
| Ftx.MarketOrderPayload | onecall/ftx.py:232-238 | `type` is `market` and `market` is the symbol unless a keyword argument overrides them |
| Ftx.LimitOrderPayload | onecall/ftx.py:274-281 | `type` is `limit` and `price` is the price unless a keyword argument overrides them |
| Ftx.MarketOrder | onecall/ftx.py:239-242 | a signed POST of `/orders` whose body, and the tail of the signed text, is the serialised market payload |
| Ftx.LimitOrder | onecall/ftx.py:282-285 | a signed POST of `/orders` whose body, and the tail of the signed text, is the serialised limit payload |
| Ftx.ClosedOrdersEntry | onecall/ftx.py:316-317 | the closed-orders request has the verb and path of the `limit_order` entry, not those of the table's own `get_closed_orders` entry |
| Ftx.GetClosedOrders | onecall/ftx.py:316-317 | the `limit_order` entry is used, so a signed POST of `/orders` without params or body |
| Ftx.ClosedOrders | onecall/ftx.py:318-320 | when `result` is a truthy list of dicts, exactly the orders whose status is `closed`, in order (the `Select` of `result`), so an order without a status is dropped; when `result` is falsy, the reply unchanged; a non-dict reply raises `AttributeError` |
| Ftx.GetOpenOrders | onecall/ftx.py:350-352 | a signed GET of `/orders` without params |
| Bybit.Init | onecall/bybit.py:12-17 | `https://api.bybit.com` unless the caller passes `base_url`; the credentials are kept and `show_limit_usage` is set only by `True` |
| Bybit.PairSplit | onecall/bybit.py:212 | an item `k=v` splits at `=` back into key and value text |
| Bybit.QuerySplit | onecall/bybit.py:211-212 | the query string splits at `&` into the items in insertion order, and each item into its key and `str(value)` |
| Bybit.PayloadSplit | onecall/bybit.py:214-215 | the payload string is braced, and its inside splits at `,` into the same items |
| Bybit.PayloadFromQuery | onecall/bybit.py:211-215 | the payload string is the query string's items joined by `,` and braced |
| Bybit.RequestCredentials | onecall/bybit.py:194-209 | exactly six headers, with sign type `2`, receive window `5000` and JSON content type; the timestamp header parses back to the reading; the signature is 64 hex characters decoding to the MAC of `timestamp + key + recv_window + text` |
| Bybit.SignParams | onecall/bybit.py:34-36 | the rendering of the params is signed first; the params then gain `sign` as their last entry, equal to the signature header; every other entry is unchanged |
| Bybit.SignedGet | onecall/bybit.py:34-37 | a GET whose query is the signed params and whose signature covers the query string of the unsigned ones |
| Bybit.SignedBody | onecall/bybit.py:131-134 | a request whose body is the signed params and whose signature covers the payload string of the unsigned ones |
| Bybit.GetPositions | onecall/bybit.py:19-38 | a falsy symbol returns `None` and sends nothing; otherwise one signed GET of key, symbol and timestamp |
| Bybit.GetPositionsAsWritten | onecall/bybit.py:29-31 | the code as written raises `AttributeError` for every truthy symbol |
| Bybit.SuperKeyNeverSends | onecall/bybit.py:30 | for every truthy symbol the code as written raises, while the intended method sends |
| Bybit.CancelOrders | onecall/bybit.py:46-60 | two DELETEs, of active and then of conditional orders, sharing one header and one signed payload; a falsy symbol sends nothing |
| Bybit.CancelResult | onecall/bybit.py:61 | the two replies under `active_order` and `conditional_order` |
| Bybit.GetData | onecall/bybit.py:73-83 | a public GET of symbol, interval, limit (500 by default) and start time, without headers |
| Bybit.GetOrderbook | onecall/bybit.py:92-99 | a public GET of the symbol, without headers |
| Bybit.GetBalance | onecall/bybit.py:107-116 | unguarded: a signed GET of key and timestamp |
| Bybit.MarketOrder | onecall/bybit.py:118-135 | a signed POST of the payload with order type `Market` |
| Bybit.LimitOrder | onecall/bybit.py:137-155 | a signed POST of the payload with order type `Limit` and the price |
| Bybit.SearchOrders | onecall/bybit.py:157-170 | a signed GET of key, symbol and timestamp to the order search |
| Bybit.StatusFlags | onecall/bybit.py:171 | one boolean per order of `result` (an empty list by default), in order, telling whether its `order_status` is the given one; a non-dict reply raises `AttributeError` |
| Kucoin.Init | onecall/kucoin.py:13-17 | `https://api-futures.kucoin.com` unless the caller passes `base_url`; the credentials are kept and `show_limit_usage` is set only by `True` |
| Kucoin.GetSign | onecall/kucoin.py:202-207 | both values are 44-character base64 texts with one final `=`, decoding to the MAC of the text and the MAC of the pass phrase; without a pass phrase it raises `AttributeError` |
| Kucoin.GetSignAsWritten | onecall/kucoin.py:203-205 | the code as written raises `AttributeError` for every text |
| Kucoin.SuperSecretNeverSigns | onecall/kucoin.py:203 | whenever the intended `_get_sign` signs, the code as written raises |
| Kucoin.RequestCredentials | onecall/kucoin.py:209-218 | exactly five headers with key version `2`; the signature covers `timestamp + method + path + data` from the first reading; the timestamp header shows the second reading; the pass phrase is sent only as its MAC |
| Kucoin.TimestampsAgree | onecall/kucoin.py:210-213 | the timestamp header parses back to the second reading, and equals the signed timestamp text exactly when the two readings agree |
| Kucoin.GetPositions | onecall/kucoin.py:25-34 | a falsy symbol returns `None`; otherwise the symbol goes in the query and the signature covers only verb and path |
| Kucoin.QueryNotSigned | onecall/kucoin.py:29-33 | two calls with different symbols carry identical headers |
| Kucoin.CancelOrders | onecall/kucoin.py:42-51 | a DELETE of `/api/v1/orders` with the symbol in the query, unsigned |
| Kucoin.KlineParams | onecall/kucoin.py:71-78 | `from` and `to` are present exactly when the time frame has two instants; the dict is then exactly symbol, granularity, `from` and `to` in that order, and otherwise only symbol and granularity |
| Kucoin.GetData | onecall/kucoin.py:63-81 | `None` exactly when the symbol or the interval (15 by default) is falsy; otherwise a GET of the kline query whose params are not signed |
| Kucoin.GetOrderbook | onecall/kucoin.py:98-106 | a GET of the level-2 snapshot with the symbol unsigned |
| Kucoin.GetBalance | onecall/kucoin.py:122-124 | never sends: the private helper is called with too few arguments, so `TypeError` is raised, or `AttributeError` without a pass phrase |
| Kucoin.OrderPost | onecall/kucoin.py:146-147 | one POST to `/api/v1/orders` with no query, whose body is the payload and whose signature covers `str(payload)`; it raises exactly when there is no pass phrase |
| Kucoin.MarketOrder | onecall/kucoin.py:135-148 | a falsy symbol returns `None`; otherwise the order POST with type `market` |
| Kucoin.LimitOrder | onecall/kucoin.py:162-178 | the order POST with type `limit`, time in force `GTC` and post-only `False` unless given |
| Kucoin.GetClosedOrders | onecall/kucoin.py:185-187 | a GET of `/api/v1/fills` with no params, signed over verb and path |
| Kucoin.GetOpenOrders | onecall/kucoin.py:190-195 | a GET of `/api/v1/orders` with status `active` in the query, unsigned |
| Phemex.Init | onecall/phemex.py:14-18 | the futures URL unless the caller passes `base_url`; the credentials are kept and `show_limit_usage` is set only by `True` |
| Phemex.GetSign | onecall/phemex.py:176-178 | 64 lower-case hex characters decoding to the MAC of the text |
| Phemex.GetSignAsWritten | onecall/phemex.py:177 | the code as written raises `AttributeError` for every text |
| Phemex.SuperSecretNeverSigns | onecall/phemex.py:177 | for every text the code as written raises, while the intended `_get_sign` returns the MAC |
| Phemex.RequestCredentials | onecall/phemex.py:180-183 | exactly the access token and the signature, which is the MAC of `path + str(params) + timestamp` |
| Phemex.SignedQuery | onecall/phemex.py:33-34 | the dict sent as query is the one signed, and the path signed is the path sent |
| Phemex.SignedBody | onecall/phemex.py:123-124 | the dict sent as body is the one signed, and the path signed is the path sent |
| Phemex.GetPositions | onecall/phemex.py:26-35 | a falsy symbol returns `None`; otherwise a signed GET of `'accounts/positions'`, quotes included |
| Phemex.CancelOrders | onecall/phemex.py:44-54 | a signed DELETE of symbol and `untriggered` (`None` by default) |
| Phemex.GetData | onecall/phemex.py:63-71 | a signed GET of the 24-hour ticker of the symbol |
| Phemex.GetOrderbook | onecall/phemex.py:86-94 | a signed GET of the order book of the symbol |
| Phemex.GetBalance | onecall/phemex.py:105-107 | unguarded; the empty text stands for the params in the signed text and no params are sent |
| Phemex.Balance | onecall/phemex.py:108 | only the `data` field of the reply; `KeyError` without one, `TypeError` on an error text |
| Phemex.MarketOrder | onecall/phemex.py:110-125 | a signed POST of the payload with `Market` and quantity type `ByBase` unless given |
| Phemex.LimitOrder | onecall/phemex.py:127-144 | a signed POST with `Limit`, `ByBase` and time in force `GoodTillCancel` unless given |
| Phemex.GetClosedOrders | onecall/phemex.py:146-157 | a signed GET of symbol and status `Filled` |
| Phemex.GetOpenOrders | onecall/phemex.py:159-169 | a signed GET of the symbol to `/spot/orders` |

## Left out

- HTTP transport: the `requests` session is the function parameter `net`, and its JSON decoding is a field of the response. Nothing is sent.
- HMAC-SHA256 and SHA-256: foreign code in `hmac`/`hashlib`. The MAC is a parameter whose only known property is a 32-byte result.
- `utils.get_current_timestamp`: `base/utils` is not part of this model. Every reading is an integer parameter, as the `str()` applied to it at `onecall/ftx.py:355`, `onecall/bybit.py:195` and `onecall/kucoin.py:213` indicates. Binance therefore puts an integer into its params, and its `str(params)` shows it unquoted.
- Kucoin.RequestCredentials: `onecall/kucoin.py:210` adds an integer reading to a text without `str()`. As written that raises `TypeError`; the model signs the reading's decimal text instead.
- Phemex.RequestCredentials: `onecall/phemex.py:181` adds text to the reading without `str()`, with the same `TypeError`; the model uses the decimal text.
- Bybit.RequestCredentials: the source puts the reading itself in `X-BAPI-TIMESTAMP`, while the model's header map holds its decimal text.
- `base/urls` is not part of this model. The default URLs it supplies are the input record `Urls`.
- `base/exceptions` is not part of this model. The text of a `ClientException`/`ServerException` is taken to be the body it carries.
- The extra `self` that Bybit, Kucoin and Phemex pass to `super().send_request`: the façades are modelled with the argument list the base class expects.
- The private `__signed_request` helpers of Bybit, Kucoin and Phemex: they are dead code except where Kucoin's `get_balance` calls one, which is modelled as the `TypeError` it raises.
- Ftx.MarketOrder: the source serialises the body with `json.dump`. Called without a file, that raises `TypeError`. The model instead takes the serialiser as the parameter `dump`, an opaque text.
- Ftx.LimitOrder: likewise takes the serialised body as the opaque text `dump`.
- Floating-point date conversions: Binance's start and end milliseconds are integer inputs, and Kucoin's `timestamp() * 1000` is the parameter `toMillis`.
- pandas DataFrame branches and logging: a caller's `is_dataframe` reshaping is display only. Ftx.DataReply: when the reply itself has truthy `is_dataframe` and `result`, the table's contents are not modelled, and neither is the fall-back to the reply when pandas fails.
- The `RateLimiter` decorator on Binance: timing and concurrency.
- `onecall/ftx_us.py`, `setup.py` and `onecall/__init__.py`: a trivial subclass, packaging and re-exports.
- Credentials left as `None`: key and secret are modelled as strings. Kucoin's missing pass phrase is modelled, since it changes which exception is raised.
- Kucoin.RequestCredentials: `b64encode` returns bytes, and the header values are modelled as the ASCII text of those bytes.
- Bybit.LimitOrder: the unused `time_in_force` argument is not a parameter, since nothing reads it.
- Lone surrogates: a Python string may hold one, and then `.encode("utf-8")` raises; a Dafny `char` is a Unicode scalar value, so `Utf8.Encode` never meets one.
- The `super()` reads in the Findings table: every corrected member assumes that each of them reads `self`. The reads are `onecall/bybit.py` lines 30, 51, 109, 124, 143, 163, 179, 195, 196 and 202; `onecall/kucoin.py` lines 203, 205 and 214; and `onecall/phemex.py` lines 177 and 182.
- `repr` escaping of characters other than backslash, the quote, newline, carriage return and tab; `str.upper` beyond ASCII letters.

## Findings

| source | as written | input that shows it | evidently intended | confidence | as-written member | corrected member |
|---|---|---|---|---|---|---|
| onecall/bybit.py:30 | `super().key` reads the key through the `super()` proxy, which searches only the base classes and never the instance that `Exchange.__init__` stored it on, so every signed Bybit call raises `AttributeError`. The same read recurs at lines 51, 109, 124, 143, 163 and 179, and `super().key` / `super().secret` at lines 195, 196 and 202 | `get_positions("BTCUSDT")` on any instance (lemma `Bybit.SuperKeyNeverSends`) | `self.key` at lines 30, 51, 109, 124, 143, 163, 179, 195 and 202, and `self.secret` at line 196 | high; not executed | Bybit.GetPositionsAsWritten | Bybit.GetPositions |
| onecall/kucoin.py:203 | `super().secret` in `_get_sign` raises `AttributeError` in the same way, so no Kucoin call can be signed. `super().secret` and `super().pass_phrase` recur at line 205, and `super().key` at line 214 | any text to sign, with a pass phrase set (lemma `Kucoin.SuperSecretNeverSigns`) | `self.secret` at lines 203 and 205, `self.pass_phrase` at line 205, `self.key` at line 214 | high; not executed | Kucoin.GetSignAsWritten | Kucoin.GetSign |
| onecall/phemex.py:177 | `super().secret` in `_get_sign` raises `AttributeError`, so no Phemex call can be signed; `super().key` recurs at line 182 | any text to sign (lemma `Phemex.SuperSecretNeverSigns`) | `self.secret` at line 177 and `self.key` at line 182 | high; not executed | Phemex.GetSignAsWritten | Phemex.GetSign |
