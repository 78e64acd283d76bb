/** The shared base class `Exchange`: construction, the verb table, the
    HTTP-status classification and `send_request`, which turns every
    failure into its message text instead of raising. */
module ExchangeBase {

  import opened Prelude
  import opened Json
  import PyValue

  /** An `Exchange` instance after `__init__`. `baseUrl` is `None` when the
      instance never got a `base_url` attribute. */
  datatype Exchange = Exchange(
    className: string,
    key: string,
    secret: string,
    passPhrase: Option<string>,
    baseUrl: Option<string>,
    showLimitUsage: bool)

  /** `Exchange.__init__`: `base_url` is set only from a truthy argument,
      and `show_limit_usage` only by the object `True` itself. */
  function Init(className: string, key: string, secret: string, passPhrase: Option<string>,
                baseUrl: Option<string>, showLimitUsage: PyValue.Value): (e: Exchange)
    ensures e.className == className && e.key == key && e.secret == secret && e.passPhrase == passPhrase
    ensures e.baseUrl.Some? <==> baseUrl.Some? && baseUrl.value != ""
    ensures e.baseUrl.Some? ==> e.baseUrl == baseUrl
    ensures e.showLimitUsage <==> showLimitUsage == PyValue.VBool(true)
  {
    var url := if baseUrl.Some? && baseUrl.value != "" then baseUrl else None;
    var limits := if showLimitUsage == PyValue.VBool(true) then true else false;
    Exchange(className, key, secret, passPhrase, url, limits)
  }

  /** A keyword argument that may be left out of `**kwargs`. */
  datatype Kwarg<+T> = Omitted | Passed(value: T)

  /** The `base.urls` constants the subclasses default to. That module is
      not part of this model, so the values are inputs. */
  datatype Urls = Urls(binanceFutures: string, ftxFutures: string, ftxFuturesTest: string, phemexFutures: string)

  /** The subclasses' `if "base_url" not in kwargs: kwargs["base_url"] = …`. */
  function DefaultBaseUrl(arg: Kwarg<Option<string>>, default: string): (r: Option<string>)
    ensures arg.Omitted? ==> r == Some(default)
    ensures arg.Passed? ==> r == arg.value
  {
    match arg
    case Omitted => Some(default)
    case Passed(v) => v
  }

  /** One `_path_config` entry: verb, path (possibly a template) and the
      unused rate limit. */
  datatype Endpoint = Endpoint(verb: string, path: string, rateLimit: int)

  // ---------------------------------------------------------------------
  // Requests and the transport.

  type Headers = map<string, string>

  /** What `requests` receives as `params` or `data`: a dict or a text. */
  datatype Body = Fields(dict: PyValue.Dict) | Text(text: string)

  /** The arguments of one `send_request` call. */
  datatype Request = Request(
    verb: string,
    path: string,
    headers: Option<Headers>,
    params: Option<Body>,
    data: Option<Body>)

  /** One call of a `requests.Session` verb method. */
  datatype Call = Call(verb: string, url: string, headers: Option<Headers>, params: Option<Body>, data: Option<Body>)

  /** What `response.json()` makes of the body. */
  datatype Decoding = Parsed(value: Json) | Malformed(message: string)

  datatype Response = Response(status: int, text: string, json: Decoding)

  /** The transport either answers or raises with a message. */
  datatype Transmission = Delivered(response: Response) | Failed(message: string)

  /** The HTTP collaborator, as a function from call to outcome. */
  type Network = Call -> Transmission

  // ---------------------------------------------------------------------
  // `_dispatch_request`

  const Verbs: set<string> := {"GET", "DELETE", "PUT", "POST"}

  /** A session method, or the non-callable value the table lookup falls
      back to. */
  datatype Handler = SessionMethod(verb: string) | NotCallable(value: string)

  /** `{"GET": …, "DELETE": …, "PUT": …, "POST": …}.get(http_method, "GET")`:
      the four verbs map to their session methods; anything else yields the
      string `"GET"`, not a method. */
  function DispatchRequest(verb: string): (h: Handler)
    ensures verb in Verbs <==> h.SessionMethod?
    ensures h.SessionMethod? ==> h.verb == verb
    ensures h.NotCallable? ==> h.value == "GET"
  {
    var table := map["GET" := SessionMethod("GET"), "DELETE" := SessionMethod("DELETE"),
                     "PUT" := SessionMethod("PUT"), "POST" := SessionMethod("POST")];
    if verb in table then table[verb] else NotCallable("GET")
  }

  // ---------------------------------------------------------------------
  // `_handle_exception`

  /** `ClientException` and `ServerException`, each carrying the body text. */
  datatype HttpError = ClientException(text: string) | ServerException(text: string)

  /** `_handle_exception`: nothing below 400, a client error carrying the
      body verbatim for 400–499 whether or not the body parses as JSON, a
      server error carrying it for 500 and above. */
  function HandleException(r: Response): (e: Option<HttpError>)
    ensures e.None? <==> r.status < 400
    ensures e == Some(ClientException(r.text)) <==> 400 <= r.status < 500
    ensures e == Some(ServerException(r.text)) <==> 500 <= r.status
  {
    if r.status < 400 then None
    else if 400 <= r.status < 500 then
      match r.json
      case Malformed(_) => Some(ClientException(r.text))
      case Parsed(_) => Some(ClientException(r.text))
    else Some(ServerException(r.text))
  }

  // ---------------------------------------------------------------------
  // `send_request`

  /** The decoded body, or the `str()` of whatever was raised. */
  datatype Reply = Decoded(value: Json) | ErrorText(message: string)

  function MissingBaseUrl(className: string): string {
    "'" + className + "' object has no attribute 'base_url'"
  }

  const NotCallableMessage: string := "'str' object is not callable"

  /** The session call `send_request` makes for a request. */
  function CallOf(url: string, req: Request, verb: string): Call {
    Call(verb, url, req.headers, req.params, req.data)
  }

  /** `send_request`: the URL is `base_url + url_path`; the result is the
      decoded body of a response below 400, and in every other case the
      message of the exception, never the exception itself. */
  function SendRequest(ex: Exchange, req: Request, net: Network): (r: Reply)
    ensures ex.baseUrl.None? ==> r == ErrorText(MissingBaseUrl(ex.className))
    ensures ex.baseUrl.Some? && req.verb !in Verbs ==> r == ErrorText(NotCallableMessage)
    ensures r.Decoded? <==>
      && ex.baseUrl.Some? && req.verb in Verbs
      && var t := net(Call(req.verb, ex.baseUrl.value + req.path, req.headers, req.params, req.data));
         t.Delivered? && t.response.status < 400 && t.response.json.Parsed?
    ensures r.Decoded? ==>
      net(Call(req.verb, ex.baseUrl.value + req.path, req.headers, req.params, req.data)).response.json
      == Parsed(r.value)
    ensures ex.baseUrl.Some? && req.verb in Verbs ==>
      var t := net(Call(req.verb, ex.baseUrl.value + req.path, req.headers, req.params, req.data));
      && (t.Failed? ==> r == ErrorText(t.message))
      && (t.Delivered? && t.response.status >= 400 ==> r == ErrorText(t.response.text))
      && (t.Delivered? && t.response.status < 400 && t.response.json.Malformed? ==>
            r == ErrorText(t.response.json.message))
  {
    match ex.baseUrl
    case None => ErrorText(MissingBaseUrl(ex.className))
    case Some(base) =>
      var url := base + req.path;
      match DispatchRequest(req.verb)
      case NotCallable(_) => ErrorText(NotCallableMessage)
      case SessionMethod(v) =>
        match net(CallOf(url, req, v))
        case Failed(msg) => ErrorText(msg)
        case Delivered(resp) =>
          match HandleException(resp)
          case Some(e) => ErrorText(e.text)
          case None =>
            match resp.json
            case Parsed(j) => Decoded(j)
            case Malformed(msg) => ErrorText(msg)
  }

  /** The names the class `Exchange` itself defines: its methods. The
      credentials are attributes of the instance, stored by `__init__`. */
  const ClassAttributes: set<string> := {"__init__", "send_request", "_dispatch_request", "_handle_exception"}

  /** `super().name` inside a subclass method: the proxy searches only the
      classes after the subclass, never the instance, so an attribute that
      `__init__` stored on `self` is not found. */
  function SuperAttribute(name: string): (r: Outcome<()>)
    ensures r.Returned? <==> name in ClassAttributes
    ensures r.Raised? ==> r.error == AttributeError(name)
  {
    if name in ClassAttributes then Returned(()) else Raised(AttributeError(name))
  }

  /** A façade method up to its `send_request` calls: it returns `None`
      early, raises before sending, or sends these requests in order. */
  datatype Plan = ReturnsNone | Raises(error: PyError) | Sends(requests: seq<Request>)

  /** The Python object `send_request` hands back to the caller. */
  function AsPython(r: Reply): Json {
    match r
    case Decoded(j) => j
    case ErrorText(s) => JStr(s)
  }
}
