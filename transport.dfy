/**
 * The front-end's single request function: how the URL, method, headers and
 * body of a `fetch` are chosen, and how the settled response becomes the
 * resolved value or the thrown error every caller sees. `fetch` itself is an
 * abstract, already-settled outcome.
 */
module Transport {
  import opened Wrappers
  import opened Text
  import opened Json
  import opened Storage

  const DefaultBaseUrl: string := "/api/v1"
  const JsonMediaType: string := "application/json"

  /** `getBaseUrl()`: `VITE_API_BASE_URL` when set and non-empty, else the proxy path. */
  function BaseUrl(fromEnv: Option<string>): (url: string)
    ensures Present(fromEnv) ==> url == fromEnv.value
    ensures !Present(fromEnv) ==> url == DefaultBaseUrl
  {
    if fromEnv.Some? && |fromEnv.value| > 0 then fromEnv.value else DefaultBaseUrl
  }

  /** The optional second argument of `request`; `verb` is its `method` field. */
  datatype RequestOptions = RequestOptions(
    verb: Option<string>,
    body: Option<Json>,
    headers: Option<map<string, string>>,
    auth: Option<bool>)

  /** What is handed to `fetch`: `body` is the value given to `JSON.stringify`. */
  datatype FetchInit = FetchInit(url: string, verb: string, headers: map<string, string>, body: Option<Json>)

  /** `options?.auth !== false` */
  predicate ShouldAuth(options: Option<RequestOptions>)
  {
    !(options.Some? && options.value.auth == Some(false))
  }

  function CallerHeaders(options: Option<RequestOptions>): map<string, string>
  {
    if options.Some? && options.value.headers.Some? then options.value.headers.value else map[]
  }

  /**
   * Builds the `fetch` arguments step by step, as `request` does: the JSON
   * defaults, the caller's headers spread over them, then the bearer token
   * written over whatever the caller supplied.
   */
  method PrepareRequest(fromEnv: Option<string>, path: string, options: Option<RequestOptions>, token: Option<string>)
    returns (init: FetchInit)
    ensures init.url == BaseUrl(fromEnv) + path
    ensures init.verb == if options.Some? && options.value.verb.Some? then options.value.verb.value else "GET"
    ensures init.body == if options.Some? then options.value.body else None
    // the bearer header is attached exactly when authentication is on and a token is present
    ensures ShouldAuth(options) && Present(token) ==>
      "Authorization" in init.headers && init.headers["Authorization"] == "Bearer " + token.value
    ensures !(ShouldAuth(options) && Present(token)) ==>
      ("Authorization" in init.headers <==> "Authorization" in CallerHeaders(options)) &&
      ("Authorization" in init.headers ==> init.headers["Authorization"] == CallerHeaders(options)["Authorization"])
    // every other header is the caller's value if given, else the JSON default
    ensures forall name :: name != "Authorization" ==>
      (name in init.headers <==> name in CallerHeaders(options) || name == "Accept" || name == "Content-Type")
    ensures forall name :: name != "Authorization" && name in CallerHeaders(options) ==>
      name in init.headers && init.headers[name] == CallerHeaders(options)[name]
    ensures "Accept" !in CallerHeaders(options) ==> init.headers["Accept"] == JsonMediaType
    ensures "Content-Type" !in CallerHeaders(options) ==> init.headers["Content-Type"] == JsonMediaType
  {
    var baseUrl := BaseUrl(fromEnv);
    var url := baseUrl + path;
    var headers := map["Accept" := JsonMediaType, "Content-Type" := JsonMediaType] + CallerHeaders(options);
    var shouldAuth := !(options.Some? && options.value.auth == Some(false));
    if shouldAuth {
      if token.Some? && token.value != "" {
        headers := headers["Authorization" := "Bearer " + token.value];
      }
    }
    var verb := if options.Some? && options.value.verb.Some? then options.value.verb.value else "GET";
    var body := if options.Some? then options.value.body else None;
    init := FetchInit(url, verb, headers, body);
  }

  /** The body of a response, as `response.json()` settles. */
  datatype Body = JsonBody(value: Json) | InvalidJson(error: Thrown)

  datatype Response = Response(status: int, body: Body)

  /** How `fetch` itself settled: a response, or a rejection (network failure, abort). */
  datatype Fetched = Responded(response: Response) | FetchRejected(error: Thrown)

  predicate IsOk(status: int)
  {
    200 <= status <= 299
  }

  /** The message of the error thrown for a non-OK status other than 401. */
  function ErrorMessage(status: int, body: Body): string
  {
    var fallback := "HTTP " + IntToString(status);
    match body
    case InvalidJson(_) => fallback
    case JsonBody(payload) =>
      if Truthy(payload) && StringField(payload, "message").Some? then StringField(payload, "message").value
      else fallback
  }

  /**
   * The settled value of `request`: `Ok(None)` is `undefined` (no content),
   * `Ok(Some(v))` the parsed body, `Fail(e)` the thrown error.
   */
  function Settle(fetched: Fetched): Outcome<Option<Json>>
  {
    match fetched
    case FetchRejected(e) => Fail(e)
    case Responded(Response(status, body)) =>
      if !IsOk(status) then
        if status == 401 then Reject("Unauthorized") else Reject(ErrorMessage(status, body))
      else if status == 204 then Ok(None)
      else
        match body
        case JsonBody(v) => Ok(Some(v))
        case InvalidJson(e) => Fail(e)
  }

  /** A 401 always rejects with "Unauthorized", whatever the body says. */
  lemma UnauthorizedIgnoresBody(body: Body)
    ensures Settle(Responded(Response(401, body))) == Reject("Unauthorized")
  {
  }

  /** 204 resolves to `undefined` without looking at the body. */
  lemma NoContentIgnoresBody(body: Body)
    ensures Settle(Responded(Response(204, body))) == Ok(None)
  {
  }

  /**
   * Any other non-OK status rejects with the payload's string `message`, else
   * with `HTTP <status>`; a body that does not parse keeps the default.
   */
  lemma ErrorStatusMessage(status: int, body: Body)
    requires !IsOk(status) && status != 401
    ensures Settle(Responded(Response(status, body))) == Reject(ErrorMessage(status, body))
    ensures body.JsonBody? && StringField(body.value, "message").Some? ==>
      ErrorMessage(status, body) == StringField(body.value, "message").value
    ensures !(body.JsonBody? && StringField(body.value, "message").Some?) ==>
      ErrorMessage(status, body) == "HTTP " + IntToString(status)
  {
  }

  /** `request` resolves exactly for a 2xx status that is 204 or carries valid JSON. */
  lemma ResolvesIff(r: Response)
    ensures Settle(Responded(r)).Ok? <==> IsOk(r.status) && (r.status == 204 || r.body.JsonBody?)
    ensures Settle(Responded(r)).Ok? && r.status != 204 ==> Settle(Responded(r)) == Ok(Some(r.body.value))
  {
  }

  lemma ExampleServerError()
    ensures Settle(Responded(Response(500, InvalidJson(Thrown(None))))) == Reject("HTTP 500")
    ensures Settle(Responded(Response(404, JsonBody(JObj(map["message" := JStr("Проект с id=7 не найден")]))))) ==
      Reject("Проект с id=7 не найден")
  {
    assert NatToString(5) == "5";
    assert NatToString(50) == "50";
    assert NatToString(500) == "500";
    assert ErrorMessage(500, InvalidJson(Thrown(None))) == "HTTP 500";
  }
}
