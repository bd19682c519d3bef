/**
 * The back-end's error responses: the `APIException` family with its fixed
 * status codes and default messages, the handler that turns one into a JSON
 * reply, the catch-all handler, and FastAPI's own `HTTPException`.
 */
module Exceptions {
  import opened Wrappers
  import opened Json
  import opened Text

  const BadRequest: int := 400
  const Forbidden: int := 403
  const NotFoundStatus: int := 404
  const ConflictStatus: int := 409
  const InternalError: int := 500

  const NotFoundDefault: string := "Resource not found"
  const ValidationDefault: string := "Validation error"
  const ConflictDefault: string := "Resource already exists"
  const InternalPrefix: string := "Internal server error: "

  /** Which class of the family was raised; `Plain` is `APIException` itself. */
  datatype Kind = Plain | NotFound | Validation | Conflict

  /** An instance: its message, its status code, and the `errors` only a validation error carries. */
  datatype ApiException = ApiException(kind: Kind, message: string, statusCode: int, errors: Option<map<string, Json>>)

  /** The status each subclass fixes; the base class defaults to 400. */
  function KindStatus(kind: Kind): int
  {
    match kind
    case NotFound => NotFoundStatus
    case Conflict => ConflictStatus
    case _ => BadRequest
  }

  /** An instance as the constructors build it. */
  predicate Constructed(e: ApiException)
  {
    (e.kind != Plain ==> e.statusCode == KindStatus(e.kind)) && (e.kind != Validation ==> e.errors.None?)
  }

  /** `APIException(message, status_code=400)` */
  function NewApiException(message: string, statusCode: Option<int>): (e: ApiException)
    ensures e.kind == Plain && e.message == message && e.errors.None?
    ensures e.statusCode == statusCode.GetOr(BadRequest)
    ensures Constructed(e)
  {
    ApiException(Plain, message, statusCode.GetOr(BadRequest), None)
  }

  /** `NotFoundException(message="Resource not found")`: always 404. */
  function NotFoundError(message: Option<string>): (e: ApiException)
    ensures e.kind == NotFound && e.statusCode == 404 && e.message == message.GetOr(NotFoundDefault)
    ensures Constructed(e)
  {
    ApiException(NotFound, message.GetOr(NotFoundDefault), NotFoundStatus, None)
  }

  /** `ValidationException(message="Validation error", errors=None)`: always 400. */
  function ValidationError(message: Option<string>, errors: Option<map<string, Json>>): (e: ApiException)
    ensures e.kind == Validation && e.statusCode == 400 && e.message == message.GetOr(ValidationDefault)
    ensures e.errors == errors && Constructed(e)
  {
    ApiException(Validation, message.GetOr(ValidationDefault), BadRequest, errors)
  }

  /** `ConflictException(message="Resource already exists")`: always 409. */
  function ConflictError(message: Option<string>): (e: ApiException)
    ensures e.kind == Conflict && e.statusCode == 409 && e.message == message.GetOr(ConflictDefault)
    ensures Constructed(e)
  {
    ApiException(Conflict, message.GetOr(ConflictDefault), ConflictStatus, None)
  }

  /** A `JSONResponse`: a status and an object body. */
  datatype JsonResponse = JsonResponse(status: int, content: map<string, Json>)

  /** Python truthiness of an optional dictionary. */
  predicate HasErrors(e: ApiException)
  {
    e.kind == Validation && e.errors.Some? && |e.errors.value| > 0
  }

  /**
   * `api_exception_handler`: the exception's own status, a `message`, and an
   * `errors` member only for a validation error whose errors are not empty.
   */
  function HandleApiException(e: ApiException): (r: JsonResponse)
    ensures r.status == e.statusCode
    ensures "message" in r.content && r.content["message"] == JStr(e.message)
    ensures "errors" in r.content <==> HasErrors(e)
    ensures "errors" in r.content ==> r.content["errors"] == JObj(e.errors.value)
    ensures r.content.Keys <= {"message", "errors"}
  {
    var content := map["message" := JStr(e.message)];
    if HasErrors(e) then JsonResponse(e.statusCode, content["errors" := JObj(e.errors.value)])
    else JsonResponse(e.statusCode, content)
  }

  /** `general_exception_handler`: 500 and the exception's text after a fixed prefix. */
  function HandleGeneral(text: string): (r: JsonResponse)
    ensures r.status == 500
    ensures r.content.Keys == {"message"} && r.content["message"] == JStr(InternalPrefix + text)
  {
    JsonResponse(InternalError, map["message" := JStr(InternalPrefix + text)])
  }

  /** FastAPI's `HTTPException`, which FastAPI itself answers with a `detail` member. */
  datatype HttpException = HttpException(statusCode: int, detail: string)

  function HandleHttpException(e: HttpException): (r: JsonResponse)
    ensures r.status == e.statusCode
    ensures r.content.Keys == {"detail"} && r.content["detail"] == JStr(e.detail)
  {
    JsonResponse(e.statusCode, map["detail" := JStr(e.detail)])
  }

  /** What an endpoint can raise: one of the family, an `HTTPException`, or any other exception's text. */
  datatype Raised = Api(exc: ApiException) | Http(http: HttpException) | Crash(text: string)

  function Respond(r: Raised): JsonResponse
  {
    match r
    case Api(e) => HandleApiException(e)
    case Http(e) => HandleHttpException(e)
    case Crash(text) => HandleGeneral(text)
  }

  /** A message naming the id it is about, such as `Проект с id=7 не найден`. */
  function IdMessage(prefix: string, id: int, suffix: string): string
  {
    prefix + IntToString(id) + suffix
  }

  /** Such a message tells which id was looked up. */
  lemma IdMessageInjective(prefix: string, a: int, b: int, suffix: string)
    requires IdMessage(prefix, a, suffix) == IdMessage(prefix, b, suffix)
    ensures a == b
  {
    InfixEqual(prefix, IntToString(a), IntToString(b), suffix);
    IntToStringInjective(a, b);
  }

  /** The outcome of an endpoint's checks: an exception, or the value it goes on with. */
  datatype Decision<T> = Raise(raised: Raised) | Proceed(value: T)

  function NotFoundRaise<T>(message: string): Decision<T>
  {
    Raise(Api(NotFoundError(Some(message))))
  }

  function ConflictRaise<T>(message: string): Decision<T>
  {
    Raise(Api(ConflictError(Some(message))))
  }

  function ValidationRaise<T>(message: string): Decision<T>
  {
    Raise(Api(ValidationError(Some(message), None)))
  }

  /** The status a raised decision answers with; 0 for one that goes on. */
  function StatusOf<T>(d: Decision<T>): int
  {
    if d.Raise? then Respond(d.raised).status else 0
  }

  /** The message of a raised application error, as its reply carries it. */
  function MessageOf<T>(d: Decision<T>): Option<string>
  {
    if d.Raise? && d.raised.Api? then Some(d.raised.exc.message) else None
  }

  /**
   * Each subclass answers with its own code whatever the message, and only a
   * validation error can add `errors`: the three codes tell the classes apart.
   */
  lemma StatusIdentifiesClass(m: Option<string>, errors: Option<map<string, Json>>)
    ensures HandleApiException(NotFoundError(m)).status == 404
    ensures HandleApiException(ValidationError(m, errors)).status == 400
    ensures HandleApiException(ConflictError(m)).status == 409
    ensures HandleApiException(NotFoundError(m)).content.Keys == {"message"}
    ensures HandleApiException(ConflictError(m)).content.Keys == {"message"}
    ensures HandleApiException(ValidationError(m, errors)).content.Keys == {"message"} <==>
      errors.None? || |errors.value| == 0
  {
    var r := HandleApiException(ValidationError(m, errors));
    if errors.Some? && |errors.value| > 0 {
      assert "errors" in r.content.Keys;
    }
  }
}
