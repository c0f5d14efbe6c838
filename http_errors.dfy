/** The HTTP error classes: `HTTPError` and its ten subclasses, each fixing
    a status code and a default error code. */
module HttpErrors {
  import opened Wrappers

  /** What a `throw` can carry as far as the adapters are concerned: an
      `HTTPError` (or subclass) instance, or any other value, described by
      its name and message (an `Error`, a `SyntaxError` from `JSON.parse`,
      a `TypeError` from reading a property of `undefined`, ...). */
  datatype Thrown =
    | Http(err: HttpError)
    | Other(name: string, message: string)

  /** An `HTTPError` instance: `name` is the name of the class it was
      created with, `cause` is the `cause` option handed on to `Error`. */
  datatype HttpError = HttpError(
    name: string,
    message: string,
    statusCode: int,
    code: string,
    cause: Option<Thrown>)

  /** The options of the base constructor; `statusCode` and `code` are
      mandatory there. */
  datatype HttpErrorOptions = HttpErrorOptions(cause: Option<Thrown>, statusCode: int, code: string)

  /** The options of a subclass constructor: both may be left out. */
  datatype CustomOptions = CustomOptions(cause: Option<Thrown>, code: Option<string>)

  /** The ten subclasses of `HTTPError`. */
  datatype ErrorClass =
    | BadRequest
    | Unauthorized
    | PaymentRequired
    | Forbidden
    | NotFound
    | NotAcceptable
    | Conflict
    | UnsupportedMediaType
    | InternalServer
    | BadGateway

  /** The status code a subclass writes after its options, so that no
      option can change it. Every one is a client or server error status,
      and no two subclasses share one. */
  function StatusOf(c: ErrorClass): (s: int)
    ensures 400 <= s < 600
    ensures s < 500 <==> !(c.InternalServer? || c.BadGateway?)
  {
    match c
    case BadRequest => 400
    case Unauthorized => 401
    case PaymentRequired => 402
    case Forbidden => 403
    case NotFound => 404
    case NotAcceptable => 406
    case Conflict => 409
    case UnsupportedMediaType => 415
    case InternalServer => 500
    case BadGateway => 502
  }

  /** The code a subclass uses when its options carry none. */
  function DefaultCode(c: ErrorClass): string
  {
    match c
    case BadRequest => "BAD_REQUEST"
    case Unauthorized => "UNAUTHORIZED"
    case PaymentRequired => "BAD_REQUEST"
    case Forbidden => "FORBIDDEN"
    case NotFound => "NOT_FOUND"
    case NotAcceptable => "NOT_ACCEPTABLE"
    case Conflict => "CONFLICT"
    case UnsupportedMediaType => "UNSUPPORTED_MEDIA_TYPE"
    case InternalServer => "INTERNAL_SERVER_ERROR"
    case BadGateway => "BAD_GATEWAY"
  }

  /** `this.constructor.name` for an instance of the subclass. */
  function ClassName(c: ErrorClass): string
  {
    match c
    case BadRequest => "BadRequestError"
    case Unauthorized => "UnauthorizedError"
    case PaymentRequired => "PaymentRequiredError"
    case Forbidden => "ForbiddenError"
    case NotFound => "NotFoundError"
    case NotAcceptable => "NotAcceptableError"
    case Conflict => "ConflictError"
    case UnsupportedMediaType => "UnsupportedMediaTypeError"
    case InternalServer => "InternalServerError"
    case BadGateway => "BadGatewayError"
  }

  /** `new HTTPError(message, options)` run from the constructor of the
      class named `className` (`"HTTPError"` itself when called directly):
      the status code and code are stored as given, the message unchanged,
      and the remaining option, `cause`, goes to `Error`. */
  function NewHttpError(className: string, message: string, options: HttpErrorOptions): (e: HttpError)
    ensures e.statusCode == options.statusCode && e.code == options.code
    ensures e.message == message && e.name == className && e.cause == options.cause
  {
    HttpError(className, message, options.statusCode, options.code, options.cause)
  }

  /** The object `{ code: <default>, ...options, statusCode: <status> }`
      that a subclass hands to the base constructor: a `code` in the
      options replaces the default, nothing replaces the status. */
  function SpreadOptions(c: ErrorClass, options: Option<CustomOptions>): HttpErrorOptions
  {
    match options
    case None => HttpErrorOptions(None, StatusOf(c), DefaultCode(c))
    case Some(o) => HttpErrorOptions(o.cause, StatusOf(c), o.code.GetOr(DefaultCode(c)))
  }

  /** `new <Subclass>(message, options)`. */
  function NewError(c: ErrorClass, message: string, options: Option<CustomOptions>): (e: HttpError)
    ensures e.statusCode == StatusOf(c)
    ensures options.Some? && options.value.code.Some? ==> e.code == options.value.code.value
    ensures options.None? || options.value.code.None? ==> e.code == DefaultCode(c)
    ensures e.message == message && e.name == ClassName(c)
    ensures e.cause == if options.Some? then options.value.cause else None
  {
    NewHttpError(ClassName(c), message, SpreadOptions(c, options))
  }

  /** The options never change the status code of a subclass instance. */
  lemma StatusIgnoresOptions(c: ErrorClass, m1: string, o1: Option<CustomOptions>, m2: string, o2: Option<CustomOptions>)
    ensures NewError(c, m1, o1).statusCode == NewError(c, m2, o2).statusCode
  {
  }

  /** Two subclasses share a status code only if they are the same class. */
  lemma StatusDistinct(c1: ErrorClass, c2: ErrorClass)
    requires StatusOf(c1) == StatusOf(c2)
    ensures c1 == c2
  {
  }

  /** `PaymentRequiredError` defaults to the code of `BadRequestError`, and
      is the only subclass whose default code is not its own. */
  lemma DefaultCodeShared(c1: ErrorClass, c2: ErrorClass)
    requires c1 != c2 && DefaultCode(c1) == DefaultCode(c2)
    ensures {c1, c2} == {BadRequest, PaymentRequired}
  {
  }
}
