/**
 * The HTTP error taxonomy: a closed set of six error kinds, each bound to a
 * fixed status code and title, and the serialization of an error occurrence
 * to a problem object `{status, title, detail, context?}` in the style of
 * RFC 9457 (Problem Details for HTTP APIs), section 3.1.
 */
module HttpErrors {
  import opened Options

  /** The six kinds of the taxonomy; no other kind exists. */
  datatype Kind =
    | BadRequest
    | Unauthorized
    | Forbidden
    | NotFound
    | TooManyRequests
    | InternalServer

  /** The detail every InternalServerError carries; no caller chooses it. */
  const InternalServerErrorDetail: string := "An unexpected error occurred. Please try again."

  /** The context of a BadRequestError: field path to explanatory message. */
  datatype ErrorContext = ErrorContext(errors: map<string, string>)

  /**
   * One occurrence of an HTTP error, as built by the constructor of its class.
   * Status and title are not fields: they are fixed by the kind.
   */
  datatype HttpError =
    | BadRequestError(message: string, context: ErrorContext)
    | UnauthorizedError(message: string)
    | ForbiddenError(message: string)
    | NotFoundError(message: string)
    | TooManyRequestsError(message: string)
    | InternalServerError()

  /** The serialized problem object; `context` is None when the key is omitted. */
  datatype Problem = Problem(status: int, title: string, detail: string, context: Option<ErrorContext>)

  /**
   * The class an occurrence was built from. Only a BadRequestError carries
   * errors, and the InternalServer kind has a single occurrence, since its
   * constructor takes no argument.
   */
  function KindOf(e: HttpError): (k: Kind)
    ensures k == BadRequest <==> e.BadRequestError?
    ensures k == InternalServer <==> e == InternalServerError
  {
    match e
    case BadRequestError(_, _) => BadRequest
    case UnauthorizedError(_) => Unauthorized
    case ForbiddenError(_) => Forbidden
    case NotFoundError(_) => NotFound
    case TooManyRequestsError(_) => TooManyRequests
    case InternalServerError() => InternalServer
  }

  /** The status code of a kind: a 4xx client error, except the one 5xx server error. */
  function StatusOf(k: Kind): (s: int)
    ensures 400 <= s < 600
    ensures s >= 500 <==> k == InternalServer
  {
    match k
    case BadRequest => 400
    case Unauthorized => 401
    case Forbidden => 403
    case NotFound => 404
    case TooManyRequests => 429
    case InternalServer => 500
  }

  /** The title of a kind: the standard reason phrase of its status code. */
  function TitleOf(k: Kind): (t: string)
    ensures ReasonPhrase(StatusOf(k)) == Some(t)
  {
    match k
    case BadRequest => "Bad Request"
    case Unauthorized => "Unauthorized"
    case Forbidden => "Forbidden"
    case NotFound => "Not Found"
    case TooManyRequests => "Too Many Requests"
    case InternalServer => "Internal Server Error"
  }

  /** The `status` of an occurrence: 5xx exactly for an InternalServerError. */
  function Status(e: HttpError): (s: int)
    ensures 400 <= s < 600
    ensures s >= 500 <==> e == InternalServerError
  {
    StatusOf(KindOf(e))
  }

  /** The `title` of an occurrence: the reason phrase of its status. */
  function Title(e: HttpError): (t: string)
    ensures ReasonPhrase(Status(e)) == Some(t)
  {
    TitleOf(KindOf(e))
  }

  /** The human-readable explanation of this occurrence (the `Error` message). */
  function Detail(e: HttpError): (d: string)
  {
    if e.InternalServerError? then InternalServerErrorDetail else e.message
  }

  /** The context of an occurrence; only a BadRequestError has one. */
  function Context(e: HttpError): (c: Option<ErrorContext>)
    ensures c.Some? <==> KindOf(e) == BadRequest
  {
    if e.BadRequestError? then Some(e.context) else None
  }

  /**
   * Serialization: status, title and detail of the occurrence, and the
   * `context` key exactly when the occurrence has a context.
   */
  function Serialize(e: HttpError): (p: Problem)
    ensures p.status == StatusOf(KindOf(e)) && p.title == TitleOf(KindOf(e))
    ensures e.InternalServerError? ==> p.detail == InternalServerErrorDetail
    ensures !e.InternalServerError? ==> p.detail == e.message
    ensures p.context.Some? <==> e.BadRequestError?
    ensures e.BadRequestError? ==> p.context == Some(e.context)
  {
    Problem(Status(e), Title(e), Detail(e), Context(e))
  }

  /** Every kind, in the order http-errors/index.ts declares the classes. */
  const AllKinds: seq<Kind> := [BadRequest, Unauthorized, Forbidden, NotFound, TooManyRequests, InternalServer]

  /** No two kinds listed in `ks` share a title. */
  predicate TitlesDistinct(ks: seq<Kind>)
  {
    forall i, j :: 0 <= i < j < |ks| ==> TitleOf(ks[i]) != TitleOf(ks[j])
  }

  /** The first kind of `ks` whose title is `t`, if any. */
  function FindByTitle(t: string, ks: seq<Kind>): (r: Option<Kind>)
    ensures r.Some? ==> r.value in ks && TitleOf(r.value) == t
    ensures r.Some? ==> exists i :: 0 <= i < |ks| && ks[i] == r.value && forall j :: 0 <= j < i ==> TitleOf(ks[j]) != t
    ensures r.None? ==> forall k :: k in ks ==> TitleOf(k) != t
    decreases |ks|
  {
    if |ks| == 0 then None
    else if TitleOf(ks[0]) == t then Some(ks[0])
    else FindByTitle(t, ks[1..])
  }

  /** The kind a title classifies, if it is the title of any kind. */
  function KindOfTitle(t: string): (r: Option<Kind>)
    ensures r.Some? ==> TitleOf(r.value) == t
    ensures r.None? ==> forall k :: TitleOf(k) != t
  {
    AllKindsComplete();
    FindByTitle(t, AllKinds)
  }

  /** The closed set: `AllKinds` lists every kind, each with its own title. */
  lemma AllKindsComplete()
    ensures forall k :: k in AllKinds
    ensures TitlesDistinct(AllKinds)
  {
    forall k ensures k in AllKinds {
      match k
      case BadRequest => assert AllKinds[0] == k;
      case Unauthorized => assert AllKinds[1] == k;
      case Forbidden => assert AllKinds[2] == k;
      case NotFound => assert AllKinds[3] == k;
      case TooManyRequests => assert AllKinds[4] == k;
      case InternalServer => assert AllKinds[5] == k;
    }
  }

  /** Among kinds with distinct titles, searching by a kind's title finds that kind. */
  lemma FindByTitleFindsKind(k: Kind, ks: seq<Kind>)
    requires k in ks && TitlesDistinct(ks)
    ensures FindByTitle(TitleOf(k), ks) == Some(k)
  {
  }

  /**
   * Reads a problem object back into the occurrence it serializes, or None
   * when no occurrence serializes to it.
   */
  function Parse(p: Problem): (r: Option<HttpError>)
    ensures r.Some? ==> Serialize(r.value) == p
  {
    match KindOfTitle(p.title)
    case None => None
    case Some(k) =>
      if p.status != StatusOf(k) then None
      else
        match k
        case BadRequest =>
          if p.context.Some? then Some(BadRequestError(p.detail, p.context.value)) else None
        case InternalServer =>
          if p.detail == InternalServerErrorDetail && p.context.None? then Some(InternalServerError) else None
        case Unauthorized =>
          if p.context.None? then Some(UnauthorizedError(p.detail)) else None
        case Forbidden =>
          if p.context.None? then Some(ForbiddenError(p.detail)) else None
        case NotFound =>
          if p.context.None? then Some(NotFoundError(p.detail)) else None
        case TooManyRequests =>
          if p.context.None? then Some(TooManyRequestsError(p.detail)) else None
  }

  /** Distinct kinds have distinct titles, so a title identifies its kind. */
  lemma TitleIdentifiesKind(k: Kind)
    ensures KindOfTitle(TitleOf(k)) == Some(k)
  {
  }

  /** Serialization is lossless: parsing a serialized occurrence gives it back. */
  lemma ParseSerialize(e: HttpError)
    ensures Parse(Serialize(e)) == Some(e)
  {
  }

  /** Serialization is injective: equal problem objects come from equal occurrences. */
  lemma SerializeInjective(e1: HttpError, e2: HttpError)
    ensures Serialize(e1) == Serialize(e2) <==> e1 == e2
  {
  }

  /**
   * Parsing and serialization are inverse: a problem object parses to an
   * occurrence exactly when that occurrence serializes to it.
   */
  lemma ParseIsInverse(p: Problem, e: HttpError)
    ensures Parse(p) == Some(e) <==> Serialize(e) == p
  {
  }

  /**
   * Reason phrases of the 4xx and 5xx status codes, from section 15.5 and
   * 15.6 of RFC 9110 (HTTP Semantics), with 429 from section 4 of RFC 6585.
   */
  function ReasonPhrase(code: int): (phrase: Option<string>)
  {
    match code
    case 400 => Some("Bad Request")
    case 401 => Some("Unauthorized")
    case 402 => Some("Payment Required")
    case 403 => Some("Forbidden")
    case 404 => Some("Not Found")
    case 405 => Some("Method Not Allowed")
    case 406 => Some("Not Acceptable")
    case 407 => Some("Proxy Authentication Required")
    case 408 => Some("Request Timeout")
    case 409 => Some("Conflict")
    case 410 => Some("Gone")
    case 411 => Some("Length Required")
    case 412 => Some("Precondition Failed")
    case 413 => Some("Content Too Large")
    case 414 => Some("URI Too Long")
    case 415 => Some("Unsupported Media Type")
    case 416 => Some("Range Not Satisfiable")
    case 417 => Some("Expectation Failed")
    case 421 => Some("Misdirected Request")
    case 422 => Some("Unprocessable Content")
    case 426 => Some("Upgrade Required")
    case 429 => Some("Too Many Requests")
    case 500 => Some("Internal Server Error")
    case 501 => Some("Not Implemented")
    case 502 => Some("Bad Gateway")
    case 503 => Some("Service Unavailable")
    case 504 => Some("Gateway Timeout")
    case 505 => Some("HTTP Version Not Supported")
    case _ => None
  }

  /** The fixed status and title of each kind. */
  lemma StatusTitleTable()
    ensures StatusOf(BadRequest) == 400 && TitleOf(BadRequest) == "Bad Request"
    ensures StatusOf(Unauthorized) == 401 && TitleOf(Unauthorized) == "Unauthorized"
    ensures StatusOf(Forbidden) == 403 && TitleOf(Forbidden) == "Forbidden"
    ensures StatusOf(NotFound) == 404 && TitleOf(NotFound) == "Not Found"
    ensures StatusOf(TooManyRequests) == 429 && TitleOf(TooManyRequests) == "Too Many Requests"
    ensures StatusOf(InternalServer) == 500 && TitleOf(InternalServer) == "Internal Server Error"
  {
  }

  /**
   * Two occurrences of one kind serialize with the same status and title;
   * only detail and context can tell them apart.
   */
  lemma SameKindSameStatusAndTitle(e1: HttpError, e2: HttpError)
    requires KindOf(e1) == KindOf(e2)
    ensures Serialize(e1).status == Serialize(e2).status
    ensures Serialize(e1).title == Serialize(e2).title
    ensures Serialize(e1) == Serialize(e2) <==> Detail(e1) == Detail(e2) && Context(e1) == Context(e2)
  {
  }

  /** Every InternalServerError serializes to one fixed problem object. */
  lemma InternalServerErrorIsFixed(e: HttpError)
    requires KindOf(e) == InternalServer
    ensures Serialize(e) == Problem(500, "Internal Server Error", "An unexpected error occurred. Please try again.", None)
  {
  }

  /** A BadRequestError serializes with the errors it was built with. */
  lemma BadRequestCarriesErrors(message: string, errors: map<string, string>)
    ensures Serialize(BadRequestError(message, ErrorContext(errors)))
            == Problem(400, "Bad Request", message, Some(ErrorContext(errors)))
  {
  }

  /** The five kinds other than BadRequest serialize with no context key. */
  lemma OtherKindsOmitContext(e: HttpError)
    requires KindOf(e) != BadRequest
    ensures Serialize(e) == Problem(Status(e), Title(e), Detail(e), None)
  {
  }

  /** The serialization of one occurrence of each kind, as http-errors/index.unit.test.ts expects. */
  lemma SerializeExamples()
    ensures Serialize(BadRequestError("Request failed validation", ErrorContext(map["required_field" := "required_field is required"])))
            == Problem(400, "Bad Request", "Request failed validation", Some(ErrorContext(map["required_field" := "required_field is required"])))
    ensures Serialize(UnauthorizedError("Invalid token")) == Problem(401, "Unauthorized", "Invalid token", None)
    ensures Serialize(ForbiddenError("Access denied")) == Problem(403, "Forbidden", "Access denied", None)
    ensures Serialize(NotFoundError("Resource not found")) == Problem(404, "Not Found", "Resource not found", None)
    ensures Serialize(TooManyRequestsError("Rate limit exceeded")) == Problem(429, "Too Many Requests", "Rate limit exceeded", None)
    ensures Serialize(InternalServerError) == Problem(500, "Internal Server Error", "An unexpected error occurred. Please try again.", None)
  {
  }
}
