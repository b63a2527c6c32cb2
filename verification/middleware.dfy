/**
 * The boundary adapter `withHttpErrors`: it runs a request handler and turns
 * whatever the handler produced into a response. A returned result passes
 * through untouched; a thrown HTTP error becomes a response carrying its
 * status and its encoded problem object; any other failure becomes a fixed
 * Internal Server Error response that reveals nothing about the failure.
 */
module Middleware {
  import opened Options
  import opened HttpErrors

  /** What a handler can throw: an HTTP error of the taxonomy, or anything else. */
  datatype Failure = Http(error: HttpError) | Other(message: string)

  /** The settled outcome of one handler invocation. */
  datatype Outcome<R> = Returned(result: R) | Threw(failure: Failure)

  /**
   * What the wrapped handler answers: the handler's own result, or the
   * response envelope `{statusCode, body}` built on the error path.
   */
  datatype Response<R> = PassThrough(result: R) | Envelope(statusCode: int, body: string)

  /**
   * The problem object the adapter reports for a failure: it reads back as
   * the thrown error, or as an InternalServerError for any other failure.
   */
  function ProblemFor(f: Failure): (p: Problem)
    ensures p.status == (if f.Http? then Status(f.error) else 500)
    ensures Parse(p) == Some(if f.Http? then f.error else InternalServerError)
  {
    match f
    case Http(e) =>
      ParseSerialize(e);
      Serialize(e)
    case Other(_) =>
      ParseSerialize(InternalServerError);
      Serialize(InternalServerError)
  }

  /**
   * The adapter on one settled outcome; `encode` stands for the JSON text
   * encoding of a problem object. It is total: every outcome gets a response,
   * and no failure gets past it.
   */
  function Adapt<R>(outcome: Outcome<R>, encode: Problem -> string): (r: Response<R>)
    ensures outcome.Returned? <==> r.PassThrough?
    ensures outcome.Returned? ==> r.result == outcome.result
    ensures outcome.Threw? && outcome.failure.Http? ==>
              r.statusCode == Status(outcome.failure.error)
              && r.body == encode(Serialize(outcome.failure.error))
    ensures outcome.Threw? && outcome.failure.Other? ==>
              r == Envelope(500, encode(Serialize(InternalServerError)))
  {
    match outcome
    case Returned(result) => PassThrough(result)
    case Threw(Http(e)) => Envelope(Status(e), encode(Serialize(e)))
    case Threw(Other(_)) => Envelope(500, encode(Serialize(InternalServerError)))
  }

  /**
   * `withHttpErrors(handler)`: a handler of the same event and context that
   * answers with the adapter's response to whatever `handler` produced.
   */
  function WithHttpErrors<E(!new), C(!new), R>(handler: (E, C) -> Outcome<R>, encode: Problem -> string): (wrapped: (E, C) -> Response<R>)
    ensures forall event, context :: handler(event, context).Returned? ==>
              wrapped(event, context) == PassThrough(handler(event, context).result)
    ensures forall event, context :: handler(event, context).Threw? ==>
              wrapped(event, context) == Envelope(ProblemFor(handler(event, context).failure).status,
                                                  encode(ProblemFor(handler(event, context).failure)))
  {
    (event: E, context: C) => Adapt(handler(event, context), encode)
  }

  /** On every error path the envelope's status code is the status field of the problem it encodes. */
  lemma ErrorStatusMatchesBody<R>(outcome: Outcome<R>, encode: Problem -> string)
    requires outcome.Threw?
    ensures Adapt(outcome, encode) == Envelope(ProblemFor(outcome.failure).status, encode(ProblemFor(outcome.failure)))
  {
  }

  /**
   * Information hiding: the response to a failure outside the taxonomy does
   * not depend on that failure's message.
   */
  lemma OtherFailureHidesMessage<R>(m1: string, m2: string, encode: Problem -> string)
    ensures Adapt<R>(Threw(Other(m1)), encode) == Adapt<R>(Threw(Other(m2)), encode)
  {
  }

  /**
   * A client that decodes the body (with a `decode` that undoes `encode`)
   * reads a problem object whose status is the envelope's status code and
   * which parses back to the thrown error, or to an InternalServerError when
   * the failure was outside the taxonomy.
   */
  lemma ClientRecoversError<R>(outcome: Outcome<R>, encode: Problem -> string, decode: string -> Option<Problem>)
    requires forall p :: decode(encode(p)) == Some(p)
    requires outcome.Threw?
    ensures var r := Adapt(outcome, encode);
            && r.Envelope?
            && decode(r.body).Some?
            && decode(r.body).value.status == r.statusCode
            && Parse(decode(r.body).value) == Some(if outcome.failure.Http? then outcome.failure.error else InternalServerError)
  {
    var p := ProblemFor(outcome.failure);
    assert Adapt(outcome, encode) == Envelope(p.status, encode(p));
    assert decode(encode(p)) == Some(p);
  }

  /**
   * The example of middleware/index.unit.test.ts: a BadRequestError "Validation failed" with one field
   * error answers 400 with that error's problem object, context included.
   */
  lemma BadRequestExample<R>(encode: Problem -> string)
    ensures var errors := map["field_path" := "field_path is required"];
            Adapt<R>(Threw(Http(BadRequestError("Validation failed", ErrorContext(errors)))), encode)
            == Envelope(400, encode(Problem(400, "Bad Request", "Validation failed", Some(ErrorContext(errors)))))
  {
  }

  /**
   * The example of middleware/index.unit.test.ts: a generic failure "uh oh!" answers 500 with the fixed
   * Internal Server Error problem object, in which the message has no part.
   */
  lemma GenericFailureExample<R>(encode: Problem -> string)
    ensures Adapt<R>(Threw(Other("uh oh!")), encode)
            == Envelope(500, encode(Problem(500, "Internal Server Error", "An unexpected error occurred. Please try again.", None)))
  {
  }
}
