# HTTP error taxonomy and `withHttpErrors` boundary adapter

This project models the error-handling core of a serverless banking API:

- **The HTTP error taxonomy** (`http_errors.dfy`, module `HttpErrors`). Six error kinds form a closed set: BadRequest, Unauthorized, Forbidden, NotFound, TooManyRequests and InternalServerError. Each kind has a fixed status code and title. Each occurrence has a `detail` message. A BadRequestError also has a context `{errors: field path -> message}`. `Serialize` builds the problem object `{status, title, detail, context?}`, shaped after section 3.1 of RFC 9457 (Problem Details for HTTP APIs). The source describes the format as inspired by the RFC but not conforming to it (`http-errors/index.ts:3`). The TypeScript class hierarchy becomes one datatype `HttpError` with one constructor per class. Status and title are functions of the kind, not stored fields. `Parse` is the inverse of `Serialize`. The six titles are distinct (`AllKindsComplete`), so a title identifies its kind, and `KindOfTitle` looks a kind up by its title.
- **The boundary adapter** (`middleware.dfy`, module `Middleware`). A handler invocation settles into an `Outcome`: `Returned(result)` or `Threw(failure)`. A failure is either `Http(error)` (an error of the taxonomy) or `Other(message)` (anything else thrown). `Adapt` maps an outcome to a `Response`: the handler's own result passes through unchanged, and every failure becomes an `Envelope(statusCode, body)`. `WithHttpErrors` wraps a handler of an event and an invocation context.
- `options.dfy` (module `Options`) holds the `Option` type that the model uses for absent properties.

The request event, the invocation context and the handler's result are type parameters. JSON text encoding is a parameter `encode: Problem -> string`. Beyond being total (see "## Left out"), nothing is assumed about it, except in `ClientRecoversError`, which takes a `decode` that undoes it.

Two details of the code that the model keeps:
- The constructors (`http-errors/index.ts:54`, `70`, `85`, `100`, `115`) accept any string as the message, including the empty one, and so does the model.
- The doc comment at `http-errors/index.ts:45` says each `errors` value is an array of messages. The type at line 51 and the unit tests use a single string, and the model follows the type.
- The detail of an occurrence (`detail: this.message`, `http-errors/index.ts:33`) is computed by `Detail` and stated in the contract of `Serialize`.
- The code adds the `context` key whenever the context is truthy (`http-errors/index.ts:34`). A BadRequestError's context is always an object, and an object is always truthy. So a BadRequestError always serializes with a context, even when its `errors` map is empty. The other kinds never have a context.

## Model

| member | source | states |
|---|---|---|
| HttpErrors.Serialize | http-errors/index.ts:29-36 | the problem object has the occurrence's kind status and kind title, its construction message as detail (the fixed text for an InternalServerError), and a context key exactly for a BadRequestError, holding the context it was built with |
| HttpErrors.KindOf | http-errors/index.ts:47-133 | the class of an occurrence: only a BadRequestError is of the BadRequest kind, and the one InternalServerError occurrence is the only one of its kind |
| HttpErrors.StatusOf | http-errors/index.ts:47-128 | every kind's status is a 4xx client error code, except InternalServerError, which is the one 5xx code |
| HttpErrors.TitleOf | http-errors/index.ts:47-128 | each kind's title is the standard reason phrase of its status code (RFC 9110 sections 15.5 and 15.6; RFC 6585 section 4) |
| HttpErrors.Status | http-errors/index.ts:31 | the `status` an occurrence reports is a 4xx code, and a 5xx code exactly for an InternalServerError |
| HttpErrors.Title | http-errors/index.ts:32 | the `title` an occurrence reports is the reason phrase of its `status` |
| HttpErrors.Context | http-errors/index.ts:50-57 | an occurrence has a context exactly when it is a BadRequestError |
| HttpErrors.Parse | http-errors/index.ts:29-36 | whatever `Parse` returns serializes back to the problem object it was given |
| HttpErrors.ParseSerialize | http-errors/index.ts:29-36 | serialization is lossless: parsing a serialized occurrence gives that occurrence back |
| HttpErrors.ParseIsInverse | http-errors/index.ts:29-36 | a problem object parses to an occurrence if and only if that occurrence serializes to it |
| HttpErrors.SerializeInjective | http-errors/index.ts:29-36 | two occurrences serialize equally if and only if they are equal, so serialization is deterministic and loses nothing |
| HttpErrors.FindByTitle | http-errors/index.ts:47-128 | the search returns the first listed kind bearing the title, and returns nothing only when no listed kind bears it |
| HttpErrors.FindByTitleFindsKind | http-errors/index.ts:47-128 | among kinds whose titles are distinct, searching by a kind's title finds that kind |
| HttpErrors.KindOfTitle | http-errors/index.ts:47-128 | a title maps to a kind bearing it, or to nothing when no kind bears it |
| HttpErrors.TitleIdentifiesKind | http-errors/index.ts:47-128 | the six titles are distinct, so each kind's title maps back to that kind |
| HttpErrors.AllKindsComplete | http-errors/index.ts:20-133 | the kind list holds all six kinds, and no two of them share a title |
| HttpErrors.StatusTitleTable | http-errors/index.ts:47-128 | the six fixed pairs: 400 Bad Request, 401 Unauthorized, 403 Forbidden, 404 Not Found, 429 Too Many Requests, 500 Internal Server Error |
| HttpErrors.SameKindSameStatusAndTitle | http-errors/index.ts:14-17 | two occurrences of one kind serialize with equal status and title, and differ only if their detail or context differs |
| HttpErrors.InternalServerErrorIsFixed | http-errors/index.ts:126-133 | every InternalServerError serializes to the same problem object, with detail "An unexpected error occurred. Please try again." and no context |
| HttpErrors.BadRequestCarriesErrors | http-errors/index.ts:47-58 | a BadRequestError serializes to status 400 and title "Bad Request", with its message and a context holding exactly the errors it was built with |
| HttpErrors.OtherKindsOmitContext | http-errors/index.unit.test.ts:26-70 | the five kinds other than BadRequest serialize to exactly status, title and detail, with no context key |
| HttpErrors.SerializeExamples | http-errors/index.unit.test.ts:11-75 | the serialized form of each unit-test occurrence, one per kind |
| Middleware.ProblemFor | middleware/index.ts:24-34 | the reported problem object carries the thrown error's status (500 for any other failure) and parses back to the thrown taxonomy error, or to a fresh InternalServerError for any other failure |
| Middleware.Adapt | middleware/index.ts:21-35 | a result passes through unchanged; every failure gets an envelope; a taxonomy error gets its status and its encoded problem; any other failure gets 500 and the encoded InternalServerError problem |
| Middleware.WithHttpErrors | middleware/index.ts:13-36 | for every event and context, the wrapped handler returns the handler's own result when it returns one, and otherwise an envelope with the failure's problem status and encoded problem |
| Middleware.ErrorStatusMatchesBody | middleware/index.ts:24-34 | on every error path the envelope's status code equals the status field of the problem object in its body |
| Middleware.OtherFailureHidesMessage | middleware/index.unit.test.ts:114-135 | the response to a failure outside the taxonomy is the same whatever its message, so the message never reaches the caller |
| Middleware.ClientRecoversError | middleware/index.ts:23-34 | a client that decodes an error body reads a problem object with the envelope's status, which parses to the thrown error, or to an InternalServerError for any other failure |
| Middleware.BadRequestExample | middleware/index.unit.test.ts:86-112 | a BadRequestError "Validation failed" with errors {field_path: "field_path is required"} answers 400 with that exact problem object, context included |
| Middleware.GenericFailureExample | middleware/index.unit.test.ts:114-135 | a generic failure "uh oh!" answers 500 with the fixed InternalServerError problem object |

## Left out

- The AWS Lambda event, result and context types (`middleware/index.ts:1-5`). These are transport shapes, so the model uses type parameters for them. An error response is its own `Envelope` constructor and is not a value of the handler's result type.
- Promises and `async`/`await`. A handler invocation is modelled by its settled outcome. A synchronous throw and a rejected promise both become `Threw`.
- `JSON.stringify`. It is the parameter `encode`, so the model says nothing about the text of a body. The message "uh oh!" is shown to stay out of the body by proving that the body does not depend on the message (`OtherFailureHidesMessage`). No substring search is done.
- The ordering of keys in the JSON output. Key order affects the text but not the problem object, and the field-path record is modelled as a `map`.
- Middleware.Adapt: assumes that `encode` always yields a body. `JSON.stringify` runs inside the `catch` (`middleware/index.ts:27`), and it throws on a BigInt or a cyclic value. Such a throw would escape the adapter, and the model does not show that case.
- HttpErrors.Serialize: assumes that a BadRequestError's context is exactly `{errors}`. TypeScript's structural typing lets a non-literal argument carry more properties, which line 56 stores and line 34 serializes. The model drops those extra properties.
- HttpErrors.Serialize: an occurrence is an immutable value. In the source, `message`, the public `context` field (`http-errors/index.ts:23`, `50`) and the `errors` object given to a BadRequestError can all change before `serialize` reads them (lines 33-34), because line 56 stores the object by reference. So `BadRequestCarriesErrors`, `InternalServerErrorIsFixed` and `OtherKindsOmitContext` describe an error that nobody changes after building it.
- JavaScript `Error` internals: the prototype chain, `name`, `stack` and the `instanceof HttpError` test. The test is modelled as the `Http`/`Other` tag of a failure.
- The public `status` and `title` fields are mutable in TypeScript. The model fixes them per kind, as the source's documentation demands.
- The defaults on the abstract base class (`http-errors/index.ts:21-22`: status 500, title "Internal Server Error"). No instance of the base class can exist, and every subclass overrides both defaults.
- The base class's optional context of type `Record<string, unknown>` (`http-errors/index.ts:23`). Only BadRequestError sets a context, and its shape is the `errors` record.
