# holp adapters in Dafny

A Dafny model of the request/response normalisation of holp, a library of
adapters ("proxies") for AWS Lambda handlers written in TypeScript. The
model covers these parts:

- **HTTP error classes** (`HttpErrors`). `HTTPError` and its ten
  subclasses. Each subclass fixes a status code and a default error code.
  A `code` option overrides the default code; nothing overrides the status.
- **Response builders** (`ApiGatewayResponse`).
  - `responseFactory` picks the effective body: the `body` field, or the
    whole input when that field is `undefined`.
  - It picks the status: a truthy `statusCode`, otherwise 204 for an empty
    body and 200 for any other.
  - It sets the two fixed headers and `isBase64Encoded: false`, and
    stringifies the body.
  - `errorFactory` answers an `HTTPError` with its own status, message and
    code. Anything else gets 500, `INTERNAL_SERVER_ERROR` and the generic
    message "Hubo un error no identificado".
- **Request normaliser** (`ApiGatewayRequest`).
  - `caseInsensitiveHeaders` returns a `Proxy`, modelled as a class
    (`HeaderStore`). Its backing map is written through
    a lower-casing `set` trap by a loop over the raw headers, and read
    through a lower-casing `get` trap.
  - `parseEvent` defaults the missing maps to empty ones, decodes the body
    with `JSON.parse` when it is a non-empty string, and copies every other
    field.
- **API Gateway adapter** (`WithApiGateway`). Parse the event, run the
  handler, build the response. Anything any step throws goes to
  `errorFactory`, so the adapter always answers.
- **DynamoDB Streams adapters** (`WithDynamoDbStream`).
  - `parseRecord` decodes the key and images when they are present.
  - The per-record adapter is a method with a loop. It runs the handler on
    every record and collects one failure per rejecting record; the result
    is `undefined` when no record failed.
  - The per-batch adapter calls the handler once on the parsed batch and
    passes its rejection on.

`JSON.stringify` and `JSON.parse` are library code, but the response and
request properties depend on them. `Json` therefore gives a concrete
definition of both, for the JavaScript values of `JsValues`.
`JsonRoundTrip` proves that parsing the text of a value gives back the
value, minus the properties that hold `undefined`. `JsValues` represents an
object as its own properties in insertion order. Assigning to an object
(`SetProp`) keeps a property's position and replaces its value, which is
how `JSON.parse` treats a repeated name.

A thrown value is `HttpErrors.Thrown`: either an `HTTPError` or another
value described by its name and message. A settled promise is a `Result`
(resolved value or rejection) or an `Outcome` (for promises that resolve to
nothing). Handlers are total functions of the parsed event and an opaque
context.

The model follows the code:

- No content type is checked and no base64 body is decoded.
- A malformed JSON body throws a `SyntaxError`, which is answered with 500,
  not 415.
- Response headers are always exactly `Access-Control-Allow-Origin: *` and
  `Content-Type: application/json`. No caller headers are merged and no
  CORS option is read.
- The status code is used when it is truthy, so 0 falls back to the
  default.
- "Empty" also covers an empty array, because `typeof [] === 'object'`.
- `PaymentRequiredError` defaults to the code `BAD_REQUEST`
  (src/errors/http.ts:38).

## Model

| member | source | states |
|---|---|---|
| `HttpErrors.StatusOf` | src/errors/http.ts:24-86 | Every subclass status is a client or server error status (400 to 599). It is below 500 exactly for the eight client-error classes. |
| `HttpErrors.StatusDistinct` | src/errors/http.ts:24-86 | No two subclasses share a status code. |
| `HttpErrors.DefaultCodeShared` | src/errors/http.ts:36-40 | Two different classes share a default code only when they are `BadRequestError` and `PaymentRequiredError` (both `BAD_REQUEST`). |
| `HttpErrors.NewHttpError` | src/errors/http.ts:13-22 | The base constructor stores exactly the given status code and code and the message unchanged, hands `cause` to `Error`, and names the instance after the constructing class. |
| `HttpErrors.NewError` | src/errors/http.ts:24-86 | A subclass instance has its class's status whatever the options. Its code is the option's code when one is given, the class default otherwise. Its message is unchanged, its name is the class name, and its cause is the option's cause. |
| `HttpErrors.StatusIgnoresOptions` | src/errors/http.ts:24-28 | Two instances of one class have the same status code, whatever their messages and options. |
| `ApiGatewayResponse.IsEmpty` | src/utils/APIGatewayResponse.ts:8-14 | A value is empty exactly when it is `undefined`, `null`, `[]` or `{}`. |
| `ApiGatewayResponse.EffectiveBody` | src/utils/APIGatewayResponse.ts:36 | The effective body is the `body` field whenever that field is not `undefined`, and the whole input when it is. It is never `undefined`. |
| `ApiGatewayResponse.StatusFor` | src/utils/APIGatewayResponse.ts:39 | A truthy `statusCode` is the status. Otherwise the status is 204 exactly when the effective body is empty, and 200 exactly when it is not. |
| `ApiGatewayResponse.ResponseFactory` | src/utils/APIGatewayResponse.ts:31-58 | Fails (with a `TypeError`) exactly when the input is `undefined` or `null`. Otherwise it gives the chosen status, the two fixed headers, `isBase64Encoded` false, and the stringified effective body. |
| `ApiGatewayResponse.ResponseBodyRoundTrip` | src/utils/APIGatewayResponse.ts:57 | Parsing the response body gives the effective body back, without its `undefined` properties. A body holding no `undefined` comes back unchanged. |
| `ApiGatewayResponse.ErrorBodyRoundTrip` | src/utils/APIGatewayResponse.ts:76-78 | The text of `{error: {message, code}}` parses back to that object. |
| `ApiGatewayResponse.ResponseError` | src/utils/APIGatewayResponse.ts:69-74 | An `HTTPError` is used as it is. Anything else becomes a 500 `INTERNAL_SERVER_ERROR` with the generic message and the thrown value as its cause. |
| `ApiGatewayResponse.ErrorFactory` | src/utils/APIGatewayResponse.ts:63-79 | Always the fixed headers. Status 500 for anything but an `HTTPError`. An `HTTPError`'s own status, or 200 when that status is 0. A body that parses to `{error: {message, code}}` of the response error. |
| `ApiGatewayResponse.OtherErrorsAlike` | src/utils/APIGatewayResponse.ts:69-76 | Every thrown value that is not an `HTTPError` gets the same response, so nothing of it reaches the body. |
| `ApiGatewayResponse.EmptyBodyIs204` | tests/library.test.ts:17-23 | `{body: {}}` gives 204 and a body that parses to `{}`. |
| `ApiGatewayResponse.MissingBodyIs204` | tests/library.test.ts:25-29 | `{}` gives 204. |
| `ApiGatewayResponse.NullBodyIs204` | tests/library.test.ts:31-37 | `{body: null}` gives 204 and a body that parses to `null`. |
| `ApiGatewayResponse.UndefinedBodyFieldIs200` | src/utils/APIGatewayResponse.ts:36-39 | `{body: undefined}` is its own body. That body has one own key, so the status is 200, and the text is `{}`. |
| `ApiGatewayResponse.BadRequestResponse` | tests/library.test.ts:39-50 | A `BadRequestError` gives status 400 and a body carrying its message and the code `BAD_REQUEST`. |
| `ApiGatewayRequest.HeaderGet` | src/utils/APIGatewayRequest.ts:8-9 | The `get` trap on a backing map: a name reads the value stored under its lower-cased form, and `undefined` when that form is not stored. |
| `ApiGatewayRequest.HeaderStore.Get` | src/utils/APIGatewayRequest.ts:8-9 | Reading a header from the store gives the value stored under the lower-cased name, or `undefined`, and reads the same as reading the lower-cased name. |
| `ApiGatewayRequest.HeaderStore.constructor` | src/utils/APIGatewayRequest.ts:5-7 | The store starts empty. |
| `ApiGatewayRequest.HeaderStore.Set` | src/utils/APIGatewayRequest.ts:10-13 | A write stores the value under the lower-cased name and changes nothing else. |
| `ApiGatewayRequest.CaseInsensitiveHeaders` | src/utils/APIGatewayRequest.ts:4-17 | The loop leaves a fresh store holding exactly what writing the raw headers in order gives (`Assigned`). |
| `ApiGatewayRequest.AssignedKeysLower` | src/utils/APIGatewayRequest.ts:10-16 | Every name in the store is lower case. |
| `ApiGatewayRequest.GetIgnoresCase` | src/utils/APIGatewayRequest.ts:8-9 | Reading a name gives the same as reading its lower-cased form. |
| `ApiGatewayRequest.LastWriteWins` | src/utils/APIGatewayRequest.ts:10-16 | A raw header that no later raw header collides with (after lower-casing) reads back, under any casing of its name, as its own value. |
| `ApiGatewayRequest.AbsentHeader` | src/utils/APIGatewayRequest.ts:8-9 | A name that matches no raw header (after lower-casing) reads as `undefined`. |
| `ApiGatewayRequest.LowerIdempotent` | src/utils/APIGatewayRequest.ts:9 | Lower-casing twice is lower-casing once. |
| `ApiGatewayRequest.ParseBody` | src/utils/APIGatewayRequest.ts:27 | A missing or empty body is `{}`. A non-empty one succeeds exactly when `JSON.parse` does, with its value. A failure is a `SyntaxError`. |
| `ApiGatewayRequest.ParseEvent` | src/utils/APIGatewayRequest.ts:19-32 | Fails exactly when the body fails to decode. Otherwise the raw headers are the event's (or none), the headers are their case-insensitive store, and the query string and path parameters default to empty. The other fields are copied. |
| `ApiGatewayRequest.BodyRoundTrip` | src/utils/APIGatewayRequest.ts:27 | A body that is the JSON text of a value decodes to that value, without its `undefined` properties. |
| `ApiGatewayRequest.IdBody` | tests/library.test.ts:65-71 | The body `{"id": "123"}` decodes to `{id: '123'}`. |
| `ApiGatewayRequest.AuthorizationHeader` | tests/library.test.ts:73-82 | A raw `Authorization` header is kept in the raw headers and reads back under `authorization`. |
| `WithApiGateway.WithAPIGateway` | src/proxies/withAPIGateway.ts:45-59 | Always answers, with the fixed headers. A failed parse or a rejecting handler is answered by `errorFactory` of what was thrown. |
| `WithApiGateway.HandlerSeesParsedEvent` | src/proxies/withAPIGateway.ts:52-53 | The handler is consulted only on `parseEvent(event)`: two handlers that agree there give the same response. |
| `WithApiGateway.ResolvedHandler` | src/proxies/withAPIGateway.ts:53-54 | A handler resolving to a value other than `undefined` and `null` is answered by `responseFactory` of that value. |
| `WithApiGateway.NullishResultIs500` | src/proxies/withAPIGateway.ts:53-56 | A handler resolving to `undefined` or `null` is answered with 500. |
| `WithApiGateway.PlainErrorIs500` | tests/library.test.ts:84-94 | A handler throwing a non-`HTTPError` is answered with 500 and the generic message. |
| `WithApiGateway.HttpErrorPassesThrough` | src/proxies/withAPIGateway.ts:55-56 | A handler throwing an `HTTPError` with a non-zero status is answered with that status, message and code. |
| `WithApiGateway.MalformedBodyIs500` | src/proxies/withAPIGateway.ts:50-57 | A malformed JSON body is answered with 500 and the generic message, whatever the handler. |
| `WithApiGateway.SuccessBody` | tests/library.test.ts:54-63 | A handler resolving to `{body: {message: 'success'}}` is answered with 200 and a body that parses to `{message: 'success'}`. |
| `WithDynamoDbStream.Unmarshall` | src/proxies/withDynamoDBStream.ts:41 | A decoded item has one property per attribute, with the same names in the same order. |
| `WithDynamoDbStream.ConvertIsJson` | src/proxies/withDynamoDBStream.ts:40-48 | A decoded attribute value holds no `undefined` anywhere. |
| `WithDynamoDbStream.DecodeImage` | src/proxies/withDynamoDBStream.ts:40-48 | A key or image is decoded exactly when it is present, keeping its attribute names. |
| `WithDynamoDbStream.ParseRecord` | src/proxies/withDynamoDBStream.ts:35-51 | Every other record field and `dynamodb` field is kept. Each image is its decoding when present and `undefined` otherwise. A `dynamodb` part is always there. |
| `WithDynamoDbStream.ParseRecords` | src/proxies/withDynamoDBStream.ts:112 | Same length as the input, and each element is `parseRecord` of the input record at the same position. |
| `WithDynamoDbStream.ItemIdentifier` | src/proxies/withDynamoDBStream.ts:81 | Never empty. It is the record's sequence number when that is present and non-empty, `'0'` otherwise. |
| `WithDynamoDbStream.WithDynamoDBStream` | src/proxies/withDynamoDBStream.ts:62-88 | The handler is given every parsed record. The result is `undefined` when no failure was collected, otherwise the failures, one per rejecting record. |
| `WithDynamoDbStream.FailuresCount` | src/proxies/withDynamoDBStream.ts:77-83 | The number of failures is the number of records whose handler rejected. |
| `WithDynamoDbStream.FailureReported` | src/proxies/withDynamoDBStream.ts:79-83 | An identifier is reported exactly when some record with that identifier had a rejecting handler. |
| `WithDynamoDbStream.FailureMultiplicity` | src/proxies/withDynamoDBStream.ts:77-83 | Each identifier appears among the failures exactly as many times as there are rejecting records with that identifier, so one `itemIdentifier` is pushed per rejecting record, even when several records report `'0'`. |
| `WithDynamoDbStream.NothingFailed` | src/proxies/withDynamoDBStream.ts:86 | No failure is reported (so the result is `undefined`) exactly when no handler rejected. |
| `WithDynamoDbStream.OneOfThreeFails` | src/proxies/withDynamoDBStream.ts:75-86 | Of three records, only the middle one fails: the report is exactly that record's sequence number. |
| `WithDynamoDbStream.WithDynamoDBStreamBatch` | src/proxies/withDynamoDBStream.ts:99-116 | The result rejects exactly when the one handler call on the parsed batch rejects, with the same error; otherwise it resolves to `undefined`. |
| `Json.Parse` | src/utils/APIGatewayRequest.ts:27 | Whatever `JSON.parse` returns holds no `undefined`, and every object in it has distinct property names. |
| `Json.Stringify` | src/utils/APIGatewayResponse.ts:57 | `JSON.stringify` gives no text exactly for `undefined`. |
| `JsonRoundTrip.StringifyRoundTrip` | src/utils/APIGatewayResponse.ts:57 | For every value but `undefined`, parsing its JSON text gives the value without its `undefined` properties (and with `null` for `undefined` array elements). |
| `JsonRoundTrip.CanonOfJson` | src/utils/APIGatewayResponse.ts:57 | A value holding no `undefined` is its own JSON round trip. |

## Left out

- Logging: the logger calls in both adapters and both factories, and the `logger`/`cors` options (`cors` is unused by the code).
- `WithDynamoDbStream.WithDynamoDBStream`: `Promise.all` runs the handlers concurrently, so the order of the failures depends on completion. The model runs the records in order, so the report lists the failures in record order. The properties proved (count, membership) do not depend on order.
- Handlers are total functions; a handler that never settles is not modelled.
- The Lambda `context` is an opaque type parameter.
- Numbers are integers. JSON fractions and exponents are refused by the parser, and `JSON.stringify` of non-finite numbers is not modelled.
- Json.Stringify: numbers are unbounded integers, not IEEE doubles. `JSON.stringify` writes an integer of magnitude 10^21 or more in exponent form (`1e+21`), while the model writes all its digits.
- Json.Parse: the parsed integer is kept exactly. `JSON.parse` rounds an integer beyond 2^53 to the nearest double, so `9007199254740993` reaches a handler as `9007199254740992` in the library but unchanged in the model.
- WithDynamoDbStream.Convert: an `N` integer beyond the safe-integer range becomes a `BigInt` in `unmarshall`, and `JSON.stringify` throws on a `BigInt`. The model converts it to a plain number, which stringifies and round-trips.
- ApiGatewayRequest.ParseBody: "succeeds exactly when `JSON.parse` does" holds for the model's `Json.Parse`. A body holding a fraction or an exponent, such as `{"price": 1.5}`, is valid JSON that the model's parser refuses, so the model decodes it as a `SyntaxError`.
- WithApiGateway.WithAPIGateway: for the same reason, a request whose body holds a fraction or an exponent gets status 500 in the model. The library passes it to the handler.
- WithDynamoDbStream.WithDynamoDBStream: `parseRecord` runs before the `try`, so when `unmarshall` throws, that record's promise rejects. `Promise.all` then rejects the whole invocation, and no batch item failure is reported for the record. The model's `Unmarshall` is total over its integer numbers, so it cannot show this. One input that throws is an `N` value that is not an integer and lies beyond the safe-integer range. `WithDynamoDBStreamBatch` has the same gap: there, `parseRecord` runs before the handler is called.
- `JSON.stringify` of cycles, `toJSON`, `BigInt`, functions and symbols is not modelled.
- JavaScript puts integer-like property names first in an object. The model keeps plain insertion order.
- `\u` escapes that denote surrogate halves are refused by the parser.
- `ApiGatewayRequest.Lower`: lower-cases ASCII letters only, not the full Unicode case mapping of `toLowerCase`.
- Raw header, query string and path parameter values are strings; an `undefined` value in those maps is not modelled.
- The header proxy's other traps (`has`, `ownKeys`, `deleteProperty`), which fall through to the backing object, are not modelled.
- `unmarshall` is modelled for the S, N (as an integer), BOOL, NULL, M and L types. Binary and set types are not modelled.
- Only own properties of plain objects are read. Inherited properties, such as `length` on strings, are not modelled.
- An explicit `code: undefined` in the options of a subclass, which would set the code to `undefined`, is not modelled: an absent code is `None`.
