/** `withAPIGateway`: the adapter that parses the event, runs the handler,
    and builds the response, answering every exception with an error
    response. */
module WithApiGateway {
  import opened Wrappers
  import opened JsValues
  import opened Json
  import opened HttpErrors
  import opened ApiGatewayRequest
  import opened ApiGatewayResponse

  /** The settled promise of a handler run on an event and a context: the
      value it resolved to, or what it rejected with. */
  type Handler<!C> = (ParsedEvent, C) -> Result<Value, Thrown>

  /** The function `withAPIGateway(handler)` returns, applied to an event
      and a context: `parseEvent`, then the handler, then
      `responseFactory`, and `errorFactory` for whatever any of them
      throws. It always answers, with the fixed headers. */
  function WithAPIGateway<C>(handler: Handler<C>, event: GatewayEvent, context: C): (r: Response)
    ensures r.headers == ResponseHeaders && !r.isBase64Encoded
    ensures ParseEvent(event).Failure? ==> r == ErrorFactory(ParseEvent(event).error)
    ensures ParseEvent(event).Success? && handler(ParseEvent(event).value, context).Failure? ==>
      r == ErrorFactory(handler(ParseEvent(event).value, context).error)
  {
    match ParseEvent(event)
    case Failure(e) => ErrorFactory(e)
    case Success(parsed) =>
      match handler(parsed, context)
      case Failure(e) => ErrorFactory(e)
      case Success(res) =>
        match ResponseFactory(res)
        case Failure(e) => ErrorFactory(e)
        case Success(response) => response
  }

  /** The handler is consulted on the parsed event only: two handlers that
      agree there give the same response. */
  lemma HandlerSeesParsedEvent<C>(h1: Handler<C>, h2: Handler<C>, event: GatewayEvent, context: C)
    requires ParseEvent(event).Success?
    requires h1(ParseEvent(event).value, context) == h2(ParseEvent(event).value, context)
    ensures WithAPIGateway(h1, event, context) == WithAPIGateway(h2, event, context)
  {
  }

  /** A handler resolving to an object (or any value but `undefined` and
      `null`) is answered with `responseFactory` of that value. */
  lemma ResolvedHandler<C>(handler: Handler<C>, event: GatewayEvent, context: C)
    requires ParseEvent(event).Success?
    requires handler(ParseEvent(event).value, context).Success?
    requires !IsNullish(handler(ParseEvent(event).value, context).value)
    ensures ResponseFactory(handler(ParseEvent(event).value, context).value).Success?
    ensures WithAPIGateway(handler, event, context) ==
      ResponseFactory(handler(ParseEvent(event).value, context).value).value
  {
  }

  /** A handler resolving to `undefined` or `null` makes `responseFactory`
      throw a `TypeError`, which is answered with 500. */
  lemma NullishResultIs500<C>(handler: Handler<C>, event: GatewayEvent, context: C)
    requires ParseEvent(event).Success?
    requires handler(ParseEvent(event).value, context).Success?
    requires IsNullish(handler(ParseEvent(event).value, context).value)
    ensures WithAPIGateway(handler, event, context).statusCode == Num(500)
  {
  }

  /** A handler throwing anything but an `HTTPError` is answered with 500
      and the generic message. */
  lemma PlainErrorIs500<C>(handler: Handler<C>, event: GatewayEvent, context: C)
    requires ParseEvent(event).Success?
    requires handler(ParseEvent(event).value, context).Failure?
    requires handler(ParseEvent(event).value, context).error.Other?
    ensures WithAPIGateway(handler, event, context).statusCode == Num(500)
    ensures Parse(WithAPIGateway(handler, event, context).body) ==
      Success(ErrorBody(GenericMessage, "INTERNAL_SERVER_ERROR"))
  {
  }

  /** A handler throwing an `HTTPError` with a non-zero status is answered
      with that status, its message and its code. */
  lemma HttpErrorPassesThrough<C>(handler: Handler<C>, event: GatewayEvent, context: C)
    requires ParseEvent(event).Success?
    requires handler(ParseEvent(event).value, context).Failure?
    requires handler(ParseEvent(event).value, context).error.Http?
    requires handler(ParseEvent(event).value, context).error.err.statusCode != 0
    ensures var err := handler(ParseEvent(event).value, context).error.err;
      WithAPIGateway(handler, event, context).statusCode == Num(err.statusCode) &&
      Parse(WithAPIGateway(handler, event, context).body) == Success(ErrorBody(err.message, err.code))
  {
  }

  /** A malformed JSON body is answered with 500 (a `SyntaxError` is not an
      `HTTPError`), whatever the handler. */
  lemma MalformedBodyIs500<C>(handler: Handler<C>, event: GatewayEvent, context: C)
    requires ParseBody(event.body).Failure?
    ensures WithAPIGateway(handler, event, context).statusCode == Num(500)
    ensures Parse(WithAPIGateway(handler, event, context).body) ==
      Success(ErrorBody(GenericMessage, "INTERNAL_SERVER_ERROR"))
  {
  }

  /** A handler resolving to `{ body: { message: 'success' } }` is answered
      with 200 and a body that parses to `{ message: 'success' }`. */
  lemma SuccessBody<C>(handler: Handler<C>, event: GatewayEvent, context: C)
    requires ParseEvent(event).Success?
    requires handler(ParseEvent(event).value, context) ==
      Success(Obj([Prop("body", Obj([Prop("message", Str("success"))]))]))
    ensures WithAPIGateway(handler, event, context).statusCode == Num(200)
    ensures Parse(WithAPIGateway(handler, event, context).body) == Success(Obj([Prop("message", Str("success"))]))
  {
    var body := Obj([Prop("message", Str("success"))]);
    var res := Obj([Prop("body", body)]);
    SingleObject(Prop("message", Str("success")));
    SingleObject(Prop("body", body));
    ResponseBodyRoundTrip(res);
  }
}
