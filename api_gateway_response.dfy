/** The API Gateway proxy-integration response builders: `responseFactory`
    turns what a handler returns into a response, `errorFactory` turns what
    was thrown into an error response. */
module ApiGatewayResponse {
  import opened Wrappers
  import opened JsValues
  import opened Json
  import opened JsonRoundTrip
  import opened HttpErrors

  /** An `APIGatewayProxyResult`. The status code is whatever value was
      chosen; the headers are listed in order. */
  datatype Response = Response(
    statusCode: Value,
    headers: seq<(string, string)>,
    body: string,
    isBase64Encoded: bool)

  /** The headers of every response. */
  const ResponseHeaders: seq<(string, string)> :=
    [("Access-Control-Allow-Origin", "*"), ("Content-Type", "application/json")]

  /** The message of the error that stands in for anything thrown that is
      not an `HTTPError`. */
  const GenericMessage: string := "Hubo un error no identificado"

  /** `Object.keys(v).length` for an array or an object: arrays have one
      key per index. */
  function OwnKeyCount(v: Value): nat
    requires v.Arr? || v.Obj?
  {
    if v.Arr? then |v.items| else |Keys(v.props)|
  }

  /** `isEmpty`: undefined, null, or an object (arrays included) without own
      keys. */
  function IsEmpty(v: Value): (r: bool)
    ensures r <==> v == Undefined || v == Null || v == Arr([]) || v == Obj([])
  {
    v.Undefined? || v.Null? || (IsObjectTyped(v) && OwnKeyCount(v) == 0)
  }

  /** `res.body !== undefined ? res.body : res`: never `undefined`, so the
      response always has a text body. */
  function EffectiveBody(res: Value): (b: Value)
    requires !IsNullish(res)
    ensures !b.Undefined?
    ensures !Field(res, "body").Undefined? ==> b == Field(res, "body")
    ensures Field(res, "body").Undefined? ==> b == res
  {
    var body := Field(res, "body");
    if !body.Undefined? then body else res
  }

  /** The status chosen for `res`: a truthy `res.statusCode` as it is,
      otherwise 204 for an empty body and 200 for any other. */
  function StatusFor(res: Value): (s: Value)
    requires !IsNullish(res)
    ensures Truthy(Field(res, "statusCode")) ==> s == Field(res, "statusCode")
    ensures !Truthy(Field(res, "statusCode")) ==> (s == Num(204) <==> IsEmpty(EffectiveBody(res)))
    ensures !Truthy(Field(res, "statusCode")) ==> (s == Num(200) <==> !IsEmpty(EffectiveBody(res)))
  {
    var statusCode := Field(res, "statusCode");
    if Truthy(statusCode) then statusCode
    else if IsEmpty(EffectiveBody(res)) then Num(204)
    else Num(200)
  }

  /** `responseFactory(res)`. Reading `res.body` throws a `TypeError` when
      `res` is `undefined` or `null`; otherwise the response carries the
      chosen status, the fixed headers, and the text of the effective body. */
  function ResponseFactory(res: Value): (r: Result<Response, Thrown>)
    ensures r.Failure? <==> IsNullish(res)
    ensures r.Failure? ==> r.error.Other? && r.error.name == "TypeError"
    ensures r.Success? ==> r.value.headers == ResponseHeaders && !r.value.isBase64Encoded
    ensures r.Success? ==> r.value.statusCode == StatusFor(res)
    ensures r.Success? ==> Stringify(EffectiveBody(res)) == Some(r.value.body)
  {
    if IsNullish(res) then
      Failure(Other("TypeError", "Cannot read properties of " + (if res.Null? then "null" else "undefined") + " (reading 'body')"))
    else
      var body := EffectiveBody(res);
      Success(Response(StatusFor(res), ResponseHeaders, Stringify(body).value, false))
  }

  /** Parsing the body of a response gives back the effective body, up to
      the properties holding `undefined` that JSON drops. */
  lemma ResponseBodyRoundTrip(res: Value)
    requires !IsNullish(res) && WellFormed(res)
    ensures ResponseFactory(res).Success?
    ensures Parse(ResponseFactory(res).value.body) == Success(Canon(EffectiveBody(res)))
    ensures IsJson(EffectiveBody(res)) ==> Parse(ResponseFactory(res).value.body) == Success(EffectiveBody(res))
  {
    var body := EffectiveBody(res);
    if res.Obj? {
      LookupWellFormed(res.props, "body");
    }
    StringifyRoundTrip(body);
    if IsJson(body) {
      CanonOfJson(body);
    }
  }

  /** The body of an error response: `{ error: { message, code } }`. */
  function ErrorBody(message: string, code: string): Value
  {
    Obj([Prop("error", Obj([Prop("message", Str(message)), Prop("code", Str(code))]))])
  }

  lemma ErrorBodyRoundTrip(message: string, code: string)
    ensures Stringify(ErrorBody(message, code)).Some?
    ensures Parse(Stringify(ErrorBody(message, code)).value) == Success(ErrorBody(message, code))
  {
    var body := ErrorBody(message, code);
    ErrorBodyIsJson(message, code);
    StringifyRoundTrip(body);
    CanonOfJson(body);
  }

  lemma ErrorBodyIsJson(message: string, code: string)
    ensures WellFormed(ErrorBody(message, code)) && IsJson(ErrorBody(message, code))
  {
    PairObject(Prop("message", Str(message)), Prop("code", Str(code)));
    SingleObject(Prop("error", Obj([Prop("message", Str(message)), Prop("code", Str(code))])));
  }

  lemma SingleObject(p: Prop)
    requires WellFormed(p.val) && IsJson(p.val)
    ensures WellFormed(Obj([p])) && IsJson(Obj([p]))
  {
    assert [p][1..] == [];
    assert DistinctKeys([p]) && PropsWellFormed([p]) && PropsAreJson([p]);
  }

  lemma PairObject(p: Prop, q: Prop)
    requires p.key != q.key
    requires WellFormed(p.val) && IsJson(p.val) && WellFormed(q.val) && IsJson(q.val)
    ensures WellFormed(Obj([p, q])) && IsJson(Obj([p, q]))
    ensures Lookup([p, q], p.key) == p.val && Lookup([p, q], q.key) == q.val
  {
    assert [p, q][1..] == [q] && [q][1..] == [];
    assert Keys([q]) == [q.key];
    assert DistinctKeys([q]) && PropsWellFormed([q]) && PropsAreJson([q]);
    assert DistinctKeys([p, q]) && PropsWellFormed([p, q]) && PropsAreJson([p, q]);
  }

  /** The error the response is built from: an `HTTPError` as it is,
      anything else wrapped in an `InternalServerError` with the generic
      message and the thrown value as its cause. */
  function ResponseError(e: Thrown): (err: HttpError)
    ensures e.Http? ==> err == e.err
    ensures e.Other? ==> err.statusCode == 500 && err.code == "INTERNAL_SERVER_ERROR"
    ensures e.Other? ==> err.message == GenericMessage && err.cause == Some(e)
  {
    if e.Http? then e.err
    else NewError(InternalServer, GenericMessage, Some(CustomOptions(Some(e), None)))
  }

  /** `errorFactory(error)`: the response built by `responseFactory` from
      `{ body: { error: { message, code } }, statusCode }` of the response
      error. A status code of 0 is falsy, so such an error is answered with
      200. */
  function ErrorFactory(e: Thrown): (r: Response)
    ensures r.headers == ResponseHeaders && !r.isBase64Encoded
    ensures e.Other? ==> r.statusCode == Num(500)
    ensures e.Http? ==> r.statusCode == if e.err.statusCode != 0 then Num(e.err.statusCode) else Num(200)
    ensures Parse(r.body) == Success(ErrorBody(ResponseError(e).message, ResponseError(e).code))
  {
    var err := ResponseError(e);
    var body := ErrorBody(err.message, err.code);
    var res := Obj([Prop("body", body), Prop("statusCode", Num(err.statusCode))]);
    ErrorBodyIsJson(err.message, err.code);
    PairObject(Prop("body", body), Prop("statusCode", Num(err.statusCode)));
    ErrorBodyRoundTrip(err.message, err.code);
    ResponseFactory(res).value
  }

  /** Nothing of a thrown value that is not an `HTTPError` reaches the
      response: every such value gets the same response. */
  lemma OtherErrorsAlike(e1: Thrown, e2: Thrown)
    requires e1.Other? && e2.Other?
    ensures ErrorFactory(e1) == ErrorFactory(e2)
  {
    var err1, err2 := ResponseError(e1), ResponseError(e2);
    assert err1.message == err2.message && err1.code == err2.code && err1.statusCode == err2.statusCode;
  }

  // The cases the library's own tests check.

  /** `{ body: {} }` is answered with 204 and a body that parses to `{}`. */
  lemma EmptyBodyIs204()
    ensures ResponseFactory(Obj([Prop("body", Obj([]))])).Success?
    ensures ResponseFactory(Obj([Prop("body", Obj([]))])).value.statusCode == Num(204)
    ensures Parse(ResponseFactory(Obj([Prop("body", Obj([]))])).value.body) == Success(Obj([]))
  {
    var res := Obj([Prop("body", Obj([]))]);
    SingleObject(Prop("body", Obj([])));
    ResponseBodyRoundTrip(res);
  }

  /** `{}` has no body field, so it is its own (empty) body: 204. */
  lemma MissingBodyIs204()
    ensures ResponseFactory(Obj([])).Success?
    ensures ResponseFactory(Obj([])).value.statusCode == Num(204)
  {
  }

  /** `{ body: null }` is answered with 204 and a body that parses to `null`. */
  lemma NullBodyIs204()
    ensures ResponseFactory(Obj([Prop("body", Null)])).Success?
    ensures ResponseFactory(Obj([Prop("body", Null)])).value.statusCode == Num(204)
    ensures Parse(ResponseFactory(Obj([Prop("body", Null)])).value.body) == Success(Null)
  {
    var res := Obj([Prop("body", Null)]);
    SingleObject(Prop("body", Null));
    ResponseBodyRoundTrip(res);
  }

  /** `{ body: undefined }` is not empty (it has one own key), so it is
      answered with 200, and its text is `{}`. */
  lemma UndefinedBodyFieldIs200()
    ensures ResponseFactory(Obj([Prop("body", Undefined)])).Success?
    ensures ResponseFactory(Obj([Prop("body", Undefined)])).value.statusCode == Num(200)
    ensures ResponseFactory(Obj([Prop("body", Undefined)])).value.body == "{}"
  {
    assert Keys([Prop("body", Undefined)]) == ["body"];
  }

  /** A `BadRequestError` is answered with its status, and the body carries
      its code and message. */
  lemma BadRequestResponse(message: string)
    ensures ErrorFactory(Http(NewError(BadRequest, message, None))).statusCode == Num(400)
    ensures Parse(ErrorFactory(Http(NewError(BadRequest, message, None))).body) ==
      Success(ErrorBody(message, "BAD_REQUEST"))
  {
  }
}
