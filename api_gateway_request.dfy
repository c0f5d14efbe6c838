/** The API Gateway request normaliser: the case-insensitive header store
    and `parseEvent`, which fills in the defaults and decodes the body. */
module ApiGatewayRequest {
  import opened Wrappers
  import opened JsValues
  import opened Json
  import opened JsonRoundTrip
  import opened HttpErrors

  /** One own property of a string-valued map of the event (headers, query
      string or path parameters), in insertion order. */
  datatype Entry = Entry(name: string, value: string)

  function LowerChar(c: char): char
  {
    if 'A' <= c <= 'Z' then (c as int - 'A' as int + 'a' as int) as char else c
  }

  /** `key.toLowerCase()` on ASCII letters. */
  function Lower(s: string): (r: string)
    ensures |r| == |s|
  {
    seq(|s|, i requires 0 <= i < |s| => LowerChar(s[i]))
  }

  lemma LowerIdempotent(s: string)
    ensures Lower(Lower(s)) == Lower(s)
  {
    assert forall i :: 0 <= i < |s| ==> Lower(Lower(s))[i] == Lower(s)[i];
  }

  /** The `get` trap: the value stored under the lower-cased key, or
      `undefined` (None) when there is none. */
  function HeaderGet(store: map<string, string>, key: string): (r: Option<string>)
    ensures r.Some? <==> Lower(key) in store
    ensures r.Some? ==> r.value == store[Lower(key)]
  {
    if Lower(key) in store then Some(store[Lower(key)]) else None
  }

  /** The proxy `caseInsensitiveHeaders` returns, with its backing object. */
  class HeaderStore {
    var target: map<string, string>

    constructor ()
      ensures target == map[]
    {
      target := map[];
    }

    /** Reading `headers[key]`. */
    function Get(key: string): (r: Option<string>)
      reads this
      ensures r.Some? <==> Lower(key) in target
      ensures r.Some? ==> r.value == target[Lower(key)]
      ensures r == HeaderGet(target, Lower(key))
    {
      GetIgnoresCase(target, key);
      HeaderGet(target, key)
    }

    /** Writing `headers[key] = value`: the `set` trap stores the value
        under the lower-cased key. */
    method Set(key: string, value: string)
      modifies this
      ensures target == old(target)[Lower(key) := value]
    {
      target := target[Lower(key) := value];
    }
  }

  /** What the store holds after the entries of `raw` were written to it in
      order. */
  function Assigned(raw: seq<Entry>): map<string, string>
  {
    if raw == [] then map[]
    else Assigned(raw[..|raw| - 1])[Lower(raw[|raw| - 1].name) := raw[|raw| - 1].value]
  }

  /** `caseInsensitiveHeaders(target)`: `Object.assign` writes every raw
      header through the `set` trap, in insertion order. */
  method CaseInsensitiveHeaders(raw: seq<Entry>) returns (store: HeaderStore)
    ensures fresh(store)
    ensures store.target == Assigned(raw)
  {
    store := new HeaderStore();
    var i := 0;
    while i < |raw|
      invariant 0 <= i <= |raw|
      invariant store.target == Assigned(raw[..i])
    {
      store.Set(raw[i].name, raw[i].value);
      assert raw[..i + 1][..i] == raw[..i];
      i := i + 1;
    }
    assert raw[..|raw|] == raw;
  }

  /** Every name in the store is lower case. */
  lemma {:induction false} AssignedKeysLower(raw: seq<Entry>, k: string)
    requires k in Assigned(raw)
    ensures Lower(k) == k
    decreases |raw|
  {
    var n := |raw|;
    if k != Lower(raw[n - 1].name) {
      AssignedKeysLower(raw[..n - 1], k);
    } else {
      LowerIdempotent(raw[n - 1].name);
    }
  }

  /** Reading a header does not depend on the casing of its name. */
  lemma GetIgnoresCase(store: map<string, string>, key: string)
    ensures HeaderGet(store, key) == HeaderGet(store, Lower(key))
  {
    LowerIdempotent(key);
  }

  /** A raw header that no later raw header collides with (after lower
      casing) can be read back under any casing of its name. */
  lemma {:induction false} LastWriteWins(raw: seq<Entry>, i: nat, key: string)
    requires i < |raw| && Lower(key) == Lower(raw[i].name)
    requires forall j :: i < j < |raw| ==> Lower(raw[j].name) != Lower(raw[i].name)
    ensures HeaderGet(Assigned(raw), key) == Some(raw[i].value)
    decreases |raw|
  {
    var n := |raw|;
    if i < n - 1 {
      var init := raw[..n - 1];
      assert forall j :: i < j < |init| ==> init[j] == raw[j];
      LastWriteWins(init, i, key);
    }
  }

  /** A name that no raw header has (after lower casing) reads as
      `undefined`. */
  lemma {:induction false} AbsentHeader(raw: seq<Entry>, key: string)
    requires forall j :: 0 <= j < |raw| ==> Lower(raw[j].name) != Lower(key)
    ensures HeaderGet(Assigned(raw), key) == None
    decreases |raw|
  {
    if raw != [] {
      var init := raw[..|raw| - 1];
      assert forall j :: 0 <= j < |init| ==> init[j] == raw[j];
      AbsentHeader(init, key);
    }
  }

  /** An `APIGatewayProxyEvent` as far as `parseEvent` reads it: `None`
      stands for a field that is `null` or missing; `others` are the
      remaining fields (method, path, request context, ...). */
  datatype GatewayEvent = GatewayEvent(
    body: Option<string>,
    headers: Option<seq<Entry>>,
    queryStringParameters: Option<seq<Entry>>,
    pathParameters: Option<seq<Entry>>,
    others: seq<Prop>)

  /** The event handed to the handler. `headers` is the content of the
      case-insensitive store built from `rawHeaders`. */
  datatype ParsedEvent = ParsedEvent(
    body: Value,
    headers: map<string, string>,
    rawHeaders: seq<Entry>,
    queryStringParameters: seq<Entry>,
    pathParameters: seq<Entry>,
    others: seq<Prop>)

  /** `event.body ? JSON.parse(event.body) : {}`; a malformed text throws
      a `SyntaxError`. */
  function ParseBody(body: Option<string>): (r: Result<Value, Thrown>)
    ensures body.None? || body.value == "" ==> r == Success(Obj([]))
    ensures body.Some? && body.value != "" ==>
      (r.Success? <==> Parse(body.value).Success?) &&
      (r.Success? ==> r.value == Parse(body.value).value)
    ensures r.Failure? ==> r.error.Other? && r.error.name == "SyntaxError"
  {
    if body.None? || body.value == "" then Success(Obj([]))
    else
      match Parse(body.value)
      case Success(v) => Success(v)
      case Failure(msg) => Failure(Other("SyntaxError", msg))
  }

  /** `parseEvent(event)`: missing maps become empty ones, the headers get a
      case-insensitive view, the body is decoded, and everything else is
      copied. Fails exactly when the body is a malformed JSON text. */
  function ParseEvent(e: GatewayEvent): (r: Result<ParsedEvent, Thrown>)
    ensures r.Failure? <==> ParseBody(e.body).Failure?
    ensures r.Failure? ==> r.error == ParseBody(e.body).error
    ensures r.Success? ==> r.value.body == ParseBody(e.body).value
    ensures r.Success? ==> r.value.rawHeaders == e.headers.GetOr([]) && r.value.headers == Assigned(r.value.rawHeaders)
    ensures r.Success? ==> r.value.queryStringParameters == e.queryStringParameters.GetOr([])
    ensures r.Success? ==> r.value.pathParameters == e.pathParameters.GetOr([])
    ensures r.Success? ==> r.value.others == e.others
  {
    var rawHeaders := e.headers.GetOr([]);
    var body :- ParseBody(e.body);
    Success(ParsedEvent(
      body,
      Assigned(rawHeaders),
      rawHeaders,
      e.queryStringParameters.GetOr([]),
      e.pathParameters.GetOr([]),
      e.others))
  }

  /** A body that is the text of a value decodes to that value, up to the
      `undefined` properties JSON drops. */
  lemma BodyRoundTrip(e: GatewayEvent, v: Value)
    requires WellFormed(v) && !v.Undefined?
    requires e.body == Stringify(v)
    ensures ParseEvent(e).Success?
    ensures ParseEvent(e).value.body == Canon(v)
  {
    StringifyRoundTrip(v);
    SerHead(v);
  }

  /** The handler sees a header sent as `Authorization` under
      `authorization`, and the raw headers unchanged. */
  lemma AuthorizationHeader(e: GatewayEvent, token: string)
    requires e.headers == Some([Entry("Authorization", token)])
    requires ParseEvent(e).Success?
    ensures ParseEvent(e).value.rawHeaders == [Entry("Authorization", token)]
    ensures HeaderGet(ParseEvent(e).value.headers, "authorization") == Some(token)
  {
    var raw := [Entry("Authorization", token)];
    assert Lower("authorization") == Lower("Authorization");
    LastWriteWins(raw, 0, "authorization");
  }

  /** The body `{"id": "123"}` reaches the handler as the object
      `{ id: '123' }`. */
  lemma IdBody(e: GatewayEvent)
    requires e.body == Some("{\"id\": \"123\"}")
    ensures ParseEvent(e).Success?
    ensures ParseEvent(e).value.body == Obj([Prop("id", Str("123"))])
  {
    IdBodyText();
    SpacedMemberObject("id", "123");
    BodyParses(e, Obj([Prop("id", Str("123"))]));
  }

  lemma IdBodyText()
    ensures "{\"id\": \"123\"}" == "{" + Quote("id") + ": " + Quote("123") + "}"
  {
    assert Escape("id") == "id" && Escape("123") == "123";
  }

  lemma BodyParses(e: GatewayEvent, v: Value)
    requires e.body.Some? && Parse(e.body.value) == Success(v)
    ensures ParseEvent(e).Success? && ParseEvent(e).value.body == v
  {
  }

  /** `{"<key>": "<value>"}`, with a space after the colon, is an object
      with one string property. */
  lemma SpacedMemberObject(key: string, value: string)
    ensures Parse("{" + Quote(key) + ": " + Quote(value) + "}") == Success(Obj([Prop(key, Str(value))]))
  {
    var inner := Quote(key) + ": " + Quote(value) + "}";
    assert "{" + Quote(key) + ": " + Quote(value) + "}" == ['{'] + inner;
    ParseValueObject(inner);
    ParseObjectMembers(inner);
    SpacedMember(key, value);
    assert "}" + "" == "}";
    MembersLast(inner, [], Prop(key, Str(value)), "");
    assert SetProp([], key, Str(value)) == [Prop(key, Str(value))];
  }

  lemma SpacedMember(key: string, value: string)
    ensures ParseMember(Quote(key) + ": " + Quote(value) + "}") == Success((Prop(key, Str(value)), "}"))
  {
    var valueText := " " + (Quote(value) + "}");
    var after := Escape(key) + "\"" + (":" + valueText);
    assert Quote(key) + ": " + Quote(value) + "}" == ['"'] + after;
    StringRoundTrip(key, ":" + valueText);
    MemberOf(key, after, valueText);
    StringValueRoundTrip(value, "}");
    ParseValueAfterWs(Quote(value) + "}");
  }

  lemma ParseValueAfterWs(s: string)
    ensures ParseValue(" " + s) == ParseValue(s)
  {
    assert (" " + s)[1..] == s;
    assert SkipWs(" " + s) == SkipWs(s);
  }
}
