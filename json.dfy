/** The JSON text format as `JSON.stringify` writes it and `JSON.parse`
    reads it, restricted to the values of `JsValues` (integer numbers only). */
module Json {
  import opened Wrappers
  import opened JsValues

  // ---------------------------------------------------------------------
  // Serialisation (JSON.stringify)
  // ---------------------------------------------------------------------

  function Digit(d: nat): char
    requires d < 10
  {
    "0123456789"[d]
  }

  function NatToString(n: nat): string
  {
    if n < 10 then [Digit(n)] else NatToString(n / 10) + [Digit(n % 10)]
  }

  function IntToString(n: int): string
  {
    if n < 0 then "-" + NatToString(-n) else NatToString(n)
  }

  /** Lower-case hexadecimal digit, as in the `\u00xx` escapes stringify writes. */
  function HexDigit(d: nat): char
    requires d < 16
  {
    "0123456789abcdef"[d]
  }

  /** How stringify writes one character inside a string literal: quote and
      backslash are escaped, the five control characters with a short escape
      use it, the other control characters become `\u00xx`. */
  function EscapeChar(c: char): string
  {
    if c == '"' then "\\\""
    else if c == '\\' then "\\\\"
    else if c == 8 as char then "\\b"
    else if c == '\t' then "\\t"
    else if c == '\n' then "\\n"
    else if c == 12 as char then "\\f"
    else if c == '\r' then "\\r"
    else if c < ' ' then "\\u00" + [HexDigit(c as int / 16), HexDigit(c as int % 16)]
    else [c]
  }

  function Escape(s: string): string
  {
    if s == [] then "" else EscapeChar(s[0]) + Escape(s[1..])
  }

  function Quote(s: string): string
  {
    "\"" + Escape(s) + "\""
  }

  /** The text of `v` where it occurs as an array element: `undefined` is
      written `null` there. */
  function Ser(v: Value): string
  {
    match v
    case Undefined => "null"
    case Null => "null"
    case Bool(b) => if b then "true" else "false"
    case Num(n) => IntToString(n)
    case Str(s) => Quote(s)
    case Arr(items) => "[" + SerItems(items) + "]"
    case Obj(props) => "{" + SerProps(props, true) + "}"
  }

  function SerItems(items: seq<Value>): string
  {
    if items == [] then ""
    else if |items| == 1 then Ser(items[0])
    else Ser(items[0]) + "," + SerItems(items[1..])
  }

  /** Object members; a property whose value is `undefined` is skipped, and
      `first` tells whether a member has been written yet (no comma before
      the first one). */
  function SerProps(props: seq<Prop>, first: bool): string
  {
    if props == [] then ""
    else if props[0].val.Undefined? then SerProps(props[1..], first)
    else (if first then "" else ",") + Quote(props[0].key) + ":" + Ser(props[0].val) + SerProps(props[1..], false)
  }

  /** `JSON.stringify(v)`: `undefined` at the top level gives `undefined`
      (None), every other value gives a string. */
  function Stringify(v: Value): (r: Option<string>)
    ensures r.None? <==> v.Undefined?
  {
    if v.Undefined? then None else Some(Ser(v))
  }

  /** The value that parsing the stringified `v` yields: object properties
      holding `undefined` disappear, `undefined` array elements become `null`. */
  function Canon(v: Value): Value
  {
    match v
    case Undefined => Null
    case Arr(items) => Arr(CanonItems(items))
    case Obj(props) => Obj(CanonProps(props))
    case _ => v
  }

  function CanonItems(items: seq<Value>): (r: seq<Value>)
    ensures |r| == |items|
  {
    if items == [] then [] else [Canon(items[0])] + CanonItems(items[1..])
  }

  function CanonProps(props: seq<Prop>): seq<Prop>
  {
    if props == [] then []
    else if props[0].val.Undefined? then CanonProps(props[1..])
    else [Prop(props[0].key, Canon(props[0].val))] + CanonProps(props[1..])
  }

  /** A value JSON can carry unchanged: no `undefined` anywhere inside. */
  predicate IsJson(v: Value)
  {
    match v
    case Undefined => false
    case Arr(items) => ItemsAreJson(items)
    case Obj(props) => PropsAreJson(props)
    case _ => true
  }

  predicate ItemsAreJson(items: seq<Value>)
  {
    items == [] || (IsJson(items[0]) && ItemsAreJson(items[1..]))
  }

  predicate PropsAreJson(props: seq<Prop>)
  {
    props == [] || (IsJson(props[0].val) && PropsAreJson(props[1..]))
  }

  // ---------------------------------------------------------------------
  // Parsing (JSON.parse)
  // ---------------------------------------------------------------------

  /** A parser's result: the value read and the text that follows it, or a
      syntax error. */
  type Parsing<T> = Result<(T, string), string>

  predicate IsWs(c: char)
  {
    c == ' ' || c == '\t' || c == '\n' || c == '\r'
  }

  function SkipWs(s: string): (r: string)
    ensures |r| <= |s|
    ensures r == [] || !IsWs(r[0])
  {
    if s != [] && IsWs(s[0]) then SkipWs(s[1..]) else s
  }

  predicate IsDigit(c: char)
  {
    '0' <= c <= '9'
  }

  predicate AllDigits(s: string)
  {
    forall i :: 0 <= i < |s| ==> IsDigit(s[i])
  }

  /** The length of the longest run of digits at the start of `s`. */
  function DigitsLength(s: string): (k: nat)
    ensures k <= |s|
  {
    if s != [] && IsDigit(s[0]) then 1 + DigitsLength(s[1..]) else 0
  }

  /** The number a run of decimal digits denotes. */
  function DigitsValue(d: string): int
  {
    if d == [] then 0 else DigitsValue(d[..|d| - 1]) * 10 + (d[|d| - 1] as int - '0' as int)
  }

  predicate IsHexDigit(c: char)
  {
    IsDigit(c) || 'a' <= c <= 'f' || 'A' <= c <= 'F'
  }

  function HexDigitValue(c: char): (r: nat)
    requires IsHexDigit(c)
    ensures r < 16
  {
    if IsDigit(c) then c as int - '0' as int
    else if 'a' <= c <= 'f' then c as int - 'a' as int + 10
    else c as int - 'A' as int + 10
  }

  /** The magnitude of a number: `0`, or a digit run not starting with 0.
      Fractions and exponents are refused (numbers are integers here). */
  function ParseMagnitude(t: string): (r: Parsing<int>)
    ensures r.Success? ==> |r.value.1| < |t|
  {
    if t == [] || !IsDigit(t[0]) then Failure("expected a digit")
    else
      var k := if t[0] == '0' then 1 else DigitsLength(t);
      var rest := t[k..];
      if rest != [] && (rest[0] == '.' || rest[0] == 'e' || rest[0] == 'E') then
        Failure("fraction or exponent")
      else
        Success((DigitsValue(t[..k]), rest))
  }

  /** A number: an optional minus sign and a magnitude. */
  function ParseNumber(s: string): (r: Parsing<Value>)
    ensures r.Success? ==> |r.value.1| < |s|
  {
    if s != [] && s[0] == '-' then
      var (mag, rest) :- ParseMagnitude(s[1..]);
      Success((Num(-mag), rest))
    else
      var (mag, rest) :- ParseMagnitude(s);
      Success((Num(mag), rest))
  }

  /** A fixed keyword (`null`, `true`, `false`) standing for `v`. */
  function ParseKeyword(s: string, word: string, v: Value): (r: Parsing<Value>)
    requires word != []
    ensures r.Success? ==> |r.value.1| < |s|
  {
    if |word| <= |s| && s[..|word|] == word then Success((v, s[|word|..]))
    else Failure("unexpected token")
  }

  /** The character an escape denotes; `s` follows the backslash. */
  function ParseEscape(s: string): (r: Parsing<char>)
    ensures r.Success? ==> |r.value.1| < |s|
  {
    if s == [] then Failure("unterminated escape")
    else if s[0] == '"' || s[0] == '\\' || s[0] == '/' then Success((s[0], s[1..]))
    else if s[0] == 'b' then Success((8 as char, s[1..]))
    else if s[0] == 'f' then Success((12 as char, s[1..]))
    else if s[0] == 'n' then Success(('\n', s[1..]))
    else if s[0] == 'r' then Success(('\r', s[1..]))
    else if s[0] == 't' then Success(('\t', s[1..]))
    else if s[0] == 'u' && |s| >= 5 && IsHexDigit(s[1]) && IsHexDigit(s[2]) && IsHexDigit(s[3]) && IsHexDigit(s[4]) then
      var code := ((HexDigitValue(s[1]) * 16 + HexDigitValue(s[2])) * 16 + HexDigitValue(s[3])) * 16 + HexDigitValue(s[4]);
      if 0xD800 <= code < 0xE000 || code >= 0x11_0000 then Failure("surrogate escape")
      else Success((code as char, s[5..]))
    else Failure("bad escape")
  }

  /** The rest of a string literal; `s` follows the opening quote. */
  function ParseStringBody(s: string): (r: Parsing<string>)
    ensures r.Success? ==> |r.value.1| < |s|
  {
    if s == [] then Failure("unterminated string")
    else if s[0] == '"' then Success(("", s[1..]))
    else if s[0] == '\\' then
      var (c, rest) :- ParseEscape(s[1..]);
      var (t, rest') :- ParseStringBody(rest);
      Success(([c] + t, rest'))
    else if s[0] < ' ' then Failure("control character in string")
    else
      var (t, rest') :- ParseStringBody(s[1..]);
      Success(([s[0]] + t, rest'))
  }

  function ParseValue(s: string): (r: Parsing<Value>)
    ensures r.Success? ==> |r.value.1| < |s|
    decreases |s|, 0
  {
    var t := SkipWs(s);
    if t == [] then Failure("unexpected end of input")
    else if t[0] == 'n' then ParseKeyword(t, "null", Null)
    else if t[0] == 't' then ParseKeyword(t, "true", Bool(true))
    else if t[0] == 'f' then ParseKeyword(t, "false", Bool(false))
    else if t[0] == '"' then
      var (str, rest) :- ParseStringBody(t[1..]);
      Success((Str(str), rest))
    else if t[0] == '-' || IsDigit(t[0]) then ParseNumber(t)
    else if t[0] == '[' then ParseArray(t[1..])
    else if t[0] == '{' then ParseObject(t[1..])
    else Failure("unexpected character")
  }

  /** An array; `s` follows the opening bracket. */
  function ParseArray(s: string): (r: Parsing<Value>)
    ensures r.Success? ==> |r.value.1| < |s|
    decreases |s|, 2
  {
    var t := SkipWs(s);
    if t != [] && t[0] == ']' then Success((Arr([]), t[1..]))
    else
      var (items, rest) :- ParseElements(s);
      Success((Arr(items), rest))
  }

  /** One or more comma-separated elements and the closing bracket. */
  function ParseElements(s: string): (r: Parsing<seq<Value>>)
    ensures r.Success? ==> |r.value.1| < |s|
    decreases |s|, 1
  {
    var (v, rest) :- ParseValue(s);
    var t := SkipWs(rest);
    if t == [] then Failure("unterminated array")
    else if t[0] == ']' then Success(([v], t[1..]))
    else if t[0] == ',' then
      var (vs, rest') :- ParseElements(t[1..]);
      Success(([v] + vs, rest'))
    else Failure("expected , or ]")
  }

  /** An object; `s` follows the opening brace. */
  function ParseObject(s: string): (r: Parsing<Value>)
    ensures r.Success? ==> |r.value.1| < |s|
    decreases |s|, 2
  {
    var t := SkipWs(s);
    if t != [] && t[0] == '}' then Success((Obj([]), t[1..]))
    else
      var (props, rest) :- ParseMembers(s, []);
      Success((Obj(props), rest))
  }

  /** One member: a property name, a colon and a value. */
  function ParseMember(s: string): (r: Parsing<Prop>)
    ensures r.Success? ==> |r.value.1| < |s|
    decreases |s|, 0
  {
    var t := SkipWs(s);
    if t == [] || t[0] != '"' then Failure("expected property name")
    else
      var (key, r1) :- ParseStringBody(t[1..]);
      var t2 := SkipWs(r1);
      if t2 == [] || t2[0] != ':' then Failure("expected :")
      else
        var (v, rest) :- ParseValue(t2[1..]);
        Success((Prop(key, v), rest))
  }

  /** One or more comma-separated members and the closing brace.  Members
      are stored as by assignment, so a repeated name keeps its first
      position and takes its last value. */
  function ParseMembers(s: string, acc: seq<Prop>): (r: Parsing<seq<Prop>>)
    ensures r.Success? ==> |r.value.1| < |s|
    decreases |s|, 1
  {
    var (p, rest) :- ParseMember(s);
    var acc' := SetProp(acc, p.key, p.val);
    var t := SkipWs(rest);
    if t == [] then Failure("unterminated object")
    else if t[0] == '}' then Success((acc', t[1..]))
    else if t[0] == ',' then ParseMembers(t[1..], acc')
    else Failure("expected , or }")
  }

  /** `JSON.parse(text)`: one value with optional surrounding whitespace, or
      a SyntaxError. */
  function Parse(text: string): (r: Result<Value, string>)
    ensures r.Success? ==> IsJson(r.value) && WellFormed(r.value)
  {
    ParsedValue(text);
    var (v, rest) :- ParseValue(text);
    if SkipWs(rest) == [] then Success(v) else Failure("unexpected trailing input")
  }

  /** Assigning a property adds at most its name, keeps the names
      distinct, and keeps the values well-formed and free of `undefined`
      when the assigned value is. */
  lemma {:induction false} SetPropKeeps(props: seq<Prop>, key: string, val: Value)
    ensures forall k :: k in Keys(SetProp(props, key, val)) <==> k in Keys(props) || k == key
    ensures DistinctKeys(props) ==> DistinctKeys(SetProp(props, key, val))
    ensures WellFormed(val) && PropsWellFormed(props) ==> PropsWellFormed(SetProp(props, key, val))
    ensures IsJson(val) && PropsAreJson(props) ==> PropsAreJson(SetProp(props, key, val))
    decreases |props|
  {
    var r := SetProp(props, key, val);
    if props == [] {
      assert r[1..] == [];
    } else if props[0].key == key {
      assert r[1..] == props[1..];
    } else {
      SetPropKeeps(props[1..], key, val);
      assert r[1..] == SetProp(props[1..], key, val);
    }
  }

  // Whatever the parser reads holds no `undefined` and has distinct
  // property names in every object.

  lemma {:induction false} ParsedValue(s: string)
    ensures ParseValue(s).Success? ==>
      IsJson(ParseValue(s).value.0) && WellFormed(ParseValue(s).value.0)
    decreases |s|, 0
  {
    var t := SkipWs(s);
    if t != [] && t[0] == '[' {
      ParsedArray(t[1..]);
    } else if t != [] && t[0] == '{' {
      ParsedObject(t[1..]);
    }
  }

  lemma {:induction false} ParsedArray(s: string)
    ensures ParseArray(s).Success? ==>
      IsJson(ParseArray(s).value.0) && WellFormed(ParseArray(s).value.0)
    decreases |s|, 2
  {
    ParsedElements(s);
  }

  lemma {:induction false} ParsedElements(s: string)
    ensures ParseElements(s).Success? ==>
      ItemsAreJson(ParseElements(s).value.0) && ItemsWellFormed(ParseElements(s).value.0)
    decreases |s|, 1
  {
    ParsedValue(s);
    if ParseValue(s).Success? {
      var (v, rest) := ParseValue(s).value;
      var t := SkipWs(rest);
      if t != [] && t[0] == ']' {
        assert [v][1..] == [];
      } else if t != [] && t[0] == ',' {
        ParsedElements(t[1..]);
        if ParseElements(t[1..]).Success? {
          var vs := ParseElements(t[1..]).value.0;
          assert ([v] + vs)[1..] == vs;
        }
      }
    }
  }

  lemma {:induction false} ParsedObject(s: string)
    ensures ParseObject(s).Success? ==>
      IsJson(ParseObject(s).value.0) && WellFormed(ParseObject(s).value.0)
    decreases |s|, 2
  {
    ParsedMembers(s, []);
  }

  lemma {:induction false} ParsedMember(s: string)
    ensures ParseMember(s).Success? ==>
      IsJson(ParseMember(s).value.0.val) && WellFormed(ParseMember(s).value.0.val)
    decreases |s|, 0
  {
    var t := SkipWs(s);
    if t != [] && t[0] == '"' {
      var body := ParseStringBody(t[1..]);
      if body.Success? {
        var t2 := SkipWs(body.value.1);
        if t2 != [] && t2[0] == ':' {
          ParsedValue(t2[1..]);
        }
      }
    }
  }

  lemma {:induction false} ParsedMembers(s: string, acc: seq<Prop>)
    requires DistinctKeys(acc) && PropsWellFormed(acc) && PropsAreJson(acc)
    ensures ParseMembers(s, acc).Success? ==>
      var props := ParseMembers(s, acc).value.0;
      DistinctKeys(props) && PropsWellFormed(props) && PropsAreJson(props)
    decreases |s|, 1
  {
    ParsedMember(s);
    if ParseMember(s).Success? {
      var (p, rest) := ParseMember(s).value;
      var acc' := SetProp(acc, p.key, p.val);
      SetPropKeeps(acc, p.key, p.val);
      var t := SkipWs(rest);
      if t != [] && t[0] == ',' {
        ParsedMembers(t[1..], acc');
      }
    }
  }
}
