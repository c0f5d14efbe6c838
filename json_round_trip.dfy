/** `JSON.parse(JSON.stringify(v))` gives back `v`, up to the `undefined`
    entries stringify drops: the property the response builder relies on
    when it serialises a body. */
module JsonRoundTrip {
  import opened Wrappers
  import opened JsValues
  import opened Json

  /** What may follow a value inside the text stringify writes. */
  predicate Delimited(rest: string)
  {
    rest == [] || rest[0] == ',' || rest[0] == ']' || rest[0] == '}'
  }

  lemma {:induction false} NatToStringDigits(n: nat)
    ensures NatToString(n) != [] && AllDigits(NatToString(n))
    ensures DigitsValue(NatToString(n)) == n
    ensures NatToString(n)[0] == '0' <==> n == 0
    decreases n
  {
    var d := NatToString(n);
    if n < 10 {
      assert d == [Digit(n)];
      assert d[..|d| - 1] == [];
    } else {
      NatToStringDigits(n / 10);
      var p := NatToString(n / 10);
      assert d == p + [Digit(n % 10)];
      assert d[..|d| - 1] == p;
      assert d[0] == p[0];
    }
  }

  lemma {:induction false} DigitsLengthOf(d: string, rest: string)
    requires AllDigits(d)
    requires rest == [] || !IsDigit(rest[0])
    ensures DigitsLength(d + rest) == |d|
    decreases |d|
  {
    if d != [] {
      assert (d + rest)[1..] == d[1..] + rest;
      DigitsLengthOf(d[1..], rest);
    } else {
      assert d + rest == rest;
    }
  }

  /** The digits of a natural number, followed by a delimiter, read back
      as that number. */
  lemma MagnitudeRoundTrip(m: nat, rest: string)
    requires Delimited(rest)
    ensures ParseMagnitude(NatToString(m) + rest) == Success((m, rest))
  {
    var d := NatToString(m);
    NatToStringDigits(m);
    var t := d + rest;
    assert t[0] == d[0];
    if t[0] != '0' {
      DigitsLengthOf(d, rest);
    } else {
      assert d == "0";
    }
    assert t[..|d|] == d;
    assert t[|d|..] == rest;
  }

  lemma ParseNumberSigned(t: string)
    requires t != [] && IsDigit(t[0])
    ensures ParseNumber(['-'] + t) ==
      match ParseMagnitude(t)
      case Success((m, r)) => Success((Num(-m), r))
      case Failure(e) => Failure(e)
  {
    assert (['-'] + t)[1..] == t;
  }

  lemma ParseNumberUnsigned(t: string)
    requires t != [] && IsDigit(t[0])
    ensures ParseNumber(t) ==
      match ParseMagnitude(t)
      case Success((m, r)) => Success((Num(m), r))
      case Failure(e) => Failure(e)
  {
  }

  /** A number stringify writes reads back as the same number. */
  lemma NumberRoundTrip(n: int, rest: string)
    requires Delimited(rest)
    ensures ParseNumber(IntToString(n) + rest) == Success((Num(n), rest))
  {
    var m: nat := if n < 0 then -n else n;
    var t := NatToString(m) + rest;
    MagnitudeRoundTrip(m, rest);
    NatToStringDigits(m);
    assert t[0] == NatToString(m)[0];
    if n < 0 {
      assert IntToString(n) + rest == ['-'] + t;
      ParseNumberSigned(t);
    } else {
      assert IntToString(n) + rest == t;
      ParseNumberUnsigned(t);
    }
  }

  lemma HexDigitValueOf(d: nat)
    requires d < 16
    ensures IsHexDigit(HexDigit(d)) && HexDigitValue(HexDigit(d)) == d
  {
  }

  /** The `\u00xx` escape of a control character denotes that character. */
  lemma ControlEscape(c: char, x: string)
    requires c < ' '
    ensures ParseEscape(['u', '0', '0', HexDigit(c as int / 16), HexDigit(c as int % 16)] + x) == Success((c, x))
  {
    var h1, h2 := HexDigit(c as int / 16), HexDigit(c as int % 16);
    HexDigitValueOf(c as int / 16);
    HexDigitValueOf(c as int % 16);
    var s := ['u', '0', '0', h1, h2] + x;
    assert s[1] == '0' && s[2] == '0' && s[3] == h1 && s[4] == h2;
    assert s[5..] == x;
  }

  /** Reading one escaped character puts that character in front of what
      the rest of the literal reads as. */
  lemma EscapeCharRoundTrip(c: char, x: string)
    ensures ParseStringBody(EscapeChar(c) + x) ==
      match ParseStringBody(x)
      case Success((t, rest)) => Success(([c] + t, rest))
      case Failure(e) => Failure(e)
  {
    var s := EscapeChar(c) + x;
    if c == '"' || c == '\\' || c == 8 as char || c == '\t' || c == '\n' || c == 12 as char || c == '\r' {
      assert |EscapeChar(c)| == 2;
      assert s[1..] == [EscapeChar(c)[1]] + x;
      assert s[1..][1..] == x;
    } else if c < ' ' {
      var u := ['u', '0', '0', HexDigit(c as int / 16), HexDigit(c as int % 16)];
      assert s == ['\\'] + (u + x);
      assert s[1..] == u + x;
      ControlEscape(c, x);
    } else {
      assert s == [c] + x;
      assert s[1..] == x;
    }
  }

  /** A string stringify writes reads back as the same string. */
  lemma {:induction false} StringRoundTrip(s: string, rest: string)
    ensures ParseStringBody(Escape(s) + "\"" + rest) == Success((s, rest))
    decreases |s|
  {
    if s == [] {
      assert Escape(s) + "\"" + rest == ['"'] + rest;
    } else {
      var x := Escape(s[1..]) + "\"" + rest;
      assert Escape(s) + "\"" + rest == EscapeChar(s[0]) + x;
      StringRoundTrip(s[1..], rest);
      EscapeCharRoundTrip(s[0], x);
      assert [s[0]] + s[1..] == s;
    }
  }

  /** The first character of a serialised value chooses the value's branch
      of the parser and is never whitespace or a delimiter. */
  lemma SerHead(v: Value)
    ensures Ser(v) != []
    ensures var c := Ser(v)[0];
      !IsWs(c) && c != ',' && c != ']' && c != '}'
  {
    match v
    case Num(n) =>
      NatToStringDigits(if n < 0 then -n else n);
    case _ =>
  }

  lemma {:induction false} SerPropsComma(ps: seq<Prop>)
    ensures SerProps(ps, false) == if CanonProps(ps) == [] then "" else "," + SerProps(ps, true)
    ensures CanonProps(ps) == [] ==> SerProps(ps, true) == ""
    ensures CanonProps(ps) != [] ==> SerProps(ps, true) != [] && SerProps(ps, true)[0] == '"'
    decreases |ps|
  {
    if ps != [] {
      SerPropsComma(ps[1..]);
    }
  }

  lemma {:induction false} KeysAppend(acc: seq<Prop>, p: Prop)
    ensures Keys(acc + [p]) == Keys(acc) + [p.key]
    decreases |acc|
  {
    if acc != [] {
      assert (acc + [p])[1..] == acc[1..] + [p];
      KeysAppend(acc[1..], p);
    }
  }

  // One step of the parser each: stated once so that the round-trip proofs
  // compose them instead of unfolding the parser's whole dispatch.

  lemma ParseValueString(inner: string)
    ensures ParseValue(['"'] + inner) ==
      match ParseStringBody(inner)
      case Success((str, rest)) => Success((Str(str), rest))
      case Failure(e) => Failure(e)
  {
    assert (['"'] + inner)[1..] == inner;
  }

  lemma ParseValueArray(inner: string)
    ensures ParseValue(['['] + inner) == ParseArray(inner)
  {
    assert (['['] + inner)[1..] == inner;
  }

  lemma ParseValueObject(inner: string)
    ensures ParseValue(['{'] + inner) == ParseObject(inner)
  {
    assert (['{'] + inner)[1..] == inner;
  }

  lemma ParseArrayEmpty(rest: string)
    ensures ParseArray("]" + rest) == Success((Arr([]), rest))
  {
    assert ("]" + rest)[1..] == rest;
  }

  lemma ParseArrayElements(inner: string)
    requires inner != [] && inner[0] != ']' && !IsWs(inner[0])
    ensures ParseArray(inner) ==
      match ParseElements(inner)
      case Success((items, rest)) => Success((Arr(items), rest))
      case Failure(e) => Failure(e)
  {
  }

  lemma ParseObjectEmpty(rest: string)
    ensures ParseObject("}" + rest) == Success((Obj([]), rest))
  {
    assert ("}" + rest)[1..] == rest;
  }

  lemma ParseObjectMembers(inner: string)
    requires inner != [] && inner[0] != '}' && !IsWs(inner[0])
    ensures ParseObject(inner) ==
      match ParseMembers(inner, [])
      case Success((props, rest)) => Success((Obj(props), rest))
      case Failure(e) => Failure(e)
  {
  }

  lemma ElementsLast(s: string, v: Value, rest: string)
    requires ParseValue(s) == Success((v, "]" + rest))
    ensures ParseElements(s) == Success(([v], rest))
  {
    assert ("]" + rest)[1..] == rest;
  }

  lemma ElementsNext(s: string, v: Value, tail: string)
    requires ParseValue(s) == Success((v, "," + tail))
    ensures ParseElements(s) ==
      match ParseElements(tail)
      case Success((vs, rest)) => Success(([v] + vs, rest))
      case Failure(e) => Failure(e)
  {
    assert ("," + tail)[1..] == tail;
  }

  lemma MembersLast(s: string, acc: seq<Prop>, p: Prop, rest: string)
    requires ParseMember(s) == Success((p, "}" + rest))
    ensures ParseMembers(s, acc) == Success((SetProp(acc, p.key, p.val), rest))
  {
    assert ("}" + rest)[1..] == rest;
  }

  lemma MembersNext(s: string, acc: seq<Prop>, p: Prop, tail: string)
    requires ParseMember(s) == Success((p, "," + tail))
    ensures ParseMembers(s, acc) == ParseMembers(tail, SetProp(acc, p.key, p.val))
  {
    assert ("," + tail)[1..] == tail;
  }

  lemma MemberOf(key: string, after: string, rest: string)
    requires ParseStringBody(after) == Success((key, ":" + rest))
    ensures ParseMember(['"'] + after) ==
      match ParseValue(rest)
      case Success((val, rest')) => Success((Prop(key, val), rest'))
      case Failure(e) => Failure(e)
  {
    assert (['"'] + after)[1..] == after;
    assert (":" + rest)[1..] == rest;
  }

  // The round trip, by mutual induction over the value.

  /** The parse of a serialised value: the canonical value, and the text
      after it untouched. */
  lemma {:induction false} ValueRoundTrip(v: Value, rest: string)
    requires WellFormed(v)
    requires Delimited(rest)
    ensures ParseValue(Ser(v) + rest) == Success((Canon(v), rest))
    decreases v, 2
  {
    match v
    case Undefined => KeywordRoundTrip("null", Null, rest);
    case Null => KeywordRoundTrip("null", Null, rest);
    case Bool(b) => KeywordRoundTrip(if b then "true" else "false", v, rest);
    case Num(n) => NumberValueRoundTrip(n, rest);
    case Str(str) => StringValueRoundTrip(str, rest);
    case Arr(items) => ArrayRoundTrip(items, rest);
    case Obj(props) => ObjectRoundTrip(props, rest);
  }

  lemma KeywordRoundTrip(word: string, v: Value, rest: string)
    requires word == "null" || word == "true" || word == "false"
    requires v == if word == "null" then Null else Bool(word == "true")
    ensures ParseValue(word + rest) == Success((v, rest))
  {
    var s := word + rest;
    assert s[0] == word[0];
    assert s[..|word|] == word && s[|word|..] == rest;
  }

  lemma NumberValueRoundTrip(n: int, rest: string)
    requires Delimited(rest)
    ensures ParseValue(IntToString(n) + rest) == Success((Num(n), rest))
  {
    var s := IntToString(n) + rest;
    SerHead(Num(n));
    assert s[0] == IntToString(n)[0];
    NumberRoundTrip(n, rest);
  }

  lemma StringValueRoundTrip(str: string, rest: string)
    ensures ParseValue(Quote(str) + rest) == Success((Str(str), rest))
  {
    var inner := Escape(str) + "\"" + rest;
    assert Quote(str) + rest == ['"'] + inner;
    ParseValueString(inner);
    StringRoundTrip(str, rest);
  }

  lemma {:induction false} ArrayRoundTrip(items: seq<Value>, rest: string)
    requires ItemsWellFormed(items)
    ensures ParseValue(Ser(Arr(items)) + rest) == Success((Arr(CanonItems(items)), rest))
    decreases items, 1
  {
    var inner := SerItems(items) + "]" + rest;
    assert Ser(Arr(items)) + rest == ['['] + inner;
    ParseValueArray(inner);
    if items == [] {
      assert inner == "]" + rest;
      ParseArrayEmpty(rest);
    } else {
      ItemsRoundTrip(items, rest);
      SerHead(items[0]);
      assert inner[0] == Ser(items[0])[0];
      ParseArrayElements(inner);
    }
  }

  lemma {:induction false} ObjectRoundTrip(props: seq<Prop>, rest: string)
    requires DistinctKeys(props) && PropsWellFormed(props)
    ensures ParseValue(Ser(Obj(props)) + rest) == Success((Obj(CanonProps(props)), rest))
    decreases props, 3
  {
    var inner := SerProps(props, true) + "}" + rest;
    assert Ser(Obj(props)) + rest == ['{'] + inner;
    ParseValueObject(inner);
    SerPropsComma(props);
    if CanonProps(props) == [] {
      assert inner == "}" + rest;
      ParseObjectEmpty(rest);
    } else {
      EmptyDisjoint(props);
      PropsRoundTrip(props, [], rest);
      assert inner[0] == '"';
      ParseObjectMembers(inner);
      assert [] + CanonProps(props) == CanonProps(props);
    }
  }

  lemma {:induction false} ItemsRoundTrip(items: seq<Value>, rest: string)
    requires items != []
    requires ItemsWellFormed(items)
    ensures ParseElements(SerItems(items) + "]" + rest) == Success((CanonItems(items), rest))
    decreases items, 0
  {
    var x := items[0];
    if |items| == 1 {
      assert SerItems(items) + "]" + rest == Ser(x) + ("]" + rest);
      ValueRoundTrip(x, "]" + rest);
      ElementsLast(Ser(x) + ("]" + rest), Canon(x), rest);
      assert CanonItems(items) == [Canon(x)];
    } else {
      var tail := SerItems(items[1..]) + "]" + rest;
      assert SerItems(items) + "]" + rest == Ser(x) + ("," + tail);
      ValueRoundTrip(x, "," + tail);
      ElementsNext(Ser(x) + ("," + tail), Canon(x), tail);
      ItemsRoundTrip(items[1..], rest);
    }
  }

  /** One member as stringify writes it reads back as its canonical form. */
  lemma {:induction false} MemberRoundTrip(p: Prop, after: string)
    requires WellFormed(p.val) && !p.val.Undefined?
    requires Delimited(after)
    ensures ParseMember(Quote(p.key) + ":" + Ser(p.val) + after) == Success((Prop(p.key, Canon(p.val)), after))
    decreases p, 0
  {
    var body := Ser(p.val) + after;
    var inner := Escape(p.key) + "\"" + (":" + body);
    assert Quote(p.key) + ":" + Ser(p.val) + after == ['"'] + inner;
    StringRoundTrip(p.key, ":" + body);
    SerHead(p.val);
    assert body[0] == Ser(p.val)[0];
    MemberOf(p.key, inner, body);
    ValueRoundTrip(p.val, after);
  }

  lemma {:induction false} PropsRoundTrip(props: seq<Prop>, acc: seq<Prop>, rest: string)
    requires CanonProps(props) != []
    requires DistinctKeys(props) && PropsWellFormed(props)
    requires KeysDisjoint(props, acc)
    ensures ParseMembers(SerProps(props, true) + "}" + rest, acc) == Success((acc + CanonProps(props), rest))
    decreases props, 2
  {
    if props[0].val.Undefined? {
      PropsRoundTrip(props[1..], acc, rest);
    } else if CanonProps(props[1..]) == [] {
      LastPropRoundTrip(props, acc, rest);
    } else {
      NextPropRoundTrip(props, acc, rest);
    }
  }

  /** The first property is written and is the last one written. */
  lemma {:induction false} LastPropRoundTrip(props: seq<Prop>, acc: seq<Prop>, rest: string)
    requires props != [] && !props[0].val.Undefined? && CanonProps(props[1..]) == []
    requires PropsWellFormed(props)
    requires KeysDisjoint(props, acc)
    ensures ParseMembers(SerProps(props, true) + "}" + rest, acc) == Success((acc + CanonProps(props), rest))
    decreases props, 0
  {
    var p := props[0];
    var q := Prop(p.key, Canon(p.val));
    LastPropText(props, rest);
    MemberRoundTrip(p, "}" + rest);
    FreshMemberLast(Quote(p.key) + ":" + Ser(p.val) + ("}" + rest), acc, q, rest);
  }

  /** The first property is written and more follow it. */
  lemma {:induction false} NextPropRoundTrip(props: seq<Prop>, acc: seq<Prop>, rest: string)
    requires props != [] && !props[0].val.Undefined? && CanonProps(props[1..]) != []
    requires DistinctKeys(props) && PropsWellFormed(props)
    requires KeysDisjoint(props, acc)
    ensures ParseMembers(SerProps(props, true) + "}" + rest, acc) == Success((acc + CanonProps(props), rest))
    decreases props, 1
  {
    var q := Prop(props[0].key, Canon(props[0].val));
    NextPropStep(props, acc, rest);
    assert q.key !in Keys(props[1..]);
    FreshKeysAfter(props[1..], acc, q);
    PropsRoundTrip(props[1..], acc + [q], rest);
    FirstPropText(props);
    AppendAssoc(acc, q, CanonProps(props[1..]));
  }

  /** Reading the first of several written properties appends it and moves
      on to the text of the others. */
  lemma {:induction false} NextPropStep(props: seq<Prop>, acc: seq<Prop>, rest: string)
    requires props != [] && !props[0].val.Undefined? && CanonProps(props[1..]) != []
    requires PropsWellFormed(props)
    requires KeysDisjoint(props, acc)
    ensures ParseMembers(SerProps(props, true) + "}" + rest, acc) ==
      ParseMembers(SerProps(props[1..], true) + "}" + rest, acc + [Prop(props[0].key, Canon(props[0].val))])
    decreases props, 0
  {
    var p := props[0];
    var tail := SerProps(props[1..], true) + "}" + rest;
    NextPropText(props, rest);
    MemberRoundTrip(p, "," + tail);
    FreshMemberNext(Quote(p.key) + ":" + Ser(p.val) + ("," + tail), acc, Prop(p.key, Canon(p.val)), tail);
  }

  /** The text of a lone written property, up to the closing brace. */
  lemma LastPropText(props: seq<Prop>, rest: string)
    requires props != [] && !props[0].val.Undefined? && CanonProps(props[1..]) == []
    ensures SerProps(props, true) + "}" + rest == Quote(props[0].key) + ":" + Ser(props[0].val) + ("}" + rest)
    ensures CanonProps(props) == [Prop(props[0].key, Canon(props[0].val))]
  {
    var h := Quote(props[0].key) + ":" + Ser(props[0].val);
    FirstPropText(props);
    SerPropsComma(props[1..]);
    Regroup(h, "", "}", rest);
    assert CanonProps(props) == [Prop(props[0].key, Canon(props[0].val))] + [];
  }

  /** The text of a written property that more follow, up to its comma. */
  lemma NextPropText(props: seq<Prop>, rest: string)
    requires props != [] && !props[0].val.Undefined? && CanonProps(props[1..]) != []
    ensures SerProps(props, true) + "}" + rest ==
      Quote(props[0].key) + ":" + Ser(props[0].val) + ("," + (SerProps(props[1..], true) + "}" + rest))
  {
    var h := Quote(props[0].key) + ":" + Ser(props[0].val);
    FirstPropText(props);
    SerPropsComma(props[1..]);
    Regroup(h, "," + SerProps(props[1..], true), "}", rest);
    Regroup("", ",", SerProps(props[1..], true) + "}", rest);
    Regroup("", ",", SerProps(props[1..], true), "}");
  }

  /** A written first property opens the text of the properties. */
  lemma FirstPropText(props: seq<Prop>)
    requires props != [] && !props[0].val.Undefined?
    ensures SerProps(props, true) == Quote(props[0].key) + ":" + Ser(props[0].val) + SerProps(props[1..], false)
    ensures CanonProps(props) == [Prop(props[0].key, Canon(props[0].val))] + CanonProps(props[1..])
  {
    assert "" + Quote(props[0].key) == Quote(props[0].key);
  }

  lemma AppendAssoc(acc: seq<Prop>, q: Prop, more: seq<Prop>)
    ensures acc + [q] + more == acc + ([q] + more)
  {
  }

  lemma Regroup(h: string, m: string, c: string, r: string)
    ensures h + m + c + r == h + (m + c + r)
    ensures h + (m + c) + r == h + (m + (c + r))
  {
  }

  /** The last member, with a new name, is appended to those read so far. */
  lemma FreshMemberLast(s: string, acc: seq<Prop>, q: Prop, rest: string)
    requires ParseMember(s) == Success((q, "}" + rest))
    requires q.key !in Keys(acc)
    ensures ParseMembers(s, acc) == Success((acc + [q], rest))
  {
    MembersLast(s, acc, q, rest);
  }

  /** A member with a new name followed by a comma is appended, and reading
      goes on after the comma. */
  lemma FreshMemberNext(s: string, acc: seq<Prop>, q: Prop, tail: string)
    requires ParseMember(s) == Success((q, "," + tail))
    requires q.key !in Keys(acc)
    ensures ParseMembers(s, acc) == ParseMembers(tail, acc + [q])
  {
    MembersNext(s, acc, q, tail);
  }

  lemma {:induction false} EmptyDisjoint(props: seq<Prop>)
    ensures KeysDisjoint(props, [])
    decreases |props|
  {
    if props != [] {
      EmptyDisjoint(props[1..]);
    }
  }

  /** No property of `props` is named like one of `acc`. */
  predicate KeysDisjoint(props: seq<Prop>, acc: seq<Prop>)
  {
    props == [] || (props[0].key !in Keys(acc) && KeysDisjoint(props[1..], acc))
  }

  /** The names after the first member are new to the members read so far. */
  lemma {:induction false} FreshKeysAfter(props: seq<Prop>, acc: seq<Prop>, q: Prop)
    requires KeysDisjoint(props, acc)
    requires q.key !in Keys(props)
    ensures KeysDisjoint(props, acc + [q])
    decreases |props|
  {
    KeysAppend(acc, q);
    if props != [] {
      assert props[0].key != q.key by {
        KeysAt(props, 0);
      }
      FreshKeysAfter(props[1..], acc, q);
    }
  }

  /** `JSON.parse(JSON.stringify(v))` is the canonical form of `v` for every
      value but `undefined` (for which stringify gives no text). */
  lemma StringifyRoundTrip(v: Value)
    requires WellFormed(v) && !v.Undefined?
    ensures Stringify(v).Some?
    ensures Parse(Stringify(v).value) == Success(Canon(v))
  {
    ValueRoundTrip(v, []);
    assert Ser(v) + [] == Ser(v);
  }

  /** A value with no `undefined` inside survives the round trip unchanged. */
  lemma {:induction false} CanonOfJson(v: Value)
    requires IsJson(v)
    ensures Canon(v) == v
    decreases v, 1
  {
    match v
    case Arr(items) => CanonItemsOfJson(items);
    case Obj(props) => CanonPropsOfJson(props);
    case _ =>
  }

  lemma {:induction false} CanonItemsOfJson(items: seq<Value>)
    requires ItemsAreJson(items)
    ensures CanonItems(items) == items
    decreases items, 0
  {
    if items != [] {
      CanonOfJson(items[0]);
      CanonItemsOfJson(items[1..]);
      assert [items[0]] + items[1..] == items;
    }
  }

  lemma {:induction false} CanonPropsOfJson(props: seq<Prop>)
    requires PropsAreJson(props)
    ensures CanonProps(props) == props
    decreases props, 0
  {
    if props != [] {
      CanonOfJson(props[0].val);
      CanonPropsOfJson(props[1..]);
      assert [props[0]] + props[1..] == props;
    }
  }
}
