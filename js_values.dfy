/** The JavaScript values the adapters pass around: the handler's return
    value, response bodies and decoded request bodies.  An object is an
    ordered list of own properties, in insertion order, as JavaScript keeps
    them. */
module JsValues {

  datatype Value =
    | Undefined
    | Null
    | Bool(b: bool)
    | Num(n: int)
    | Str(s: string)
    | Arr(items: seq<Value>)
    | Obj(props: seq<Prop>)

  datatype Prop = Prop(key: string, val: Value)

  /** `v === undefined || v === null`: reading a property of such a value throws. */
  predicate IsNullish(v: Value) {
    v.Undefined? || v.Null?
  }

  /** JavaScript truthiness (`if (v)`, `v ? a : b`, `v || d`). */
  predicate Truthy(v: Value) {
    match v
    case Undefined => false
    case Null => false
    case Bool(b) => b
    case Num(n) => n != 0
    case Str(s) => s != ""
    case Arr(_) => true
    case Obj(_) => true
  }

  /** `typeof v === 'object'` */
  predicate IsObjectTyped(v: Value) {
    v.Null? || v.Arr? || v.Obj?
  }

  /** The own property names of an object, in order. */
  function Keys(props: seq<Prop>): (ks: seq<string>)
    ensures |ks| == |props|
  {
    if props == [] then [] else [props[0].key] + Keys(props[1..])
  }

  lemma {:induction false} KeysAt(props: seq<Prop>, i: nat)
    requires i < |props|
    ensures Keys(props)[i] == props[i].key
    decreases i
  {
    if i > 0 {
      KeysAt(props[1..], i - 1);
    }
  }

  /** No two own properties share a name, as in every JavaScript object. */
  predicate DistinctKeys(props: seq<Prop>) {
    props == [] || (props[0].key !in Keys(props[1..]) && DistinctKeys(props[1..]))
  }

  /** Every object inside `v` has distinct property names. */
  predicate WellFormed(v: Value) {
    match v
    case Arr(items) => ItemsWellFormed(items)
    case Obj(props) => DistinctKeys(props) && PropsWellFormed(props)
    case _ => true
  }

  predicate ItemsWellFormed(items: seq<Value>) {
    items == [] || (WellFormed(items[0]) && ItemsWellFormed(items[1..]))
  }

  predicate PropsWellFormed(props: seq<Prop>) {
    props == [] || (WellFormed(props[0].val) && PropsWellFormed(props[1..]))
  }

  /** `obj[key]` on a plain object: the value of the property named `key`, or
      `undefined` when there is none. */
  function Lookup(props: seq<Prop>, key: string): Value
  {
    if props == [] then Undefined
    else if props[0].key == key then props[0].val
    else Lookup(props[1..], key)
  }

  /** `v[key]` for a value that is not `undefined` or `null`.  Only own
      properties of objects are modelled: the names read by the adapters
      (`body`, `statusCode`) are not inherited by strings, numbers, booleans
      or arrays. */
  function Field(v: Value, key: string): Value
    requires !IsNullish(v)
  {
    if v.Obj? then Lookup(v.props, key) else Undefined
  }

  /** `obj[key] = val` on a plain object: an existing property keeps its
      position and takes the new value, a new one is appended. */
  function SetProp(props: seq<Prop>, key: string, val: Value): (r: seq<Prop>)
    ensures key !in Keys(props) ==> r == props + [Prop(key, val)]
  {
    if props == [] then [Prop(key, val)]
    else if props[0].key == key then [Prop(key, val)] + props[1..]
    else [props[0]] + SetProp(props[1..], key, val)
  }

  /** A property read from well-formed properties is well-formed. */
  lemma {:induction false} LookupWellFormed(props: seq<Prop>, key: string)
    requires PropsWellFormed(props)
    ensures WellFormed(Lookup(props, key))
    decreases |props|
  {
    if props != [] && props[0].key != key {
      LookupWellFormed(props[1..], key);
    }
  }
}
