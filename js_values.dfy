/**
  The JavaScript values that the client receives from the backend and keeps in
  its fields, and the few pieces of JavaScript semantics the components rely
  on: truthiness, `a || b`, reading a named property, object spread and the
  conversion `String(v)` that `localStorage.setItem` applies to its argument.
  Numbers are modelled as integers.
 */
module JsValues {

  datatype Option<+T> = None | Some(value: T)

  /** A JSON-shaped JavaScript value; `Obj` ignores the order of its keys. */
  datatype Json =
    | Undefined
    | Null
    | Bool(b: bool)
    | Num(n: int)
    | Str(s: string)
    | Arr(items: seq<Json>)
    | Obj(fields: map<string, Json>)

  /** JavaScript truthiness: `undefined`, `null`, `false`, `0` and `""` are falsy. */
  predicate Truthy(v: Json) {
    match v
    case Undefined => false
    case Null => false
    case Bool(b) => b
    case Num(n) => n != 0
    case Str(s) => s != ""
    case Arr(_) => true
    case Obj(_) => true
  }

  /** `a || b`: the left operand when it is truthy, the right one otherwise. */
  function Or(a: Json, b: Json): Json {
    if Truthy(a) then a else b
  }

  /**
    `v.name` for a property name that is neither an array index nor `length`
    (the only kind the components read). `None` stands for the TypeError thrown
    when `v` is `null` or `undefined`; a primitive or an array has no such
    property and gives `undefined`.
   */
  function Get(v: Json, name: string): (r: Option<Json>)
    ensures r.None? <==> v.Null? || v.Undefined?
    ensures r.Some? && !v.Obj? ==> r.value == Undefined
    ensures v.Obj? && name !in v.fields ==> r == Some(Undefined)
    ensures v.Obj? && name in v.fields ==> r == Some(v.fields[name])
  {
    match v
    case Undefined => None
    case Null => None
    case Obj(fields) => Some(if name in fields then fields[name] else Undefined)
    case _ => Some(Undefined)
  }

  /** `obj[name]` on a plain object held as a map: a missing key reads as `undefined`. */
  function Lookup(obj: map<string, Json>, name: string): Json {
    if name in obj then obj[name] else Undefined
  }

  function Digit(d: nat): char
    requires d < 10
  {
    "0123456789"[d]
  }

  /** Decimal notation of a natural number, as `String(n)` writes it. */
  function NatToString(n: nat): (r: string)
    ensures |r| > 0
    ensures forall i :: 0 <= i < |r| ==> '0' <= r[i] <= '9'
  {
    if n < 10 then [Digit(n)] else NatToString(n / 10) + [Digit(n % 10)]
  }

  /** The own enumerable properties that `{ ...v }` copies. */
  function OwnEntries(v: Json): map<string, Json> {
    match v
    case Obj(fields) => fields
    case Arr(items) => IndexEntries(items, 0)
    case Str(s) => IndexEntries(seq(|s|, i requires 0 <= i < |s| => Str([s[i]])), 0)
    case _ => map[]
  }

  /** The entries `"from": items[0]`, `"from+1": items[1]`, ... of an array-like value. */
  function IndexEntries(items: seq<Json>, from: nat): map<string, Json>
    decreases |items|
  {
    if items == [] then map[]
    else IndexEntries(items[1..], from + 1)[NatToString(from) := items[0]]
  }

  /** `strs.join(",")`. */
  function JoinWithCommas(strs: seq<string>): string
    decreases |strs|
  {
    if |strs| == 0 then ""
    else if |strs| == 1 then strs[0]
    else strs[0] + "," + JoinWithCommas(strs[1..])
  }

  /**
    `String(v)`, the conversion `localStorage.setItem` applies to the value it
    stores. An array joins its elements with commas, writing `null` and
    `undefined` elements as empty strings.
   */
  function ToJsString(v: Json): string {
    match v
    case Undefined => "undefined"
    case Null => "null"
    case Bool(b) => if b then "true" else "false"
    case Num(n) => if n < 0 then "-" + NatToString(-n) else NatToString(n)
    case Str(s) => s
    case Obj(_) => "[object Object]"
    case Arr(items) =>
      JoinWithCommas(seq(|items|, i requires 0 <= i < |items| =>
        if items[i].Null? || items[i].Undefined? then "" else ToJsString(items[i])))
  }
}
