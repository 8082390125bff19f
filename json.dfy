/** JavaScript values as the two pages see them: what a JSON response
    parses to, plus `undefined` (a missing property) and `Date` objects
    (what the date pickers hold). */
module Json {

  datatype Option<T> = None | Some(value: T)

  /** A JavaScript value. Numbers are integers here; a Date carries its
      time value in milliseconds since the epoch, or None when the Date is
      invalid (its time value is NaN). Plain objects are maps from property
      name to value. */
  datatype Value =
    | Undefined
    | Null
    | Bool(b: bool)
    | Num(n: int)
    | Str(s: string)
    | Arr(items: seq<Value>)
    | Obj(props: map<string, Value>)
    | Date(time: Option<int>)

  /** `v == null`, i.e. what `??` and `?.` test. */
  predicate Nullish(v: Value) {
    v.Undefined? || v.Null?
  }

  /** JavaScript ToBoolean: what `if (v)`, `!v`, `||` and `filter(Boolean)` test. */
  predicate Truthy(v: Value) {
    match v
    case Undefined => false
    case Null => false
    case Bool(b) => b
    case Num(n) => n != 0
    case Str(s) => s != ""
    case _ => true
  }

  /** `a ?? b` */
  function Coalesce(a: Value, b: Value): Value {
    if Nullish(a) then b else a
  }

  /** `a || b` */
  function Or(a: Value, b: Value): Value {
    if Truthy(a) then a else b
  }

  /** Reading an own property of a plain object: `undefined` when absent. */
  function Get(m: map<string, Value>, k: string): Value {
    if k in m then m[k] else Undefined
  }

  /** `v?.k`. Only plain objects carry the properties this core reads
      (`config`, `campus`, `Id`, `action`, ...); on anything else the read
      gives `undefined`. */
  function Prop(v: Value, k: string): Value {
    if v.Obj? then Get(v.props, k) else Undefined
  }

  /** The own enumerable properties that a spread `{...v}` or a destructuring
      rest copies, restricted to what a lookup by a field name can see: a
      string or an array only contributes index keys ("0", "1", ...), which no
      field name equals, so it reads as the empty object. */
  function Record(v: Value): map<string, Value> {
    if v.Obj? then v.props else map[]
  }

  /** The value holds no Date object anywhere: true of everything a JSON
      response parses to. */
  predicate NoDates(v: Value) {
    match v
    case Date(_) => false
    case Arr(items) => forall i | 0 <= i < |items| :: NoDates(items[i])
    case Obj(props) => forall k | k in props :: NoDates(props[k])
    case _ => true
  }

  function Digit(d: nat): char
    requires d < 10
  {
    "0123456789"[d]
  }

  /** Decimal rendering of a natural number, as `String(n)` gives it. */
  function NatToString(n: nat): (r: string)
    ensures r != []
    decreases n
  {
    if n < 10 then [Digit(n)] else NatToString(n / 10) + [Digit(n % 10)]
  }

  function IntToString(i: int): string {
    if i < 0 then "-" + NatToString(-i) else NatToString(i)
  }

  /** `parts.join(",")` */
  function JoinComma(parts: seq<string>): string {
    if parts == [] then ""
    else if |parts| == 1 then parts[0]
    else parts[0] + "," + JoinComma(parts[1..])
  }

  /** `String(v)` for every value other than a Date, whose text depends on
      the time zone. Arrays join their elements with commas, rendering
      null and undefined elements as empty strings. */
  function ToStr(v: Value): string
    requires NoDates(v)
    decreases v
  {
    match v
    case Undefined => "undefined"
    case Null => "null"
    case Bool(b) => if b then "true" else "false"
    case Num(n) => IntToString(n)
    case Str(s) => s
    case Obj(_) => "[object Object]"
    case Arr(items) =>
      JoinComma(seq(|items|, i requires 0 <= i < |items| =>
        if Nullish(items[i]) then "" else ToStr(items[i])))
  }

  /** The index keys "0" .. "n-1" of an array or string of length n. */
  function IndexKeys(n: nat): set<string> {
    set i | 0 <= i < n :: NatToString(i)
  }

  /** `Object.keys(v)` as a set, for a non-nullish `v`. */
  function ObjectKeys(v: Value): set<string> {
    match v
    case Obj(props) => props.Keys
    case Arr(items) => IndexKeys(|items|)
    case Str(s) => IndexKeys(|s|)
    case _ => {}
  }
}
