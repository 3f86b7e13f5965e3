/**
 * The dynamically typed values that the dashboard's JavaScript and Python
 * code passes around (request bodies, form models, API responses), with the
 * few language rules the rest of the model depends on: property reads,
 * truthiness in each language, JavaScript's String() conversion and its
 * binary `+`.
 */
module Json {

  /** A JavaScript (or Python) value. Numbers are integers; `NaN` is the one
      non-integer number the code can produce (from `undefined + 1`). */
  datatype Value =
    | Undefined
    | Null
    | Bool(b: bool)
    | Num(n: int)
    | NaN
    | Str(s: string)
    | Arr(items: seq<Value>)
    | Obj(fields: map<string, Value>)

  /** A plain object or dict, seen as its own properties. */
  type Object = map<string, Value>

  /** `o[key]` in JavaScript: a missing property reads as `undefined`. */
  function Get(o: Object, key: string): (v: Value)
    ensures key in o ==> v == o[key]
    ensures key !in o ==> v == Undefined
  {
    if key in o then o[key] else Undefined
  }

  /** `null` and `undefined`: the values whose properties cannot be read. */
  predicate IsNullish(v: Value)
  {
    v.Undefined? || v.Null?
  }

  /** `v.key` in JavaScript: `None` where reading a property of `null` or
      `undefined` throws a TypeError; an object yields its property, any
      other value `undefined`. */
  function Prop(v: Value, key: string): (r: Option<Value>)
    ensures r.None? <==> IsNullish(v)
    ensures v.Obj? ==> r == Some(Get(v.fields, key))
  {
    match v
    case Undefined => None
    case Null => None
    case Obj(fields) => Some(Get(fields, key))
    case _ => Some(Undefined)
  }

  /** JavaScript truthiness: `undefined`, `null`, `false`, `0`, `NaN` and `''`
      are falsy; every array and object is truthy, even an empty one. */
  predicate Truthy(v: Value)
  {
    match v
    case Undefined => false
    case Null => false
    case Bool(b) => b
    case Num(n) => n != 0
    case NaN => false
    case Str(s) => s != ""
    case Arr(_) => true
    case Obj(_) => true
  }

  /** Python truthiness: `None`, `False`, `0`, `''`, `[]` and `{}` are falsy. */
  predicate PyTruthy(v: Value)
  {
    match v
    case Undefined => false
    case Null => false
    case Bool(b) => b
    case Num(n) => n != 0
    case NaN => true
    case Str(s) => s != ""
    case Arr(items) => items != []
    case Obj(fields) => fields != map[]
  }

  /** Python's `d.get(key, None)`. */
  function PyGet(d: Object, key: string): (v: Value)
    ensures key !in d ==> v == Null
  {
    if key in d then d[key] else Null
  }

  /** A Python dictionary lookup `d[key]`: the value, or the KeyError it raises. */
  datatype PyResult<T> = Ok(value: T) | KeyError(key: string)

  /** Python's `d[key]`. */
  function PyIndex(d: Object, key: string): (r: PyResult<Value>)
    ensures r.Ok? <==> key in d
    ensures r.Ok? ==> r.value == d[key]
    ensures r.KeyError? ==> r.key == key
  {
    if key in d then Ok(d[key]) else KeyError(key)
  }

  function DigitChar(d: nat): (c: char)
    requires d < 10
    ensures '0' <= c <= '9'
  {
    "0123456789"[d]
  }

  /** The decimal digits of a natural number, without leading zeros. */
  function NatToDecimal(n: nat): (s: string)
    ensures |s| >= 1
    ensures forall i :: 0 <= i < |s| ==> '0' <= s[i] <= '9'
  {
    if n < 10 then [DigitChar(n)] else NatToDecimal(n / 10) + [DigitChar(n % 10)]
  }

  /** JavaScript `String(v)` for the values the model uses. An array is
      joined with ',' and its `null`/`undefined` elements become ''. */
  function ToStr(v: Value): string
  {
    match v
    case Undefined => "undefined"
    case Null => "null"
    case Bool(b) => if b then "true" else "false"
    case Num(n) => if n < 0 then "-" + NatToDecimal(-n) else NatToDecimal(n)
    case NaN => "NaN"
    case Str(s) => s
    case Arr(items) => JoinValues(items, ",")
    case Obj(_) => "[object Object]"
  }

  /** `Array.prototype.join(sep)`: `null` and `undefined` elements become ''. */
  function JoinValues(items: seq<Value>, sep: string): string
  {
    if items == [] then ""
    else
      var head := if items[0].Undefined? || items[0].Null? then "" else ToStr(items[0]);
      if |items| == 1 then head else head + sep + JoinValues(items[1..], sep)
  }

  /** `Array.prototype.join(sep)` over strings. */
  function Join(parts: seq<string>, sep: string): (r: string)
    ensures |parts| == 1 ==> r == parts[0]
  {
    if parts == [] then ""
    else if |parts| == 1 then parts[0]
    else parts[0] + sep + Join(parts[1..], sep)
  }

  /** The number a primitive converts to under JavaScript's `+`, or None for NaN. */
  function ToNumber(v: Value): Option<int>
    requires !IsStringLike(v)
  {
    match v
    case Null => Some(0)
    case Bool(b) => Some(if b then 1 else 0)
    case Num(n) => Some(n)
    case _ => None
  }

  /** Operands that make JavaScript's `+` concatenate. */
  predicate IsStringLike(v: Value)
  {
    v.Str? || v.Arr? || v.Obj?
  }

  /** JavaScript's binary `a + b`. */
  function Plus(a: Value, b: Value): (r: Value)
    ensures IsStringLike(a) || IsStringLike(b) ==> r == Str(ToStr(a) + ToStr(b))
    ensures a.Num? && b.Num? ==> r == Num(a.n + b.n)
  {
    if IsStringLike(a) || IsStringLike(b) then Str(ToStr(a) + ToStr(b))
    else
      match (ToNumber(a), ToNumber(b))
      case (Some(x), Some(y)) => Num(x + y)
      case _ => NaN
  }

  datatype Option<T> = None | Some(value: T)
}
