/** JavaScript values and exceptions as the server's modules see them.

    `Value` is what `JSON.parse` produces, plus `undefined` for a missing
    property. Numbers are integers: fractions, NaN and infinities are not
    modelled. An exception raised by the modelled code is a `JsError`. */
module Js {

  datatype Option<+T> = None | Some(value: T)

  datatype Result<+T, +E> = Ok(value: T) | Err(error: E)

  /** The built-in error constructors the modelled code ends up throwing. */
  datatype ErrorKind = Error | TypeError | ReferenceError

  datatype JsError = JsError(kind: ErrorKind, message: string)

  function KindName(k: ErrorKind): string
  {
    match k
    case Error => "Error"
    case TypeError => "TypeError"
    case ReferenceError => "ReferenceError"
  }

  /** What a rejected promise carries, as far as the server reads it: the
      error's `type` property, its `message` and its `stack`. */
  datatype Rejection = Rejection(errType: Value, message: Value, stack: Value)

  /** An error the modelled code throws: built-in errors have no `type`, and
      their stack trace starts with the kind and the message (the frames
      that follow are not modelled). */
  function RejectionOf(e: JsError): (r: Rejection)
    ensures r.errType == Undefined && r.message == Str(e.message)
    ensures r.stack.Str? && r.stack.s == KindName(e.kind) + ": " + e.message
  {
    Rejection(Undefined, Str(e.message), Str(KindName(e.kind) + ": " + e.message))
  }

  datatype Value =
    | Undefined
    | Null
    | Bool(b: bool)
    | Num(n: int)
    | Str(s: string)
    | Arr(items: seq<Value>)
    | Obj(fields: map<string, Value>)

  /** JavaScript truthiness: `undefined`, `null`, `false`, `0` and `''` are falsy. */
  predicate Truthy(v: Value)
  {
    match v
    case Undefined => false
    case Null => false
    case Bool(b) => b
    case Num(n) => n != 0
    case Str(s) => s != ""
    case Arr(_) => true
    case Obj(_) => true
  }

  /** `a || b` */
  function Or(a: Value, b: Value): Value
  {
    if Truthy(a) then a else b
  }

  /** A destructuring default: it applies only to a missing (undefined)
      value, not to other falsy ones. */
  function Default(v: Value, d: Value): (r: Value)
    ensures v.Undefined? ==> r == d
    ensures !v.Undefined? ==> r == v
  {
    if v.Undefined? then d else v
  }

  /** A property of a parsed object; a missing key reads as `undefined`. */
  function Field(m: map<string, Value>, key: string): Value
  {
    if key in m then m[key] else Undefined
  }

  /** `v.key`: reading a property of `null` or `undefined` throws a TypeError.
      None of the keys the server reads is a built-in property of a string,
      number, boolean or array, so on those it reads `undefined`. */
  function Get(v: Value, key: string): (r: Result<Value, JsError>)
    ensures r.Err? <==> v.Undefined? || v.Null?
    ensures v.Obj? ==> r == Ok(Field(v.fields, key))
  {
    match v
    case Undefined => Err(JsError(TypeError, "Cannot read properties of undefined (reading '" + key + "')"))
    case Null => Err(JsError(TypeError, "Cannot read properties of null (reading '" + key + "')"))
    case Obj(m) => Ok(Field(m, key))
    case _ => Ok(Undefined)
  }

  /** `typeof v` */
  function TypeOf(v: Value): string
  {
    match v
    case Undefined => "undefined"
    case Bool(_) => "boolean"
    case Num(_) => "number"
    case Str(_) => "string"
    case _ => "object"
  }

  /** The argument list `child_process.spawn(cmd, args, options)` runs
      with: an array's elements in order, none for a missing `args`, and
      none for an object, which spawn takes as its options instead; any
      other `args` throws before anything is spawned. */
  function SpawnArgs(args: Value): (r: Result<seq<Value>, JsError>)
    ensures r.Err? <==> args.Bool? || args.Num? || args.Str?
    ensures r.Err? ==> r.error.kind == TypeError
    ensures args.Arr? ==> r == Ok(args.items)
    ensures r.Ok? && !args.Arr? ==> r.value == []
  {
    match args
    case Arr(items) => Ok(items)
    case Undefined => Ok([])
    case Null => Ok([])
    case Obj(_) => Ok([])
    case _ => Err(JsError(TypeError, "The \"args\" argument must be of type object. Received type " + TypeOf(args)))
  }

  /** `spawn` accepts a missing or null `cwd` (the server's own directory)
      and a string; any other `cwd` throws. */
  function SpawnCwd(cwd: Value): (r: Result<Value, JsError>)
    ensures r.Ok? <==> cwd.Undefined? || cwd.Null? || cwd.Str?
    ensures r.Ok? ==> r.value == cwd
    ensures r.Err? ==> r.error.kind == TypeError
  {
    if cwd.Undefined? || cwd.Null? || cwd.Str? then Ok(cwd)
    else Err(JsError(TypeError, "The \"options.cwd\" property must be of type string. Received type " + TypeOf(cwd)))
  }

  function DigitChar(d: nat): char
    requires d < 10
  {
    "0123456789"[d]
  }

  /** Decimal rendering of a natural number, most significant digit first. */
  function NatToString(n: nat): (r: string)
    ensures |r| >= 1
    ensures forall i :: 0 <= i < |r| ==> '0' <= r[i] <= '9'
  {
    if n < 10 then [DigitChar(n)] else NatToString(n / 10) + [DigitChar(n % 10)]
  }

  /** `String(n)` for an integer. */
  function IntToString(n: int): string
  {
    if n < 0 then "-" + NatToString(-n) else NatToString(n)
  }

  /** Template-literal conversion `${v}`. An array renders its elements
      joined by ",", with `null` and `undefined` elements rendered empty. */
  function ToStr(v: Value): string
    decreases v, 1
  {
    match v
    case Undefined => "undefined"
    case Null => "null"
    case Bool(b) => if b then "true" else "false"
    case Num(n) => IntToString(n)
    case Str(s) => s
    case Arr(items) => JoinItems(items, v)
    case Obj(_) => "[object Object]"
  }

  function JoinItems(items: seq<Value>, ghost parent: Value): string
    requires forall i :: 0 <= i < |items| ==> items[i] < parent
    decreases parent, 0, |items|
  {
    if |items| == 0 then ""
    else
      var first := if items[0].Undefined? || items[0].Null? then "" else ToStr(items[0]);
      if |items| == 1 then first else first + "," + JoinItems(items[1..], parent)
  }
}
