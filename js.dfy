/**
 * The JavaScript value domain the rest of the model works on.
 *
 * Futures are modelled as already-settled (or never-settling) promise
 * states, numbers as unbounded integers, and objects as maps from keys to
 * values (so key order and object identity are not modelled).
 */
module Js {

  datatype Option<T> = None | Some(value: T)

  datatype Value =
    | Undefined
    | Null
    | Bool(b: bool)
    | Num(n: int)
    | Str(s: string)
    | Arr(items: seq<Value>)
    | Obj(props: map<string, Value>)
    | Promise(state: PromiseState)
    | Error(error: ErrorObject)

  /** The state a promise has reached; `Pending` is one that never settles. */
  datatype PromiseState = Fulfilled(value: Value) | Rejected(reason: Value) | Pending

  /** Which constructor built an error object: what `instanceof` can tell apart. */
  datatype ErrorClass = PlainError | TypeError | ApiErrorClass

  /** An `Error` instance; `code` is only set on an `ApiError` (otherwise `Undefined`). */
  datatype ErrorObject = ErrorObject(cls: ErrorClass, name: string, message: string, stack: string, code: Value)

  /** How a synchronous call ends: it returns a value or throws one. */
  datatype Completion<T> = Normal(value: T) | Abrupt(thrown: Value)

  /** JavaScript truthiness (`NaN` is not modelled: numbers are integers). */
  predicate Truthy(v: Value) {
    match v
    case Undefined => false
    case Null => false
    case Bool(b) => b
    case Num(n) => n != 0
    case Str(s) => s != ""
    case _ => true
  }

  /** The state of `Promise.resolve(v)`: a promise is adopted, anything else fulfils. */
  function Adopt(v: Value): PromiseState {
    if v.Promise? then v.state else Fulfilled(v)
  }

  /** A plain `Error` built by the runtime with the given message. */
  function PlainErrorValue(message: string, stack: string): Value {
    Error(ErrorObject(PlainError, "Error", message, stack, Undefined))
  }

  /** A `TypeError` thrown by the runtime (its stack is not modelled). */
  function TypeErrorValue(message: string): Value {
    Error(ErrorObject(TypeError, "TypeError", message, "", Undefined))
  }

  /** The `TypeError` thrown when reading property `key` of `undefined` or `null`. */
  function ReadOfNothing(v: Value, key: string): Value
    requires v.Undefined? || v.Null?
  {
    TypeErrorValue("Cannot read properties of " + (if v.Undefined? then "undefined" else "null")
                   + " (reading '" + key + "')")
  }

  /** Reading `v[key]`: throws on `undefined`/`null`, finds own keys of a plain object,
      and is `undefined` everywhere else (properties of primitives, arrays and errors
      are not modelled). */
  function Property(v: Value, key: string): (r: Completion<Value>)
    ensures r.Abrupt? <==> v.Undefined? || v.Null?
  {
    match v
    case Undefined => Abrupt(ReadOfNothing(v, key))
    case Null => Abrupt(ReadOfNothing(v, key))
    case Obj(props) => Normal(if key in props then props[key] else Undefined)
    case _ => Normal(Undefined)
  }

  function Digit(d: nat): char
    requires d < 10
  {
    "0123456789"[d]
  }

  function Decimal(n: nat): string
    decreases n
  {
    if n < 10 then [Digit(n)] else Decimal(n / 10) + [Digit(n % 10)]
  }

  function NumberToString(n: int): string {
    if n < 0 then "-" + Decimal(-n) else Decimal(n)
  }

  /** `String(v)`, as the runtime converts a message or a tested value. */
  function ToJsString(v: Value): string {
    match v
    case Undefined => "undefined"
    case Null => "null"
    case Bool(b) => if b then "true" else "false"
    case Num(n) => NumberToString(n)
    case Str(s) => s
    case Arr(items) => JoinElements(items)
    case Obj(_) => "[object Object]"
    case Promise(_) => "[object Promise]"
    case Error(e) => if e.message == "" then e.name else e.name + ": " + e.message
  }

  /** `Array.prototype.join(",")`: `undefined` and `null` elements become empty. */
  function JoinElements(items: seq<Value>): string {
    if items == [] then ""
    else
      (if items[0].Undefined? || items[0].Null? then "" else ToJsString(items[0]))
      + (if |items| > 1 then "," + JoinElements(items[1..]) else "")
  }
}
