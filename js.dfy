/** The JavaScript values the cache-key code observes: nullable results,
    thrown TypeErrors, and the property values of plain objects. */
module Js {

  /** `T | null`. */
  datatype Option<+T> = None | Some(value: T) {
    function GetOr(default: T): T {
      match this
      case Some(v) => v
      case None => default
    }
  }

  /** The outcome of evaluating an expression that may throw a TypeError
      (reading a property of `undefined`, calling `undefined`). */
  datatype Completion<+T> = Normal(value: T) | TypeError {
    predicate IsFailure() {
      TypeError?
    }

    function PropagateFailure<U>(): Completion<U>
      requires TypeError?
    {
      TypeError
    }

    function Extract(): T
      requires Normal?
    {
      value
    }
  }

  /** A property value of a plain object such as `parent` or `args`. Strings
      are what the key code looks for; `null` is kept apart because the
      `=== null` test sees it; any other value is kept as the text a template
      literal renders it as. */
  datatype Value = Str(s: string) | Null | NonString(shown: string)

  /** A plain object with string keys (`Record<string, unknown>`). Properties
      inherited from `Object.prototype` are not modelled. */
  type Record = map<string, Value>

  /** What a property read `obj[key]` yields: `undefined` for an absent key,
      otherwise the stored value. */
  datatype Ident = Undefined | Defined(v: Value) {
    /** The `=== null` test. */
    predicate IsNull() {
      this == Defined(Null)
    }
  }

  const NullIdent: Ident := Defined(Null)

  /** The property read `obj[key]`. */
  function Get(obj: Record, key: string): Ident {
    if key in obj then Defined(obj[key]) else Undefined
  }

  /** A `string | null` as a JavaScript value. */
  function FromNullable(o: Option<string>): Ident {
    match o
    case None => NullIdent
    case Some(s) => Defined(Str(s))
  }

  /** How a template literal `${x}` renders the value. */
  function Render(x: Ident): string {
    match x
    case Undefined => "undefined"
    case Defined(Str(s)) => s
    case Defined(Null) => "null"
    case Defined(NonString(shown)) => shown
  }

  /** `JSON.stringify` on an argument object: a foreign call, so every
      operation that needs it takes it as a parameter. */
  type Serializer = Record -> string
}
