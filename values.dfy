/**
 * Ruby-level values the client handles: a parsed JSON document, Ruby's notion of
 * truthiness, the `[]` operator as the client applies it to parsed responses, and
 * the exceptions the client raises, written as an explicit outcome value.
 */
module Values {

  /** A value produced by JSON.parse. Numbers are kept as integers. */
  datatype Json =
    | Null
    | Bool(b: bool)
    | Num(n: int)
    | Str(s: string)
    | Arr(items: seq<Json>)
    | Obj(fields: map<string, Json>)

  /** In Ruby only nil and false are falsy: 0, "" and {} are all true. */
  predicate Truthy(v: Json) {
    !v.Null? && v != Bool(false)
  }

  /** Whether `key` occurs in `s` as a contiguous substring. */
  predicate Contains(s: string, key: string)
    decreases |s|
  {
    |key| <= |s| && (s[..|key|] == key || Contains(s[1..], key))
  }

  /** Exception classes that can leave an operation of the client. */
  datatype ErrorClass =
    | CreateOrderException
    | CancelOrderException
    | WithdrawalException
    | RuntimeError      // a bare `raise "text"`
    | NoMethodError     // `[]` sent to nil, true or false
    | TypeError         // `[]` with a String key on an Array or Integer; `raise` of a non-String
    | TransportError    // an HTTP failure or an unparsable body, from the transport layer

  /**
   * The message an exception carries. `Text` is a Ruby String; `Shown(v)` is the
   * text `v.to_s` of a non-String value (a Hash, a number, ...), whose exact
   * rendering belongs to Ruby; `Builtin` is a message Ruby composes itself for its
   * own NoMethodError and TypeError.
   */
  datatype Message = Text(s: string) | Shown(v: Json) | Builtin

  datatype Raised = Raised(cls: ErrorClass, message: Message)

  /** Either the value an operation returns or the exception it raises. */
  datatype Outcome<+T> = Ok(value: T) | Err(error: Raised)

  /** The message an exception built from value `v` carries (`Exception.new(v).message`). */
  function MessageOf(v: Json): (m: Message)
    ensures v.Str? ==> m == Text(v.s)
    ensures !v.Str? ==> m == Shown(v)
  {
    if v.Str? then Text(v.s) else Shown(v)
  }

  /**
   * Ruby's `v[key]` with a String key on a parsed JSON value: a Hash answers its
   * entry or nil, a String answers the key itself when it occurs in it or nil,
   * an Array or an Integer refuses a String index, nil and booleans have no `[]`.
   */
  function Index(v: Json, key: string): (r: Outcome<Json>)
    ensures v.Obj? ==> r.Ok? && r.value == (if key in v.fields then v.fields[key] else Null)
    ensures r.Ok? <==> v.Obj? || v.Str?
    ensures (v.Null? || v.Bool?) ==> r == Err(Raised(NoMethodError, Builtin))
    ensures (v.Arr? || v.Num?) ==> r == Err(Raised(TypeError, Builtin))
  {
    match v
    case Obj(m) => Ok(if key in m then m[key] else Null)
    case Str(s) => Ok(if Contains(s, key) then Str(key) else Null)
    case Arr(_) => Err(Raised(TypeError, Builtin))
    case Num(_) => Err(Raised(TypeError, Builtin))
    case Null => Err(Raised(NoMethodError, Builtin))
    case Bool(_) => Err(Raised(NoMethodError, Builtin))
  }

  /**
   * `raise v` with a value: a String becomes a RuntimeError carrying it; anything
   * else (nil, a Hash, a number) is not an exception and Ruby raises a TypeError.
   */
  function RaiseValue(v: Json): (r: Outcome<Json>)
    ensures r.Err?
    ensures r.error.cls == RuntimeError <==> v.Str?
    ensures v.Str? ==> r.error.message == Text(v.s)
    ensures !v.Str? ==> r == Err(Raised(TypeError, Builtin))
  {
    if v.Str? then Err(Raised(RuntimeError, Text(v.s))) else Err(Raised(TypeError, Builtin))
  }

  /**
   * `rescue => e; raise cls.new(e.message)`: every exception raised in the guarded
   * code leaves as `cls`, with the message it had.
   */
  function Rescue<T>(cls: ErrorClass, o: Outcome<T>): (r: Outcome<T>)
    ensures o.Ok? ==> r == o
    ensures o.Err? ==> r.Err? && r.error.cls == cls && r.error.message == o.error.message
  {
    match o
    case Ok(_) => o
    case Err(e) => Err(Raised(cls, e.message))
  }
}
