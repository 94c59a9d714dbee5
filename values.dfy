/**
 * Values the pipeline engine handles: JavaScript values as far as the engine
 * inspects them, the two message enums, point configuration and the errors the
 * engine throws.
 */
module Values {

  datatype Option<+T> = None | Some(value: T) {
    /** `a || b` on an optional reference: this one if present, else the other. */
    function OrElse(other: Option<T>): Option<T> {
      if Some? then this else other
    }
  }

  /** Direction of travel (`Types` in the source: REQUEST = 1, RESPONSE = 2). */
  datatype Flow = Request | Response

  /** The stage flag (`Stages`: TRANSIT = 1, PROCESS = 2); Unset is a message whose
      `stage` property was never assigned. */
  datatype Stage = Unset | Transit | Process

  /** The JavaScript values a message can carry as `ref` or a context can hold.
      `Crumb` is the `{point, flow, stage}` record a trace message collects
      (the first one, made by `trace`, has no stage: Unset); `Failure` is an
      `Error` object with its message text; `Func` is a function object;
      `Records` is the `$points` registry object of context `context`; `Obj`
      is any other object. */
  datatype Value =
    | Undefined
    | Null
    | Bool(b: bool)
    | Num(n: int)
    | Str(s: string)
    | List(items: seq<Value>)
    | Crumb(point: nat, flow: Flow, stage: Stage)
    | Failure(text: string)
    | Func(id: nat)
    | Records(context: nat)
    | Obj(id: nat)

  /** JavaScript truthiness (NaN is not modelled). */
  predicate Truthy(v: Value) {
    match v
    case Undefined => false
    case Null => false
    case Bool(b) => b
    case Num(n) => n != 0
    case Str(s) => s != ""
    case _ => true
  }

  /** Default time to live of a message, in milliseconds. */
  const TTL: int := 1000

  /** The configuration object given with a handler to `use`; only its `ttl`
      key is read by the engine. */
  datatype Config = Config(ttl: Option<int>)

  /** `this.config && this.config.ttl || TTL`: a missing or zero ttl falls back
      to the default. */
  function TtlSpan(config: Option<Config>): int {
    if config.Some? && config.value.ttl.Some? && config.value.ttl.value != 0
    then config.value.ttl.value
    else TTL
  }

  /** What the engine throws synchronously. */
  datatype Error =
    | MissingContext                         // "Context is missing ..."
    | DuplicateHook(key: string, point: nat) // "The hook has already been registered ..."
    | StreamClosed                           // "The stream has been closed already"
    | NoFactory(name: string)                // "Cannot find factory for ..."
    | TypeError                              // a property read on undefined
    | Thrown(ref: Value)                     // `throw message.ref`

  /** A result that is either a value or a thrown error. */
  datatype Outcome<+T> = Ok(value: T) | Fail(error: Error)
}
