/**
 * The values that flow through diagnostics channels: channel names and the
 * property keys they are stored under, subscriptions, published payloads and
 * the completions of callbacks.
 */
module Values {

  datatype Option<+T> = None | Some(value: T)

  /** The only error the channel functions raise: an argument of the wrong type. */
  datatype Error = InvalidArgType

  datatype Result<+T> = Ok(value: T) | Err(error: Error)

  /** An arbitrary JavaScript value, known only by its identity. */
  datatype Value = Undefined | Object(id: nat)

  /**
   * The argument given where a channel name is expected. `Other` stands for
   * any value that is neither a string nor a symbol; `key` is the string it
   * is coerced to when it is used to index an object.
   */
  datatype Name = Str(s: string) | Sym(id: nat) | Other(key: string)

  /** A property key of the registry objects: strings and symbols are distinct. */
  datatype Key = StringKey(s: string) | SymbolKey(id: nat)

  /** The property key that indexing an object with `name` uses. */
  function KeyOf(name: Name): Key
  {
    match name
    case Str(s) => StringKey(s)
    case Sym(id) => SymbolKey(id)
    case Other(key) => StringKey(key)
  }

  /** Only strings and symbols may name a new channel. */
  predicate IsChannelName(name: Name)
  {
    name.Str? || name.Sym?
  }

  /**
   * A value passed as a subscriber, compared by identity (all three fields).
   * `isFunction` says whether it is callable; `failure` is the error it
   * throws when invoked, if it throws.
   */
  datatype Subscription = Subscription(id: nat, isFunction: bool, failure: Option<Value>)

  /** One invocation `subscriber(data, name)` made by a publish. */
  datatype Delivery = Delivery(subscriber: Subscription, data: Value, name: Name)

  /** How a callback ends: it returns a value or throws one. */
  datatype Completion = Normal(value: Value) | Abrupt(error: Value)
}
