/** Values an observer passes around without looking inside them. */
module Tokens {

  datatype Option<+T> = None | Some(value: T)

  /** A Go `error` value, known only by identity. */
  datatype Error = Error(id: nat)

  /** An item of the stream (a Go `interface{}`): a plain value, or a value
      whose dynamic type implements `error`. */
  datatype Item = Value(id: nat) | ErrorValue(err: Error)

  /** A handler closure: the package's no-op default for its slot, or one
      supplied by the caller. */
  datatype Handler = NoOp | Func(id: nat)

  /** One invocation of a handler, as recorded in an observer's ghost log. */
  datatype Call =
    | NextCall(handler: Handler, item: Item)
    | ErrCall(handler: Handler, err: Error)
    | DoneCall(handler: Handler)
  {
    /** The error and done handlers end a stream; the next handler does not. */
    predicate IsTerminal() { ErrCall? || DoneCall? }
  }

  /** The channel through which an upstream Observable feeds an observer. */
  datatype ItemChannel = ItemChannel(id: nat)
}
