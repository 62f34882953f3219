/** The outcome of a call to the text-generation service. The call itself
    (network I/O, prompt text, provider choice) is outside the model; what the
    services do with its outcome is inside it. */
module Upstream {

  /** A chat call that either threw or returned the reply's text. */
  datatype Reply = CallFailed | Replied(content: string)

  /** A chat call whose reply is read with `JSON.parse`: the call threw, the
      parse threw (or the parsed value had the wrong shape), or it produced a
      value. The parse is abstract: the model receives its result. */
  datatype Parsed<T> = RequestFailed | Unparsable | Decoded(value: T)
}
