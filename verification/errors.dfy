/** Go `error` values as the client builds them with `fmt.Errorf`. */
module Errors {

  /** A `%w` wrap of a cause under a short context, or a plain formatted message. */
  datatype Error = Wrapped(context: string, cause: string) | Plain(text: string)

  /** `err.Error()`: a wrap reads "context: cause". */
  function Message(e: Error): string
  {
    match e
    case Wrapped(context, cause) => context + ": " + cause
    case Plain(text) => text
  }
}
