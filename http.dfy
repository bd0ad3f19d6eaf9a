/** What request handlers and middleware hand back to the HTTP layer. */
module Http {

  /** The authorization scheme both header parsers look for, trailing space included. */
  const BearerPrefix: string := "Bearer "

  /** A handler's response: a status with data (`success: true`), or an error
      status with its message (`success: false`). */
  datatype Reply<T> = Ok(status: nat, data: T) | Error(status: nat, message: string)

  /** A middleware's decision: respond with an error and stop, or call
      `next()`, passing `value` on to the rest of the request. */
  datatype Guard<T> = Reject(status: nat, message: string) | Proceed(value: T)
}
