/** Shapes shared by every route handler: optional values, the outcome of a
    call into a collaborator the model cannot see, and the JSON reply. */
module Outcomes {

  datatype Option<+T> = None | Some(value: T)

  /** What a call into storage, the database, Stripe or Replicate did: it
      returned a value or it threw an error carrying a message. */
  datatype Call<+T> = Returns(value: T) | Throws(message: string)

  /** The JSON body of a handler's reply. */
  datatype Body =
    | Error(message: string)
    | CheckoutStarted(sessionId: string, url: string)
    | Received
    | Generated(outputImageUrl: string, projectId: string)
    | Deleted

  /** An HTTP reply: status code and JSON body. */
  datatype Reply = Reply(status: nat, body: Body)

  /** JavaScript truthiness of a value that is a string or absent:
      `undefined`, `null` and the empty string are all falsy. */
  predicate Present(s: Option<string>) {
    s.Some? && s.value != ""
  }
}
