/**
 * What a call to a remote service (the language model, the translator)
 * produced. The services themselves are not modelled: their answers are
 * parameters of the operations that use them.
 */
module Remote {
  /** The reply text, or the exception the call raised, as its message. */
  datatype Reply = Replied(text: string) | Raised(message: string)
}
