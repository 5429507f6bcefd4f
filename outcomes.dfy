/** Results of the calls the core makes into code it does not own (the Gemini
    client, the embedding client, the Pinecone index, the PDF loader), and
    JavaScript's "maybe absent" values. */
module Outcomes {

  /** A call into an external service either resolves with a value or
      rejects (throws) with a message. */
  datatype Outcome<+T> = Ok(value: T) | Err(message: string)

  /** A value that may be `undefined`. */
  datatype Option<+T> = None | Some(value: T) {
    function GetOr(default: T): T {
      match this
      case Some(v) => v
      case None => default
    }
  }
}
