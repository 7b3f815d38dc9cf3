/** Shared result types and the crate's error enum (src/error.rs, with the
    `EmptyStreamID` and `Decode` variants that the stream-name and consumer
    code construct). */
module Errors {

  datatype Option<+T> = None | Some(value: T)

  datatype Result<+T, +E> = Ok(value: T) | Err(error: E)

  /** An error reported by the JSON decoder; its text is not interpreted. */
  datatype JsonError = JsonError(message: string)

  /** Every way an operation of the core can fail. */
  datatype Error =
    | Database(message: string)           // a failure reported by the message store
    | DeserializeData(cause: JsonError)   // message data did not decode
    | DeserializeMetadata(cause: JsonError)
    | EmptyStreamName                     // Category::new with an empty entity name
    | EmptyStreamID                       // an empty id or an empty id component
    | Decode(expected: string)            // a value of a known shape did not decode
}
