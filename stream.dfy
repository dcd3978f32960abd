/**
 * What the streaming JSON decoder produces, taken as input: the decoder itself
 * (`encoding/json`) is not part of this model.  A response body is read as
 * `dec.Token()` for the opening bracket followed by one `dec.Decode` per element
 * while `dec.More()` holds.
 */
module Stream {

  /** One element of the array: decoded into the record type, or a decode error. */
  datatype Item<T> = Decoded(value: T) | Malformed

  /** A body whose first token cannot be read, or the elements the decoder yields. */
  datatype Body<T> = Unreadable | Array(items: seq<Item<T>>)

  /** The answer to one HTTP GET: a transport error, or a body. */
  datatype Response<T> = FetchFailed | Fetched(body: Body<T>)
}
