/** Values shared by every part of the model: the optional value that stands
    for a C# null, the outcome of an operation that may throw, and the errors
    the client layer raises. */
module Outcomes {

  /** A C# reference or nullable value: `None` is `null`. */
  datatype Option<+T> = None | Some(value: T)

  /** The errors this layer raises or lets through. */
  datatype Error =
      /** `EnsureSuccessStatusCode` of the classic SDK: status outside 200..299. */
    | StatusError(status: int, reason: string)
      /** `CosmosException` thrown by the azuredata factory, with its message text. */
    | CosmosException(status: int, reason: string, message: string)
      /** `ArgumentNullException` naming the offending parameter. */
    | ArgumentNull(paramName: string)
      /** A serializer could not decode the payload. */
    | SerializationError(detail: string)
      /** A member was used through a reference that has been set to null. */
    | NullReference(member: string)

  /** The result of an operation that either returns a value or throws. */
  datatype Result<+T> = Ok(value: T) | Err(error: Error)

  /** The result of a check that either passes or throws. */
  datatype Outcome = Pass | Fail(error: Error)
}
