/**
 * Optional values, results and the Java exceptions the modelled code raises.
 */
module Wrappers {

  datatype Option<T> = None | Some(value: T)

  /** The exceptions of the modelled code that callers can observe. */
  datatype Exception =
    | IllegalArgument        // java.lang.IllegalArgumentException
    | IllegalState           // java.lang.IllegalStateException
    | NullPointer            // java.lang.NullPointerException
    | NoSuchElement          // java.util.NoSuchElementException
    | ClassCast              // java.lang.ClassCastException
    | PullParserFailure      // XmlObjectPullParserException
    | SerializerFailure      // XmlObjectSerializer.SerializerException
    | StackOverflow          // java.lang.StackOverflowError

  datatype Result<T> = Success(value: T) | Failure(error: Exception)
}
