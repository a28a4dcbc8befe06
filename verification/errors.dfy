/** The failures the cipher can report, each standing for the Java exception the program throws. */
module Errors {
  datatype Error =
    | InvalidKeyLength    // IllegalArgumentException from the constructor: the key is not 16 bytes
    | InvalidBlockLength  // IllegalArgumentException from decrypt: the length is not a multiple of 16
    | MalformedPadding    // IllegalArgumentException from removePadding: the count exceeds the data
    | IndexOutOfBounds    // ArrayIndexOutOfBoundsException: an array is read past its end

  /** The value a Java method returns, or the exception it throws. */
  datatype Result<T> = Success(value: T) | Failure(error: Error)
}
