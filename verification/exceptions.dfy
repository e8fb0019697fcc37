/** The exceptions the modelled code raises, catches or wraps. */
module Exceptions {

  /** `java.io.IOException` raised by a writer; it carries the text whose write failed. */
  datatype IOException = IOException(unwritten: string)

  /** An exception caught while resolving or registering the EIS interaction class. */
  datatype Cause =
    | ClassNotFoundException(className: string)
    | RuntimeException(message: string)

  /** `ValidationException`, built by its two factory methods `fileError` and `fatalErrorOccurred`. */
  datatype ValidationException =
    | FileError(ioCause: IOException)
    | FatalErrorOccurred(cause: Cause)
}
