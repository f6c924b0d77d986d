/** Value types shared by every part of the transport model. */
module Common {

  /** One octet of a GATT value or of an APDU. */
  newtype Byte = x: int | 0 <= x < 256

  /** A Kotlin nullable value. */
  datatype Option<+T> = None | Some(value: T)

  /** A value or the exception that the Kotlin code throws instead of returning it. */
  datatype Result<+T> = Success(value: T) | Failure(exception: KotlinException)

  /** The runtime exceptions that the modelled code can raise. */
  datatype KotlinException =
    | NullPointer          // `!!` on null
    | NoSuchElement        // `first()` / `removeFirst()` on an empty collection
    | NumberFormat         // `toInt(16)` on text that is empty or does not fit an Int
    | IndexOutOfBounds     // `substring` past the end of the text
    | IllegalState(message: string)
    | UninitializedProperty // a `lateinit var` read before its first assignment

  /** Completion of a callback or void method: normal return or a thrown exception. */
  datatype Outcome = Completed | Threw(exception: KotlinException)
}
