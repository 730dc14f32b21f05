/** Values that stand for Java's `null` and for the exceptions the adapter raises. */
module Results {

  /** A Java reference that may be `null`: `None` is `null`. */
  datatype Option<T> = None | Some(value: T)

  /** The unchecked exceptions the adapter's own code can raise. */
  datatype JavaException =
    | UnsupportedOperation  // java.lang.UnsupportedOperationException
    | NullPointer           // java.lang.NullPointerException

  /** How a `void` Java method ends: it returns normally or throws. */
  datatype Outcome = Pass | Fail(error: JavaException)
}
