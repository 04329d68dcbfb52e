/**
 * The part of Java's exception hierarchy that the wrapping rule tells apart.
 *
 * Java exceptions are objects; here they are values. The `id` field keeps
 * distinct exception objects apart when they carry equal messages, so that
 * equality of `Throwable` values stands for "the same object".
 */
module Throwables {

  /** A Java reference that may be `null`. */
  datatype Nullable<+T> = Null | Ref(get: T)

  /** `Throwable.getMessage()`, which is `null` when no message was given. */
  type Message = Nullable<string>

  datatype Throwable =
      /** an `Exception` that is not a `RuntimeException` */
    | Checked(id: nat, message: Message)
      /** a `RuntimeException` raised by user code */
    | Runtime(id: nat, message: Message)
      /** the library's wrapper: a `RuntimeException` holding a checked cause */
    | Unchecked(cause: Throwable, message: Message)
      /** a `Throwable` that is not an `Exception` (an `Error`) */
    | Error(id: nat, message: Message)

  /** `t instanceof Exception` */
  predicate IsException(t: Throwable) {
    !t.Error?
  }

  /** `t instanceof RuntimeException`; the wrapper extends `RuntimeException`. */
  predicate IsRuntime(t: Throwable) {
    t.Runtime? || t.Unchecked?
  }

  /** An exception the Java compiler makes callers declare. */
  predicate IsChecked(t: Throwable) {
    IsException(t) && !IsRuntime(t)
  }

  /** Every wrapper holds a checked cause: the wrapper's constructor asserts it. */
  predicate WellFormed(t: Throwable) {
    t.Unchecked? ==> IsChecked(t.cause)
  }
}
