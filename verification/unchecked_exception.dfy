/**
 * `org.tinyj.lava.rex.UncheckedException`: the one rule that turns a checked
 * exception into an unchecked one.
 */
module UncheckedException {
  import opened Throwables

  /**
   * `assertCheckedException`: the cause must be non-null and must not be a
   * `RuntimeException`. The Java `assert` becomes a precondition, so every
   * call site has to prove it.
   */
  function AssertCheckedException(cause: Throwable): (r: Throwable)
    requires IsChecked(cause)
    ensures r == cause
  {
    cause
  }

  /**
   * The private constructor: a new wrapper whose message is the cause's
   * message and whose cause is the checked exception passed in.
   */
  function New(cause: Throwable): (r: Throwable)
    requires IsChecked(cause)
    ensures r.Unchecked? && r.cause == cause && r.message == cause.message
    ensures WellFormed(r)
  {
    Unchecked(AssertCheckedException(cause), cause.message)
  }

  /**
   * `wrapCheckedException(e)`. Its parameter has type `Exception`, so `e` is
   * `null` or an exception, never an `Error`.
   */
  function Wrap(e: Nullable<Throwable>): (r: Nullable<Throwable>)
    requires e.Ref? ==> IsException(e.get)
    ensures e.Null? <==> r.Null?
    ensures e.Ref? && IsRuntime(e.get) ==> r == e
    ensures e.Ref? && IsChecked(e.get) ==>
              r.Ref? && r.get.Unchecked? && r.get.cause == e.get && r.get.message == e.get.message
    ensures r.Ref? ==> IsRuntime(r.get)
  {
    if e.Null? || IsRuntime(e.get) then e else Ref(New(e.get))
  }

  /** Wrapping twice is wrapping once: the wrapper is itself a `RuntimeException`. */
  lemma WrapIdempotent(e: Nullable<Throwable>)
    requires e.Ref? ==> IsException(e.get)
    ensures Wrap(Wrap(e)) == Wrap(e)
  {
  }

  /** `wrapCheckedException` builds a new object exactly for the checked exceptions. */
  lemma WrapChangesOnlyChecked(e: Nullable<Throwable>)
    requires e.Ref? ==> IsException(e.get)
    ensures Wrap(e) != e <==> e.Ref? && IsChecked(e.get)
  {
    if e.Ref? && IsChecked(e.get) {
      assert Wrap(e).get.cause == e.get;
    }
  }

  /** Wrapping never produces a wrapper around something other than a checked exception. */
  lemma WrapKeepsWellFormed(e: Nullable<Throwable>)
    requires e.Ref? ==> IsException(e.get) && WellFormed(e.get)
    ensures Wrap(e).Ref? ==> WellFormed(Wrap(e).get)
  {
  }
}
