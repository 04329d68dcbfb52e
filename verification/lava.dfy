/**
 * Fallible operations and the catch-and-wrap step every adapter shares.
 *
 * A fallible ("checked") method of a `Lava*` interface either returns a value
 * or throws. Its side effects act on a caller-owned world `W`, so a call is a
 * function from the world before and the arguments to the world after and the
 * outcome. Arities are encoded in the argument type: `()` for none, `X` for
 * one, `(X, Y)` for two; actions return `()`.
 *
 * `org.tinyj.lava.WrappedCheckedException` is not part of this model. Its
 * `wrapCheckedException` overloads are assumed to follow the same rule as
 * `UncheckedException.wrapCheckedException`: `Guard` and `CallGuarded` state
 * that assumption.
 */
module Lava {
  import opened Throwables
  import UncheckedException

  /** What one invocation did: returned a value or threw. */
  datatype Outcome<+R> = Return(value: R) | Throw(thrown: Throwable)

  /** The functional method of a `Lava*` interface. */
  type Fallible<!W, -A, R> = (W, A) -> (W, Outcome<R>)

  /**
   * An instance of a `Rex*` interface. It is its fallible method; the trusted
   * method (`run`, `get`, `apply`, ...) is derived from it by each shape.
   */
  datatype Rex<!W, -A, R> = Rex(checked: Fallible<W, A, R>)

  /**
   * How a caller of a trusted method sees the outcome `raised` of the fallible
   * method: a value unchanged; a checked exception as a wrapper whose cause is
   * that very exception and whose message is its message; any other throwable
   * as the very same object.
   */
  ghost predicate SurfacesAs<R>(raised: Outcome<R>, seen: Outcome<R>) {
    match raised
    case Return(v) => seen == Return(v)
    case Throw(e) =>
      && seen.Throw?
      && if IsChecked(e) then
           && seen.thrown.Unchecked?
           && seen.thrown.cause == e
           && seen.thrown.message == e.message
         else
           seen.thrown == e
  }

  /**
   * `try { ... } catch (Exception e) { throw wrapCheckedException(e); }`.
   * A throwable that is not an `Exception` is not caught.
   */
  function Guard<R>(raised: Outcome<R>): (seen: Outcome<R>)
    ensures SurfacesAs(raised, seen)
    ensures seen.Throw? ==> !IsChecked(seen.thrown)
  {
    match raised
    case Return(_) => raised
    case Throw(e) =>
      if IsException(e) then Throw(UncheckedException.Wrap(Ref(e)).get) else raised
  }

  /**
   * `WrappedCheckedException.wrapCheckedException(checked)` for a `LavaRunnable`
   * or `LavaSupplier`: call the fallible method once and guard its outcome.
   */
  function CallGuarded<W, R>(checked: Fallible<W, (), R>, w: W): (r: (W, Outcome<R>))
    ensures r.0 == checked(w, ()).0
    ensures SurfacesAs(checked(w, ()).1, r.1)
  {
    var (w', raised) := checked(w, ());
    (w', Guard(raised))
  }

  /** The lambda `() -> checked.m(a)`: a no-argument operation with `a` captured. */
  function Bind<W, A, R>(checked: Fallible<W, A, R>, a: A): Fallible<W, (), R> {
    (w: W, u: ()) => checked(w, a)
  }

  /**
   * `checked` instrumented with a count of its invocations, the way the tests'
   * mocks record calls.
   */
  function Counted<W, A, R>(checked: Fallible<W, A, R>): Fallible<(nat, W), A, R> {
    (cw: (nat, W), a: A) =>
      var n: nat := cw.0 + 1;
      var (w', o) := checked(cw.1, a);
      ((n, w'), o)
  }
}
