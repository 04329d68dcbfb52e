/**
 * `org.tinyj.lava.rex.RexFunction`: a one-argument function.
 * `apply(x)` delegates to `org.tinyj.lava.Rex.invoke(this, x)`.
 */
module RexFunction {
  import opened Lava
  import LavaRex

  type Op<!W, -X, R> = Rex<W, X, R>

  /** `apply(x)`: exactly `checkedApply(x)`, or its failure per the wrapping rule. */
  function Apply<W, X, R>(f: Op<W, X, R>, w: W, x: X): (r: (W, Outcome<R>))
    ensures r.0 == f.checked(w, x).0
    ensures SurfacesAs(f.checked(w, x).1, r.1)
  {
    LavaRex.InvokeFunction(f.checked, w, x)
  }

  /** `castDown(function)`: the same function, re-typed. */
  function CastDown<W, X, R>(f: Op<W, X, R>): (r: Op<W, X, R>)
    ensures r == f
  {
    f
  }

  /** `apply(x)` on the narrowed function behaves exactly as on the original: same world, same outcome. */
  lemma CastDownKeepsBehaviour<W, X, R>(f: Op<W, X, R>, w: W, x: X)
    ensures Apply(CastDown(f), w, x) == Apply(f, w, x)
  {
  }
}
