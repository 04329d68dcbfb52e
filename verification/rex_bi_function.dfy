/**
 * `org.tinyj.lava.rex.RexBiFunction`: a two-argument function.
 * `apply(x, y)` delegates to `org.tinyj.lava.Rex.invoke(this, x, y)`.
 */
module RexBiFunction {
  import opened Lava
  import LavaRex

  type Op<!W, -X, -Y, R> = Rex<W, (X, Y), R>

  /** `apply(x, y)`: exactly `checkedApply(x, y)`, arguments in order, or its failure per the wrapping rule. */
  function Apply<W, X, Y, R>(f: Op<W, X, Y, R>, w: W, x: X, y: Y): (r: (W, Outcome<R>))
    ensures r.0 == f.checked(w, (x, y)).0
    ensures SurfacesAs(f.checked(w, (x, y)).1, r.1)
  {
    LavaRex.InvokeBiFunction(f.checked, w, x, y)
  }

  /** `castDown(biFunction)`: the same bi-function, re-typed. */
  function CastDown<W, X, Y, R>(f: Op<W, X, Y, R>): (r: Op<W, X, Y, R>)
    ensures r == f
  {
    f
  }

  /** `apply(x, y)` on the narrowed bi-function behaves exactly as on the original: same world, same outcome. */
  lemma CastDownKeepsBehaviour<W, X, Y, R>(f: Op<W, X, Y, R>, w: W, x: X, y: Y)
    ensures Apply(CastDown(f), w, x, y) == Apply(f, w, x, y)
  {
  }
}
