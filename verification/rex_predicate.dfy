/**
 * `org.tinyj.lava.rex.RexPredicate`: a one-argument test.
 * `test(x)` delegates to `org.tinyj.lava.Rex.invoke(this, x)`.
 */
module RexPredicate {
  import opened Lava
  import LavaRex

  type Op<!W, -X> = Rex<W, X, bool>

  /** `test(x)`: exactly `checkedTest(x)`, or its failure per the wrapping rule. */
  function Test<W, X>(p: Op<W, X>, w: W, x: X): (r: (W, Outcome<bool>))
    ensures r.0 == p.checked(w, x).0
    ensures SurfacesAs(p.checked(w, x).1, r.1)
  {
    LavaRex.InvokePredicate(p.checked, w, x)
  }

  /** `castDown(predicate)`: the same predicate, re-typed. */
  function CastDown<W, X>(p: Op<W, X>): (r: Op<W, X>)
    ensures r == p
  {
    p
  }

  /** `test(x)` on the narrowed predicate behaves exactly as on the original: same world, same outcome. */
  lemma CastDownKeepsBehaviour<W, X>(p: Op<W, X>, w: W, x: X)
    ensures Test(CastDown(p), w, x) == Test(p, w, x)
  {
  }
}
