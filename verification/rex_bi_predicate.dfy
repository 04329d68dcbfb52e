/**
 * `org.tinyj.lava.rex.RexBiPredicate`: a two-argument test.
 * Unlike the delegating shapes, `test(x, y)` catches and wraps inline.
 */
module RexBiPredicate {
  import opened Lava

  type Op<!W, -X, -Y> = Rex<W, (X, Y), bool>

  /** `test(x, y)`: exactly `checkedTest(x, y)`, or `wrapCheckedException(e)` for an exception `e` it throws. */
  function Test<W, X, Y>(p: Op<W, X, Y>, w: W, x: X, y: Y): (r: (W, Outcome<bool>))
    ensures r.0 == p.checked(w, (x, y)).0
    ensures SurfacesAs(p.checked(w, (x, y)).1, r.1)
  {
    var (w', raised) := p.checked(w, (x, y));
    (w', Guard(raised))
  }

  /** `castDown(biPredicate)`: the same bi-predicate, re-typed. */
  function CastDown<W, X, Y>(p: Op<W, X, Y>): (r: Op<W, X, Y>)
    ensures r == p
  {
    p
  }

  /** `test(x, y)` on the narrowed bi-predicate behaves exactly as on the original: same world, same outcome. */
  lemma CastDownKeepsBehaviour<W, X, Y>(p: Op<W, X, Y>, w: W, x: X, y: Y)
    ensures Test(CastDown(p), w, x, y) == Test(p, w, x, y)
  {
  }
}
