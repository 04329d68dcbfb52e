/**
 * `org.tinyj.lava.rex.RexCondition`: a no-argument test.
 * `getAsBoolean()` catches and wraps inline.
 */
module RexCondition {
  import opened Lava

  type Op<!W> = Rex<W, (), bool>

  /** `getAsBoolean()`: exactly `checkedTest()`, or `wrapCheckedException(e)` for an exception `e` it throws. */
  function GetAsBoolean<W>(c: Op<W>, w: W): (r: (W, Outcome<bool>))
    ensures r.0 == c.checked(w, ()).0
    ensures SurfacesAs(c.checked(w, ()).1, r.1)
  {
    var (w', raised) := c.checked(w, ());
    (w', Guard(raised))
  }

  /** `castDown(condition)`: the same condition, re-typed. */
  function CastDown<W>(c: Op<W>): (r: Op<W>)
    ensures r == c
  {
    c
  }

  /** `getAsBoolean()` on the narrowed condition behaves exactly as on the original: same world, same outcome. */
  lemma CastDownKeepsBehaviour<W>(c: Op<W>, w: W)
    ensures GetAsBoolean(CastDown(c), w) == GetAsBoolean(c, w)
  {
  }
}
