/**
 * `org.tinyj.lava.rex.RexConsumer`: an action on one input.
 * `accept(x)` delegates to `org.tinyj.lava.Rex.invoke(this, x)`.
 */
module RexConsumer {
  import opened Lava
  import LavaRex

  type Op<!W, -X> = Rex<W, X, ()>

  /** `accept(x)`: the world changes as one `checkedAccept(x)` changes it; failures per the wrapping rule. */
  function Accept<W, X>(c: Op<W, X>, w: W, x: X): (r: (W, Outcome<()>))
    ensures r.0 == c.checked(w, x).0
    ensures SurfacesAs(c.checked(w, x).1, r.1)
  {
    LavaRex.InvokeConsumer(c.checked, w, x)
  }

  /** `castDown(consumer)`: the same consumer, re-typed. */
  function CastDown<W, X>(c: Op<W, X>): (r: Op<W, X>)
    ensures r == c
  {
    c
  }

  /** `accept(x)` on the narrowed consumer behaves exactly as on the original: same world, same outcome. */
  lemma CastDownKeepsBehaviour<W, X>(c: Op<W, X>, w: W, x: X)
    ensures Accept(CastDown(c), w, x) == Accept(c, w, x)
  {
  }
}
