/**
 * `org.tinyj.lava.rex.RexBiConsumer`: an action on two inputs.
 * `accept(x, y)` delegates to `org.tinyj.lava.Rex.invoke(this, x, y)`.
 */
module RexBiConsumer {
  import opened Lava
  import LavaRex

  type Op<!W, -X, -Y> = Rex<W, (X, Y), ()>

  /** `accept(x, y)`: the world changes as one `checkedAccept(x, y)` changes it; failures per the wrapping rule. */
  function Accept<W, X, Y>(c: Op<W, X, Y>, w: W, x: X, y: Y): (r: (W, Outcome<()>))
    ensures r.0 == c.checked(w, (x, y)).0
    ensures SurfacesAs(c.checked(w, (x, y)).1, r.1)
  {
    LavaRex.InvokeBiConsumer(c.checked, w, x, y)
  }

  /** `castDown(biConsumer)`: the same bi-consumer, re-typed. */
  function CastDown<W, X, Y>(c: Op<W, X, Y>): (r: Op<W, X, Y>)
    ensures r == c
  {
    c
  }

  /** `accept(x, y)` on the narrowed bi-consumer behaves exactly as on the original: same world, same outcome. */
  lemma CastDownKeepsBehaviour<W, X, Y>(c: Op<W, X, Y>, w: W, x: X, y: Y)
    ensures Accept(CastDown(c), w, x, y) == Accept(c, w, x, y)
  {
  }
}
