/**
 * `org.tinyj.lava.rex.RexSupplier`: a producer of values.
 * `get()` delegates to `org.tinyj.lava.Rex.invoke(this)`.
 */
module RexSupplier {
  import opened Lava
  import LavaRex

  type Op<!W, R> = Rex<W, (), R>

  /** `get()`: exactly the value `checkedGet()` produced, or its failure per the wrapping rule. */
  function Get<W, R>(supplier: Op<W, R>, w: W): (r: (W, Outcome<R>))
    ensures r.0 == supplier.checked(w, ()).0
    ensures SurfacesAs(supplier.checked(w, ()).1, r.1)
  {
    LavaRex.InvokeSupplier(supplier.checked, w)
  }

  /** `castDown(supplier)`: the same supplier, re-typed. */
  function CastDown<W, R>(supplier: Op<W, R>): (r: Op<W, R>)
    ensures r == supplier
  {
    supplier
  }

  /** `get()` on the narrowed supplier behaves exactly as on the original: same world, same outcome. */
  lemma CastDownKeepsBehaviour<W, R>(supplier: Op<W, R>, w: W)
    ensures Get(CastDown(supplier), w) == Get(supplier, w)
  {
  }
}
