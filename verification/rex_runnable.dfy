/**
 * `org.tinyj.lava.rex.RexRunnable`: a task run for its side effects.
 * `run()` delegates to `org.tinyj.lava.Rex.invoke(this)`.
 */
module RexRunnable {
  import opened Lava
  import LavaRex

  type Op<!W> = Rex<W, (), ()>

  /** `run()`: the world changes as one `checkedRun()` changes it; failures surface per the wrapping rule. */
  function Run<W>(runnable: Op<W>, w: W): (r: (W, Outcome<()>))
    ensures r.0 == runnable.checked(w, ()).0
    ensures SurfacesAs(runnable.checked(w, ()).1, r.1)
  {
    LavaRex.InvokeRunnable(runnable.checked, w)
  }

  /** `castDown(runnable)`: the same runnable, re-typed. */
  function CastDown<W>(runnable: Op<W>): (r: Op<W>)
    ensures r == runnable
  {
    runnable
  }

  /** `run()` on the narrowed runnable behaves exactly as on the original: same world, same outcome. */
  lemma CastDownKeepsBehaviour<W>(runnable: Op<W>, w: W)
    ensures Run(CastDown(runnable), w) == Run(runnable, w)
  {
  }
}
