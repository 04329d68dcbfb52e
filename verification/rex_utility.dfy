/**
 * `org.tinyj.lava.rex.Rex`: helpers that narrow an adapter to the exact
 * parametrization a call site needs, bridges from `Lava*` operations to
 * adapters, and `invoke` shortcuts. Java overloads get distinct names here:
 * `rex(...)` becomes `Bridge<Shape>` and `invoke(...)` becomes `Invoke<Shape>`.
 */
module RexUtility {
  import opened Lava
  import RexRunnable
  import RexSupplier
  import RexFunction
  import RexBiFunction
  import RexConsumer
  import RexBiConsumer
  import RexPredicate
  import RexBiPredicate
  import RexCondition

  // Narrowing helpers: each passes its lambda through `castDown`, so the
  // caller gets back the very same adapter.

  function Runnable<W>(runnable: RexRunnable.Op<W>): (r: RexRunnable.Op<W>)
    ensures r == runnable
  {
    RexRunnable.CastDown(runnable)
  }

  function Supplier<W, R>(supplier: RexSupplier.Op<W, R>): (r: RexSupplier.Op<W, R>)
    ensures r == supplier
  {
    RexSupplier.CastDown(supplier)
  }

  function Function<W, X, R>(f: RexFunction.Op<W, X, R>): (r: RexFunction.Op<W, X, R>)
    ensures r == f
  {
    RexFunction.CastDown(f)
  }

  function BiFunction<W, X, Y, R>(f: RexBiFunction.Op<W, X, Y, R>): (r: RexBiFunction.Op<W, X, Y, R>)
    ensures r == f
  {
    RexBiFunction.CastDown(f)
  }

  function Consumer<W, X>(c: RexConsumer.Op<W, X>): (r: RexConsumer.Op<W, X>)
    ensures r == c
  {
    RexConsumer.CastDown(c)
  }

  function BiConsumer<W, X, Y>(c: RexBiConsumer.Op<W, X, Y>): (r: RexBiConsumer.Op<W, X, Y>)
    ensures r == c
  {
    RexBiConsumer.CastDown(c)
  }

  function Predicate<W, X>(p: RexPredicate.Op<W, X>): (r: RexPredicate.Op<W, X>)
    ensures r == p
  {
    RexPredicate.CastDown(p)
  }

  function BiPredicate<W, X, Y>(p: RexBiPredicate.Op<W, X, Y>): (r: RexBiPredicate.Op<W, X, Y>)
    ensures r == p
  {
    RexBiPredicate.CastDown(p)
  }

  /** `unaryOp(operator)` is `function(operator)` with argument and result of one type. */
  function UnaryOp<W, X>(operator: RexFunction.Op<W, X, X>): (r: RexFunction.Op<W, X, X>)
    ensures r == operator && r == Function(operator)
  {
    RexFunction.CastDown(operator)
  }

  /** `binaryOp(operator)` is `biFunction(operator)` with both arguments and the result of one type. */
  function BinaryOp<W, X>(operator: RexBiFunction.Op<W, X, X, X>): (r: RexBiFunction.Op<W, X, X, X>)
    ensures r == operator && r == BiFunction(operator)
  {
    RexBiFunction.CastDown(operator)
  }

  /** `relation(relation)` is `biPredicate(relation)` with both arguments of one type. */
  function Relation<W, X>(relation: RexBiPredicate.Op<W, X, X>): (r: RexBiPredicate.Op<W, X, X>)
    ensures r == relation && r == BiPredicate(relation)
  {
    RexBiPredicate.CastDown(relation)
  }

  // `rex(checked)`: an adapter whose fallible method is the method reference
  // `checked::m`, narrowed by `castDown`. Building it calls nothing: it takes
  // no world.

  function BridgeRunnable<W>(checked: Fallible<W, (), ()>): (r: RexRunnable.Op<W>)
    ensures r.checked == checked
  {
    RexRunnable.CastDown(Rex(checked))
  }

  function BridgeConsumer<W, X>(checked: Fallible<W, X, ()>): (r: RexConsumer.Op<W, X>)
    ensures r.checked == checked
  {
    RexConsumer.CastDown(Rex(checked))
  }

  function BridgeBiConsumer<W, X, Y>(checked: Fallible<W, (X, Y), ()>): (r: RexBiConsumer.Op<W, X, Y>)
    ensures r.checked == checked
  {
    RexBiConsumer.CastDown(Rex(checked))
  }

  function BridgeSupplier<W, R>(checked: Fallible<W, (), R>): (r: RexSupplier.Op<W, R>)
    ensures r.checked == checked
  {
    RexSupplier.CastDown(Rex(checked))
  }

  function BridgeFunction<W, X, R>(checked: Fallible<W, X, R>): (r: RexFunction.Op<W, X, R>)
    ensures r.checked == checked
  {
    RexFunction.CastDown(Rex(checked))
  }

  function BridgeBiFunction<W, X, Y, R>(checked: Fallible<W, (X, Y), R>): (r: RexBiFunction.Op<W, X, Y, R>)
    ensures r.checked == checked
  {
    RexBiFunction.CastDown(Rex(checked))
  }

  function BridgeCondition<W>(checked: Fallible<W, (), bool>): (r: RexCondition.Op<W>)
    ensures r.checked == checked
  {
    RexCondition.CastDown(Rex(checked))
  }

  function BridgePredicate<W, X>(checked: Fallible<W, X, bool>): (r: RexPredicate.Op<W, X>)
    ensures r.checked == checked
  {
    RexPredicate.CastDown(Rex(checked))
  }

  function BridgeBiPredicate<W, X, Y>(checked: Fallible<W, (X, Y), bool>): (r: RexBiPredicate.Op<W, X, Y>)
    ensures r.checked == checked
  {
    RexBiPredicate.CastDown(Rex(checked))
  }

  // `invoke(checked, ...)`: the trusted method of `rex(checked)` applied to
  // the arguments. The runnable and supplier forms call the wrapping rule
  // directly rather than going through `rex`; they are proved equal to it.

  function InvokeRunnable<W>(checked: Fallible<W, (), ()>, w: W): (r: (W, Outcome<()>))
    ensures r == RexRunnable.Run(BridgeRunnable(checked), w)
    ensures r.0 == checked(w, ()).0
    ensures SurfacesAs(checked(w, ()).1, r.1)
  {
    CallGuarded(checked, w)
  }

  function InvokeConsumer<W, X>(checked: Fallible<W, X, ()>, w: W, x: X): (r: (W, Outcome<()>))
    ensures r.0 == checked(w, x).0
    ensures SurfacesAs(checked(w, x).1, r.1)
  {
    RexConsumer.Accept(BridgeConsumer(checked), w, x)
  }

  function InvokeBiConsumer<W, X, Y>(checked: Fallible<W, (X, Y), ()>, w: W, x: X, y: Y): (r: (W, Outcome<()>))
    ensures r.0 == checked(w, (x, y)).0
    ensures SurfacesAs(checked(w, (x, y)).1, r.1)
  {
    RexBiConsumer.Accept(BridgeBiConsumer(checked), w, x, y)
  }

  function InvokeSupplier<W, R>(checked: Fallible<W, (), R>, w: W): (r: (W, Outcome<R>))
    ensures r == RexSupplier.Get(BridgeSupplier(checked), w)
    ensures r.0 == checked(w, ()).0
    ensures SurfacesAs(checked(w, ()).1, r.1)
  {
    CallGuarded(checked, w)
  }

  function InvokeFunction<W, X, R>(checked: Fallible<W, X, R>, w: W, x: X): (r: (W, Outcome<R>))
    ensures r.0 == checked(w, x).0
    ensures SurfacesAs(checked(w, x).1, r.1)
  {
    RexFunction.Apply(BridgeFunction(checked), w, x)
  }

  function InvokeBiFunction<W, X, Y, R>(checked: Fallible<W, (X, Y), R>, w: W, x: X, y: Y): (r: (W, Outcome<R>))
    ensures r.0 == checked(w, (x, y)).0
    ensures SurfacesAs(checked(w, (x, y)).1, r.1)
  {
    RexBiFunction.Apply(BridgeBiFunction(checked), w, x, y)
  }

  function InvokeCondition<W>(checked: Fallible<W, (), bool>, w: W): (r: (W, Outcome<bool>))
    ensures r.0 == checked(w, ()).0
    ensures SurfacesAs(checked(w, ()).1, r.1)
  {
    RexCondition.GetAsBoolean(BridgeCondition(checked), w)
  }

  function InvokePredicate<W, X>(checked: Fallible<W, X, bool>, w: W, x: X): (r: (W, Outcome<bool>))
    ensures r.0 == checked(w, x).0
    ensures SurfacesAs(checked(w, x).1, r.1)
  {
    RexPredicate.Test(BridgePredicate(checked), w, x)
  }

  function InvokeBiPredicate<W, X, Y>(checked: Fallible<W, (X, Y), bool>, w: W, x: X, y: Y): (r: (W, Outcome<bool>))
    ensures r.0 == checked(w, (x, y)).0
    ensures SurfacesAs(checked(w, (x, y)).1, r.1)
  {
    RexBiPredicate.Test(BridgeBiPredicate(checked), w, x, y)
  }
}
