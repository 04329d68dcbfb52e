/**
 * `org.tinyj.lava.Rex`: the utility class the adapters' trusted methods
 * delegate to. Java overloads get distinct names here: `rex(...)` becomes
 * `Bridge<Shape>` and `invoke(...)` becomes `Invoke<Shape>`.
 */
module LavaRex {
  import opened Lava

  // The view helpers hand back the adapter they are given, typed as the
  // standard interface; no new object is made.

  function Runnable<W>(runnable: Rex<W, (), ()>): (r: Rex<W, (), ()>)
    ensures r == runnable
  {
    runnable
  }

  function Supplier<W, R>(supplier: Rex<W, (), R>): (r: Rex<W, (), R>)
    ensures r == supplier
  {
    supplier
  }

  function Function<W, X, R>(f: Rex<W, X, R>): (r: Rex<W, X, R>)
    ensures r == f
  {
    f
  }

  function BiFunction<W, X, Y, R>(f: Rex<W, (X, Y), R>): (r: Rex<W, (X, Y), R>)
    ensures r == f
  {
    f
  }

  function Consumer<W, X>(consumer: Rex<W, X, ()>): (r: Rex<W, X, ()>)
    ensures r == consumer
  {
    consumer
  }

  function BiConsumer<W, X, Y>(consumer: Rex<W, (X, Y), ()>): (r: Rex<W, (X, Y), ()>)
    ensures r == consumer
  {
    consumer
  }

  function Predicate<W, X>(p: Rex<W, X, bool>): (r: Rex<W, X, bool>)
    ensures r == p
  {
    p
  }

  function BiPredicate<W, X, Y>(p: Rex<W, (X, Y), bool>): (r: Rex<W, (X, Y), bool>)
    ensures r == p
  {
    p
  }

  /** `unaryOp` is `function` with argument and result of one type. */
  function UnaryOp<W, X>(operator: Rex<W, X, X>): (r: Rex<W, X, X>)
    ensures r == operator && r == Function(operator)
  {
    operator
  }

  /** `binaryOp` is `biFunction` with both arguments and the result of one type. */
  function BinaryOp<W, X>(operator: Rex<W, (X, X), X>): (r: Rex<W, (X, X), X>)
    ensures r == operator && r == BiFunction(operator)
  {
    operator
  }

  /** `relation` is `biPredicate` with both arguments of one type. */
  function Relation<W, X>(relation: Rex<W, (X, X), bool>): (r: Rex<W, (X, X), bool>)
    ensures r == relation && r == BiPredicate(relation)
  {
    relation
  }

  // `rex(checked)`: an adapter whose fallible method is the method reference
  // `checked::m`. Building it calls nothing: it takes no world.

  function BridgeRunnable<W>(checked: Fallible<W, (), ()>): (r: Rex<W, (), ()>)
    ensures r.checked == checked
  {
    Rex(checked)
  }

  function BridgeConsumer<W, X>(checked: Fallible<W, X, ()>): (r: Rex<W, X, ()>)
    ensures r.checked == checked
  {
    Rex(checked)
  }

  function BridgeBiConsumer<W, X, Y>(checked: Fallible<W, (X, Y), ()>): (r: Rex<W, (X, Y), ()>)
    ensures r.checked == checked
  {
    Rex(checked)
  }

  function BridgeSupplier<W, R>(checked: Fallible<W, (), R>): (r: Rex<W, (), R>)
    ensures r.checked == checked
  {
    Rex(checked)
  }

  function BridgeFunction<W, X, R>(checked: Fallible<W, X, R>): (r: Rex<W, X, R>)
    ensures r.checked == checked
  {
    Rex(checked)
  }

  function BridgeBiFunction<W, X, Y, R>(checked: Fallible<W, (X, Y), R>): (r: Rex<W, (X, Y), R>)
    ensures r.checked == checked
  {
    Rex(checked)
  }

  function BridgePredicate<W, X>(checked: Fallible<W, X, bool>): (r: Rex<W, X, bool>)
    ensures r.checked == checked
  {
    Rex(checked)
  }

  function BridgeBiPredicate<W, X, Y>(checked: Fallible<W, (X, Y), bool>): (r: Rex<W, (X, Y), bool>)
    ensures r.checked == checked
  {
    Rex(checked)
  }

  // `invoke(checked, ...)`: call the fallible method once, with the given
  // arguments captured in a lambda, and hand its outcome through the wrapping
  // rule.

  function InvokeRunnable<W>(checked: Fallible<W, (), ()>, w: W): (r: (W, Outcome<()>))
    ensures r.0 == checked(w, ()).0
    ensures SurfacesAs(checked(w, ()).1, r.1)
  {
    CallGuarded(checked, w)
  }

  function InvokeConsumer<W, X>(checked: Fallible<W, X, ()>, w: W, x: X): (r: (W, Outcome<()>))
    ensures r.0 == checked(w, x).0
    ensures SurfacesAs(checked(w, x).1, r.1)
  {
    CallGuarded(Bind(checked, x), w)
  }

  function InvokeBiConsumer<W, X, Y>(checked: Fallible<W, (X, Y), ()>, w: W, x: X, y: Y): (r: (W, Outcome<()>))
    ensures r.0 == checked(w, (x, y)).0
    ensures SurfacesAs(checked(w, (x, y)).1, r.1)
  {
    CallGuarded(Bind(checked, (x, y)), w)
  }

  function InvokeSupplier<W, R>(checked: Fallible<W, (), R>, w: W): (r: (W, Outcome<R>))
    ensures r.0 == checked(w, ()).0
    ensures SurfacesAs(checked(w, ()).1, r.1)
  {
    CallGuarded(checked, w)
  }

  function InvokeFunction<W, X, R>(checked: Fallible<W, X, R>, w: W, x: X): (r: (W, Outcome<R>))
    ensures r.0 == checked(w, x).0
    ensures SurfacesAs(checked(w, x).1, r.1)
  {
    CallGuarded(Bind(checked, x), w)
  }

  function InvokeBiFunction<W, X, Y, R>(checked: Fallible<W, (X, Y), R>, w: W, x: X, y: Y): (r: (W, Outcome<R>))
    ensures r.0 == checked(w, (x, y)).0
    ensures SurfacesAs(checked(w, (x, y)).1, r.1)
  {
    CallGuarded(Bind(checked, (x, y)), w)
  }

  function InvokePredicate<W, X>(checked: Fallible<W, X, bool>, w: W, x: X): (r: (W, Outcome<bool>))
    ensures r.0 == checked(w, x).0
    ensures SurfacesAs(checked(w, x).1, r.1)
  {
    CallGuarded(Bind(checked, x), w)
  }

  function InvokeBiPredicate<W, X, Y>(checked: Fallible<W, (X, Y), bool>, w: W, x: X, y: Y): (r: (W, Outcome<bool>))
    ensures r.0 == checked(w, (x, y)).0
    ensures SurfacesAs(checked(w, (x, y)).1, r.1)
  {
    CallGuarded(Bind(checked, (x, y)), w)
  }
}
