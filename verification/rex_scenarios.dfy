/**
 * The scenarios of the library's own test class, stated over every shape
 * that `org.tinyj.lava.rex.Rex.rex(...)` bridges.
 */
module RexScenarios {
  import opened Throwables
  import opened Lava
  import RexRunnable
  import RexSupplier
  import RexFunction
  import RexBiFunction
  import RexConsumer
  import RexBiConsumer
  import RexPredicate
  import RexBiPredicate
  import RexCondition
  import RexUtility

  /** A fallible operation that throws `e` without touching the world, like the tests' `raise(e)`. */
  function Raise<W, A, R>(e: Throwable): Fallible<W, A, R> {
    (w: W, a: A) => (w, Throw(e))
  }

  /** A fallible operation that records its argument in the world, as a mock records its invocations. */
  function Recorder<A>(): Fallible<seq<A>, A, ()> {
    (log: seq<A>, a: A) => (log + [a], Return(()))
  }

  /** A fallible operation that returns `f` of its argument and leaves the world alone. */
  function Pure<W, A, R>(f: A -> R): Fallible<W, A, R> {
    (w: W, a: A) => (w, Return(f(a)))
  }

  /** A `RuntimeException` thrown by the fallible method reaches the caller as the same object. */
  lemma UncheckedFailureFallsThrough<W>(original: Throwable, w: W)
    requires original.Runtime?
    ensures RexRunnable.Run(RexUtility.BridgeRunnable(Raise(original)), w) == (w, Throw(original))
    ensures RexConsumer.Accept(RexUtility.BridgeConsumer(Raise(original)), w, "x") == (w, Throw(original))
    ensures RexBiConsumer.Accept(RexUtility.BridgeBiConsumer(Raise(original)), w, "x", "y") == (w, Throw(original))
    ensures RexSupplier.Get(RexUtility.BridgeSupplier<W, string>(Raise(original)), w) == (w, Throw(original))
    ensures RexFunction.Apply(RexUtility.BridgeFunction<W, string, string>(Raise(original)), w, "x") == (w, Throw(original))
    ensures RexBiFunction.Apply(RexUtility.BridgeBiFunction<W, string, string, string>(Raise(original)), w, "x", "y")
            == (w, Throw(original))
    ensures RexPredicate.Test(RexUtility.BridgePredicate(Raise(original)), w, "x") == (w, Throw(original))
    ensures RexBiPredicate.Test(RexUtility.BridgeBiPredicate(Raise(original)), w, "x", "y") == (w, Throw(original))
    ensures RexCondition.GetAsBoolean(RexUtility.BridgeCondition(Raise(original)), w) == (w, Throw(original))
  {
  }

  /** A checked exception surfaces as the `RuntimeException` wrapper whose cause is that exception. */
  ghost predicate WrapsCause<R>(seen: Outcome<R>, original: Throwable) {
    && seen.Throw?
    && seen.thrown.Unchecked?
    && seen.thrown.cause == original
    && seen.thrown.message == original.message
  }

  /** A checked exception thrown by the fallible method reaches the caller wrapped, with that cause. */
  lemma CheckedFailureIsWrapped<W>(original: Throwable, w: W)
    requires original.Checked?
    ensures WrapsCause(RexRunnable.Run(RexUtility.BridgeRunnable(Raise(original)), w).1, original)
    ensures WrapsCause(RexConsumer.Accept(RexUtility.BridgeConsumer(Raise(original)), w, "x").1, original)
    ensures WrapsCause(RexBiConsumer.Accept(RexUtility.BridgeBiConsumer(Raise(original)), w, "x", "y").1, original)
    ensures WrapsCause(RexSupplier.Get(RexUtility.BridgeSupplier<W, string>(Raise(original)), w).1, original)
    ensures WrapsCause(RexFunction.Apply(RexUtility.BridgeFunction<W, string, string>(Raise(original)), w, "x").1, original)
    ensures WrapsCause(
              RexBiFunction.Apply(RexUtility.BridgeBiFunction<W, string, string, string>(Raise(original)), w, "x", "y").1,
              original)
    ensures WrapsCause(RexPredicate.Test(RexUtility.BridgePredicate(Raise(original)), w, "x").1, original)
    ensures WrapsCause(RexBiPredicate.Test(RexUtility.BridgeBiPredicate(Raise(original)), w, "x", "y").1, original)
    ensures WrapsCause(RexCondition.GetAsBoolean(RexUtility.BridgeCondition(Raise(original)), w).1, original)
  {
  }

  /** One `rex(checked).run()` of an instrumented operation counts exactly one `checkedRun()`. */
  lemma RunCallsCheckedOnce<W>(checked: Fallible<W, (), ()>, n: nat, w: W)
    ensures RexRunnable.Run(RexUtility.BridgeRunnable(Counted(checked)), (n, w)).0 == (n + 1, checked(w, ()).0)
  {
  }

  /** One `rex(checked).accept(x)` of an instrumented operation counts exactly one `checkedAccept(x)`. */
  lemma AcceptCallsCheckedOnce<W, X>(checked: Fallible<W, X, ()>, n: nat, w: W, x: X)
    ensures RexConsumer.Accept(RexUtility.BridgeConsumer(Counted(checked)), (n, w), x).0 == (n + 1, checked(w, x).0)
  {
  }

  /** One `rex(checked).accept(x, y)` of an instrumented operation counts exactly one `checkedAccept(x, y)`. */
  lemma BiAcceptCallsCheckedOnce<W, X, Y>(checked: Fallible<W, (X, Y), ()>, n: nat, w: W, x: X, y: Y)
    ensures RexBiConsumer.Accept(RexUtility.BridgeBiConsumer(Counted(checked)), (n, w), x, y).0
            == (n + 1, checked(w, (x, y)).0)
  {
  }

  /**
   * Calling the trusted method calls the fallible method with the same
   * arguments, and a producer's value comes back unchanged: concatenation of
   * `"x"` and `"y"` gives `"xy"`, so the argument order is kept.
   */
  lemma InvocationReachesCheckedMethod(n: nat)
    ensures RexRunnable.Run(RexUtility.BridgeRunnable(Counted<(), (), ()>((w: (), u: ()) => (w, Return(())))), (n, ()))
            == ((n + 1, ()), Return(()))
    ensures RexConsumer.Accept(RexUtility.BridgeConsumer(Recorder()), [], "x") == (["x"], Return(()))
    ensures RexBiConsumer.Accept(RexUtility.BridgeBiConsumer(Recorder()), [], "x", "y") == ([("x", "y")], Return(()))
    ensures RexSupplier.Get(RexUtility.BridgeSupplier(Pure<(), (), string>((u: ()) => "x")), ()) == ((), Return("x"))
    ensures RexFunction.Apply(RexUtility.BridgeFunction(Pure<(), string, string>((x: string) => x)), (), "x")
            == ((), Return("x"))
    ensures RexBiFunction.Apply(
              RexUtility.BridgeBiFunction(Pure<(), (string, string), string>((p: (string, string)) => p.0 + p.1)),
              (), "x", "y")
            == ((), Return("xy"))
    ensures RexPredicate.Test(RexUtility.BridgePredicate(Pure<(), string, bool>((x: string) => x == "x")), (), "x")
            == ((), Return(true))
    ensures RexBiPredicate.Test(
              RexUtility.BridgeBiPredicate(Pure<(), (string, string), bool>((p: (string, string)) => p.0 == p.1)),
              (), "x", "x")
            == ((), Return(true))
  {
    assert [] + ["x"] == ["x"];
    assert [] + [("x", "y")] == [("x", "y")];
    assert "x" + "y" == "xy";
  }
}
