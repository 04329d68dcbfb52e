# tinyj-lava-rex in Dafny

This project models the core of tinyj-lava-rex, a small Java library. The library lets a
"fallible" operation be used where a standard Java functional interface is required.
A fallible operation is a `Lava*` functional interface whose method declares a checked
exception. It has three parts:

- **The wrapping rule** (`UncheckedException.wrapCheckedException`):
  - `null` and any `RuntimeException` pass through as the same object.
  - Any other exception becomes a new `UncheckedException`. Its cause is the original
    exception and its message is the original's message.
- **Nine adapter shapes**: `RexRunnable`, `RexSupplier`, `RexFunction`, `RexBiFunction`,
  `RexConsumer`, `RexBiConsumer`, `RexPredicate`, `RexBiPredicate` and `RexCondition`.
  - Each shape's trusted method calls the fallible method once with the same arguments.
  - It returns that call's value unchanged.
  - If the call throws, it throws `wrapCheckedException(e)` for a caught `Exception e`.
  - Each shape has a `castDown` that re-types an instance without changing it.
- **The two utility classes**, `org.tinyj.lava.rex.Rex` and `org.tinyj.lava.Rex`:
  - identity helpers (`runnable`, …, `relation`);
  - `rex(checked)` bridges, which build an adapter from a `Lava*` operation;
  - `invoke(checked, …)` shortcuts.

How the model represents these:

- **Exceptions** are values of `Throwables.Throwable`:
  - `Checked` for an `Exception` that is not a `RuntimeException`;
  - `Runtime` for a user `RuntimeException`;
  - `Unchecked` for the library's wrapper;
  - `Error` for a `Throwable` that is not an `Exception`. The adapters'
    `catch (Exception e)` does not catch it.
- **`null`** is `Nullable.Null`. Messages are nullable too, because `getMessage()` may
  return `null`.
- **"Same object"** means equal values. An `id` field separates distinct exception
  objects that carry equal messages.
- **A fallible method** is a function `(W, A) -> (W, Outcome<R>)`:
  - `W` is the caller-owned world that the operation's side effects act on.
  - `A` is `()`, `X` or `(X, Y)`, by arity.
  - `R` is `()` for actions and `bool` for tests.
  - `Outcome` is `Return(value)` or `Throw(thrown)`.
- **An adapter instance** is the datatype `Lava.Rex`, which holds its fallible method.
  Each shape's trusted method is a function of that value.
- **"Called exactly once with the same arguments"** means two things:
  - The world after the trusted call equals the world after one call of the fallible
    method on the same arguments.
  - A counting instrumentation, `Lava.Counted`, sees exactly one call.

Java overloads get distinct names. `rex(...)` is modelled by `Bridge<Shape>` and
`invoke(...)` by `Invoke<Shape>`, in module `RexUtility` for `org.tinyj.lava.rex.Rex`
and in module `LavaRex` for `org.tinyj.lava.Rex`.

`org.tinyj.lava.WrappedCheckedException` is not part of this model. Every adapter path
reaches one of its `wrapCheckedException` overloads (`Exception`, `LavaRunnable`,
`LavaSupplier`):

- `RexBiPredicate` and `RexCondition` call it in their own `catch` block.
- The other seven shapes delegate to `org.tinyj.lava.Rex.invoke`, which calls it.
- `org.tinyj.lava.rex.Rex.invoke` for a runnable and a supplier calls it directly.

`UncheckedException.wrapCheckedException` has no caller in the library. The model
**assumes** the external overloads follow its rule, and `UncheckedException.Wrap`
stands in for the external rule throughout:

- `Lava.Guard` is the `catch (Exception e) { throw wrap(e); }` step.
- `Lava.CallGuarded` calls a no-argument fallible method once and guards its outcome.
- The wrapper those overloads build is modelled by the same `Unchecked` variant.

The library's tests assert the pass-through and the cause for eight shapes (every shape
except `RexCondition`). They do not assert the message.

`Lava.SurfacesAs(raised, seen)` is the reference statement of what a caller of a trusted
method sees. It is stated case by case and does not mention `Wrap`:

- A value comes back unchanged.
- A checked exception comes back as a wrapper. The wrapper's cause is that exception and
  its message is that exception's message.
- Anything else comes back as the very same throwable.

## Model

| member | source | states |
|---|---|---|
| UncheckedException.AssertCheckedException | src/main/java/org/tinyj/lava/rex/UncheckedException.java:28-31 | callers must pass a non-null exception that is not a `RuntimeException` (the `assert`, as a precondition every call site must prove); the cause comes back unchanged |
| UncheckedException.New | src/main/java/org/tinyj/lava/rex/UncheckedException.java:14-16 | the private constructor is callable only with a checked cause; the result is a `RuntimeException` wrapper whose cause is that exception and whose message is the cause's message |
| UncheckedException.Wrap | src/main/java/org/tinyj/lava/rex/UncheckedException.java:23-26 | `null` maps to `null` and only `null` does; a `RuntimeException` comes back as the same object; a checked exception becomes a wrapper with that cause and message; the result is always `null` or a `RuntimeException`; the constructor's precondition is proved on the one path that calls it |
| UncheckedException.WrapIdempotent | src/main/java/org/tinyj/lava/rex/UncheckedException.java:23-26 | wrapping a wrapped result again returns it unchanged, because the wrapper extends `RuntimeException` |
| UncheckedException.WrapChangesOnlyChecked | src/main/java/org/tinyj/lava/rex/UncheckedException.java:23-26 | `wrapCheckedException(e)` differs from `e` if and only if `e` is a non-null checked exception |
| UncheckedException.WrapKeepsWellFormed | src/main/java/org/tinyj/lava/rex/UncheckedException.java:14-31 | given a well-formed exception, the result holds a checked cause whenever it is a wrapper; no wrapper ever wraps a runtime exception or another wrapper |
| Lava.Guard | src/main/java/org/tinyj/lava/rex/RexBiPredicate.java:40-46 | the catch-and-wrap block: a returned value is unchanged; a thrown exception surfaces as `SurfacesAs` describes; no checked exception ever escapes |
| Lava.CallGuarded | src/main/java/org/tinyj/lava/Rex.java:196-199 | the assumed `wrapCheckedException(LavaRunnable / LavaSupplier)`: the world changes exactly as one call of the fallible method changes it, and its outcome surfaces by the wrapping rule |
| LavaRex.Runnable | src/main/java/org/tinyj/lava/Rex.java:21-22 | returns the given adapter itself, viewed as a `Runnable` |
| LavaRex.Supplier | src/main/java/org/tinyj/lava/Rex.java:31-32 | returns the given adapter itself, viewed as a `Supplier` |
| LavaRex.Function | src/main/java/org/tinyj/lava/Rex.java:41-42 | returns the given adapter itself, viewed as a `Function` |
| LavaRex.BiFunction | src/main/java/org/tinyj/lava/Rex.java:51-52 | returns the given adapter itself, viewed as a `BiFunction` |
| LavaRex.Consumer | src/main/java/org/tinyj/lava/Rex.java:61-62 | returns the given adapter itself, viewed as a `Consumer` |
| LavaRex.BiConsumer | src/main/java/org/tinyj/lava/Rex.java:71-72 | returns the given adapter itself, viewed as a `BiConsumer` |
| LavaRex.Predicate | src/main/java/org/tinyj/lava/Rex.java:81-82 | returns the given adapter itself, viewed as a `Predicate` |
| LavaRex.BiPredicate | src/main/java/org/tinyj/lava/Rex.java:91-92 | returns the given adapter itself, viewed as a `BiPredicate` |
| LavaRex.UnaryOp | src/main/java/org/tinyj/lava/Rex.java:97-98 | returns its argument itself, and agrees with `function` on it |
| LavaRex.BinaryOp | src/main/java/org/tinyj/lava/Rex.java:103-104 | returns its argument itself, and agrees with `biFunction` on it |
| LavaRex.Relation | src/main/java/org/tinyj/lava/Rex.java:109-110 | returns its argument itself, and agrees with `biPredicate` on it |
| LavaRex.BridgeRunnable | src/main/java/org/tinyj/lava/Rex.java:117-120 | the adapter's fallible method is `checked`'s own `checkedRun`; building it calls nothing |
| LavaRex.BridgeConsumer | src/main/java/org/tinyj/lava/Rex.java:127-130 | the adapter's fallible method is `checked`'s own `checkedAccept` |
| LavaRex.BridgeBiConsumer | src/main/java/org/tinyj/lava/Rex.java:137-140 | the adapter's fallible method is `checked`'s own `checkedAccept` |
| LavaRex.BridgeSupplier | src/main/java/org/tinyj/lava/Rex.java:147-150 | the adapter's fallible method is `checked`'s own `checkedGet` |
| LavaRex.BridgeFunction | src/main/java/org/tinyj/lava/Rex.java:157-160 | the adapter's fallible method is `checked`'s own `checkedApply` |
| LavaRex.BridgeBiFunction | src/main/java/org/tinyj/lava/Rex.java:167-170 | the adapter's fallible method is `checked`'s own `checkedApply` |
| LavaRex.BridgePredicate | src/main/java/org/tinyj/lava/Rex.java:177-180 | the adapter's fallible method is `checked`'s own `checkedTest` |
| LavaRex.BridgeBiPredicate | src/main/java/org/tinyj/lava/Rex.java:187-190 | the adapter's fallible method is `checked`'s own `checkedTest` |
| LavaRex.InvokeRunnable | src/main/java/org/tinyj/lava/Rex.java:196-199 | the world ends as one `checkedRun()` leaves it; its failure surfaces by the wrapping rule |
| LavaRex.InvokeConsumer | src/main/java/org/tinyj/lava/Rex.java:205-208 | the captured `x` reaches `checkedAccept` unchanged: the world ends as `checkedAccept(x)` leaves it; its failure surfaces by the wrapping rule |
| LavaRex.InvokeBiConsumer | src/main/java/org/tinyj/lava/Rex.java:214-217 | `checkedAccept` receives `(x, y)` in order: the world ends as `checkedAccept(x, y)` leaves it; its failure surfaces by the wrapping rule |
| LavaRex.InvokeSupplier | src/main/java/org/tinyj/lava/Rex.java:223-226 | returns exactly the value `checkedGet()` produced, or its failure by the wrapping rule |
| LavaRex.InvokeFunction | src/main/java/org/tinyj/lava/Rex.java:232-235 | returns exactly `checkedApply(x)` for the same `x`, or `wrap(e)` for its exception `e` |
| LavaRex.InvokeBiFunction | src/main/java/org/tinyj/lava/Rex.java:241-244 | returns exactly `checkedApply(x, y)` for the same arguments in order, or `wrap(e)` |
| LavaRex.InvokePredicate | src/main/java/org/tinyj/lava/Rex.java:250-253 | returns exactly `checkedTest(x)`, or `wrap(e)` |
| LavaRex.InvokeBiPredicate | src/main/java/org/tinyj/lava/Rex.java:259-262 | returns exactly `checkedTest(x, y)`, or `wrap(e)` |
| RexRunnable.Run | src/main/java/org/tinyj/lava/rex/RexRunnable.java:32-35 | `run()` completes normally exactly when `checkedRun()` does, with the same world; a checked failure surfaces as a wrapper with that cause, and an unchecked one as the same object |
| RexRunnable.CastDown | src/main/java/org/tinyj/lava/rex/RexRunnable.java:44-48 | returns the runnable itself |
| RexRunnable.CastDownKeepsBehaviour | src/main/java/org/tinyj/lava/rex/RexRunnable.java:44-48 | `run()` on the narrowed runnable leaves the same world and gives the same outcome as on the original, for every world and argument |
| RexSupplier.Get | src/main/java/org/tinyj/lava/rex/RexSupplier.java:36-39 | `get()` returns exactly the value `checkedGet()` produced; failures surface by the wrapping rule |
| RexSupplier.CastDown | src/main/java/org/tinyj/lava/rex/RexSupplier.java:49-53 | returns the supplier itself |
| RexSupplier.CastDownKeepsBehaviour | src/main/java/org/tinyj/lava/rex/RexSupplier.java:49-53 | `get()` on the narrowed supplier leaves the same world and gives the same outcome as on the original, for every world and argument |
| RexFunction.Apply | src/main/java/org/tinyj/lava/rex/RexFunction.java:37-40 | `apply(x)` returns exactly `checkedApply(x)` for the same `x`; failures surface by the wrapping rule |
| RexFunction.CastDown | src/main/java/org/tinyj/lava/rex/RexFunction.java:51-53 | returns the function itself |
| RexFunction.CastDownKeepsBehaviour | src/main/java/org/tinyj/lava/rex/RexFunction.java:51-53 | `apply(x)` on the narrowed function leaves the same world and gives the same outcome as on the original, for every world and argument |
| RexBiFunction.Apply | src/main/java/org/tinyj/lava/rex/RexBiFunction.java:39-42 | `apply(x, y)` returns exactly `checkedApply(x, y)` with the arguments in order; failures surface by the wrapping rule |
| RexBiFunction.CastDown | src/main/java/org/tinyj/lava/rex/RexBiFunction.java:54-58 | returns the bi-function itself |
| RexBiFunction.CastDownKeepsBehaviour | src/main/java/org/tinyj/lava/rex/RexBiFunction.java:54-58 | `apply(x, y)` on the narrowed bi-function leaves the same world and gives the same outcome as on the original, for every world and argument |
| RexConsumer.Accept | src/main/java/org/tinyj/lava/rex/RexConsumer.java:36-39 | `accept(x)` leaves the world as one `checkedAccept(x)` leaves it; failures surface by the wrapping rule |
| RexConsumer.CastDown | src/main/java/org/tinyj/lava/rex/RexConsumer.java:49-51 | returns the consumer itself |
| RexConsumer.CastDownKeepsBehaviour | src/main/java/org/tinyj/lava/rex/RexConsumer.java:49-51 | `accept(x)` on the narrowed consumer leaves the same world and gives the same outcome as on the original, for every world and argument |
| RexBiConsumer.Accept | src/main/java/org/tinyj/lava/rex/RexBiConsumer.java:37-40 | `accept(x, y)` leaves the world as one `checkedAccept(x, y)` leaves it, arguments in order; failures surface by the wrapping rule |
| RexBiConsumer.CastDown | src/main/java/org/tinyj/lava/rex/RexBiConsumer.java:51-55 | returns the bi-consumer itself |
| RexBiConsumer.CastDownKeepsBehaviour | src/main/java/org/tinyj/lava/rex/RexBiConsumer.java:51-55 | `accept(x, y)` on the narrowed bi-consumer leaves the same world and gives the same outcome as on the original, for every world and argument |
| RexPredicate.Test | src/main/java/org/tinyj/lava/rex/RexPredicate.java:38-41 | `test(x)` returns exactly `checkedTest(x)`; failures surface by the wrapping rule |
| RexPredicate.CastDown | src/main/java/org/tinyj/lava/rex/RexPredicate.java:51-53 | returns the predicate itself |
| RexPredicate.CastDownKeepsBehaviour | src/main/java/org/tinyj/lava/rex/RexPredicate.java:51-53 | `test(x)` on the narrowed predicate leaves the same world and gives the same outcome as on the original, for every world and argument |
| RexBiPredicate.Test | src/main/java/org/tinyj/lava/rex/RexBiPredicate.java:39-47 | `test(x, y)` returns exactly `checkedTest(x, y)` on success; any exception `e` is rethrown as `wrap(e)` |
| RexBiPredicate.CastDown | src/main/java/org/tinyj/lava/rex/RexBiPredicate.java:59-63 | returns the bi-predicate itself |
| RexBiPredicate.CastDownKeepsBehaviour | src/main/java/org/tinyj/lava/rex/RexBiPredicate.java:59-63 | `test(x, y)` on the narrowed bi-predicate leaves the same world and gives the same outcome as on the original, for every world and argument |
| RexCondition.GetAsBoolean | src/main/java/org/tinyj/lava/rex/RexCondition.java:36-43 | `getAsBoolean()` returns exactly `checkedTest()` on success; any exception `e` is rethrown as `wrap(e)` |
| RexCondition.CastDown | src/main/java/org/tinyj/lava/rex/RexCondition.java:52-56 | returns the condition itself |
| RexCondition.CastDownKeepsBehaviour | src/main/java/org/tinyj/lava/rex/RexCondition.java:52-56 | `getAsBoolean()` on the narrowed condition leaves the same world and gives the same outcome as on the original, for every world and argument |
| RexUtility.Runnable | src/main/java/org/tinyj/lava/rex/Rex.java:30-31 | returns its argument itself |
| RexUtility.Supplier | src/main/java/org/tinyj/lava/rex/Rex.java:45-46 | returns its argument itself |
| RexUtility.Function | src/main/java/org/tinyj/lava/rex/Rex.java:61-62 | returns its argument itself |
| RexUtility.BiFunction | src/main/java/org/tinyj/lava/rex/Rex.java:78-79 | returns its argument itself |
| RexUtility.Consumer | src/main/java/org/tinyj/lava/rex/Rex.java:93-94 | returns its argument itself |
| RexUtility.BiConsumer | src/main/java/org/tinyj/lava/rex/Rex.java:109-110 | returns its argument itself |
| RexUtility.Predicate | src/main/java/org/tinyj/lava/rex/Rex.java:124-125 | returns its argument itself |
| RexUtility.BiPredicate | src/main/java/org/tinyj/lava/rex/Rex.java:140-141 | returns its argument itself |
| RexUtility.UnaryOp | src/main/java/org/tinyj/lava/rex/Rex.java:151-152 | returns its argument itself, and behaves exactly as `function` on it |
| RexUtility.BinaryOp | src/main/java/org/tinyj/lava/rex/Rex.java:162-163 | returns its argument itself, and behaves exactly as `biFunction` on it |
| RexUtility.Relation | src/main/java/org/tinyj/lava/rex/Rex.java:173-174 | returns its argument itself, and behaves exactly as `biPredicate` on it |
| RexUtility.BridgeRunnable | src/main/java/org/tinyj/lava/rex/Rex.java:184-185 | the adapter's fallible method delegates to `checked.checkedRun`; building it calls nothing |
| RexUtility.BridgeConsumer | src/main/java/org/tinyj/lava/rex/Rex.java:196-197 | the adapter's fallible method delegates to `checked.checkedAccept` with the same argument |
| RexUtility.BridgeBiConsumer | src/main/java/org/tinyj/lava/rex/Rex.java:209-210 | the adapter's fallible method delegates to `checked.checkedAccept` with the same arguments |
| RexUtility.BridgeSupplier | src/main/java/org/tinyj/lava/rex/Rex.java:221-222 | the adapter's fallible method delegates to `checked.checkedGet` |
| RexUtility.BridgeFunction | src/main/java/org/tinyj/lava/rex/Rex.java:234-235 | the adapter's fallible method delegates to `checked.checkedApply` with the same argument |
| RexUtility.BridgeBiFunction | src/main/java/org/tinyj/lava/rex/Rex.java:248-249 | the adapter's fallible method delegates to `checked.checkedApply` with the same arguments |
| RexUtility.BridgeCondition | src/main/java/org/tinyj/lava/rex/Rex.java:259-260 | the adapter's fallible method delegates to `checked.checkedTest` |
| RexUtility.BridgePredicate | src/main/java/org/tinyj/lava/rex/Rex.java:271-272 | the adapter's fallible method delegates to `checked.checkedTest` with the same argument |
| RexUtility.BridgeBiPredicate | src/main/java/org/tinyj/lava/rex/Rex.java:284-285 | the adapter's fallible method delegates to `checked.checkedTest` with the same arguments |
| RexUtility.InvokeRunnable | src/main/java/org/tinyj/lava/rex/Rex.java:295-298 | equals `rex(checked).run()`, although it calls the wrapping rule directly; the world ends as one `checkedRun()` leaves it |
| RexUtility.InvokeConsumer | src/main/java/org/tinyj/lava/rex/Rex.java:310-313 | `rex(checked).accept(x)` leaves the world as `checkedAccept(x)` does; failures surface by the wrapping rule |
| RexUtility.InvokeBiConsumer | src/main/java/org/tinyj/lava/rex/Rex.java:327-330 | `rex(checked).accept(x, y)` leaves the world as `checkedAccept(x, y)` does; failures surface by the wrapping rule |
| RexUtility.InvokeSupplier | src/main/java/org/tinyj/lava/rex/Rex.java:342-345 | equals `rex(checked).get()`: the supplied value, or the wrapped failure |
| RexUtility.InvokeFunction | src/main/java/org/tinyj/lava/rex/Rex.java:359-362 | `rex(checked).apply(x)` returns `checkedApply(x)`, or the failure by the wrapping rule |
| RexUtility.InvokeBiFunction | src/main/java/org/tinyj/lava/rex/Rex.java:378-381 | `rex(checked).apply(x, y)` returns `checkedApply(x, y)`, or the failure by the wrapping rule |
| RexUtility.InvokeCondition | src/main/java/org/tinyj/lava/rex/Rex.java:393-396 | `rex(checked).getAsBoolean()` returns `checkedTest()`, or the failure by the wrapping rule |
| RexUtility.InvokePredicate | src/main/java/org/tinyj/lava/rex/Rex.java:409-412 | `rex(checked).test(x)` returns `checkedTest(x)`, or the failure by the wrapping rule |
| RexUtility.InvokeBiPredicate | src/main/java/org/tinyj/lava/rex/Rex.java:427-430 | `rex(checked).test(x, y)` returns `checkedTest(x, y)`, or the failure by the wrapping rule |
| RexScenarios.UncheckedFailureFallsThrough | src/test/java/org/tinyj/lava/rex/RexTest.java:16-110 | for all nine bridged shapes (the tests exercise every one but `RexCondition`), a `RuntimeException` from the fallible method reaches the caller as the same object, with the world untouched |
| RexScenarios.CheckedFailureIsWrapped | src/test/java/org/tinyj/lava/rex/RexTest.java:112-222 | for all nine bridged shapes (the tests exercise every one but `RexCondition`), a checked exception reaches the caller as a `RuntimeException` with that cause and message |
| RexScenarios.RunCallsCheckedOnce | src/test/java/org/tinyj/lava/rex/RexTest.java:225-233 | `rex(checked).run()` on an instrumented operation records exactly one `checkedRun()`, and the world that call leaves |
| RexScenarios.AcceptCallsCheckedOnce | src/test/java/org/tinyj/lava/rex/RexTest.java:235-245 | `rex(checked).accept(x)` on an instrumented operation records exactly one `checkedAccept(x)`, and the world that call leaves |
| RexScenarios.BiAcceptCallsCheckedOnce | src/test/java/org/tinyj/lava/rex/RexTest.java:247-257 | `rex(checked).accept(x, y)` on an instrumented operation records exactly one `checkedAccept(x, y)`, and the world that call leaves |
| RexScenarios.InvocationReachesCheckedMethod | src/test/java/org/tinyj/lava/rex/RexTest.java:224-317 | the trusted method reaches the fallible method with the same arguments: the run counter goes up by one, the consumers record `"x"` and `("x", "y")`, the producers return `"x"` and `"xy"`, and the tests return `true` |

## Left out

- `org.tinyj.lava.WrappedCheckedException` and the `Lava*` interfaces are not part of this model. A `Lava*` operation is its fallible method, a function. The `wrapCheckedException` overloads are assumed to follow the rule of `UncheckedException.wrapCheckedException` (`Lava.Guard`, `Lava.CallGuarded`).
- Java generic variance and the unchecked casts in every `castDown` are type-level only. Narrowing is modelled as identity, with no encoding of wildcard bounds or of the exception upper limit `E`.
- Object allocation and identity: "same object" is equality of values. Two wrappers built around the same cause are equal values here, though in Java they would be distinct objects.
- The `assert false` in the protected constructor of `org.tinyj.lava.rex.Rex`: it is JVM assertion plumbing for a class that is never instantiated.
- `MockProxy` (a Mockito and reflection test helper): mock call recording is modelled by `Lava.Counted` and by a world that logs arguments.
- `RexBiFunctionTest`: a `main` loop that prints to standard output.
- Threads, streams and the other usages in doc comments, and thread safety of user lambdas: the library has no concurrency of its own.
- `null` adapters and `null` operations: `Lava.Rex` and `Lava.Fallible` have no null value. In Java, `rex(null)` throws `NullPointerException` as soon as the method reference `checked::checkedRun` (and its siblings) is evaluated, before any call; `org.tinyj.lava.Rex.invoke(null, x)` throws it later, inside the lambda; the view helpers and `castDown` hand `null` back unchanged.
- Throwing `null` (a `NullPointerException` in Java): a fallible method's outcome always carries a non-null throwable.
- Causes of user exceptions: `Checked`, `Runtime` and `Error` values carry no cause. Only the library's wrapper has one.
