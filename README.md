# Functionance, modelled in Dafny

Functionance is a Java library of functional interfaces of arity 0 to 8.
It has four families:

- **FunctionN** computes a result from N arguments.
- **RunnableN** performs an operation on N arguments.
- **TransformerN** and **TaskN** are the primitive forms they build on. Each
  inherits default methods that let it stand in for the next arity up by
  ignoring a trailing argument.
- **InputN** describes what can be done with the N argument slots.

Every Function and Runnable offers the same combinators, and each is a
default method that returns a new lambda:

- `composeK` passes argument K through a transformer first.
- `swapK` exchanges arguments K and K+1.
- `partialK` fixes argument K.
- `handle` recovers from a throwable through a handler that returns a
  fallback callable.
- `andThen` post-composes a transformer. On a Runnable it can also append
  another runnable.
- `consume` turns a Function into a Runnable.
- `append` hands the callable to an "addend" transformer.
- `curry` and `curryK` split the argument list into stages.

## How the model is built

- **Values, not objects.** Every callable is a value
  `Base.Callable<R>(arity, apply)`. `apply` maps an argument list to an
  `Exec<R>`: the sequence of observable effects the call performed, then
  either a result (`Ok`) or a throwable (`Fault`).
- **Functions and runnables share one representation.** A Runnable or a Task
  is a `Callable<()>`. Function bodies may have effects too, so `consume`,
  `andThen` and the Task `applyN` defaults can all be stated as "performs
  exactly the effects of one call".
- **Null checks.** A combinator argument that Java checks with
  `Objects.requireNonNull` is an `Option`. `None` makes the combinator return
  `Fault(NullArg)` at once. A null fallback returned by a `handle` handler
  surfaces as `Fault(NullArg)` when the handled callable runs.
- **Generic combinators.** `Callables` and `Functions` define and prove the
  combinators once, for any arity. Argument slot K of the Java names
  (`compose3`, `swap1`, `partial2`) is index K-1 there. `Runnables` adds the
  Runnable-only `andThen` forms.
- **Per-file modules.** Each `FunctionN` and `RunnableN` module has one lemma
  per Java method of that file, named after it (`Compose3`, `Swap1`,
  `Partial2`, `Curry5`, ...). Each lemma states the lambda that method
  returns, with the argument positions written out as in the source. The
  lemmas pin down which slot each method touches and how each `curryK`
  groups the arguments.
- **Runnable `curryK` names.** Runnable5, Runnable6 and Runnable8 have no
  `curry4`. Their `curry5` groups the arguments 4 + rest, as Function5's
  `curry4` does, and each later `curryK` groups K-1 + rest. The lemmas
  `Runnable5.Curry5`, `Runnable6.Curry5`/`Curry6` and
  `Runnable8.Curry5`..`Curry8` state the grouping the code performs.
- **Widening chains.** `Transformer` and `Task` model the default-method
  chains. The Transformer chain is broken: Transformer3 and Transformer8
  extend nothing. So Task3 obtains `apply4` from `Task4.super`, and
  `Task.ApplyWidenedLaw` proves that both routes give the same result.
- **The test helpers.** `Scenarios` states the checks of the arity-0 test
  helpers `FunctionTests.testFunction0` and `RunnableTests.testRunnable0`.
  No test invokes `testRunnable0`: `RunnableTests.test()` is empty. It
  also proves one property the tests never exercise: a throwing Function0
  whose handler falls back to a function answering `s` answers `s`.

## Model

| member | source | states |
|---|---|---|
| Base.IgnoreLast | core/src/main/java/net/ashwork/functionance/partial/transformer/Transformer1.java:35-38 | the widened callable takes one more argument than the original |
| Base.IgnoreLastLaw | core/src/main/java/net/ashwork/functionance/partial/transformer/Transformer1.java:35-38 | the widened callable makes the original call on all but the last argument, whatever the last one is |
| Input.Arity | core/src/main/java/net/ashwork/functionance/partial/input/Input2.java:23-26 | arity() is the number of input slots |
| Input.ArityLaws | core/src/main/java/net/ashwork/functionance/partial/input/Input2.java:43-62 | swap1() keeps the arity, partial1/partial2 lower it by one, and putting the supplied slot back restores it |
| Input.Swapped | core/src/main/java/net/ashwork/functionance/partial/input/Input2.java:43-49 | the two adjacent slots trade places, and every other slot keeps its position and value |
| Input.Removed | core/src/main/java/net/ashwork/functionance/partial/input/Input2.java:51-62 | the remaining slots in their original order: those before the fixed slot keep their index, and those after it move one place left |
| Input.Inserted | core/src/main/java/net/ashwork/functionance/Function2.java:91-99 | the argument list the body of a partial application sees: the fixed value in its slot, and the supplied arguments around it in order |
| Input.SwappedTwice | core/src/main/java/net/ashwork/functionance/partial/input/Input2.java:43-49 | swapping the same pair twice restores the signature |
| Input.SwappedPermutes | core/src/main/java/net/ashwork/functionance/partial/input/Input2.java:43-49 | a swap loses and duplicates no slot: the multiset of slots is unchanged |
| Input.InsertedRemoved | core/src/main/java/net/ashwork/functionance/partial/input/Input2.java:51-62 | putting the fixed value back into the remaining slots rebuilds the original argument list |
| Input.RemovedInserted | core/src/main/java/net/ashwork/functionance/partial/input/Input2.java:51-62 | removing the slot that was filled in gives back the supplied arguments |
| Input.SwappedInserted | core/src/main/java/net/ashwork/functionance/Function2.java:78-99 | fixing slot K and then swapping K with K+1 is fixing slot K+1 |
| Input.Input1Signatures | core/src/main/java/net/ashwork/functionance/partial/input/Input1.java:21-49 | arity() is 1; partial1 leaves an Input0 with no slots; a single slot has no swap |
| Input.Input2Signatures | core/src/main/java/net/ashwork/functionance/partial/input/Input2.java:21-63 | arity() is 2; swapK exchanges slots K and K+1 and nothing else; partialK leaves an Input1 over the other slots in their original order |
| Input.Input4Signatures | core/src/main/java/net/ashwork/functionance/partial/input/Input4.java:21-81 | arity() is 4; swapK exchanges slots K and K+1 and nothing else; partialK leaves an Input3 over the other slots in their original order |
| Input.Input5Signatures | core/src/main/java/net/ashwork/functionance/partial/input/Input5.java:21-90 | arity() is 5; swapK exchanges slots K and K+1 and nothing else; partialK leaves an Input4 over the other slots in their original order |
| Input.Input6Signatures | core/src/main/java/net/ashwork/functionance/partial/input/Input6.java:21-99 | arity() is 6; swapK exchanges slots K and K+1 and nothing else; partialK leaves an Input5 over the other slots in their original order |
| Input.Input7Signatures | core/src/main/java/net/ashwork/functionance/partial/input/Input7.java:21-108 | arity() is 7; swapK exchanges slots K and K+1 and nothing else; partialK leaves an Input6 over the other slots in their original order |
| Input.Input8Signatures | core/src/main/java/net/ashwork/functionance/partial/input/Input8.java:21-117 | arity() is 8; swapK exchanges slots K and K+1 and nothing else; partialK leaves an Input7 over the other slots in their original order |
| Transformer.Super | core/src/main/java/net/ashwork/functionance/partial/transformer/Transformer3.java:27 | a TransformerN extends Transformer(N+1) except at arity 3 and arity 8, where the chain stops |
| Transformer.Top | core/src/main/java/net/ashwork/functionance/partial/transformer/Transformer8.java:32 | the chain of extends clauses from arity n ends at m: every arity from n below m extends the next one and m extends nothing; m is 3 from a Transformer0..3 and 8 from a Transformer4..8 |
| Transformer.Widen | core/src/main/java/net/ashwork/functionance/partial/transformer/Transformer1.java:35-38 | the inherited apply(N+1) takes one more argument |
| Transformer.WidenLaw | core/src/main/java/net/ashwork/functionance/partial/transformer/Transformer1.java:35-38 | apply(N+1) returns exactly what applyN returns on the first N arguments, throwable included, whatever the ignored argument is |
| Transformer.WidenTo | core/src/main/java/net/ashwork/functionance/partial/transformer/Transformer0.java:23-35 | the TransformerN used at a higher arity m, up to the end of its chain, takes m arguments |
| Transformer.WidenToLaw | core/src/main/java/net/ashwork/functionance/partial/transformer/Transformer0.java:23-35 | at every arity the chain reaches, the call is applyN on the first N arguments, and all trailing arguments are ignored |
| Transformer.Transformer0Defaults | core/src/main/java/net/ashwork/functionance/partial/transformer/Transformer0.java:32-35 | apply1, apply2 and apply3 all return apply0(), and the chain ends at arity 3: Transformer3 extends nothing |
| Transformer.Transformer1Defaults | core/src/main/java/net/ashwork/functionance/partial/transformer/Transformer1.java:35-38 | apply2(t1, o) and apply3(t1, o1, o2) return apply1(t1) |
| Transformer.Transformer2Defaults | core/src/main/java/net/ashwork/functionance/partial/transformer/Transformer2.java:37-40 | apply3(t1, t2, o) returns apply2(t1, t2); Transformer3 widens no further |
| Transformer.Transformer4Defaults | core/src/main/java/net/ashwork/functionance/partial/transformer/Transformer4.java:41-44 | apply5, apply6 and apply8 all return apply4 on the first four arguments, and the chain ends at arity 8 |
| Transformer.Transformer5Defaults | core/src/main/java/net/ashwork/functionance/partial/transformer/Transformer5.java:43-46 | apply6(t1..t5, o) returns apply5(t1..t5) |
| Task.Super | core/src/main/java/net/ashwork/functionance/partial/task/Task8.java:33 | every TaskN below arity 8 extends Task(N+1); Task8 extends no wider task |
| Task.RunWiden | core/src/main/java/net/ashwork/functionance/partial/task/Task1.java:35-38 | the inherited run(N+1) takes one more argument |
| Task.RunWidenLaw | core/src/main/java/net/ashwork/functionance/partial/task/Task1.java:35-38 | run(N+1) performs exactly one runN on the first N arguments, with the same effects and outcome, whatever the dropped argument is |
| Task.AsFunction | core/src/main/java/net/ashwork/functionance/partial/task/Task1.java:40-44 | applyN has the task's arity |
| Task.AsFunctionLaw | core/src/main/java/net/ashwork/functionance/partial/task/Task1.java:40-44 | applyN performs exactly the effects of one runN; it returns null exactly when the run completes, and otherwise rethrows the run's throwable |
| Task.WidenCommutes | core/src/main/java/net/ashwork/functionance/partial/task/Task3.java:50-53 | widening the run and then returning null is the same as returning null and then widening the transformer |
| Task.ApplyWidened | core/src/main/java/net/ashwork/functionance/partial/task/Task3.java:50-53 | the inherited apply(N+1) takes one more argument |
| Task.ApplyWidenedLaw | core/src/main/java/net/ashwork/functionance/partial/task/Task3.java:50-53 | whichever default supplies it (Task4.super for Task3, TransformerN.super otherwise), apply(N+1) is applyN on the first N arguments |
| Task.RunTo | core/src/main/java/net/ashwork/functionance/partial/task/Task0.java:24-35 | the TaskN used at a higher arity m takes m arguments |
| Task.RunToLaw | core/src/main/java/net/ashwork/functionance/partial/task/Task0.java:24-35 | every TaskN can be run at every arity up to 8, and runs runN once on the first N arguments |
| Task.Task0Defaults | core/src/main/java/net/ashwork/functionance/partial/task/Task0.java:31-45 | run1(o) is run0(); apply0 runs once and then returns null or rethrows; apply1(o) is apply0(); a Task0 runs at arity 8 as run0() |
| Task.Task1Defaults | core/src/main/java/net/ashwork/functionance/partial/task/Task1.java:35-49 | run2(t1, o) is run1(t1); apply1 runs once and then returns null; apply2(t1, o) is apply1(t1) |
| Task.Task2Defaults | core/src/main/java/net/ashwork/functionance/partial/task/Task2.java:37-51 | run3 drops its last argument; apply2 runs once and then returns null; apply3 is apply2 on the first two arguments |
| Task.Task3Defaults | core/src/main/java/net/ashwork/functionance/partial/task/Task3.java:39-53 | run4 drops its last argument; apply3 runs once and then returns null; apply4, taken from Task4, is apply3 on the first three arguments |
| Task.Task4Defaults | core/src/main/java/net/ashwork/functionance/partial/task/Task4.java:41-55 | run5 drops its last argument; apply4 runs once and then returns null; apply5 is apply4 on the first four arguments |
| Task.Task5Defaults | core/src/main/java/net/ashwork/functionance/partial/task/Task5.java:43-57 | run6 drops its last argument; apply5 runs once and then returns null; apply6 is apply5 on the first five arguments |
| Task.Task6Defaults | core/src/main/java/net/ashwork/functionance/partial/task/Task6.java:45-59 | run7 drops its last argument; apply6 runs once and then returns null; apply7 is apply6 on the first six arguments |
| Task.Task7Defaults | core/src/main/java/net/ashwork/functionance/partial/task/Task7.java:47-61 | run8 drops its last argument; apply7 runs once and then returns null; apply8 is apply7 on the first seven arguments |
| Task.Task8Defaults | core/src/main/java/net/ashwork/functionance/partial/task/Task8.java:49-52 | apply8 runs run8 once and then returns null or rethrows; Task8 widens no further |
| Callables.Compose | core/src/main/java/net/ashwork/functionance/Function2.java:40-43 | a null `before` is rejected when the combinator is called; otherwise the result keeps the arity |
| Callables.ComposeLaw | core/src/main/java/net/ashwork/functionance/Function2.java:40-43 | `before` runs first, on slot K only: if it throws, the body never runs and its throwable propagates; otherwise the body runs with that slot replaced, after `before`'s effects |
| Callables.ComposeReturn | core/src/main/java/net/ashwork/functionance/Function2.java:40-43 | composing with a `before` that returns its argument changes nothing |
| Callables.ComposeTwice | core/src/main/java/net/ashwork/functionance/Function2.java:40-52 | composing twice on the same slot is one composition with the two transformers chained, the later one running first |
| Callables.ComposeAt | core/src/main/java/net/ashwork/functionance/Function2.java:40-43 | a composeK lambda is `before` on slot K followed by the original call with that slot replaced |
| Callables.Swap | core/src/main/java/net/ashwork/functionance/Function2.java:78-81 | the swapped callable keeps the arity |
| Callables.SwapLaw | core/src/main/java/net/ashwork/functionance/Function2.java:78-81 | called with slots K and K+1 exchanged, the swapped callable makes the original call; swapping twice gives back the original |
| Callables.Partial | core/src/main/java/net/ashwork/functionance/Function2.java:91-99 | fixing one slot leaves a callable of one arity less |
| Callables.PartialLaw | core/src/main/java/net/ashwork/functionance/Function2.java:91-99 | called with the other arguments in order, the partial application makes the original call |
| Callables.PartialOfSwap | core/src/main/java/net/ashwork/functionance/Function2.java:78-99 | fixing slot K of the swapped callable is fixing slot K+1 of the original |
| Callables.FallbackLaw | core/src/main/java/net/ashwork/functionance/Function2.java:63-65 | in the catch block: a throwing handler propagates its throwable; a null defaulted function throws a null-pointer error; otherwise the defaulted function runs on the same arguments, after the handler's effects |
| Callables.Fallback | core/src/main/java/net/ashwork/functionance/Function2.java:63-65 | the catch block: the handler runs first and its effects come first; a throwing handler propagates its throwable, a null defaulted function throws a null-pointer error, a non-null one decides the outcome, and the block succeeds only through a non-null defaulted function |
| Callables.Recover | core/src/main/java/net/ashwork/functionance/Function2.java:60-66 | the try statement: a completing call is left untouched, and a throwing one keeps its effects and ends as the catch block does |
| Callables.Handle | core/src/main/java/net/ashwork/functionance/Function2.java:57-60 | a null exception handler is rejected when the combinator is called; otherwise the result keeps the arity |
| Callables.HandleOk | core/src/main/java/net/ashwork/functionance/Function2.java:60-62 | when the body completes, the handled callable does exactly what the body did, and the handler plays no part |
| Callables.HandleFault | core/src/main/java/net/ashwork/functionance/Function2.java:63-65 | when the body throws, its effects stay; the handler then runs on that throwable, and its throwable, a null defaulted function, or the defaulted function's call is the result, with nothing caught a second time |
| Callables.Feed | core/src/main/java/net/ashwork/functionance/Function2.java:123-125 | a finished curried callable gives its result only when no arguments are left, and no result when given more; a stage given no argument gives no result |
| Callables.CurryFrom | core/src/main/java/net/ashwork/functionance/Function2.java:123-125 | the curried callable is finished exactly when no arguments remain |
| Callables.Curry | core/src/main/java/net/ashwork/functionance/Function2.java:123-125 | curry() starts with a stage that takes one argument |
| Callables.CurryFromLaw | core/src/main/java/net/ashwork/functionance/Function2.java:123-125 | feeding the remaining arguments one stage at a time makes the original call on all the arguments |
| Callables.CurryLaw | core/src/main/java/net/ashwork/functionance/Function2.java:123-125 | feeding all the arguments one by one to curry() makes the original call, its effects and its result or throwable |
| Callables.CurryFromMismatch | core/src/main/java/net/ashwork/functionance/Function2.java:123-125 | feeding fewer or more arguments than the stages still to come gives no result: the body is never reached |
| Callables.CurryMismatch | core/src/main/java/net/ashwork/functionance/Function2.java:123-125 | curry() fed any number of arguments other than the arity never makes the original call |
| Callables.CurryK | core/src/main/java/net/ashwork/functionance/Function5.java:194-229 | curryK() takes K arguments first |
| Callables.Uncurry | core/src/main/java/net/ashwork/functionance/Function5.java:194-229 | applying both stages of curryK(): the first stage's effects come first and its throwable escapes before the second stage runs; a first stage that just returns a callable hands the rest of the arguments to it |
| Callables.CurryKLaw | core/src/main/java/net/ashwork/functionance/Function5.java:194-229 | the first stage of curryK() runs nothing and returns a callable over the other arguments; supplying both groups makes the original call |
| Callables.CurryOneIsPartial | core/src/main/java/net/ashwork/functionance/Function5.java:157-196 | curry1() given its first argument behaves as partial1 of that argument |
| Callables.Append | core/src/main/java/net/ashwork/functionance/Function2.java:111-114 | append is eager: the addend is applied to this callable at once and its answer is the result; a null addend throws |
| Callables.AppendIgnoringLast | core/src/main/java/net/ashwork/functionance/Function2.java:111-114 | with an addend that widens by an ignored last argument, append runs nothing, adds one to the arity, and the new callable makes the original call |
| Functions.AndThen | core/src/main/java/net/ashwork/functionance/Function2.java:73-76 | a null `after` is rejected when the combinator is called; otherwise the result keeps the arity |
| Functions.AndThenLaw | core/src/main/java/net/ashwork/functionance/Function2.java:73-76 | `after` receives the result after the body's effects; if the body throws, `after` never runs and the throwable propagates |
| Functions.AndThenReturn | core/src/main/java/net/ashwork/functionance/Function2.java:73-76 | andThen with a transformer that returns its argument changes nothing |
| Functions.AndThenTwice | core/src/main/java/net/ashwork/functionance/Function2.java:73-76 | two andThen calls are one andThen with the two transformers chained, the first one running first |
| Functions.AndThenPartial | core/src/main/java/net/ashwork/functionance/Function2.java:73-99 | andThen commutes with partial application |
| Functions.Consume | core/src/main/java/net/ashwork/functionance/Function2.java:87-89 | the Runnable view keeps the arity |
| Functions.ConsumeLaw | core/src/main/java/net/ashwork/functionance/Function2.java:87-89 | the Runnable view performs exactly the function's effects, completes exactly when it does, and rethrows its throwable |
| Functions.ConsumeAfterPure | core/src/main/java/net/ashwork/functionance/Function2.java:73-89 | consuming after an andThen whose transformer completes without effects is consuming the original |
| Functions.ConsumeSwap | core/src/main/java/net/ashwork/functionance/Function2.java:78-89 | consume commutes with swapK |
| Runnables.Sequence | core/src/main/java/net/ashwork/functionance/runnable/Runnable2.java:72-78 | a null `after` operation is rejected when the combinator is called; otherwise the result keeps the arity |
| Runnables.SequenceLaw | core/src/main/java/net/ashwork/functionance/runnable/Runnable2.java:72-78 | the two operations run in order on the same arguments, and the second is skipped when the first throws |
| Runnables.SequenceAssoc | core/src/main/java/net/ashwork/functionance/runnable/Runnable2.java:72-78 | chaining three operations gives the same result however the andThen calls are grouped |
| Runnables.Lift | core/src/main/java/net/ashwork/functionance/runnable/Runnable2.java:84-88 | a null `after` transformer is rejected when the combinator is called; otherwise the result keeps the arity |
| Runnables.LiftLaw | core/src/main/java/net/ashwork/functionance/runnable/Runnable2.java:84-88 | after one run, the transformer receives null (the value of applyN); if the run throws, the transformer never runs |
| Scenarios.FunctionZero | core/src/test/java/net/ashwork/functionance/test/FunctionTests.java:40-63 | the checks of testFunction0: a handled effect-free Function0 answering s answers s, its andThen gives the transformer s, and its consume completes; beyond the helper, which only checks that the throwing function throws, a throwing Function0 whose handler falls back to that function answers s |
| Scenarios.RunnableZero | core/src/test/java/net/ashwork/functionance/test/RunnableTests.java:26-46 | the checks of testRunnable0, a helper no test invokes: a handled runnable runs exactly as before; andThen with a transformer gives it null after the run's effects; andThen with a second runnable performs both runs' effects in order |
| Function0.Handle | core/src/main/java/net/ashwork/functionance/Function0.java:38-47 | a completed `apply0` is returned as is; a throwing one keeps its effects, then the handler and its fallback run on the same 0 arguments, unprotected |
| Function0.AndThen | core/src/main/java/net/ashwork/functionance/Function0.java:53-56 | `after` receives the result of `apply0` after its effects; if `apply0` throws, `after` never runs and the throwable propagates |
| Function0.Consume | core/src/main/java/net/ashwork/functionance/Function0.java:62-64 | the Runnable0 view performs exactly the effects of `apply0`, completes exactly when it does, and rethrows its throwable |
| Function0.Append | core/src/main/java/net/ashwork/functionance/Function0.java:76-79 | the result is what the addend returns for this Function0 (a null addend throws); with an addend that ignores a new last argument the Function1 makes the original call |
| Function1.Compose1 | core/src/main/java/net/ashwork/functionance/Function1.java:38-41 | `before` runs first, on the first argument only; its result takes that slot and the call proceeds, or its throwable stops the call |
| Function1.Partial1 | core/src/main/java/net/ashwork/functionance/Function1.java:76-78 | a Function0 over the other arguments in order which, called with them, makes the original call with the first argument fixed |
| Function1.Handle | core/src/main/java/net/ashwork/functionance/Function1.java:47-56 | a completed `apply1` is returned as is; a throwing one keeps its effects, then the handler and its fallback run on the same 1 arguments, unprotected |
| Function1.AndThen | core/src/main/java/net/ashwork/functionance/Function1.java:62-65 | `after` receives the result of `apply1` after its effects; if `apply1` throws, `after` never runs and the throwable propagates |
| Function1.Consume | core/src/main/java/net/ashwork/functionance/Function1.java:71-73 | the Runnable1 view performs exactly the effects of `apply1`, completes exactly when it does, and rethrows its throwable |
| Function1.Append | core/src/main/java/net/ashwork/functionance/Function1.java:90-93 | the result is what the addend returns for this Function1 (a null addend throws); with an addend that ignores a new last argument the Function2 makes the original call |
| Function2.Compose1 | core/src/main/java/net/ashwork/functionance/Function2.java:49-52 | `before` runs first, on the first argument only; its result takes that slot and the call proceeds, or its throwable stops the call |
| Function2.Compose2 | core/src/main/java/net/ashwork/functionance/Function2.java:40-43 | `before` runs first, on the second argument only; its result takes that slot and the call proceeds, or its throwable stops the call |
| Function2.Swap1 | core/src/main/java/net/ashwork/functionance/Function2.java:79-81 | called with the first and second arguments exchanged, the swapped Function2 makes the original call; swapping twice gives back the original |
| Function2.Partial1 | core/src/main/java/net/ashwork/functionance/Function2.java:97-99 | a Function1 over the other arguments in order which, called with them, makes the original call with the first argument fixed |
| Function2.Partial2 | core/src/main/java/net/ashwork/functionance/Function2.java:92-94 | a Function1 over the other arguments in order which, called with them, makes the original call with the second argument fixed |
| Function2.Curry | core/src/main/java/net/ashwork/functionance/Function2.java:123-125 | feeding the 2 arguments one stage at a time makes the original call, with its effects and its result or throwable |
| Function2.Handle | core/src/main/java/net/ashwork/functionance/Function2.java:58-67 | a completed `apply2` is returned as is; a throwing one keeps its effects, then the handler and its fallback run on the same 2 arguments, unprotected |
| Function2.AndThen | core/src/main/java/net/ashwork/functionance/Function2.java:73-76 | `after` receives the result of `apply2` after its effects; if `apply2` throws, `after` never runs and the throwable propagates |
| Function2.Consume | core/src/main/java/net/ashwork/functionance/Function2.java:87-89 | the Runnable2 view performs exactly the effects of `apply2`, completes exactly when it does, and rethrows its throwable |
| Function2.Append | core/src/main/java/net/ashwork/functionance/Function2.java:111-114 | the result is what the addend returns for this Function2 (a null addend throws); with an addend that ignores a new last argument the Function3 makes the original call |
| Function3.Compose1 | core/src/main/java/net/ashwork/functionance/Function3.java:59-62 | `before` runs first, on the first argument only; its result takes that slot and the call proceeds, or its throwable stops the call |
| Function3.Compose2 | core/src/main/java/net/ashwork/functionance/Function3.java:50-53 | `before` runs first, on the second argument only; its result takes that slot and the call proceeds, or its throwable stops the call |
| Function3.Compose3 | core/src/main/java/net/ashwork/functionance/Function3.java:41-44 | `before` runs first, on the third argument only; its result takes that slot and the call proceeds, or its throwable stops the call |
| Function3.Swap1 | core/src/main/java/net/ashwork/functionance/Function3.java:94-96 | called with the first and second arguments exchanged, the swapped Function3 makes the original call; swapping twice gives back the original |
| Function3.Swap2 | core/src/main/java/net/ashwork/functionance/Function3.java:89-91 | called with the second and third arguments exchanged, the swapped Function3 makes the original call; swapping twice gives back the original |
| Function3.Partial1 | core/src/main/java/net/ashwork/functionance/Function3.java:117-119 | a Function2 over the other arguments in order which, called with them, makes the original call with the first argument fixed |
| Function3.Partial2 | core/src/main/java/net/ashwork/functionance/Function3.java:112-114 | a Function2 over the other arguments in order which, called with them, makes the original call with the second argument fixed |
| Function3.Partial3 | core/src/main/java/net/ashwork/functionance/Function3.java:107-109 | a Function2 over the other arguments in order which, called with them, makes the original call with the third argument fixed |
| Function3.Curry | core/src/main/java/net/ashwork/functionance/Function3.java:143-145 | feeding the 3 arguments one stage at a time makes the original call, with its effects and its result or throwable |
| Function3.Curry1 | core/src/main/java/net/ashwork/functionance/Function3.java:154-156 | groups the arguments 1 + 2; the first stage runs nothing, and supplying both groups makes the original call |
| Function3.Curry2 | core/src/main/java/net/ashwork/functionance/Function3.java:165-167 | groups the arguments 2 + 1; the first stage runs nothing, and supplying both groups makes the original call |
| Function3.Handle | core/src/main/java/net/ashwork/functionance/Function3.java:68-77 | a completed `apply3` is returned as is; a throwing one keeps its effects, then the handler and its fallback run on the same 3 arguments, unprotected |
| Function3.AndThen | core/src/main/java/net/ashwork/functionance/Function3.java:83-86 | `after` receives the result of `apply3` after its effects; if `apply3` throws, `after` never runs and the throwable propagates |
| Function3.Consume | core/src/main/java/net/ashwork/functionance/Function3.java:102-104 | the Runnable3 view performs exactly the effects of `apply3`, completes exactly when it does, and rethrows its throwable |
| Function3.Append | core/src/main/java/net/ashwork/functionance/Function3.java:131-134 | the result is what the addend returns for this Function3 (a null addend throws); with an addend that ignores a new last argument the Function4 makes the original call |
| Function4.Compose1 | core/src/main/java/net/ashwork/functionance/Function4.java:69-72 | `before` runs first, on the first argument only; its result takes that slot and the call proceeds, or its throwable stops the call |
| Function4.Compose2 | core/src/main/java/net/ashwork/functionance/Function4.java:60-63 | `before` runs first, on the second argument only; its result takes that slot and the call proceeds, or its throwable stops the call |
| Function4.Compose3 | core/src/main/java/net/ashwork/functionance/Function4.java:51-54 | `before` runs first, on the third argument only; its result takes that slot and the call proceeds, or its throwable stops the call |
| Function4.Compose4 | core/src/main/java/net/ashwork/functionance/Function4.java:42-45 | `before` runs first, on the fourth argument only; its result takes that slot and the call proceeds, or its throwable stops the call |
| Function4.Swap1 | core/src/main/java/net/ashwork/functionance/Function4.java:109-111 | called with the first and second arguments exchanged, the swapped Function4 makes the original call; swapping twice gives back the original |
| Function4.Swap2 | core/src/main/java/net/ashwork/functionance/Function4.java:104-106 | called with the second and third arguments exchanged, the swapped Function4 makes the original call; swapping twice gives back the original |
| Function4.Swap3 | core/src/main/java/net/ashwork/functionance/Function4.java:99-101 | called with the third and fourth arguments exchanged, the swapped Function4 makes the original call; swapping twice gives back the original |
| Function4.Partial1 | core/src/main/java/net/ashwork/functionance/Function4.java:137-139 | a Function3 over the other arguments in order which, called with them, makes the original call with the first argument fixed |
| Function4.Partial2 | core/src/main/java/net/ashwork/functionance/Function4.java:132-134 | a Function3 over the other arguments in order which, called with them, makes the original call with the second argument fixed |
| Function4.Partial3 | core/src/main/java/net/ashwork/functionance/Function4.java:127-129 | a Function3 over the other arguments in order which, called with them, makes the original call with the third argument fixed |
| Function4.Partial4 | core/src/main/java/net/ashwork/functionance/Function4.java:122-124 | a Function3 over the other arguments in order which, called with them, makes the original call with the fourth argument fixed |
| Function4.Curry | core/src/main/java/net/ashwork/functionance/Function4.java:163-165 | feeding the 4 arguments one stage at a time makes the original call, with its effects and its result or throwable |
| Function4.Curry1 | core/src/main/java/net/ashwork/functionance/Function4.java:174-176 | groups the arguments 1 + 3; the first stage runs nothing, and supplying both groups makes the original call |
| Function4.Curry2 | core/src/main/java/net/ashwork/functionance/Function4.java:185-187 | groups the arguments 2 + 2; the first stage runs nothing, and supplying both groups makes the original call |
| Function4.Curry3 | core/src/main/java/net/ashwork/functionance/Function4.java:196-198 | groups the arguments 3 + 1; the first stage runs nothing, and supplying both groups makes the original call |
| Function4.Handle | core/src/main/java/net/ashwork/functionance/Function4.java:78-87 | a completed `apply4` is returned as is; a throwing one keeps its effects, then the handler and its fallback run on the same 4 arguments, unprotected |
| Function4.AndThen | core/src/main/java/net/ashwork/functionance/Function4.java:93-96 | `after` receives the result of `apply4` after its effects; if `apply4` throws, `after` never runs and the throwable propagates |
| Function4.Consume | core/src/main/java/net/ashwork/functionance/Function4.java:117-119 | the Runnable4 view performs exactly the effects of `apply4`, completes exactly when it does, and rethrows its throwable |
| Function4.Append | core/src/main/java/net/ashwork/functionance/Function4.java:151-154 | the result is what the addend returns for this Function4 (a null addend throws); with an addend that ignores a new last argument the Function5 makes the original call |
| Function5.Compose1 | core/src/main/java/net/ashwork/functionance/Function5.java:79-82 | `before` runs first, on the first argument only; its result takes that slot and the call proceeds, or its throwable stops the call |
| Function5.Compose2 | core/src/main/java/net/ashwork/functionance/Function5.java:70-73 | `before` runs first, on the second argument only; its result takes that slot and the call proceeds, or its throwable stops the call |
| Function5.Compose3 | core/src/main/java/net/ashwork/functionance/Function5.java:61-64 | `before` runs first, on the third argument only; its result takes that slot and the call proceeds, or its throwable stops the call |
| Function5.Compose4 | core/src/main/java/net/ashwork/functionance/Function5.java:52-55 | `before` runs first, on the fourth argument only; its result takes that slot and the call proceeds, or its throwable stops the call |
| Function5.Compose5 | core/src/main/java/net/ashwork/functionance/Function5.java:43-46 | `before` runs first, on the fifth argument only; its result takes that slot and the call proceeds, or its throwable stops the call |
| Function5.Swap1 | core/src/main/java/net/ashwork/functionance/Function5.java:124-126 | called with the first and second arguments exchanged, the swapped Function5 makes the original call; swapping twice gives back the original |
| Function5.Swap2 | core/src/main/java/net/ashwork/functionance/Function5.java:119-121 | called with the second and third arguments exchanged, the swapped Function5 makes the original call; swapping twice gives back the original |
| Function5.Swap3 | core/src/main/java/net/ashwork/functionance/Function5.java:114-116 | called with the third and fourth arguments exchanged, the swapped Function5 makes the original call; swapping twice gives back the original |
| Function5.Swap4 | core/src/main/java/net/ashwork/functionance/Function5.java:109-111 | called with the fourth and fifth arguments exchanged, the swapped Function5 makes the original call; swapping twice gives back the original |
| Function5.Partial1 | core/src/main/java/net/ashwork/functionance/Function5.java:157-159 | a Function4 over the other arguments in order which, called with them, makes the original call with the first argument fixed |
| Function5.Partial2 | core/src/main/java/net/ashwork/functionance/Function5.java:152-154 | a Function4 over the other arguments in order which, called with them, makes the original call with the second argument fixed |
| Function5.Partial3 | core/src/main/java/net/ashwork/functionance/Function5.java:147-149 | a Function4 over the other arguments in order which, called with them, makes the original call with the third argument fixed |
| Function5.Partial4 | core/src/main/java/net/ashwork/functionance/Function5.java:142-144 | a Function4 over the other arguments in order which, called with them, makes the original call with the fourth argument fixed |
| Function5.Partial5 | core/src/main/java/net/ashwork/functionance/Function5.java:137-139 | a Function4 over the other arguments in order which, called with them, makes the original call with the fifth argument fixed |
| Function5.Curry | core/src/main/java/net/ashwork/functionance/Function5.java:183-185 | feeding the 5 arguments one stage at a time makes the original call, with its effects and its result or throwable |
| Function5.Curry1 | core/src/main/java/net/ashwork/functionance/Function5.java:194-196 | groups the arguments 1 + 4; the first stage runs nothing, and supplying both groups makes the original call |
| Function5.Curry2 | core/src/main/java/net/ashwork/functionance/Function5.java:205-207 | groups the arguments 2 + 3; the first stage runs nothing, and supplying both groups makes the original call |
| Function5.Curry3 | core/src/main/java/net/ashwork/functionance/Function5.java:216-218 | groups the arguments 3 + 2; the first stage runs nothing, and supplying both groups makes the original call |
| Function5.Curry4 | core/src/main/java/net/ashwork/functionance/Function5.java:227-229 | groups the arguments 4 + 1; the first stage runs nothing, and supplying both groups makes the original call |
| Function5.Handle | core/src/main/java/net/ashwork/functionance/Function5.java:88-97 | a completed `apply5` is returned as is; a throwing one keeps its effects, then the handler and its fallback run on the same 5 arguments, unprotected |
| Function5.AndThen | core/src/main/java/net/ashwork/functionance/Function5.java:103-106 | `after` receives the result of `apply5` after its effects; if `apply5` throws, `after` never runs and the throwable propagates |
| Function5.Consume | core/src/main/java/net/ashwork/functionance/Function5.java:132-134 | the Runnable5 view performs exactly the effects of `apply5`, completes exactly when it does, and rethrows its throwable |
| Function5.Append | core/src/main/java/net/ashwork/functionance/Function5.java:171-174 | the result is what the addend returns for this Function5 (a null addend throws); with an addend that ignores a new last argument the Function6 makes the original call |
| Function6.Compose1 | core/src/main/java/net/ashwork/functionance/Function6.java:89-92 | `before` runs first, on the first argument only; its result takes that slot and the call proceeds, or its throwable stops the call |
| Function6.Compose2 | core/src/main/java/net/ashwork/functionance/Function6.java:80-83 | `before` runs first, on the second argument only; its result takes that slot and the call proceeds, or its throwable stops the call |
| Function6.Compose3 | core/src/main/java/net/ashwork/functionance/Function6.java:71-74 | `before` runs first, on the third argument only; its result takes that slot and the call proceeds, or its throwable stops the call |
| Function6.Compose4 | core/src/main/java/net/ashwork/functionance/Function6.java:62-65 | `before` runs first, on the fourth argument only; its result takes that slot and the call proceeds, or its throwable stops the call |
| Function6.Compose5 | core/src/main/java/net/ashwork/functionance/Function6.java:53-56 | `before` runs first, on the fifth argument only; its result takes that slot and the call proceeds, or its throwable stops the call |
| Function6.Compose6 | core/src/main/java/net/ashwork/functionance/Function6.java:44-47 | `before` runs first, on the sixth argument only; its result takes that slot and the call proceeds, or its throwable stops the call |
| Function6.Swap1 | core/src/main/java/net/ashwork/functionance/Function6.java:139-141 | called with the first and second arguments exchanged, the swapped Function6 makes the original call; swapping twice gives back the original |
| Function6.Swap2 | core/src/main/java/net/ashwork/functionance/Function6.java:134-136 | called with the second and third arguments exchanged, the swapped Function6 makes the original call; swapping twice gives back the original |
| Function6.Swap3 | core/src/main/java/net/ashwork/functionance/Function6.java:129-131 | called with the third and fourth arguments exchanged, the swapped Function6 makes the original call; swapping twice gives back the original |
| Function6.Swap4 | core/src/main/java/net/ashwork/functionance/Function6.java:124-126 | called with the fourth and fifth arguments exchanged, the swapped Function6 makes the original call; swapping twice gives back the original |
| Function6.Swap5 | core/src/main/java/net/ashwork/functionance/Function6.java:119-121 | called with the fifth and sixth arguments exchanged, the swapped Function6 makes the original call; swapping twice gives back the original |
| Function6.Partial1 | core/src/main/java/net/ashwork/functionance/Function6.java:177-179 | a Function5 over the other arguments in order which, called with them, makes the original call with the first argument fixed |
| Function6.Partial2 | core/src/main/java/net/ashwork/functionance/Function6.java:172-174 | a Function5 over the other arguments in order which, called with them, makes the original call with the second argument fixed |
| Function6.Partial3 | core/src/main/java/net/ashwork/functionance/Function6.java:167-169 | a Function5 over the other arguments in order which, called with them, makes the original call with the third argument fixed |
| Function6.Partial4 | core/src/main/java/net/ashwork/functionance/Function6.java:162-164 | a Function5 over the other arguments in order which, called with them, makes the original call with the fourth argument fixed |
| Function6.Partial5 | core/src/main/java/net/ashwork/functionance/Function6.java:157-159 | a Function5 over the other arguments in order which, called with them, makes the original call with the fifth argument fixed |
| Function6.Partial6 | core/src/main/java/net/ashwork/functionance/Function6.java:152-154 | a Function5 over the other arguments in order which, called with them, makes the original call with the sixth argument fixed |
| Function6.Curry | core/src/main/java/net/ashwork/functionance/Function6.java:203-205 | feeding the 6 arguments one stage at a time makes the original call, with its effects and its result or throwable |
| Function6.Curry1 | core/src/main/java/net/ashwork/functionance/Function6.java:214-216 | groups the arguments 1 + 5; the first stage runs nothing, and supplying both groups makes the original call |
| Function6.Curry2 | core/src/main/java/net/ashwork/functionance/Function6.java:225-227 | groups the arguments 2 + 4; the first stage runs nothing, and supplying both groups makes the original call |
| Function6.Curry3 | core/src/main/java/net/ashwork/functionance/Function6.java:236-238 | groups the arguments 3 + 3; the first stage runs nothing, and supplying both groups makes the original call |
| Function6.Curry4 | core/src/main/java/net/ashwork/functionance/Function6.java:247-249 | groups the arguments 4 + 2; the first stage runs nothing, and supplying both groups makes the original call |
| Function6.Curry5 | core/src/main/java/net/ashwork/functionance/Function6.java:258-260 | groups the arguments 5 + 1; the first stage runs nothing, and supplying both groups makes the original call |
| Function6.Handle | core/src/main/java/net/ashwork/functionance/Function6.java:98-107 | a completed `apply6` is returned as is; a throwing one keeps its effects, then the handler and its fallback run on the same 6 arguments, unprotected |
| Function6.AndThen | core/src/main/java/net/ashwork/functionance/Function6.java:113-116 | `after` receives the result of `apply6` after its effects; if `apply6` throws, `after` never runs and the throwable propagates |
| Function6.Consume | core/src/main/java/net/ashwork/functionance/Function6.java:147-149 | the Runnable6 view performs exactly the effects of `apply6`, completes exactly when it does, and rethrows its throwable |
| Function6.Append | core/src/main/java/net/ashwork/functionance/Function6.java:191-194 | the result is what the addend returns for this Function6 (a null addend throws); with an addend that ignores a new last argument the Function7 makes the original call |
| Function7.Compose1 | core/src/main/java/net/ashwork/functionance/Function7.java:99-102 | `before` runs first, on the first argument only; its result takes that slot and the call proceeds, or its throwable stops the call |
| Function7.Compose2 | core/src/main/java/net/ashwork/functionance/Function7.java:90-93 | `before` runs first, on the second argument only; its result takes that slot and the call proceeds, or its throwable stops the call |
| Function7.Compose3 | core/src/main/java/net/ashwork/functionance/Function7.java:81-84 | `before` runs first, on the third argument only; its result takes that slot and the call proceeds, or its throwable stops the call |
| Function7.Compose4 | core/src/main/java/net/ashwork/functionance/Function7.java:72-75 | `before` runs first, on the fourth argument only; its result takes that slot and the call proceeds, or its throwable stops the call |
| Function7.Compose5 | core/src/main/java/net/ashwork/functionance/Function7.java:63-66 | `before` runs first, on the fifth argument only; its result takes that slot and the call proceeds, or its throwable stops the call |
| Function7.Compose6 | core/src/main/java/net/ashwork/functionance/Function7.java:54-57 | `before` runs first, on the sixth argument only; its result takes that slot and the call proceeds, or its throwable stops the call |
| Function7.Compose7 | core/src/main/java/net/ashwork/functionance/Function7.java:45-48 | `before` runs first, on the seventh argument only; its result takes that slot and the call proceeds, or its throwable stops the call |
| Function7.Swap1 | core/src/main/java/net/ashwork/functionance/Function7.java:154-156 | called with the first and second arguments exchanged, the swapped Function7 makes the original call; swapping twice gives back the original |
| Function7.Swap2 | core/src/main/java/net/ashwork/functionance/Function7.java:149-151 | called with the second and third arguments exchanged, the swapped Function7 makes the original call; swapping twice gives back the original |
| Function7.Swap3 | core/src/main/java/net/ashwork/functionance/Function7.java:144-146 | called with the third and fourth arguments exchanged, the swapped Function7 makes the original call; swapping twice gives back the original |
| Function7.Swap4 | core/src/main/java/net/ashwork/functionance/Function7.java:139-141 | called with the fourth and fifth arguments exchanged, the swapped Function7 makes the original call; swapping twice gives back the original |
| Function7.Swap5 | core/src/main/java/net/ashwork/functionance/Function7.java:134-136 | called with the fifth and sixth arguments exchanged, the swapped Function7 makes the original call; swapping twice gives back the original |
| Function7.Swap6 | core/src/main/java/net/ashwork/functionance/Function7.java:129-131 | called with the sixth and seventh arguments exchanged, the swapped Function7 makes the original call; swapping twice gives back the original |
| Function7.Partial1 | core/src/main/java/net/ashwork/functionance/Function7.java:197-199 | a Function6 over the other arguments in order which, called with them, makes the original call with the first argument fixed |
| Function7.Partial2 | core/src/main/java/net/ashwork/functionance/Function7.java:192-194 | a Function6 over the other arguments in order which, called with them, makes the original call with the second argument fixed |
| Function7.Partial3 | core/src/main/java/net/ashwork/functionance/Function7.java:187-189 | a Function6 over the other arguments in order which, called with them, makes the original call with the third argument fixed |
| Function7.Partial4 | core/src/main/java/net/ashwork/functionance/Function7.java:182-184 | a Function6 over the other arguments in order which, called with them, makes the original call with the fourth argument fixed |
| Function7.Partial5 | core/src/main/java/net/ashwork/functionance/Function7.java:177-179 | a Function6 over the other arguments in order which, called with them, makes the original call with the fifth argument fixed |
| Function7.Partial6 | core/src/main/java/net/ashwork/functionance/Function7.java:172-174 | a Function6 over the other arguments in order which, called with them, makes the original call with the sixth argument fixed |
| Function7.Partial7 | core/src/main/java/net/ashwork/functionance/Function7.java:167-169 | a Function6 over the other arguments in order which, called with them, makes the original call with the seventh argument fixed |
| Function7.Curry | core/src/main/java/net/ashwork/functionance/Function7.java:223-225 | feeding the 7 arguments one stage at a time makes the original call, with its effects and its result or throwable |
| Function7.Curry1 | core/src/main/java/net/ashwork/functionance/Function7.java:234-236 | groups the arguments 1 + 6; the first stage runs nothing, and supplying both groups makes the original call |
| Function7.Curry2 | core/src/main/java/net/ashwork/functionance/Function7.java:245-247 | groups the arguments 2 + 5; the first stage runs nothing, and supplying both groups makes the original call |
| Function7.Curry3 | core/src/main/java/net/ashwork/functionance/Function7.java:256-258 | groups the arguments 3 + 4; the first stage runs nothing, and supplying both groups makes the original call |
| Function7.Curry4 | core/src/main/java/net/ashwork/functionance/Function7.java:267-269 | groups the arguments 4 + 3; the first stage runs nothing, and supplying both groups makes the original call |
| Function7.Curry5 | core/src/main/java/net/ashwork/functionance/Function7.java:278-280 | groups the arguments 5 + 2; the first stage runs nothing, and supplying both groups makes the original call |
| Function7.Curry6 | core/src/main/java/net/ashwork/functionance/Function7.java:289-291 | groups the arguments 6 + 1; the first stage runs nothing, and supplying both groups makes the original call |
| Function7.Handle | core/src/main/java/net/ashwork/functionance/Function7.java:108-117 | a completed `apply7` is returned as is; a throwing one keeps its effects, then the handler and its fallback run on the same 7 arguments, unprotected |
| Function7.AndThen | core/src/main/java/net/ashwork/functionance/Function7.java:123-126 | `after` receives the result of `apply7` after its effects; if `apply7` throws, `after` never runs and the throwable propagates |
| Function7.Consume | core/src/main/java/net/ashwork/functionance/Function7.java:162-164 | the Runnable7 view performs exactly the effects of `apply7`, completes exactly when it does, and rethrows its throwable |
| Function7.Append | core/src/main/java/net/ashwork/functionance/Function7.java:211-214 | the result is what the addend returns for this Function7 (a null addend throws); with an addend that ignores a new last argument the Function8 makes the original call |
| Function8.Compose1 | core/src/main/java/net/ashwork/functionance/Function8.java:109-112 | `before` runs first, on the first argument only; its result takes that slot and the call proceeds, or its throwable stops the call |
| Function8.Compose2 | core/src/main/java/net/ashwork/functionance/Function8.java:100-103 | `before` runs first, on the second argument only; its result takes that slot and the call proceeds, or its throwable stops the call |
| Function8.Compose3 | core/src/main/java/net/ashwork/functionance/Function8.java:91-94 | `before` runs first, on the third argument only; its result takes that slot and the call proceeds, or its throwable stops the call |
| Function8.Compose4 | core/src/main/java/net/ashwork/functionance/Function8.java:82-85 | `before` runs first, on the fourth argument only; its result takes that slot and the call proceeds, or its throwable stops the call |
| Function8.Compose5 | core/src/main/java/net/ashwork/functionance/Function8.java:73-76 | `before` runs first, on the fifth argument only; its result takes that slot and the call proceeds, or its throwable stops the call |
| Function8.Compose6 | core/src/main/java/net/ashwork/functionance/Function8.java:64-67 | `before` runs first, on the sixth argument only; its result takes that slot and the call proceeds, or its throwable stops the call |
| Function8.Compose7 | core/src/main/java/net/ashwork/functionance/Function8.java:55-58 | `before` runs first, on the seventh argument only; its result takes that slot and the call proceeds, or its throwable stops the call |
| Function8.Compose8 | core/src/main/java/net/ashwork/functionance/Function8.java:46-49 | `before` runs first, on the eighth argument only; its result takes that slot and the call proceeds, or its throwable stops the call |
| Function8.Swap1 | core/src/main/java/net/ashwork/functionance/Function8.java:169-171 | called with the first and second arguments exchanged, the swapped Function8 makes the original call; swapping twice gives back the original |
| Function8.Swap2 | core/src/main/java/net/ashwork/functionance/Function8.java:164-166 | called with the second and third arguments exchanged, the swapped Function8 makes the original call; swapping twice gives back the original |
| Function8.Swap3 | core/src/main/java/net/ashwork/functionance/Function8.java:159-161 | called with the third and fourth arguments exchanged, the swapped Function8 makes the original call; swapping twice gives back the original |
| Function8.Swap4 | core/src/main/java/net/ashwork/functionance/Function8.java:154-156 | called with the fourth and fifth arguments exchanged, the swapped Function8 makes the original call; swapping twice gives back the original |
| Function8.Swap5 | core/src/main/java/net/ashwork/functionance/Function8.java:149-151 | called with the fifth and sixth arguments exchanged, the swapped Function8 makes the original call; swapping twice gives back the original |
| Function8.Swap6 | core/src/main/java/net/ashwork/functionance/Function8.java:144-146 | called with the sixth and seventh arguments exchanged, the swapped Function8 makes the original call; swapping twice gives back the original |
| Function8.Swap7 | core/src/main/java/net/ashwork/functionance/Function8.java:139-141 | called with the seventh and eighth arguments exchanged, the swapped Function8 makes the original call; swapping twice gives back the original |
| Function8.Partial1 | core/src/main/java/net/ashwork/functionance/Function8.java:217-219 | a Function7 over the other arguments in order which, called with them, makes the original call with the first argument fixed |
| Function8.Partial2 | core/src/main/java/net/ashwork/functionance/Function8.java:212-214 | a Function7 over the other arguments in order which, called with them, makes the original call with the second argument fixed |
| Function8.Partial3 | core/src/main/java/net/ashwork/functionance/Function8.java:207-209 | a Function7 over the other arguments in order which, called with them, makes the original call with the third argument fixed |
| Function8.Partial4 | core/src/main/java/net/ashwork/functionance/Function8.java:202-204 | a Function7 over the other arguments in order which, called with them, makes the original call with the fourth argument fixed |
| Function8.Partial5 | core/src/main/java/net/ashwork/functionance/Function8.java:197-199 | a Function7 over the other arguments in order which, called with them, makes the original call with the fifth argument fixed |
| Function8.Partial6 | core/src/main/java/net/ashwork/functionance/Function8.java:192-194 | a Function7 over the other arguments in order which, called with them, makes the original call with the sixth argument fixed |
| Function8.Partial7 | core/src/main/java/net/ashwork/functionance/Function8.java:187-189 | a Function7 over the other arguments in order which, called with them, makes the original call with the seventh argument fixed |
| Function8.Partial8 | core/src/main/java/net/ashwork/functionance/Function8.java:182-184 | a Function7 over the other arguments in order which, called with them, makes the original call with the eighth argument fixed |
| Function8.Curry | core/src/main/java/net/ashwork/functionance/Function8.java:228-230 | feeding the 8 arguments one stage at a time makes the original call, with its effects and its result or throwable |
| Function8.Curry1 | core/src/main/java/net/ashwork/functionance/Function8.java:239-241 | groups the arguments 1 + 7; the first stage runs nothing, and supplying both groups makes the original call |
| Function8.Curry2 | core/src/main/java/net/ashwork/functionance/Function8.java:250-252 | groups the arguments 2 + 6; the first stage runs nothing, and supplying both groups makes the original call |
| Function8.Curry3 | core/src/main/java/net/ashwork/functionance/Function8.java:261-263 | groups the arguments 3 + 5; the first stage runs nothing, and supplying both groups makes the original call |
| Function8.Curry4 | core/src/main/java/net/ashwork/functionance/Function8.java:272-274 | groups the arguments 4 + 4; the first stage runs nothing, and supplying both groups makes the original call |
| Function8.Curry5 | core/src/main/java/net/ashwork/functionance/Function8.java:283-285 | groups the arguments 5 + 3; the first stage runs nothing, and supplying both groups makes the original call |
| Function8.Curry6 | core/src/main/java/net/ashwork/functionance/Function8.java:294-296 | groups the arguments 6 + 2; the first stage runs nothing, and supplying both groups makes the original call |
| Function8.Curry7 | core/src/main/java/net/ashwork/functionance/Function8.java:305-307 | groups the arguments 7 + 1; the first stage runs nothing, and supplying both groups makes the original call |
| Function8.Handle | core/src/main/java/net/ashwork/functionance/Function8.java:118-127 | a completed `apply8` is returned as is; a throwing one keeps its effects, then the handler and its fallback run on the same 8 arguments, unprotected |
| Function8.AndThen | core/src/main/java/net/ashwork/functionance/Function8.java:133-136 | `after` receives the result of `apply8` after its effects; if `apply8` throws, `after` never runs and the throwable propagates |
| Function8.Consume | core/src/main/java/net/ashwork/functionance/Function8.java:177-179 | the Runnable8 view performs exactly the effects of `apply8`, completes exactly when it does, and rethrows its throwable |
| Runnable0.Handle | core/src/main/java/net/ashwork/functionance/runnable/Runnable0.java:36-45 | a completed `run0` is returned as is; a throwing one keeps its effects, then the handler and its fallback run on the same 0 arguments, unprotected |
| Runnable0.AndThenRunnable | core/src/main/java/net/ashwork/functionance/runnable/Runnable0.java:51-57 | the effects of `run0` come before those of `after` on the same arguments; `after` is skipped when `run0` throws |
| Runnable0.AndThenTransformer | core/src/main/java/net/ashwork/functionance/runnable/Runnable0.java:64-67 | the Function0 runs `run0` once and then returns the transformer applied to `null`; a throwable from `run0` skips the transformer |
| Runnable0.Append | core/src/main/java/net/ashwork/functionance/runnable/Runnable0.java:79-82 | the result is what the addend returns for this Runnable0 (a null addend throws); with an addend that ignores a new last argument the Runnable1 makes the original call |
| Runnable1.Compose1 | core/src/main/java/net/ashwork/functionance/runnable/Runnable1.java:37-40 | `before` runs first, on the first argument only; its result takes that slot and the call proceeds, or its throwable stops the call |
| Runnable1.Partial1 | core/src/main/java/net/ashwork/functionance/runnable/Runnable1.java:80-82 | a Runnable0 over the other arguments in order which, called with them, makes the original call with the first argument fixed |
| Runnable1.Handle | core/src/main/java/net/ashwork/functionance/runnable/Runnable1.java:46-55 | a completed `run1` is returned as is; a throwing one keeps its effects, then the handler and its fallback run on the same 1 arguments, unprotected |
| Runnable1.AndThenRunnable | core/src/main/java/net/ashwork/functionance/runnable/Runnable1.java:61-67 | the effects of `run1` come before those of `after` on the same arguments; `after` is skipped when `run1` throws |
| Runnable1.AndThenTransformer | core/src/main/java/net/ashwork/functionance/runnable/Runnable1.java:74-77 | the Function1 runs `run1` once and then returns the transformer applied to `null`; a throwable from `run1` skips the transformer |
| Runnable1.Append | core/src/main/java/net/ashwork/functionance/runnable/Runnable1.java:94-97 | the result is what the addend returns for this Runnable1 (a null addend throws); with an addend that ignores a new last argument the Runnable2 makes the original call |
| Runnable2.Compose1 | core/src/main/java/net/ashwork/functionance/runnable/Runnable2.java:48-51 | `before` runs first, on the first argument only; its result takes that slot and the call proceeds, or its throwable stops the call |
| Runnable2.Compose2 | core/src/main/java/net/ashwork/functionance/runnable/Runnable2.java:39-42 | `before` runs first, on the second argument only; its result takes that slot and the call proceeds, or its throwable stops the call |
| Runnable2.Swap1 | core/src/main/java/net/ashwork/functionance/runnable/Runnable2.java:91-93 | called with the first and second arguments exchanged, the swapped Runnable2 makes the original call; swapping twice gives back the original |
| Runnable2.Partial1 | core/src/main/java/net/ashwork/functionance/runnable/Runnable2.java:101-103 | a Runnable1 over the other arguments in order which, called with them, makes the original call with the first argument fixed |
| Runnable2.Partial2 | core/src/main/java/net/ashwork/functionance/runnable/Runnable2.java:96-98 | a Runnable1 over the other arguments in order which, called with them, makes the original call with the second argument fixed |
| Runnable2.Curry | core/src/main/java/net/ashwork/functionance/runnable/Runnable2.java:127-129 | feeding the 2 arguments one stage at a time makes the original call, with its effects and its result or throwable |
| Runnable2.Handle | core/src/main/java/net/ashwork/functionance/runnable/Runnable2.java:57-66 | a completed `run2` is returned as is; a throwing one keeps its effects, then the handler and its fallback run on the same 2 arguments, unprotected |
| Runnable2.AndThenRunnable | core/src/main/java/net/ashwork/functionance/runnable/Runnable2.java:72-78 | the effects of `run2` come before those of `after` on the same arguments; `after` is skipped when `run2` throws |
| Runnable2.AndThenTransformer | core/src/main/java/net/ashwork/functionance/runnable/Runnable2.java:85-88 | the Function2 runs `run2` once and then returns the transformer applied to `null`; a throwable from `run2` skips the transformer |
| Runnable2.Append | core/src/main/java/net/ashwork/functionance/runnable/Runnable2.java:115-118 | the result is what the addend returns for this Runnable2 (a null addend throws); with an addend that ignores a new last argument the Runnable3 makes the original call |
| Runnable3.Compose1 | core/src/main/java/net/ashwork/functionance/runnable/Runnable3.java:59-62 | `before` runs first, on the first argument only; its result takes that slot and the call proceeds, or its throwable stops the call |
| Runnable3.Compose2 | core/src/main/java/net/ashwork/functionance/runnable/Runnable3.java:50-53 | `before` runs first, on the second argument only; its result takes that slot and the call proceeds, or its throwable stops the call |
| Runnable3.Compose3 | core/src/main/java/net/ashwork/functionance/runnable/Runnable3.java:41-44 | `before` runs first, on the third argument only; its result takes that slot and the call proceeds, or its throwable stops the call |
| Runnable3.Swap1 | core/src/main/java/net/ashwork/functionance/runnable/Runnable3.java:107-109 | called with the first and second arguments exchanged, the swapped Runnable3 makes the original call; swapping twice gives back the original |
| Runnable3.Swap2 | core/src/main/java/net/ashwork/functionance/runnable/Runnable3.java:102-104 | called with the second and third arguments exchanged, the swapped Runnable3 makes the original call; swapping twice gives back the original |
| Runnable3.Partial1 | core/src/main/java/net/ashwork/functionance/runnable/Runnable3.java:122-124 | a Runnable2 over the other arguments in order which, called with them, makes the original call with the first argument fixed |
| Runnable3.Partial2 | core/src/main/java/net/ashwork/functionance/runnable/Runnable3.java:117-119 | a Runnable2 over the other arguments in order which, called with them, makes the original call with the second argument fixed |
| Runnable3.Partial3 | core/src/main/java/net/ashwork/functionance/runnable/Runnable3.java:112-114 | a Runnable2 over the other arguments in order which, called with them, makes the original call with the third argument fixed |
| Runnable3.Curry | core/src/main/java/net/ashwork/functionance/runnable/Runnable3.java:148-150 | feeding the 3 arguments one stage at a time makes the original call, with its effects and its result or throwable |
| Runnable3.Curry1 | core/src/main/java/net/ashwork/functionance/runnable/Runnable3.java:159-161 | groups the arguments 1 + 2; the first stage runs nothing, and supplying both groups makes the original call |
| Runnable3.Curry2 | core/src/main/java/net/ashwork/functionance/runnable/Runnable3.java:170-172 | groups the arguments 2 + 1; the first stage runs nothing, and supplying both groups makes the original call |
| Runnable3.Handle | core/src/main/java/net/ashwork/functionance/runnable/Runnable3.java:68-77 | a completed `run3` is returned as is; a throwing one keeps its effects, then the handler and its fallback run on the same 3 arguments, unprotected |
| Runnable3.AndThenRunnable | core/src/main/java/net/ashwork/functionance/runnable/Runnable3.java:83-89 | the effects of `run3` come before those of `after` on the same arguments; `after` is skipped when `run3` throws |
| Runnable3.AndThenTransformer | core/src/main/java/net/ashwork/functionance/runnable/Runnable3.java:96-99 | the Function3 runs `run3` once and then returns the transformer applied to `null`; a throwable from `run3` skips the transformer |
| Runnable3.Append | core/src/main/java/net/ashwork/functionance/runnable/Runnable3.java:136-139 | the result is what the addend returns for this Runnable3 (a null addend throws); with an addend that ignores a new last argument the Runnable4 makes the original call |
| Runnable4.Compose1 | core/src/main/java/net/ashwork/functionance/runnable/Runnable4.java:70-73 | `before` runs first, on the first argument only; its result takes that slot and the call proceeds, or its throwable stops the call |
| Runnable4.Compose2 | core/src/main/java/net/ashwork/functionance/runnable/Runnable4.java:61-64 | `before` runs first, on the second argument only; its result takes that slot and the call proceeds, or its throwable stops the call |
| Runnable4.Compose3 | core/src/main/java/net/ashwork/functionance/runnable/Runnable4.java:52-55 | `before` runs first, on the third argument only; its result takes that slot and the call proceeds, or its throwable stops the call |
| Runnable4.Compose4 | core/src/main/java/net/ashwork/functionance/runnable/Runnable4.java:43-46 | `before` runs first, on the fourth argument only; its result takes that slot and the call proceeds, or its throwable stops the call |
| Runnable4.Swap1 | core/src/main/java/net/ashwork/functionance/runnable/Runnable4.java:123-125 | called with the first and second arguments exchanged, the swapped Runnable4 makes the original call; swapping twice gives back the original |
| Runnable4.Swap2 | core/src/main/java/net/ashwork/functionance/runnable/Runnable4.java:118-120 | called with the second and third arguments exchanged, the swapped Runnable4 makes the original call; swapping twice gives back the original |
| Runnable4.Swap3 | core/src/main/java/net/ashwork/functionance/runnable/Runnable4.java:113-115 | called with the third and fourth arguments exchanged, the swapped Runnable4 makes the original call; swapping twice gives back the original |
| Runnable4.Partial1 | core/src/main/java/net/ashwork/functionance/runnable/Runnable4.java:143-145 | a Runnable3 over the other arguments in order which, called with them, makes the original call with the first argument fixed |
| Runnable4.Partial2 | core/src/main/java/net/ashwork/functionance/runnable/Runnable4.java:138-140 | a Runnable3 over the other arguments in order which, called with them, makes the original call with the second argument fixed |
| Runnable4.Partial3 | core/src/main/java/net/ashwork/functionance/runnable/Runnable4.java:133-135 | a Runnable3 over the other arguments in order which, called with them, makes the original call with the third argument fixed |
| Runnable4.Partial4 | core/src/main/java/net/ashwork/functionance/runnable/Runnable4.java:128-130 | a Runnable3 over the other arguments in order which, called with them, makes the original call with the fourth argument fixed |
| Runnable4.Curry | core/src/main/java/net/ashwork/functionance/runnable/Runnable4.java:169-171 | feeding the 4 arguments one stage at a time makes the original call, with its effects and its result or throwable |
| Runnable4.Curry1 | core/src/main/java/net/ashwork/functionance/runnable/Runnable4.java:180-182 | groups the arguments 1 + 3; the first stage runs nothing, and supplying both groups makes the original call |
| Runnable4.Curry2 | core/src/main/java/net/ashwork/functionance/runnable/Runnable4.java:191-193 | groups the arguments 2 + 2; the first stage runs nothing, and supplying both groups makes the original call |
| Runnable4.Curry3 | core/src/main/java/net/ashwork/functionance/runnable/Runnable4.java:202-204 | groups the arguments 3 + 1; the first stage runs nothing, and supplying both groups makes the original call |
| Runnable4.Handle | core/src/main/java/net/ashwork/functionance/runnable/Runnable4.java:79-88 | a completed `run4` is returned as is; a throwing one keeps its effects, then the handler and its fallback run on the same 4 arguments, unprotected |
| Runnable4.AndThenRunnable | core/src/main/java/net/ashwork/functionance/runnable/Runnable4.java:94-100 | the effects of `run4` come before those of `after` on the same arguments; `after` is skipped when `run4` throws |
| Runnable4.AndThenTransformer | core/src/main/java/net/ashwork/functionance/runnable/Runnable4.java:107-110 | the Function4 runs `run4` once and then returns the transformer applied to `null`; a throwable from `run4` skips the transformer |
| Runnable4.Append | core/src/main/java/net/ashwork/functionance/runnable/Runnable4.java:157-160 | the result is what the addend returns for this Runnable4 (a null addend throws); with an addend that ignores a new last argument the Runnable5 makes the original call |
| Runnable5.Compose1 | core/src/main/java/net/ashwork/functionance/runnable/Runnable5.java:77-80 | `before` runs first, on the first argument only; its result takes that slot and the call proceeds, or its throwable stops the call |
| Runnable5.Compose2 | core/src/main/java/net/ashwork/functionance/runnable/Runnable5.java:68-71 | `before` runs first, on the second argument only; its result takes that slot and the call proceeds, or its throwable stops the call |
| Runnable5.Compose3 | core/src/main/java/net/ashwork/functionance/runnable/Runnable5.java:59-62 | `before` runs first, on the third argument only; its result takes that slot and the call proceeds, or its throwable stops the call |
| Runnable5.Compose4 | core/src/main/java/net/ashwork/functionance/runnable/Runnable5.java:50-53 | `before` runs first, on the fourth argument only; its result takes that slot and the call proceeds, or its throwable stops the call |
| Runnable5.Compose5 | core/src/main/java/net/ashwork/functionance/runnable/Runnable5.java:41-44 | `before` runs first, on the fifth argument only; its result takes that slot and the call proceeds, or its throwable stops the call |
| Runnable5.Swap1 | core/src/main/java/net/ashwork/functionance/runnable/Runnable5.java:135-137 | called with the first and second arguments exchanged, the swapped Runnable5 makes the original call; swapping twice gives back the original |
| Runnable5.Swap2 | core/src/main/java/net/ashwork/functionance/runnable/Runnable5.java:130-132 | called with the second and third arguments exchanged, the swapped Runnable5 makes the original call; swapping twice gives back the original |
| Runnable5.Swap3 | core/src/main/java/net/ashwork/functionance/runnable/Runnable5.java:125-127 | called with the third and fourth arguments exchanged, the swapped Runnable5 makes the original call; swapping twice gives back the original |
| Runnable5.Swap4 | core/src/main/java/net/ashwork/functionance/runnable/Runnable5.java:120-122 | called with the fourth and fifth arguments exchanged, the swapped Runnable5 makes the original call; swapping twice gives back the original |
| Runnable5.Partial1 | core/src/main/java/net/ashwork/functionance/runnable/Runnable5.java:160-162 | a Runnable4 over the other arguments in order which, called with them, makes the original call with the first argument fixed |
| Runnable5.Partial2 | core/src/main/java/net/ashwork/functionance/runnable/Runnable5.java:155-157 | a Runnable4 over the other arguments in order which, called with them, makes the original call with the second argument fixed |
| Runnable5.Partial3 | core/src/main/java/net/ashwork/functionance/runnable/Runnable5.java:150-152 | a Runnable4 over the other arguments in order which, called with them, makes the original call with the third argument fixed |
| Runnable5.Partial4 | core/src/main/java/net/ashwork/functionance/runnable/Runnable5.java:145-147 | a Runnable4 over the other arguments in order which, called with them, makes the original call with the fourth argument fixed |
| Runnable5.Partial5 | core/src/main/java/net/ashwork/functionance/runnable/Runnable5.java:140-142 | a Runnable4 over the other arguments in order which, called with them, makes the original call with the fifth argument fixed |
| Runnable5.Curry | core/src/main/java/net/ashwork/functionance/runnable/Runnable5.java:186-188 | feeding the 5 arguments one stage at a time makes the original call, with its effects and its result or throwable |
| Runnable5.Curry1 | core/src/main/java/net/ashwork/functionance/runnable/Runnable5.java:197-199 | groups the arguments 1 + 4; the first stage runs nothing, and supplying both groups makes the original call |
| Runnable5.Curry2 | core/src/main/java/net/ashwork/functionance/runnable/Runnable5.java:208-210 | groups the arguments 2 + 3; the first stage runs nothing, and supplying both groups makes the original call |
| Runnable5.Curry3 | core/src/main/java/net/ashwork/functionance/runnable/Runnable5.java:219-221 | groups the arguments 3 + 2; the first stage runs nothing, and supplying both groups makes the original call |
| Runnable5.Curry5 | core/src/main/java/net/ashwork/functionance/runnable/Runnable5.java:230-232 | groups the arguments 4 + 1 (not 5 + 0 as the name suggests); the first stage runs nothing, and supplying both groups makes the original call |
| Runnable5.Handle | core/src/main/java/net/ashwork/functionance/runnable/Runnable5.java:86-95 | a completed `run5` is returned as is; a throwing one keeps its effects, then the handler and its fallback run on the same 5 arguments, unprotected |
| Runnable5.AndThenRunnable | core/src/main/java/net/ashwork/functionance/runnable/Runnable5.java:101-107 | the effects of `run5` come before those of `after` on the same arguments; `after` is skipped when `run5` throws |
| Runnable5.AndThenTransformer | core/src/main/java/net/ashwork/functionance/runnable/Runnable5.java:114-117 | the Function5 runs `run5` once and then returns the transformer applied to `null`; a throwable from `run5` skips the transformer |
| Runnable5.Append | core/src/main/java/net/ashwork/functionance/runnable/Runnable5.java:174-177 | the result is what the addend returns for this Runnable5 (a null addend throws); with an addend that ignores a new last argument the Runnable6 makes the original call |
| Runnable6.Compose1 | core/src/main/java/net/ashwork/functionance/runnable/Runnable6.java:87-90 | `before` runs first, on the first argument only; its result takes that slot and the call proceeds, or its throwable stops the call |
| Runnable6.Compose2 | core/src/main/java/net/ashwork/functionance/runnable/Runnable6.java:78-81 | `before` runs first, on the second argument only; its result takes that slot and the call proceeds, or its throwable stops the call |
| Runnable6.Compose3 | core/src/main/java/net/ashwork/functionance/runnable/Runnable6.java:69-72 | `before` runs first, on the third argument only; its result takes that slot and the call proceeds, or its throwable stops the call |
| Runnable6.Compose4 | core/src/main/java/net/ashwork/functionance/runnable/Runnable6.java:60-63 | `before` runs first, on the fourth argument only; its result takes that slot and the call proceeds, or its throwable stops the call |
| Runnable6.Compose5 | core/src/main/java/net/ashwork/functionance/runnable/Runnable6.java:51-54 | `before` runs first, on the fifth argument only; its result takes that slot and the call proceeds, or its throwable stops the call |
| Runnable6.Compose6 | core/src/main/java/net/ashwork/functionance/runnable/Runnable6.java:42-45 | `before` runs first, on the sixth argument only; its result takes that slot and the call proceeds, or its throwable stops the call |
| Runnable6.Swap1 | core/src/main/java/net/ashwork/functionance/runnable/Runnable6.java:150-152 | called with the first and second arguments exchanged, the swapped Runnable6 makes the original call; swapping twice gives back the original |
| Runnable6.Swap2 | core/src/main/java/net/ashwork/functionance/runnable/Runnable6.java:145-147 | called with the second and third arguments exchanged, the swapped Runnable6 makes the original call; swapping twice gives back the original |
| Runnable6.Swap3 | core/src/main/java/net/ashwork/functionance/runnable/Runnable6.java:140-142 | called with the third and fourth arguments exchanged, the swapped Runnable6 makes the original call; swapping twice gives back the original |
| Runnable6.Swap4 | core/src/main/java/net/ashwork/functionance/runnable/Runnable6.java:135-137 | called with the fourth and fifth arguments exchanged, the swapped Runnable6 makes the original call; swapping twice gives back the original |
| Runnable6.Swap5 | core/src/main/java/net/ashwork/functionance/runnable/Runnable6.java:130-132 | called with the fifth and sixth arguments exchanged, the swapped Runnable6 makes the original call; swapping twice gives back the original |
| Runnable6.Partial1 | core/src/main/java/net/ashwork/functionance/runnable/Runnable6.java:180-182 | a Runnable5 over the other arguments in order which, called with them, makes the original call with the first argument fixed |
| Runnable6.Partial2 | core/src/main/java/net/ashwork/functionance/runnable/Runnable6.java:175-177 | a Runnable5 over the other arguments in order which, called with them, makes the original call with the second argument fixed |
| Runnable6.Partial3 | core/src/main/java/net/ashwork/functionance/runnable/Runnable6.java:170-172 | a Runnable5 over the other arguments in order which, called with them, makes the original call with the third argument fixed |
| Runnable6.Partial4 | core/src/main/java/net/ashwork/functionance/runnable/Runnable6.java:165-167 | a Runnable5 over the other arguments in order which, called with them, makes the original call with the fourth argument fixed |
| Runnable6.Partial5 | core/src/main/java/net/ashwork/functionance/runnable/Runnable6.java:160-162 | a Runnable5 over the other arguments in order which, called with them, makes the original call with the fifth argument fixed |
| Runnable6.Partial6 | core/src/main/java/net/ashwork/functionance/runnable/Runnable6.java:155-157 | a Runnable5 over the other arguments in order which, called with them, makes the original call with the sixth argument fixed |
| Runnable6.Curry | core/src/main/java/net/ashwork/functionance/runnable/Runnable6.java:206-208 | feeding the 6 arguments one stage at a time makes the original call, with its effects and its result or throwable |
| Runnable6.Curry1 | core/src/main/java/net/ashwork/functionance/runnable/Runnable6.java:217-219 | groups the arguments 1 + 5; the first stage runs nothing, and supplying both groups makes the original call |
| Runnable6.Curry2 | core/src/main/java/net/ashwork/functionance/runnable/Runnable6.java:228-230 | groups the arguments 2 + 4; the first stage runs nothing, and supplying both groups makes the original call |
| Runnable6.Curry3 | core/src/main/java/net/ashwork/functionance/runnable/Runnable6.java:239-241 | groups the arguments 3 + 3; the first stage runs nothing, and supplying both groups makes the original call |
| Runnable6.Curry5 | core/src/main/java/net/ashwork/functionance/runnable/Runnable6.java:250-252 | groups the arguments 4 + 2 (not 5 + 1 as the name suggests); the first stage runs nothing, and supplying both groups makes the original call |
| Runnable6.Curry6 | core/src/main/java/net/ashwork/functionance/runnable/Runnable6.java:261-263 | groups the arguments 5 + 1 (not 6 + 0 as the name suggests); the first stage runs nothing, and supplying both groups makes the original call |
| Runnable6.Handle | core/src/main/java/net/ashwork/functionance/runnable/Runnable6.java:96-105 | a completed `run6` is returned as is; a throwing one keeps its effects, then the handler and its fallback run on the same 6 arguments, unprotected |
| Runnable6.AndThenRunnable | core/src/main/java/net/ashwork/functionance/runnable/Runnable6.java:111-117 | the effects of `run6` come before those of `after` on the same arguments; `after` is skipped when `run6` throws |
| Runnable6.AndThenTransformer | core/src/main/java/net/ashwork/functionance/runnable/Runnable6.java:124-127 | the Function6 runs `run6` once and then returns the transformer applied to `null`; a throwable from `run6` skips the transformer |
| Runnable6.Append | core/src/main/java/net/ashwork/functionance/runnable/Runnable6.java:194-197 | the result is what the addend returns for this Runnable6 (a null addend throws); with an addend that ignores a new last argument the Runnable7 makes the original call |
| Runnable8.Compose1 | core/src/main/java/net/ashwork/functionance/runnable/Runnable8.java:107-110 | `before` runs first, on the first argument only; its result takes that slot and the call proceeds, or its throwable stops the call |
| Runnable8.Compose2 | core/src/main/java/net/ashwork/functionance/runnable/Runnable8.java:98-101 | `before` runs first, on the second argument only; its result takes that slot and the call proceeds, or its throwable stops the call |
| Runnable8.Compose3 | core/src/main/java/net/ashwork/functionance/runnable/Runnable8.java:89-92 | `before` runs first, on the third argument only; its result takes that slot and the call proceeds, or its throwable stops the call |
| Runnable8.Compose4 | core/src/main/java/net/ashwork/functionance/runnable/Runnable8.java:80-83 | `before` runs first, on the fourth argument only; its result takes that slot and the call proceeds, or its throwable stops the call |
| Runnable8.Compose5 | core/src/main/java/net/ashwork/functionance/runnable/Runnable8.java:71-74 | `before` runs first, on the fifth argument only; its result takes that slot and the call proceeds, or its throwable stops the call |
| Runnable8.Compose6 | core/src/main/java/net/ashwork/functionance/runnable/Runnable8.java:62-65 | `before` runs first, on the sixth argument only; its result takes that slot and the call proceeds, or its throwable stops the call |
| Runnable8.Compose7 | core/src/main/java/net/ashwork/functionance/runnable/Runnable8.java:53-56 | `before` runs first, on the seventh argument only; its result takes that slot and the call proceeds, or its throwable stops the call |
| Runnable8.Compose8 | core/src/main/java/net/ashwork/functionance/runnable/Runnable8.java:44-47 | `before` runs first, on the eighth argument only; its result takes that slot and the call proceeds, or its throwable stops the call |
| Runnable8.Swap1 | core/src/main/java/net/ashwork/functionance/runnable/Runnable8.java:180-182 | called with the first and second arguments exchanged, the swapped Runnable8 makes the original call; swapping twice gives back the original |
| Runnable8.Swap2 | core/src/main/java/net/ashwork/functionance/runnable/Runnable8.java:175-177 | called with the second and third arguments exchanged, the swapped Runnable8 makes the original call; swapping twice gives back the original |
| Runnable8.Swap3 | core/src/main/java/net/ashwork/functionance/runnable/Runnable8.java:170-172 | called with the third and fourth arguments exchanged, the swapped Runnable8 makes the original call; swapping twice gives back the original |
| Runnable8.Swap4 | core/src/main/java/net/ashwork/functionance/runnable/Runnable8.java:165-167 | called with the fourth and fifth arguments exchanged, the swapped Runnable8 makes the original call; swapping twice gives back the original |
| Runnable8.Swap5 | core/src/main/java/net/ashwork/functionance/runnable/Runnable8.java:160-162 | called with the fifth and sixth arguments exchanged, the swapped Runnable8 makes the original call; swapping twice gives back the original |
| Runnable8.Swap6 | core/src/main/java/net/ashwork/functionance/runnable/Runnable8.java:155-157 | called with the sixth and seventh arguments exchanged, the swapped Runnable8 makes the original call; swapping twice gives back the original |
| Runnable8.Swap7 | core/src/main/java/net/ashwork/functionance/runnable/Runnable8.java:150-152 | called with the seventh and eighth arguments exchanged, the swapped Runnable8 makes the original call; swapping twice gives back the original |
| Runnable8.Partial1 | core/src/main/java/net/ashwork/functionance/runnable/Runnable8.java:297-299 | a Runnable7 over the other arguments in order which, called with them, makes the original call with the first argument fixed |
| Runnable8.Partial2 | core/src/main/java/net/ashwork/functionance/runnable/Runnable8.java:292-294 | a Runnable7 over the other arguments in order which, called with them, makes the original call with the second argument fixed |
| Runnable8.Partial3 | core/src/main/java/net/ashwork/functionance/runnable/Runnable8.java:287-289 | a Runnable7 over the other arguments in order which, called with them, makes the original call with the third argument fixed |
| Runnable8.Partial4 | core/src/main/java/net/ashwork/functionance/runnable/Runnable8.java:282-284 | a Runnable7 over the other arguments in order which, called with them, makes the original call with the fourth argument fixed |
| Runnable8.Partial5 | core/src/main/java/net/ashwork/functionance/runnable/Runnable8.java:277-279 | a Runnable7 over the other arguments in order which, called with them, makes the original call with the fifth argument fixed |
| Runnable8.Partial6 | core/src/main/java/net/ashwork/functionance/runnable/Runnable8.java:272-274 | a Runnable7 over the other arguments in order which, called with them, makes the original call with the sixth argument fixed |
| Runnable8.Partial7 | core/src/main/java/net/ashwork/functionance/runnable/Runnable8.java:267-269 | a Runnable7 over the other arguments in order which, called with them, makes the original call with the seventh argument fixed |
| Runnable8.Partial8 | core/src/main/java/net/ashwork/functionance/runnable/Runnable8.java:262-264 | a Runnable7 over the other arguments in order which, called with them, makes the original call with the eighth argument fixed |
| Runnable8.Curry | core/src/main/java/net/ashwork/functionance/runnable/Runnable8.java:191-193 | feeding the 8 arguments one stage at a time makes the original call, with its effects and its result or throwable |
| Runnable8.Curry1 | core/src/main/java/net/ashwork/functionance/runnable/Runnable8.java:202-204 | groups the arguments 1 + 7; the first stage runs nothing, and supplying both groups makes the original call |
| Runnable8.Curry2 | core/src/main/java/net/ashwork/functionance/runnable/Runnable8.java:213-215 | groups the arguments 2 + 6; the first stage runs nothing, and supplying both groups makes the original call |
| Runnable8.Curry3 | core/src/main/java/net/ashwork/functionance/runnable/Runnable8.java:224-226 | groups the arguments 3 + 5; the first stage runs nothing, and supplying both groups makes the original call |
| Runnable8.Curry5 | core/src/main/java/net/ashwork/functionance/runnable/Runnable8.java:235-237 | groups the arguments 4 + 4 (not 5 + 3 as the name suggests); the first stage runs nothing, and supplying both groups makes the original call |
| Runnable8.Curry6 | core/src/main/java/net/ashwork/functionance/runnable/Runnable8.java:246-248 | groups the arguments 5 + 3 (not 6 + 2 as the name suggests); the first stage runs nothing, and supplying both groups makes the original call |
| Runnable8.Curry7 | core/src/main/java/net/ashwork/functionance/runnable/Runnable8.java:257-259 | groups the arguments 6 + 2 (not 7 + 1 as the name suggests); the first stage runs nothing, and supplying both groups makes the original call |
| Runnable8.Curry8 | core/src/main/java/net/ashwork/functionance/runnable/Runnable8.java:308-310 | groups the arguments 7 + 1 (not 8 + 0 as the name suggests); the first stage runs nothing, and supplying both groups makes the original call |
| Runnable8.Handle | core/src/main/java/net/ashwork/functionance/runnable/Runnable8.java:116-125 | a completed `run8` is returned as is; a throwing one keeps its effects, then the handler and its fallback run on the same 8 arguments, unprotected |
| Runnable8.AndThenRunnable | core/src/main/java/net/ashwork/functionance/runnable/Runnable8.java:131-137 | the effects of `run8` come before those of `after` on the same arguments; `after` is skipped when `run8` throws |
| Runnable8.AndThenTransformer | core/src/main/java/net/ashwork/functionance/runnable/Runnable8.java:144-147 | the Function8 runs `run8` once and then returns the transformer applied to `null`; a throwable from `run8` skips the transformer |

## Left out

- Java generics, wildcards and variance: every argument is a `Val`, and every result type is a type parameter.
- Object identity and `equals`: callables are compared by their behaviour on every argument list.
- The Throwable hierarchy and its messages: a throwable is an `Err`, with one value for the library's own null-pointer errors. Which errors a `catch (Throwable)` sees is not distinguished.
- Concurrency, and side effects other than an ordered trace of abstract events.
- Input0, Input3, Transformer3, Transformer6, Transformer7, Transformer8 and Runnable7 are not part of this model; only the facts the chain needs are used: Transformer3 and Transformer8 extend nothing, and `Transformer.Super` and `Transformer.Transformer4Defaults` take Transformer6 and Transformer7 to extend the next arity with defaults that drop the last argument, as Transformer4 and Transformer5 do.
- Task.ApplyWidened: Task6's `apply7` and Task7's `apply8` come from Transformer6 and Transformer7, which are not part of this model. They are assumed to have Transformer5's shape (drop the last argument).
- Callables.Append: the arity of the callable the addend returns is not checked; Java's types fix it to one more, and `Callables.AppendIgnoringLast` covers the usual addend.
- Callables.Handle: the arity of the fallback callable a handler returns is not checked; Java's types make it the same as the handled callable's.
- Callables.Curry: the intermediate Function1 stages of `curry()` are a `Curried` value rather than `Callable`s; a stage runs no effects and cannot throw, as in the Java lambdas.
- `Arity.arity()` is modelled as `Callable.arity` and `Input.Arity`, not as a method of each interface.
- The random string generator and the JUnit harness of the tests.
