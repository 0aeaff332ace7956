/** The checks of the arity-0 test helpers `testFunction0` and
    `testRunnable0` (the latter is never invoked by a test), stated for every
    function and runnable of the shape the helpers use, plus the recovery of
    a throwing Function0, which the tests do not exercise. */
module Scenarios {
  import opened Base
  import Callables
  import Functions
  import Runnables

  /** The handler of the tests: whatever was thrown, fall back to `g`. */
  function FallBackTo<R>(g: Callable<R>): Err -> Exec<Option<Callable<R>>>
  {
    (_: Err) => Return(Some(g))
  }

  /** The checks of `testFunction0`: a function that answers `s` without
      effects, handled with a handler that falls back to itself, answers `s`;
      its `andThen` hands `s` to the transformer; its `consume` completes.
      Beyond the helper, which only checks that `throwing` throws: a throwing
      Function0 whose handler falls back to that function answers `s`. */
  lemma FunctionZero<V>(throwing: Callable<Val>, f: Callable<Val>, s: Val, e: Err, a: Val -> Exec<V>)
    requires throwing.arity == 0 && f.arity == 0
    requires throwing.apply([]) == Exec([], Fault(e))
    requires f.apply([]) == Exec([], Ok(s))
    ensures Callables.Handle(f, Some(FallBackTo(f))).v.arity == 0
    ensures Callables.Handle(f, Some(FallBackTo(f))).v.apply([]) == Exec([], Ok(s))
    ensures Functions.AndThen(Callables.Handle(f, Some(FallBackTo(f))).v, Some(a)).v.apply([]) == a(s)
    ensures Functions.Consume(Callables.Handle(f, Some(FallBackTo(f))).v).apply([]) == Exec([], Ok(()))
    ensures Callables.Handle(throwing, Some(FallBackTo(f))).v.apply([]) == Exec([], Ok(s))
  {
    var handled := Callables.Handle(f, Some(FallBackTo(f))).v;
    Callables.HandleOk(f, FallBackTo(f), FallBackTo(f), []);
    Functions.AndThenLaw(handled, a, []);
    assert [] + a(s).trace == a(s).trace;
    Functions.ConsumeLaw(handled, []);
    Callables.HandleFault(throwing, FallBackTo(f), []);
  }

  /** The checks of `testRunnable0`, which no test invokes: a runnable with
      effects `first`, handled with a fallback to itself, runs exactly as
      before; its `andThen` with a transformer hands it `null` after those
      effects; followed by another runnable, the effects of both happen in
      order. */
  lemma RunnableZero<V>(runnable: Callable<()>, after: Callable<()>, first: seq<Event>, second: seq<Event>, a: Val -> Exec<V>)
    requires runnable.arity == 0 && after.arity == 0
    requires runnable.apply([]) == Exec(first, Ok(()))
    requires after.apply([]) == Exec(second, Ok(()))
    ensures Callables.Handle(runnable, Some(FallBackTo(runnable))).v.apply([]) == Exec(first, Ok(()))
    ensures Runnables.Lift(Callables.Handle(runnable, Some(FallBackTo(runnable))).v, Some(a)).v.apply([])
      == Exec(first + a(Null).trace, a(Null).out)
    ensures Runnables.Sequence(runnable, Some(after)).v.apply([]) == Exec(first + second, Ok(()))
  {
    var handled := Callables.Handle(runnable, Some(FallBackTo(runnable))).v;
    Callables.HandleOk(runnable, FallBackTo(runnable), FallBackTo(runnable), []);
    Runnables.LiftLaw(handled, a, []);
    Runnables.SequenceLaw(runnable, after, []);
  }
}
