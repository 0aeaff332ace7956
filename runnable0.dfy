/** Runnable0.java: the combinators of a Runnable0, at their slot positions. */
module Runnable0 {
  import opened Base
  import Callables
  import Runnables

  /** `handle`: a completed call is returned unchanged; a throwing call keeps
      its effects and is followed by the `catch` block, which invokes the
      handler's fallback on the same arguments. */
  lemma Handle(r: Callable<()>, h: Err -> Exec<Option<Callable<()>>>)
    requires r.arity == 0
    ensures r.apply([]).out.Ok? ==> Callables.Handle(r, Some(h)).v.apply([]) == r.apply([])
    ensures r.apply([]).out.Fault? ==>
      var body := r.apply([]);
      var fallback := Callables.Fallback(h, body.out.e, []);
      Callables.Handle(r, Some(h)).v.apply([]) == Exec(body.trace + fallback.trace, fallback.out)
  {
  }

  /** `andThen(Runnable0)`: this operation, then `after`, on the same
      arguments; `after` does not run when this operation throws. */
  lemma AndThenRunnable(r: Callable<()>, after: Callable<()>)
    requires r.arity == after.arity == 0
    ensures r.apply([]).out.Fault? ==>
      Runnables.Sequence(r, Some(after)).v.apply([]) == Exec(r.apply([]).trace, Fault(r.apply([]).out.e))
    ensures r.apply([]).out.Ok? ==>
      Runnables.Sequence(r, Some(after)).v.apply([]) == Exec(r.apply([]).trace + after.apply([]).trace, after.apply([]).out)
  {
    Runnables.SequenceLaw(r, after, []);
  }

  /** `andThen(Transformer1)`: after one `run0`, the transformer gets
      `null`, the value of `apply0`. */
  lemma AndThenTransformer<V>(r: Callable<()>, after: Val -> Exec<V>)
    requires r.arity == 0
    ensures r.apply([]).out.Fault? ==>
      Runnables.Lift(r, Some(after)).v.apply([]) == Exec(r.apply([]).trace, Fault(r.apply([]).out.e))
    ensures r.apply([]).out.Ok? ==>
      Runnables.Lift(r, Some(after)).v.apply([]) == Exec(r.apply([]).trace + after(Null).trace, after(Null).out)
  {
    Runnables.LiftLaw(r, after, []);
  }

  /** `append(addend)`: the addend is applied to this Runnable0 at once and its
      answer, a Runnable1, is returned; a null addend is rejected. */
  lemma Append<T>(r: Callable<()>, addend: Callable<()> -> Exec<T>, o: Val)
    requires r.arity == 0
    ensures Callables.Append(r, Some(addend)) == addend(r)
    ensures Callables.Append(r, None) == Throw<T>(NullArg)
    ensures Callables.Append(r, Some((g: Callable<()>) => Return(IgnoreLast(g)))).out.v.apply([o]) == r.apply([])
  {
    Callables.AppendIgnoringLast(r, [], o);
    assert [] + [o] == [o];
  }
}
