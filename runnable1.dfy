/** Runnable1.java: the combinators of a Runnable1, at their slot positions. */
module Runnable1 {
  import opened Base
  import Callables
  import Input
  import Runnables

  /** `compose1(before)`: the first argument goes through `before` first. */
  lemma Compose1(r: Callable<()>, b: Val -> Exec<Val>, v: Val)
    requires r.arity == 1
    ensures Callables.Compose(r, 0, Some(b)).v.apply([v]) == Then(b(v), x => r.apply([x]))
  {
    forall w ensures [v][0 := w] == [w] { }
    Callables.ComposeAt(r, 0, b, [v], x => r.apply([x]));
  }

  /** `partial1(t1)`: the first argument is fixed; the others keep their order. */
  lemma Partial1(r: Callable<()>, t1: Val)
    requires r.arity == 1
    ensures Callables.Partial(r, 0, t1).arity == 0
    ensures Callables.Partial(r, 0, t1).apply([]) == r.apply([t1])
  {
    Callables.PartialLaw(r, 0, [t1]);
    assert Input.Removed([t1], 0) == [];
  }

  /** `handle`: a completed call is returned unchanged; a throwing call keeps
      its effects and is followed by the `catch` block, which invokes the
      handler's fallback on the same arguments. */
  lemma Handle(r: Callable<()>, h: Err -> Exec<Option<Callable<()>>>, t1: Val)
    requires r.arity == 1
    ensures r.apply([t1]).out.Ok? ==> Callables.Handle(r, Some(h)).v.apply([t1]) == r.apply([t1])
    ensures r.apply([t1]).out.Fault? ==>
      var body := r.apply([t1]);
      var fallback := Callables.Fallback(h, body.out.e, [t1]);
      Callables.Handle(r, Some(h)).v.apply([t1]) == Exec(body.trace + fallback.trace, fallback.out)
  {
  }

  /** `andThen(Runnable1)`: this operation, then `after`, on the same
      arguments; `after` does not run when this operation throws. */
  lemma AndThenRunnable(r: Callable<()>, after: Callable<()>, t1: Val)
    requires r.arity == after.arity == 1
    ensures r.apply([t1]).out.Fault? ==>
      Runnables.Sequence(r, Some(after)).v.apply([t1]) == Exec(r.apply([t1]).trace, Fault(r.apply([t1]).out.e))
    ensures r.apply([t1]).out.Ok? ==>
      Runnables.Sequence(r, Some(after)).v.apply([t1]) == Exec(r.apply([t1]).trace + after.apply([t1]).trace, after.apply([t1]).out)
  {
    Runnables.SequenceLaw(r, after, [t1]);
  }

  /** `andThen(Transformer1)`: after one `run1`, the transformer gets
      `null`, the value of `apply1`. */
  lemma AndThenTransformer<V>(r: Callable<()>, after: Val -> Exec<V>, t1: Val)
    requires r.arity == 1
    ensures r.apply([t1]).out.Fault? ==>
      Runnables.Lift(r, Some(after)).v.apply([t1]) == Exec(r.apply([t1]).trace, Fault(r.apply([t1]).out.e))
    ensures r.apply([t1]).out.Ok? ==>
      Runnables.Lift(r, Some(after)).v.apply([t1]) == Exec(r.apply([t1]).trace + after(Null).trace, after(Null).out)
  {
    Runnables.LiftLaw(r, after, [t1]);
  }

  /** `append(addend)`: the addend is applied to this Runnable1 at once and its
      answer, a Runnable2, is returned; a null addend is rejected. */
  lemma Append<T>(r: Callable<()>, addend: Callable<()> -> Exec<T>, t1: Val, o: Val)
    requires r.arity == 1
    ensures Callables.Append(r, Some(addend)) == addend(r)
    ensures Callables.Append(r, None) == Throw<T>(NullArg)
    ensures Callables.Append(r, Some((g: Callable<()>) => Return(IgnoreLast(g)))).out.v.apply([t1, o]) == r.apply([t1])
  {
    Callables.AppendIgnoringLast(r, [t1], o);
    assert [t1] + [o] == [t1, o];
  }
}
