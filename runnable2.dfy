/** Runnable2.java: the combinators of a Runnable2, at their slot positions. */
module Runnable2 {
  import opened Base
  import Callables
  import Input
  import Runnables

  /** `compose1(before)`: the first argument goes through `before` first. */
  lemma Compose1(r: Callable<()>, b: Val -> Exec<Val>, v: Val, t2: Val)
    requires r.arity == 2
    ensures Callables.Compose(r, 0, Some(b)).v.apply([v, t2]) == Then(b(v), x => r.apply([x, t2]))
  {
    forall w ensures [v, t2][0 := w] == [w, t2] { }
    Callables.ComposeAt(r, 0, b, [v, t2], x => r.apply([x, t2]));
  }

  /** `compose2(before)`: the second argument goes through `before` first. */
  lemma Compose2(r: Callable<()>, b: Val -> Exec<Val>, t1: Val, v: Val)
    requires r.arity == 2
    ensures Callables.Compose(r, 1, Some(b)).v.apply([t1, v]) == Then(b(v), x => r.apply([t1, x]))
  {
    forall w ensures [t1, v][1 := w] == [t1, w] { }
    Callables.ComposeAt(r, 1, b, [t1, v], x => r.apply([t1, x]));
  }

  /** `swap1()`: the first and second arguments change places; doing it twice
      changes nothing. */
  lemma Swap1(r: Callable<()>, t1: Val, t2: Val)
    requires r.arity == 2
    ensures Callables.Swap(r, 0).apply([t2, t1]) == r.apply([t1, t2])
    ensures Callables.Swap(Callables.Swap(r, 0), 0).apply([t1, t2]) == r.apply([t1, t2])
  {
    Callables.SwapLaw(r, 0, [t1, t2]);
    assert Input.Swapped([t1, t2], 0) == [t2, t1];
  }

  /** `partial1(t1)`: the first argument is fixed; the others keep their order. */
  lemma Partial1(r: Callable<()>, t1: Val, t2: Val)
    requires r.arity == 2
    ensures Callables.Partial(r, 0, t1).arity == 1
    ensures Callables.Partial(r, 0, t1).apply([t2]) == r.apply([t1, t2])
  {
    Callables.PartialLaw(r, 0, [t1, t2]);
    assert Input.Removed([t1, t2], 0) == [t2];
  }

  /** `partial2(t2)`: the second argument is fixed; the others keep their order. */
  lemma Partial2(r: Callable<()>, t1: Val, t2: Val)
    requires r.arity == 2
    ensures Callables.Partial(r, 1, t2).arity == 1
    ensures Callables.Partial(r, 1, t2).apply([t1]) == r.apply([t1, t2])
  {
    Callables.PartialLaw(r, 1, [t1, t2]);
    assert Input.Removed([t1, t2], 1) == [t1];
  }

  /** `curry()`: one single-argument stage per argument. */
  lemma Curry(r: Callable<()>, t1: Val, t2: Val)
    requires r.arity == 2
    ensures Callables.Feed(Callables.Curry(r), [t1, t2]) == Some(r.apply([t1, t2]))
  {
    Callables.CurryLaw(r, [t1, t2]);
  }

  /** `handle`: a completed call is returned unchanged; a throwing call keeps
      its effects and is followed by the `catch` block, which invokes the
      handler's fallback on the same arguments. */
  lemma Handle(r: Callable<()>, h: Err -> Exec<Option<Callable<()>>>, t1: Val, t2: Val)
    requires r.arity == 2
    ensures r.apply([t1, t2]).out.Ok? ==> Callables.Handle(r, Some(h)).v.apply([t1, t2]) == r.apply([t1, t2])
    ensures r.apply([t1, t2]).out.Fault? ==>
      var body := r.apply([t1, t2]);
      var fallback := Callables.Fallback(h, body.out.e, [t1, t2]);
      Callables.Handle(r, Some(h)).v.apply([t1, t2]) == Exec(body.trace + fallback.trace, fallback.out)
  {
  }

  /** `andThen(Runnable2)`: this operation, then `after`, on the same
      arguments; `after` does not run when this operation throws. */
  lemma AndThenRunnable(r: Callable<()>, after: Callable<()>, t1: Val, t2: Val)
    requires r.arity == after.arity == 2
    ensures r.apply([t1, t2]).out.Fault? ==>
      Runnables.Sequence(r, Some(after)).v.apply([t1, t2]) == Exec(r.apply([t1, t2]).trace, Fault(r.apply([t1, t2]).out.e))
    ensures r.apply([t1, t2]).out.Ok? ==>
      Runnables.Sequence(r, Some(after)).v.apply([t1, t2]) == Exec(r.apply([t1, t2]).trace + after.apply([t1, t2]).trace, after.apply([t1, t2]).out)
  {
    Runnables.SequenceLaw(r, after, [t1, t2]);
  }

  /** `andThen(Transformer1)`: after one `run2`, the transformer gets
      `null`, the value of `apply2`. */
  lemma AndThenTransformer<V>(r: Callable<()>, after: Val -> Exec<V>, t1: Val, t2: Val)
    requires r.arity == 2
    ensures r.apply([t1, t2]).out.Fault? ==>
      Runnables.Lift(r, Some(after)).v.apply([t1, t2]) == Exec(r.apply([t1, t2]).trace, Fault(r.apply([t1, t2]).out.e))
    ensures r.apply([t1, t2]).out.Ok? ==>
      Runnables.Lift(r, Some(after)).v.apply([t1, t2]) == Exec(r.apply([t1, t2]).trace + after(Null).trace, after(Null).out)
  {
    Runnables.LiftLaw(r, after, [t1, t2]);
  }

  /** `append(addend)`: the addend is applied to this Runnable2 at once and its
      answer, a Runnable3, is returned; a null addend is rejected. */
  lemma Append<T>(r: Callable<()>, addend: Callable<()> -> Exec<T>, t1: Val, t2: Val, o: Val)
    requires r.arity == 2
    ensures Callables.Append(r, Some(addend)) == addend(r)
    ensures Callables.Append(r, None) == Throw<T>(NullArg)
    ensures Callables.Append(r, Some((g: Callable<()>) => Return(IgnoreLast(g)))).out.v.apply([t1, t2, o]) == r.apply([t1, t2])
  {
    Callables.AppendIgnoringLast(r, [t1, t2], o);
    assert [t1, t2] + [o] == [t1, t2, o];
  }
}
