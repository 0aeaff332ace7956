/** Runnable3.java: the combinators of a Runnable3, at their slot positions. */
module Runnable3 {
  import opened Base
  import Callables
  import Input
  import Runnables

  /** `compose1(before)`: the first argument goes through `before` first. */
  lemma Compose1(r: Callable<()>, b: Val -> Exec<Val>, v: Val, t2: Val, t3: Val)
    requires r.arity == 3
    ensures Callables.Compose(r, 0, Some(b)).v.apply([v, t2, t3]) == Then(b(v), x => r.apply([x, t2, t3]))
  {
    forall w ensures [v, t2, t3][0 := w] == [w, t2, t3] { }
    Callables.ComposeAt(r, 0, b, [v, t2, t3], x => r.apply([x, t2, t3]));
  }

  /** `compose2(before)`: the second argument goes through `before` first. */
  lemma Compose2(r: Callable<()>, b: Val -> Exec<Val>, t1: Val, v: Val, t3: Val)
    requires r.arity == 3
    ensures Callables.Compose(r, 1, Some(b)).v.apply([t1, v, t3]) == Then(b(v), x => r.apply([t1, x, t3]))
  {
    forall w ensures [t1, v, t3][1 := w] == [t1, w, t3] { }
    Callables.ComposeAt(r, 1, b, [t1, v, t3], x => r.apply([t1, x, t3]));
  }

  /** `compose3(before)`: the third argument goes through `before` first. */
  lemma Compose3(r: Callable<()>, b: Val -> Exec<Val>, t1: Val, t2: Val, v: Val)
    requires r.arity == 3
    ensures Callables.Compose(r, 2, Some(b)).v.apply([t1, t2, v]) == Then(b(v), x => r.apply([t1, t2, x]))
  {
    forall w ensures [t1, t2, v][2 := w] == [t1, t2, w] { }
    Callables.ComposeAt(r, 2, b, [t1, t2, v], x => r.apply([t1, t2, x]));
  }

  /** `swap1()`: the first and second arguments change places; doing it twice
      changes nothing. */
  lemma Swap1(r: Callable<()>, t1: Val, t2: Val, t3: Val)
    requires r.arity == 3
    ensures Callables.Swap(r, 0).apply([t2, t1, t3]) == r.apply([t1, t2, t3])
    ensures Callables.Swap(Callables.Swap(r, 0), 0).apply([t1, t2, t3]) == r.apply([t1, t2, t3])
  {
    Callables.SwapLaw(r, 0, [t1, t2, t3]);
    assert Input.Swapped([t1, t2, t3], 0) == [t2, t1, t3];
  }

  /** `swap2()`: the second and third arguments change places; doing it twice
      changes nothing. */
  lemma Swap2(r: Callable<()>, t1: Val, t2: Val, t3: Val)
    requires r.arity == 3
    ensures Callables.Swap(r, 1).apply([t1, t3, t2]) == r.apply([t1, t2, t3])
    ensures Callables.Swap(Callables.Swap(r, 1), 1).apply([t1, t2, t3]) == r.apply([t1, t2, t3])
  {
    Callables.SwapLaw(r, 1, [t1, t2, t3]);
    assert Input.Swapped([t1, t2, t3], 1) == [t1, t3, t2];
  }

  /** `partial1(t1)`: the first argument is fixed; the others keep their order. */
  lemma Partial1(r: Callable<()>, t1: Val, t2: Val, t3: Val)
    requires r.arity == 3
    ensures Callables.Partial(r, 0, t1).arity == 2
    ensures Callables.Partial(r, 0, t1).apply([t2, t3]) == r.apply([t1, t2, t3])
  {
    Callables.PartialLaw(r, 0, [t1, t2, t3]);
    assert Input.Removed([t1, t2, t3], 0) == [t2, t3];
  }

  /** `partial2(t2)`: the second argument is fixed; the others keep their order. */
  lemma Partial2(r: Callable<()>, t1: Val, t2: Val, t3: Val)
    requires r.arity == 3
    ensures Callables.Partial(r, 1, t2).arity == 2
    ensures Callables.Partial(r, 1, t2).apply([t1, t3]) == r.apply([t1, t2, t3])
  {
    Callables.PartialLaw(r, 1, [t1, t2, t3]);
    assert Input.Removed([t1, t2, t3], 1) == [t1, t3];
  }

  /** `partial3(t3)`: the third argument is fixed; the others keep their order. */
  lemma Partial3(r: Callable<()>, t1: Val, t2: Val, t3: Val)
    requires r.arity == 3
    ensures Callables.Partial(r, 2, t3).arity == 2
    ensures Callables.Partial(r, 2, t3).apply([t1, t2]) == r.apply([t1, t2, t3])
  {
    Callables.PartialLaw(r, 2, [t1, t2, t3]);
    assert Input.Removed([t1, t2, t3], 2) == [t1, t2];
  }

  /** `curry()`: one single-argument stage per argument. */
  lemma Curry(r: Callable<()>, t1: Val, t2: Val, t3: Val)
    requires r.arity == 3
    ensures Callables.Feed(Callables.Curry(r), [t1, t2, t3]) == Some(r.apply([t1, t2, t3]))
  {
    Callables.CurryLaw(r, [t1, t2, t3]);
  }

  /** `curry1()`: the first 1 arguments, then the other 2. */
  lemma Curry1(r: Callable<()>, t1: Val, t2: Val, t3: Val)
    requires r.arity == 3
    ensures Callables.CurryK(r, 1).apply([t1]).trace == []
    ensures Callables.Uncurry(Callables.CurryK(r, 1), [t1], [t2, t3]) == r.apply([t1, t2, t3])
  {
    Callables.CurryKLaw(r, 1, [t1, t2, t3]);
    assert [t1, t2, t3][..1] == [t1] && [t1, t2, t3][1..] == [t2, t3];
  }

  /** `curry2()`: the first 2 arguments, then the other 1. */
  lemma Curry2(r: Callable<()>, t1: Val, t2: Val, t3: Val)
    requires r.arity == 3
    ensures Callables.CurryK(r, 2).apply([t1, t2]).trace == []
    ensures Callables.Uncurry(Callables.CurryK(r, 2), [t1, t2], [t3]) == r.apply([t1, t2, t3])
  {
    Callables.CurryKLaw(r, 2, [t1, t2, t3]);
    assert [t1, t2, t3][..2] == [t1, t2] && [t1, t2, t3][2..] == [t3];
  }

  /** `handle`: a completed call is returned unchanged; a throwing call keeps
      its effects and is followed by the `catch` block, which invokes the
      handler's fallback on the same arguments. */
  lemma Handle(r: Callable<()>, h: Err -> Exec<Option<Callable<()>>>, t1: Val, t2: Val, t3: Val)
    requires r.arity == 3
    ensures r.apply([t1, t2, t3]).out.Ok? ==> Callables.Handle(r, Some(h)).v.apply([t1, t2, t3]) == r.apply([t1, t2, t3])
    ensures r.apply([t1, t2, t3]).out.Fault? ==>
      var body := r.apply([t1, t2, t3]);
      var fallback := Callables.Fallback(h, body.out.e, [t1, t2, t3]);
      Callables.Handle(r, Some(h)).v.apply([t1, t2, t3]) == Exec(body.trace + fallback.trace, fallback.out)
  {
  }

  /** `andThen(Runnable3)`: this operation, then `after`, on the same
      arguments; `after` does not run when this operation throws. */
  lemma AndThenRunnable(r: Callable<()>, after: Callable<()>, t1: Val, t2: Val, t3: Val)
    requires r.arity == after.arity == 3
    ensures r.apply([t1, t2, t3]).out.Fault? ==>
      Runnables.Sequence(r, Some(after)).v.apply([t1, t2, t3]) == Exec(r.apply([t1, t2, t3]).trace, Fault(r.apply([t1, t2, t3]).out.e))
    ensures r.apply([t1, t2, t3]).out.Ok? ==>
      Runnables.Sequence(r, Some(after)).v.apply([t1, t2, t3]) == Exec(r.apply([t1, t2, t3]).trace + after.apply([t1, t2, t3]).trace, after.apply([t1, t2, t3]).out)
  {
    Runnables.SequenceLaw(r, after, [t1, t2, t3]);
  }

  /** `andThen(Transformer1)`: after one `run3`, the transformer gets
      `null`, the value of `apply3`. */
  lemma AndThenTransformer<V>(r: Callable<()>, after: Val -> Exec<V>, t1: Val, t2: Val, t3: Val)
    requires r.arity == 3
    ensures r.apply([t1, t2, t3]).out.Fault? ==>
      Runnables.Lift(r, Some(after)).v.apply([t1, t2, t3]) == Exec(r.apply([t1, t2, t3]).trace, Fault(r.apply([t1, t2, t3]).out.e))
    ensures r.apply([t1, t2, t3]).out.Ok? ==>
      Runnables.Lift(r, Some(after)).v.apply([t1, t2, t3]) == Exec(r.apply([t1, t2, t3]).trace + after(Null).trace, after(Null).out)
  {
    Runnables.LiftLaw(r, after, [t1, t2, t3]);
  }

  /** `append(addend)`: the addend is applied to this Runnable3 at once and its
      answer, a Runnable4, is returned; a null addend is rejected. */
  lemma Append<T>(r: Callable<()>, addend: Callable<()> -> Exec<T>, t1: Val, t2: Val, t3: Val, o: Val)
    requires r.arity == 3
    ensures Callables.Append(r, Some(addend)) == addend(r)
    ensures Callables.Append(r, None) == Throw<T>(NullArg)
    ensures Callables.Append(r, Some((g: Callable<()>) => Return(IgnoreLast(g)))).out.v.apply([t1, t2, t3, o]) == r.apply([t1, t2, t3])
  {
    Callables.AppendIgnoringLast(r, [t1, t2, t3], o);
    assert [t1, t2, t3] + [o] == [t1, t2, t3, o];
  }
}
