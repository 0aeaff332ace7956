/** Runnable6.java: the combinators of a Runnable6, at their slot positions. */
module Runnable6 {
  import opened Base
  import Callables
  import Input
  import Runnables

  /** `compose1(before)`: the first argument goes through `before` first. */
  lemma Compose1(r: Callable<()>, b: Val -> Exec<Val>, v: Val, t2: Val, t3: Val, t4: Val, t5: Val, t6: Val)
    requires r.arity == 6
    ensures Callables.Compose(r, 0, Some(b)).v.apply([v, t2, t3, t4, t5, t6]) == Then(b(v), x => r.apply([x, t2, t3, t4, t5, t6]))
  {
    forall w ensures [v, t2, t3, t4, t5, t6][0 := w] == [w, t2, t3, t4, t5, t6] { }
    Callables.ComposeAt(r, 0, b, [v, t2, t3, t4, t5, t6], x => r.apply([x, t2, t3, t4, t5, t6]));
  }

  /** `compose2(before)`: the second argument goes through `before` first. */
  lemma Compose2(r: Callable<()>, b: Val -> Exec<Val>, t1: Val, v: Val, t3: Val, t4: Val, t5: Val, t6: Val)
    requires r.arity == 6
    ensures Callables.Compose(r, 1, Some(b)).v.apply([t1, v, t3, t4, t5, t6]) == Then(b(v), x => r.apply([t1, x, t3, t4, t5, t6]))
  {
    forall w ensures [t1, v, t3, t4, t5, t6][1 := w] == [t1, w, t3, t4, t5, t6] { }
    Callables.ComposeAt(r, 1, b, [t1, v, t3, t4, t5, t6], x => r.apply([t1, x, t3, t4, t5, t6]));
  }

  /** `compose3(before)`: the third argument goes through `before` first. */
  lemma Compose3(r: Callable<()>, b: Val -> Exec<Val>, t1: Val, t2: Val, v: Val, t4: Val, t5: Val, t6: Val)
    requires r.arity == 6
    ensures Callables.Compose(r, 2, Some(b)).v.apply([t1, t2, v, t4, t5, t6]) == Then(b(v), x => r.apply([t1, t2, x, t4, t5, t6]))
  {
    forall w ensures [t1, t2, v, t4, t5, t6][2 := w] == [t1, t2, w, t4, t5, t6] { }
    Callables.ComposeAt(r, 2, b, [t1, t2, v, t4, t5, t6], x => r.apply([t1, t2, x, t4, t5, t6]));
  }

  /** `compose4(before)`: the fourth argument goes through `before` first. */
  lemma Compose4(r: Callable<()>, b: Val -> Exec<Val>, t1: Val, t2: Val, t3: Val, v: Val, t5: Val, t6: Val)
    requires r.arity == 6
    ensures Callables.Compose(r, 3, Some(b)).v.apply([t1, t2, t3, v, t5, t6]) == Then(b(v), x => r.apply([t1, t2, t3, x, t5, t6]))
  {
    forall w ensures [t1, t2, t3, v, t5, t6][3 := w] == [t1, t2, t3, w, t5, t6] { }
    Callables.ComposeAt(r, 3, b, [t1, t2, t3, v, t5, t6], x => r.apply([t1, t2, t3, x, t5, t6]));
  }

  /** `compose5(before)`: the fifth argument goes through `before` first. */
  lemma Compose5(r: Callable<()>, b: Val -> Exec<Val>, t1: Val, t2: Val, t3: Val, t4: Val, v: Val, t6: Val)
    requires r.arity == 6
    ensures Callables.Compose(r, 4, Some(b)).v.apply([t1, t2, t3, t4, v, t6]) == Then(b(v), x => r.apply([t1, t2, t3, t4, x, t6]))
  {
    forall w ensures [t1, t2, t3, t4, v, t6][4 := w] == [t1, t2, t3, t4, w, t6] { }
    Callables.ComposeAt(r, 4, b, [t1, t2, t3, t4, v, t6], x => r.apply([t1, t2, t3, t4, x, t6]));
  }

  /** `compose6(before)`: the sixth argument goes through `before` first. */
  lemma Compose6(r: Callable<()>, b: Val -> Exec<Val>, t1: Val, t2: Val, t3: Val, t4: Val, t5: Val, v: Val)
    requires r.arity == 6
    ensures Callables.Compose(r, 5, Some(b)).v.apply([t1, t2, t3, t4, t5, v]) == Then(b(v), x => r.apply([t1, t2, t3, t4, t5, x]))
  {
    forall w ensures [t1, t2, t3, t4, t5, v][5 := w] == [t1, t2, t3, t4, t5, w] { }
    Callables.ComposeAt(r, 5, b, [t1, t2, t3, t4, t5, v], x => r.apply([t1, t2, t3, t4, t5, x]));
  }

  /** `swap1()`: the first and second arguments change places; doing it twice
      changes nothing. */
  lemma Swap1(r: Callable<()>, t1: Val, t2: Val, t3: Val, t4: Val, t5: Val, t6: Val)
    requires r.arity == 6
    ensures Callables.Swap(r, 0).apply([t2, t1, t3, t4, t5, t6]) == r.apply([t1, t2, t3, t4, t5, t6])
    ensures Callables.Swap(Callables.Swap(r, 0), 0).apply([t1, t2, t3, t4, t5, t6]) == r.apply([t1, t2, t3, t4, t5, t6])
  {
    Callables.SwapLaw(r, 0, [t1, t2, t3, t4, t5, t6]);
    assert Input.Swapped([t1, t2, t3, t4, t5, t6], 0) == [t2, t1, t3, t4, t5, t6];
  }

  /** `swap2()`: the second and third arguments change places; doing it twice
      changes nothing. */
  lemma Swap2(r: Callable<()>, t1: Val, t2: Val, t3: Val, t4: Val, t5: Val, t6: Val)
    requires r.arity == 6
    ensures Callables.Swap(r, 1).apply([t1, t3, t2, t4, t5, t6]) == r.apply([t1, t2, t3, t4, t5, t6])
    ensures Callables.Swap(Callables.Swap(r, 1), 1).apply([t1, t2, t3, t4, t5, t6]) == r.apply([t1, t2, t3, t4, t5, t6])
  {
    Callables.SwapLaw(r, 1, [t1, t2, t3, t4, t5, t6]);
    assert Input.Swapped([t1, t2, t3, t4, t5, t6], 1) == [t1, t3, t2, t4, t5, t6];
  }

  /** `swap3()`: the third and fourth arguments change places; doing it twice
      changes nothing. */
  lemma Swap3(r: Callable<()>, t1: Val, t2: Val, t3: Val, t4: Val, t5: Val, t6: Val)
    requires r.arity == 6
    ensures Callables.Swap(r, 2).apply([t1, t2, t4, t3, t5, t6]) == r.apply([t1, t2, t3, t4, t5, t6])
    ensures Callables.Swap(Callables.Swap(r, 2), 2).apply([t1, t2, t3, t4, t5, t6]) == r.apply([t1, t2, t3, t4, t5, t6])
  {
    Callables.SwapLaw(r, 2, [t1, t2, t3, t4, t5, t6]);
    assert Input.Swapped([t1, t2, t3, t4, t5, t6], 2) == [t1, t2, t4, t3, t5, t6];
  }

  /** `swap4()`: the fourth and fifth arguments change places; doing it twice
      changes nothing. */
  lemma Swap4(r: Callable<()>, t1: Val, t2: Val, t3: Val, t4: Val, t5: Val, t6: Val)
    requires r.arity == 6
    ensures Callables.Swap(r, 3).apply([t1, t2, t3, t5, t4, t6]) == r.apply([t1, t2, t3, t4, t5, t6])
    ensures Callables.Swap(Callables.Swap(r, 3), 3).apply([t1, t2, t3, t4, t5, t6]) == r.apply([t1, t2, t3, t4, t5, t6])
  {
    Callables.SwapLaw(r, 3, [t1, t2, t3, t4, t5, t6]);
    assert Input.Swapped([t1, t2, t3, t4, t5, t6], 3) == [t1, t2, t3, t5, t4, t6];
  }

  /** `swap5()`: the fifth and sixth arguments change places; doing it twice
      changes nothing. */
  lemma Swap5(r: Callable<()>, t1: Val, t2: Val, t3: Val, t4: Val, t5: Val, t6: Val)
    requires r.arity == 6
    ensures Callables.Swap(r, 4).apply([t1, t2, t3, t4, t6, t5]) == r.apply([t1, t2, t3, t4, t5, t6])
    ensures Callables.Swap(Callables.Swap(r, 4), 4).apply([t1, t2, t3, t4, t5, t6]) == r.apply([t1, t2, t3, t4, t5, t6])
  {
    Callables.SwapLaw(r, 4, [t1, t2, t3, t4, t5, t6]);
    assert Input.Swapped([t1, t2, t3, t4, t5, t6], 4) == [t1, t2, t3, t4, t6, t5];
  }

  /** `partial1(t1)`: the first argument is fixed; the others keep their order. */
  lemma Partial1(r: Callable<()>, t1: Val, t2: Val, t3: Val, t4: Val, t5: Val, t6: Val)
    requires r.arity == 6
    ensures Callables.Partial(r, 0, t1).arity == 5
    ensures Callables.Partial(r, 0, t1).apply([t2, t3, t4, t5, t6]) == r.apply([t1, t2, t3, t4, t5, t6])
  {
    Callables.PartialLaw(r, 0, [t1, t2, t3, t4, t5, t6]);
    assert Input.Removed([t1, t2, t3, t4, t5, t6], 0) == [t2, t3, t4, t5, t6];
  }

  /** `partial2(t2)`: the second argument is fixed; the others keep their order. */
  lemma Partial2(r: Callable<()>, t1: Val, t2: Val, t3: Val, t4: Val, t5: Val, t6: Val)
    requires r.arity == 6
    ensures Callables.Partial(r, 1, t2).arity == 5
    ensures Callables.Partial(r, 1, t2).apply([t1, t3, t4, t5, t6]) == r.apply([t1, t2, t3, t4, t5, t6])
  {
    Callables.PartialLaw(r, 1, [t1, t2, t3, t4, t5, t6]);
    assert Input.Removed([t1, t2, t3, t4, t5, t6], 1) == [t1, t3, t4, t5, t6];
  }

  /** `partial3(t3)`: the third argument is fixed; the others keep their order. */
  lemma Partial3(r: Callable<()>, t1: Val, t2: Val, t3: Val, t4: Val, t5: Val, t6: Val)
    requires r.arity == 6
    ensures Callables.Partial(r, 2, t3).arity == 5
    ensures Callables.Partial(r, 2, t3).apply([t1, t2, t4, t5, t6]) == r.apply([t1, t2, t3, t4, t5, t6])
  {
    Callables.PartialLaw(r, 2, [t1, t2, t3, t4, t5, t6]);
    assert Input.Removed([t1, t2, t3, t4, t5, t6], 2) == [t1, t2, t4, t5, t6];
  }

  /** `partial4(t4)`: the fourth argument is fixed; the others keep their order. */
  lemma Partial4(r: Callable<()>, t1: Val, t2: Val, t3: Val, t4: Val, t5: Val, t6: Val)
    requires r.arity == 6
    ensures Callables.Partial(r, 3, t4).arity == 5
    ensures Callables.Partial(r, 3, t4).apply([t1, t2, t3, t5, t6]) == r.apply([t1, t2, t3, t4, t5, t6])
  {
    Callables.PartialLaw(r, 3, [t1, t2, t3, t4, t5, t6]);
    assert Input.Removed([t1, t2, t3, t4, t5, t6], 3) == [t1, t2, t3, t5, t6];
  }

  /** `partial5(t5)`: the fifth argument is fixed; the others keep their order. */
  lemma Partial5(r: Callable<()>, t1: Val, t2: Val, t3: Val, t4: Val, t5: Val, t6: Val)
    requires r.arity == 6
    ensures Callables.Partial(r, 4, t5).arity == 5
    ensures Callables.Partial(r, 4, t5).apply([t1, t2, t3, t4, t6]) == r.apply([t1, t2, t3, t4, t5, t6])
  {
    Callables.PartialLaw(r, 4, [t1, t2, t3, t4, t5, t6]);
    assert Input.Removed([t1, t2, t3, t4, t5, t6], 4) == [t1, t2, t3, t4, t6];
  }

  /** `partial6(t6)`: the sixth argument is fixed; the others keep their order. */
  lemma Partial6(r: Callable<()>, t1: Val, t2: Val, t3: Val, t4: Val, t5: Val, t6: Val)
    requires r.arity == 6
    ensures Callables.Partial(r, 5, t6).arity == 5
    ensures Callables.Partial(r, 5, t6).apply([t1, t2, t3, t4, t5]) == r.apply([t1, t2, t3, t4, t5, t6])
  {
    Callables.PartialLaw(r, 5, [t1, t2, t3, t4, t5, t6]);
    assert Input.Removed([t1, t2, t3, t4, t5, t6], 5) == [t1, t2, t3, t4, t5];
  }

  /** `curry()`: one single-argument stage per argument. */
  lemma Curry(r: Callable<()>, t1: Val, t2: Val, t3: Val, t4: Val, t5: Val, t6: Val)
    requires r.arity == 6
    ensures Callables.Feed(Callables.Curry(r), [t1, t2, t3, t4, t5, t6]) == Some(r.apply([t1, t2, t3, t4, t5, t6]))
  {
    Callables.CurryLaw(r, [t1, t2, t3, t4, t5, t6]);
  }

  /** `curry1()`: the first 1 arguments, then the other 5. */
  lemma Curry1(r: Callable<()>, t1: Val, t2: Val, t3: Val, t4: Val, t5: Val, t6: Val)
    requires r.arity == 6
    ensures Callables.CurryK(r, 1).apply([t1]).trace == []
    ensures Callables.Uncurry(Callables.CurryK(r, 1), [t1], [t2, t3, t4, t5, t6]) == r.apply([t1, t2, t3, t4, t5, t6])
  {
    Callables.CurryKLaw(r, 1, [t1, t2, t3, t4, t5, t6]);
    assert [t1, t2, t3, t4, t5, t6][..1] == [t1] && [t1, t2, t3, t4, t5, t6][1..] == [t2, t3, t4, t5, t6];
  }

  /** `curry2()`: the first 2 arguments, then the other 4. */
  lemma Curry2(r: Callable<()>, t1: Val, t2: Val, t3: Val, t4: Val, t5: Val, t6: Val)
    requires r.arity == 6
    ensures Callables.CurryK(r, 2).apply([t1, t2]).trace == []
    ensures Callables.Uncurry(Callables.CurryK(r, 2), [t1, t2], [t3, t4, t5, t6]) == r.apply([t1, t2, t3, t4, t5, t6])
  {
    Callables.CurryKLaw(r, 2, [t1, t2, t3, t4, t5, t6]);
    assert [t1, t2, t3, t4, t5, t6][..2] == [t1, t2] && [t1, t2, t3, t4, t5, t6][2..] == [t3, t4, t5, t6];
  }

  /** `curry3()`: the first 3 arguments, then the other 3. */
  lemma Curry3(r: Callable<()>, t1: Val, t2: Val, t3: Val, t4: Val, t5: Val, t6: Val)
    requires r.arity == 6
    ensures Callables.CurryK(r, 3).apply([t1, t2, t3]).trace == []
    ensures Callables.Uncurry(Callables.CurryK(r, 3), [t1, t2, t3], [t4, t5, t6]) == r.apply([t1, t2, t3, t4, t5, t6])
  {
    Callables.CurryKLaw(r, 3, [t1, t2, t3, t4, t5, t6]);
    assert [t1, t2, t3, t4, t5, t6][..3] == [t1, t2, t3] && [t1, t2, t3, t4, t5, t6][3..] == [t4, t5, t6];
  }

  /** `curry5()`: the first 4 arguments, then the other 2 (the name does not
      follow the grouping, which is that of a `curry4`). */
  lemma Curry5(r: Callable<()>, t1: Val, t2: Val, t3: Val, t4: Val, t5: Val, t6: Val)
    requires r.arity == 6
    ensures Callables.CurryK(r, 4).apply([t1, t2, t3, t4]).trace == []
    ensures Callables.Uncurry(Callables.CurryK(r, 4), [t1, t2, t3, t4], [t5, t6]) == r.apply([t1, t2, t3, t4, t5, t6])
  {
    Callables.CurryKLaw(r, 4, [t1, t2, t3, t4, t5, t6]);
    assert [t1, t2, t3, t4, t5, t6][..4] == [t1, t2, t3, t4] && [t1, t2, t3, t4, t5, t6][4..] == [t5, t6];
  }

  /** `curry6()`: the first 5 arguments, then the other 1 (the name does not
      follow the grouping, which is that of a `curry5`). */
  lemma Curry6(r: Callable<()>, t1: Val, t2: Val, t3: Val, t4: Val, t5: Val, t6: Val)
    requires r.arity == 6
    ensures Callables.CurryK(r, 5).apply([t1, t2, t3, t4, t5]).trace == []
    ensures Callables.Uncurry(Callables.CurryK(r, 5), [t1, t2, t3, t4, t5], [t6]) == r.apply([t1, t2, t3, t4, t5, t6])
  {
    Callables.CurryKLaw(r, 5, [t1, t2, t3, t4, t5, t6]);
    assert [t1, t2, t3, t4, t5, t6][..5] == [t1, t2, t3, t4, t5] && [t1, t2, t3, t4, t5, t6][5..] == [t6];
  }

  /** `handle`: a completed call is returned unchanged; a throwing call keeps
      its effects and is followed by the `catch` block, which invokes the
      handler's fallback on the same arguments. */
  lemma Handle(r: Callable<()>, h: Err -> Exec<Option<Callable<()>>>, t1: Val, t2: Val, t3: Val, t4: Val, t5: Val, t6: Val)
    requires r.arity == 6
    ensures r.apply([t1, t2, t3, t4, t5, t6]).out.Ok? ==> Callables.Handle(r, Some(h)).v.apply([t1, t2, t3, t4, t5, t6]) == r.apply([t1, t2, t3, t4, t5, t6])
    ensures r.apply([t1, t2, t3, t4, t5, t6]).out.Fault? ==>
      var body := r.apply([t1, t2, t3, t4, t5, t6]);
      var fallback := Callables.Fallback(h, body.out.e, [t1, t2, t3, t4, t5, t6]);
      Callables.Handle(r, Some(h)).v.apply([t1, t2, t3, t4, t5, t6]) == Exec(body.trace + fallback.trace, fallback.out)
  {
  }

  /** `andThen(Runnable6)`: this operation, then `after`, on the same
      arguments; `after` does not run when this operation throws. */
  lemma AndThenRunnable(r: Callable<()>, after: Callable<()>, t1: Val, t2: Val, t3: Val, t4: Val, t5: Val, t6: Val)
    requires r.arity == after.arity == 6
    ensures r.apply([t1, t2, t3, t4, t5, t6]).out.Fault? ==>
      Runnables.Sequence(r, Some(after)).v.apply([t1, t2, t3, t4, t5, t6]) == Exec(r.apply([t1, t2, t3, t4, t5, t6]).trace, Fault(r.apply([t1, t2, t3, t4, t5, t6]).out.e))
    ensures r.apply([t1, t2, t3, t4, t5, t6]).out.Ok? ==>
      Runnables.Sequence(r, Some(after)).v.apply([t1, t2, t3, t4, t5, t6]) == Exec(r.apply([t1, t2, t3, t4, t5, t6]).trace + after.apply([t1, t2, t3, t4, t5, t6]).trace, after.apply([t1, t2, t3, t4, t5, t6]).out)
  {
    Runnables.SequenceLaw(r, after, [t1, t2, t3, t4, t5, t6]);
  }

  /** `andThen(Transformer1)`: after one `run6`, the transformer gets
      `null`, the value of `apply6`. */
  lemma AndThenTransformer<V>(r: Callable<()>, after: Val -> Exec<V>, t1: Val, t2: Val, t3: Val, t4: Val, t5: Val, t6: Val)
    requires r.arity == 6
    ensures r.apply([t1, t2, t3, t4, t5, t6]).out.Fault? ==>
      Runnables.Lift(r, Some(after)).v.apply([t1, t2, t3, t4, t5, t6]) == Exec(r.apply([t1, t2, t3, t4, t5, t6]).trace, Fault(r.apply([t1, t2, t3, t4, t5, t6]).out.e))
    ensures r.apply([t1, t2, t3, t4, t5, t6]).out.Ok? ==>
      Runnables.Lift(r, Some(after)).v.apply([t1, t2, t3, t4, t5, t6]) == Exec(r.apply([t1, t2, t3, t4, t5, t6]).trace + after(Null).trace, after(Null).out)
  {
    Runnables.LiftLaw(r, after, [t1, t2, t3, t4, t5, t6]);
  }

  /** `append(addend)`: the addend is applied to this Runnable6 at once and its
      answer, a Runnable7, is returned; a null addend is rejected. */
  lemma Append<T>(r: Callable<()>, addend: Callable<()> -> Exec<T>, t1: Val, t2: Val, t3: Val, t4: Val, t5: Val, t6: Val, o: Val)
    requires r.arity == 6
    ensures Callables.Append(r, Some(addend)) == addend(r)
    ensures Callables.Append(r, None) == Throw<T>(NullArg)
    ensures Callables.Append(r, Some((g: Callable<()>) => Return(IgnoreLast(g)))).out.v.apply([t1, t2, t3, t4, t5, t6, o]) == r.apply([t1, t2, t3, t4, t5, t6])
  {
    Callables.AppendIgnoringLast(r, [t1, t2, t3, t4, t5, t6], o);
    assert [t1, t2, t3, t4, t5, t6] + [o] == [t1, t2, t3, t4, t5, t6, o];
  }
}
