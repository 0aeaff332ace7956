/** Function3.java: the combinators of a Function3, at their slot positions. */
module Function3 {
  import opened Base
  import Callables
  import Input
  import Functions

  /** `compose1(before)`: the first argument goes through `before` first. */
  lemma Compose1<R>(f: Callable<R>, b: Val -> Exec<Val>, v: Val, t2: Val, t3: Val)
    requires f.arity == 3
    ensures Callables.Compose(f, 0, Some(b)).v.apply([v, t2, t3]) == Then(b(v), x => f.apply([x, t2, t3]))
  {
    forall w ensures [v, t2, t3][0 := w] == [w, t2, t3] { }
    Callables.ComposeAt(f, 0, b, [v, t2, t3], x => f.apply([x, t2, t3]));
  }

  /** `compose2(before)`: the second argument goes through `before` first. */
  lemma Compose2<R>(f: Callable<R>, b: Val -> Exec<Val>, t1: Val, v: Val, t3: Val)
    requires f.arity == 3
    ensures Callables.Compose(f, 1, Some(b)).v.apply([t1, v, t3]) == Then(b(v), x => f.apply([t1, x, t3]))
  {
    forall w ensures [t1, v, t3][1 := w] == [t1, w, t3] { }
    Callables.ComposeAt(f, 1, b, [t1, v, t3], x => f.apply([t1, x, t3]));
  }

  /** `compose3(before)`: the third argument goes through `before` first. */
  lemma Compose3<R>(f: Callable<R>, b: Val -> Exec<Val>, t1: Val, t2: Val, v: Val)
    requires f.arity == 3
    ensures Callables.Compose(f, 2, Some(b)).v.apply([t1, t2, v]) == Then(b(v), x => f.apply([t1, t2, x]))
  {
    forall w ensures [t1, t2, v][2 := w] == [t1, t2, w] { }
    Callables.ComposeAt(f, 2, b, [t1, t2, v], x => f.apply([t1, t2, x]));
  }

  /** `swap1()`: the first and second arguments change places; doing it twice
      changes nothing. */
  lemma Swap1<R>(f: Callable<R>, t1: Val, t2: Val, t3: Val)
    requires f.arity == 3
    ensures Callables.Swap(f, 0).apply([t2, t1, t3]) == f.apply([t1, t2, t3])
    ensures Callables.Swap(Callables.Swap(f, 0), 0).apply([t1, t2, t3]) == f.apply([t1, t2, t3])
  {
    Callables.SwapLaw(f, 0, [t1, t2, t3]);
    assert Input.Swapped([t1, t2, t3], 0) == [t2, t1, t3];
  }

  /** `swap2()`: the second and third arguments change places; doing it twice
      changes nothing. */
  lemma Swap2<R>(f: Callable<R>, t1: Val, t2: Val, t3: Val)
    requires f.arity == 3
    ensures Callables.Swap(f, 1).apply([t1, t3, t2]) == f.apply([t1, t2, t3])
    ensures Callables.Swap(Callables.Swap(f, 1), 1).apply([t1, t2, t3]) == f.apply([t1, t2, t3])
  {
    Callables.SwapLaw(f, 1, [t1, t2, t3]);
    assert Input.Swapped([t1, t2, t3], 1) == [t1, t3, t2];
  }

  /** `partial1(t1)`: the first argument is fixed; the others keep their order. */
  lemma Partial1<R>(f: Callable<R>, t1: Val, t2: Val, t3: Val)
    requires f.arity == 3
    ensures Callables.Partial(f, 0, t1).arity == 2
    ensures Callables.Partial(f, 0, t1).apply([t2, t3]) == f.apply([t1, t2, t3])
  {
    Callables.PartialLaw(f, 0, [t1, t2, t3]);
    assert Input.Removed([t1, t2, t3], 0) == [t2, t3];
  }

  /** `partial2(t2)`: the second argument is fixed; the others keep their order. */
  lemma Partial2<R>(f: Callable<R>, t1: Val, t2: Val, t3: Val)
    requires f.arity == 3
    ensures Callables.Partial(f, 1, t2).arity == 2
    ensures Callables.Partial(f, 1, t2).apply([t1, t3]) == f.apply([t1, t2, t3])
  {
    Callables.PartialLaw(f, 1, [t1, t2, t3]);
    assert Input.Removed([t1, t2, t3], 1) == [t1, t3];
  }

  /** `partial3(t3)`: the third argument is fixed; the others keep their order. */
  lemma Partial3<R>(f: Callable<R>, t1: Val, t2: Val, t3: Val)
    requires f.arity == 3
    ensures Callables.Partial(f, 2, t3).arity == 2
    ensures Callables.Partial(f, 2, t3).apply([t1, t2]) == f.apply([t1, t2, t3])
  {
    Callables.PartialLaw(f, 2, [t1, t2, t3]);
    assert Input.Removed([t1, t2, t3], 2) == [t1, t2];
  }

  /** `curry()`: one single-argument stage per argument. */
  lemma Curry<R>(f: Callable<R>, t1: Val, t2: Val, t3: Val)
    requires f.arity == 3
    ensures Callables.Feed(Callables.Curry(f), [t1, t2, t3]) == Some(f.apply([t1, t2, t3]))
  {
    Callables.CurryLaw(f, [t1, t2, t3]);
  }

  /** `curry1()`: the first 1 arguments, then the other 2. */
  lemma Curry1<R>(f: Callable<R>, t1: Val, t2: Val, t3: Val)
    requires f.arity == 3
    ensures Callables.CurryK(f, 1).apply([t1]).trace == []
    ensures Callables.Uncurry(Callables.CurryK(f, 1), [t1], [t2, t3]) == f.apply([t1, t2, t3])
  {
    Callables.CurryKLaw(f, 1, [t1, t2, t3]);
    assert [t1, t2, t3][..1] == [t1] && [t1, t2, t3][1..] == [t2, t3];
  }

  /** `curry2()`: the first 2 arguments, then the other 1. */
  lemma Curry2<R>(f: Callable<R>, t1: Val, t2: Val, t3: Val)
    requires f.arity == 3
    ensures Callables.CurryK(f, 2).apply([t1, t2]).trace == []
    ensures Callables.Uncurry(Callables.CurryK(f, 2), [t1, t2], [t3]) == f.apply([t1, t2, t3])
  {
    Callables.CurryKLaw(f, 2, [t1, t2, t3]);
    assert [t1, t2, t3][..2] == [t1, t2] && [t1, t2, t3][2..] == [t3];
  }

  /** `handle`: a completed call is returned unchanged; a throwing call keeps
      its effects and is followed by the `catch` block, which invokes the
      handler's fallback on the same arguments. */
  lemma Handle<R>(f: Callable<R>, h: Err -> Exec<Option<Callable<R>>>, t1: Val, t2: Val, t3: Val)
    requires f.arity == 3
    ensures f.apply([t1, t2, t3]).out.Ok? ==> Callables.Handle(f, Some(h)).v.apply([t1, t2, t3]) == f.apply([t1, t2, t3])
    ensures f.apply([t1, t2, t3]).out.Fault? ==>
      var body := f.apply([t1, t2, t3]);
      var fallback := Callables.Fallback(h, body.out.e, [t1, t2, t3]);
      Callables.Handle(f, Some(h)).v.apply([t1, t2, t3]) == Exec(body.trace + fallback.trace, fallback.out)
  {
  }

  /** `andThen(after)`: `after` gets the result of `apply3`; it is not
      applied when `apply3` throws. */
  lemma AndThen<R, V>(f: Callable<R>, after: R -> Exec<V>, t1: Val, t2: Val, t3: Val)
    requires f.arity == 3
    ensures f.apply([t1, t2, t3]).out.Fault? ==>
      Functions.AndThen(f, Some(after)).v.apply([t1, t2, t3]) == Exec(f.apply([t1, t2, t3]).trace, Fault(f.apply([t1, t2, t3]).out.e))
    ensures f.apply([t1, t2, t3]).out.Ok? ==>
      var post := after(f.apply([t1, t2, t3]).out.v);
      Functions.AndThen(f, Some(after)).v.apply([t1, t2, t3]) == Exec(f.apply([t1, t2, t3]).trace + post.trace, post.out)
  {
    Functions.AndThenLaw(f, after, [t1, t2, t3]);
  }

  /** `consume()`: a Runnable3 with the effects and the throwable of
      `apply3`, whose value it drops. */
  lemma Consume<R>(f: Callable<R>, t1: Val, t2: Val, t3: Val)
    requires f.arity == 3
    ensures Functions.Consume(f).arity == 3
    ensures Functions.Consume(f).apply([t1, t2, t3]).trace == f.apply([t1, t2, t3]).trace
    ensures Functions.Consume(f).apply([t1, t2, t3]).out.Ok? <==> f.apply([t1, t2, t3]).out.Ok?
    ensures f.apply([t1, t2, t3]).out.Fault? ==> Functions.Consume(f).apply([t1, t2, t3]).out == Fault(f.apply([t1, t2, t3]).out.e)
  {
    Functions.ConsumeLaw(f, [t1, t2, t3]);
  }

  /** `append(addend)`: the addend is applied to this Function3 at once and its
      answer, a Function4, is returned; a null addend is rejected. */
  lemma Append<R, T>(f: Callable<R>, addend: Callable<R> -> Exec<T>, t1: Val, t2: Val, t3: Val, o: Val)
    requires f.arity == 3
    ensures Callables.Append(f, Some(addend)) == addend(f)
    ensures Callables.Append(f, None) == Throw<T>(NullArg)
    ensures Callables.Append(f, Some((g: Callable<R>) => Return(IgnoreLast(g)))).out.v.apply([t1, t2, t3, o]) == f.apply([t1, t2, t3])
  {
    Callables.AppendIgnoringLast(f, [t1, t2, t3], o);
    assert [t1, t2, t3] + [o] == [t1, t2, t3, o];
  }
}
