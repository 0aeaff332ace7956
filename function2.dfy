/** Function2.java: the combinators of a Function2, at their slot positions. */
module Function2 {
  import opened Base
  import Callables
  import Input
  import Functions

  /** `compose1(before)`: the first argument goes through `before` first. */
  lemma Compose1<R>(f: Callable<R>, b: Val -> Exec<Val>, v: Val, t2: Val)
    requires f.arity == 2
    ensures Callables.Compose(f, 0, Some(b)).v.apply([v, t2]) == Then(b(v), x => f.apply([x, t2]))
  {
    forall w ensures [v, t2][0 := w] == [w, t2] { }
    Callables.ComposeAt(f, 0, b, [v, t2], x => f.apply([x, t2]));
  }

  /** `compose2(before)`: the second argument goes through `before` first. */
  lemma Compose2<R>(f: Callable<R>, b: Val -> Exec<Val>, t1: Val, v: Val)
    requires f.arity == 2
    ensures Callables.Compose(f, 1, Some(b)).v.apply([t1, v]) == Then(b(v), x => f.apply([t1, x]))
  {
    forall w ensures [t1, v][1 := w] == [t1, w] { }
    Callables.ComposeAt(f, 1, b, [t1, v], x => f.apply([t1, x]));
  }

  /** `swap1()`: the first and second arguments change places; doing it twice
      changes nothing. */
  lemma Swap1<R>(f: Callable<R>, t1: Val, t2: Val)
    requires f.arity == 2
    ensures Callables.Swap(f, 0).apply([t2, t1]) == f.apply([t1, t2])
    ensures Callables.Swap(Callables.Swap(f, 0), 0).apply([t1, t2]) == f.apply([t1, t2])
  {
    Callables.SwapLaw(f, 0, [t1, t2]);
    assert Input.Swapped([t1, t2], 0) == [t2, t1];
  }

  /** `partial1(t1)`: the first argument is fixed; the others keep their order. */
  lemma Partial1<R>(f: Callable<R>, t1: Val, t2: Val)
    requires f.arity == 2
    ensures Callables.Partial(f, 0, t1).arity == 1
    ensures Callables.Partial(f, 0, t1).apply([t2]) == f.apply([t1, t2])
  {
    Callables.PartialLaw(f, 0, [t1, t2]);
    assert Input.Removed([t1, t2], 0) == [t2];
  }

  /** `partial2(t2)`: the second argument is fixed; the others keep their order. */
  lemma Partial2<R>(f: Callable<R>, t1: Val, t2: Val)
    requires f.arity == 2
    ensures Callables.Partial(f, 1, t2).arity == 1
    ensures Callables.Partial(f, 1, t2).apply([t1]) == f.apply([t1, t2])
  {
    Callables.PartialLaw(f, 1, [t1, t2]);
    assert Input.Removed([t1, t2], 1) == [t1];
  }

  /** `curry()`: one single-argument stage per argument. */
  lemma Curry<R>(f: Callable<R>, t1: Val, t2: Val)
    requires f.arity == 2
    ensures Callables.Feed(Callables.Curry(f), [t1, t2]) == Some(f.apply([t1, t2]))
  {
    Callables.CurryLaw(f, [t1, t2]);
  }

  /** `handle`: a completed call is returned unchanged; a throwing call keeps
      its effects and is followed by the `catch` block, which invokes the
      handler's fallback on the same arguments. */
  lemma Handle<R>(f: Callable<R>, h: Err -> Exec<Option<Callable<R>>>, t1: Val, t2: Val)
    requires f.arity == 2
    ensures f.apply([t1, t2]).out.Ok? ==> Callables.Handle(f, Some(h)).v.apply([t1, t2]) == f.apply([t1, t2])
    ensures f.apply([t1, t2]).out.Fault? ==>
      var body := f.apply([t1, t2]);
      var fallback := Callables.Fallback(h, body.out.e, [t1, t2]);
      Callables.Handle(f, Some(h)).v.apply([t1, t2]) == Exec(body.trace + fallback.trace, fallback.out)
  {
  }

  /** `andThen(after)`: `after` gets the result of `apply2`; it is not
      applied when `apply2` throws. */
  lemma AndThen<R, V>(f: Callable<R>, after: R -> Exec<V>, t1: Val, t2: Val)
    requires f.arity == 2
    ensures f.apply([t1, t2]).out.Fault? ==>
      Functions.AndThen(f, Some(after)).v.apply([t1, t2]) == Exec(f.apply([t1, t2]).trace, Fault(f.apply([t1, t2]).out.e))
    ensures f.apply([t1, t2]).out.Ok? ==>
      var post := after(f.apply([t1, t2]).out.v);
      Functions.AndThen(f, Some(after)).v.apply([t1, t2]) == Exec(f.apply([t1, t2]).trace + post.trace, post.out)
  {
    Functions.AndThenLaw(f, after, [t1, t2]);
  }

  /** `consume()`: a Runnable2 with the effects and the throwable of
      `apply2`, whose value it drops. */
  lemma Consume<R>(f: Callable<R>, t1: Val, t2: Val)
    requires f.arity == 2
    ensures Functions.Consume(f).arity == 2
    ensures Functions.Consume(f).apply([t1, t2]).trace == f.apply([t1, t2]).trace
    ensures Functions.Consume(f).apply([t1, t2]).out.Ok? <==> f.apply([t1, t2]).out.Ok?
    ensures f.apply([t1, t2]).out.Fault? ==> Functions.Consume(f).apply([t1, t2]).out == Fault(f.apply([t1, t2]).out.e)
  {
    Functions.ConsumeLaw(f, [t1, t2]);
  }

  /** `append(addend)`: the addend is applied to this Function2 at once and its
      answer, a Function3, is returned; a null addend is rejected. */
  lemma Append<R, T>(f: Callable<R>, addend: Callable<R> -> Exec<T>, t1: Val, t2: Val, o: Val)
    requires f.arity == 2
    ensures Callables.Append(f, Some(addend)) == addend(f)
    ensures Callables.Append(f, None) == Throw<T>(NullArg)
    ensures Callables.Append(f, Some((g: Callable<R>) => Return(IgnoreLast(g)))).out.v.apply([t1, t2, o]) == f.apply([t1, t2])
  {
    Callables.AppendIgnoringLast(f, [t1, t2], o);
    assert [t1, t2] + [o] == [t1, t2, o];
  }
}
