/** Function1.java: the combinators of a Function1, at their slot positions. */
module Function1 {
  import opened Base
  import Callables
  import Input
  import Functions

  /** `compose1(before)`: the first argument goes through `before` first. */
  lemma Compose1<R>(f: Callable<R>, b: Val -> Exec<Val>, v: Val)
    requires f.arity == 1
    ensures Callables.Compose(f, 0, Some(b)).v.apply([v]) == Then(b(v), x => f.apply([x]))
  {
    forall w ensures [v][0 := w] == [w] { }
    Callables.ComposeAt(f, 0, b, [v], x => f.apply([x]));
  }

  /** `partial1(t1)`: the first argument is fixed; the others keep their order. */
  lemma Partial1<R>(f: Callable<R>, t1: Val)
    requires f.arity == 1
    ensures Callables.Partial(f, 0, t1).arity == 0
    ensures Callables.Partial(f, 0, t1).apply([]) == f.apply([t1])
  {
    Callables.PartialLaw(f, 0, [t1]);
    assert Input.Removed([t1], 0) == [];
  }

  /** `handle`: a completed call is returned unchanged; a throwing call keeps
      its effects and is followed by the `catch` block, which invokes the
      handler's fallback on the same arguments. */
  lemma Handle<R>(f: Callable<R>, h: Err -> Exec<Option<Callable<R>>>, t1: Val)
    requires f.arity == 1
    ensures f.apply([t1]).out.Ok? ==> Callables.Handle(f, Some(h)).v.apply([t1]) == f.apply([t1])
    ensures f.apply([t1]).out.Fault? ==>
      var body := f.apply([t1]);
      var fallback := Callables.Fallback(h, body.out.e, [t1]);
      Callables.Handle(f, Some(h)).v.apply([t1]) == Exec(body.trace + fallback.trace, fallback.out)
  {
  }

  /** `andThen(after)`: `after` gets the result of `apply1`; it is not
      applied when `apply1` throws. */
  lemma AndThen<R, V>(f: Callable<R>, after: R -> Exec<V>, t1: Val)
    requires f.arity == 1
    ensures f.apply([t1]).out.Fault? ==>
      Functions.AndThen(f, Some(after)).v.apply([t1]) == Exec(f.apply([t1]).trace, Fault(f.apply([t1]).out.e))
    ensures f.apply([t1]).out.Ok? ==>
      var post := after(f.apply([t1]).out.v);
      Functions.AndThen(f, Some(after)).v.apply([t1]) == Exec(f.apply([t1]).trace + post.trace, post.out)
  {
    Functions.AndThenLaw(f, after, [t1]);
  }

  /** `consume()`: a Runnable1 with the effects and the throwable of
      `apply1`, whose value it drops. */
  lemma Consume<R>(f: Callable<R>, t1: Val)
    requires f.arity == 1
    ensures Functions.Consume(f).arity == 1
    ensures Functions.Consume(f).apply([t1]).trace == f.apply([t1]).trace
    ensures Functions.Consume(f).apply([t1]).out.Ok? <==> f.apply([t1]).out.Ok?
    ensures f.apply([t1]).out.Fault? ==> Functions.Consume(f).apply([t1]).out == Fault(f.apply([t1]).out.e)
  {
    Functions.ConsumeLaw(f, [t1]);
  }

  /** `append(addend)`: the addend is applied to this Function1 at once and its
      answer, a Function2, is returned; a null addend is rejected. */
  lemma Append<R, T>(f: Callable<R>, addend: Callable<R> -> Exec<T>, t1: Val, o: Val)
    requires f.arity == 1
    ensures Callables.Append(f, Some(addend)) == addend(f)
    ensures Callables.Append(f, None) == Throw<T>(NullArg)
    ensures Callables.Append(f, Some((g: Callable<R>) => Return(IgnoreLast(g)))).out.v.apply([t1, o]) == f.apply([t1])
  {
    Callables.AppendIgnoringLast(f, [t1], o);
    assert [t1] + [o] == [t1, o];
  }
}
