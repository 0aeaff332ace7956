/** Function0.java: the combinators of a Function0, at their slot positions. */
module Function0 {
  import opened Base
  import Callables
  import Functions

  /** `handle`: a completed call is returned unchanged; a throwing call keeps
      its effects and is followed by the `catch` block, which invokes the
      handler's fallback on the same arguments. */
  lemma Handle<R>(f: Callable<R>, h: Err -> Exec<Option<Callable<R>>>)
    requires f.arity == 0
    ensures f.apply([]).out.Ok? ==> Callables.Handle(f, Some(h)).v.apply([]) == f.apply([])
    ensures f.apply([]).out.Fault? ==>
      var body := f.apply([]);
      var fallback := Callables.Fallback(h, body.out.e, []);
      Callables.Handle(f, Some(h)).v.apply([]) == Exec(body.trace + fallback.trace, fallback.out)
  {
  }

  /** `andThen(after)`: `after` gets the result of `apply0`; it is not
      applied when `apply0` throws. */
  lemma AndThen<R, V>(f: Callable<R>, after: R -> Exec<V>)
    requires f.arity == 0
    ensures f.apply([]).out.Fault? ==>
      Functions.AndThen(f, Some(after)).v.apply([]) == Exec(f.apply([]).trace, Fault(f.apply([]).out.e))
    ensures f.apply([]).out.Ok? ==>
      var post := after(f.apply([]).out.v);
      Functions.AndThen(f, Some(after)).v.apply([]) == Exec(f.apply([]).trace + post.trace, post.out)
  {
    Functions.AndThenLaw(f, after, []);
  }

  /** `consume()`: a Runnable0 with the effects and the throwable of
      `apply0`, whose value it drops. */
  lemma Consume<R>(f: Callable<R>)
    requires f.arity == 0
    ensures Functions.Consume(f).arity == 0
    ensures Functions.Consume(f).apply([]).trace == f.apply([]).trace
    ensures Functions.Consume(f).apply([]).out.Ok? <==> f.apply([]).out.Ok?
    ensures f.apply([]).out.Fault? ==> Functions.Consume(f).apply([]).out == Fault(f.apply([]).out.e)
  {
    Functions.ConsumeLaw(f, []);
  }

  /** `append(addend)`: the addend is applied to this Function0 at once and its
      answer, a Function1, is returned; a null addend is rejected. */
  lemma Append<R, T>(f: Callable<R>, addend: Callable<R> -> Exec<T>, o: Val)
    requires f.arity == 0
    ensures Callables.Append(f, Some(addend)) == addend(f)
    ensures Callables.Append(f, None) == Throw<T>(NullArg)
    ensures Callables.Append(f, Some((g: Callable<R>) => Return(IgnoreLast(g)))).out.v.apply([o]) == f.apply([])
  {
    Callables.AppendIgnoringLast(f, [], o);
    assert [] + [o] == [o];
  }
}
