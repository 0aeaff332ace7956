/** Function4.java: the combinators of a Function4, at their slot positions. */
module Function4 {
  import opened Base
  import Callables
  import Input
  import Functions

  /** `compose1(before)`: the first argument goes through `before` first. */
  lemma Compose1<R>(f: Callable<R>, b: Val -> Exec<Val>, v: Val, t2: Val, t3: Val, t4: Val)
    requires f.arity == 4
    ensures Callables.Compose(f, 0, Some(b)).v.apply([v, t2, t3, t4]) == Then(b(v), x => f.apply([x, t2, t3, t4]))
  {
    forall w ensures [v, t2, t3, t4][0 := w] == [w, t2, t3, t4] { }
    Callables.ComposeAt(f, 0, b, [v, t2, t3, t4], x => f.apply([x, t2, t3, t4]));
  }

  /** `compose2(before)`: the second argument goes through `before` first. */
  lemma Compose2<R>(f: Callable<R>, b: Val -> Exec<Val>, t1: Val, v: Val, t3: Val, t4: Val)
    requires f.arity == 4
    ensures Callables.Compose(f, 1, Some(b)).v.apply([t1, v, t3, t4]) == Then(b(v), x => f.apply([t1, x, t3, t4]))
  {
    forall w ensures [t1, v, t3, t4][1 := w] == [t1, w, t3, t4] { }
    Callables.ComposeAt(f, 1, b, [t1, v, t3, t4], x => f.apply([t1, x, t3, t4]));
  }

  /** `compose3(before)`: the third argument goes through `before` first. */
  lemma Compose3<R>(f: Callable<R>, b: Val -> Exec<Val>, t1: Val, t2: Val, v: Val, t4: Val)
    requires f.arity == 4
    ensures Callables.Compose(f, 2, Some(b)).v.apply([t1, t2, v, t4]) == Then(b(v), x => f.apply([t1, t2, x, t4]))
  {
    forall w ensures [t1, t2, v, t4][2 := w] == [t1, t2, w, t4] { }
    Callables.ComposeAt(f, 2, b, [t1, t2, v, t4], x => f.apply([t1, t2, x, t4]));
  }

  /** `compose4(before)`: the fourth argument goes through `before` first. */
  lemma Compose4<R>(f: Callable<R>, b: Val -> Exec<Val>, t1: Val, t2: Val, t3: Val, v: Val)
    requires f.arity == 4
    ensures Callables.Compose(f, 3, Some(b)).v.apply([t1, t2, t3, v]) == Then(b(v), x => f.apply([t1, t2, t3, x]))
  {
    forall w ensures [t1, t2, t3, v][3 := w] == [t1, t2, t3, w] { }
    Callables.ComposeAt(f, 3, b, [t1, t2, t3, v], x => f.apply([t1, t2, t3, x]));
  }

  /** `swap1()`: the first and second arguments change places; doing it twice
      changes nothing. */
  lemma Swap1<R>(f: Callable<R>, t1: Val, t2: Val, t3: Val, t4: Val)
    requires f.arity == 4
    ensures Callables.Swap(f, 0).apply([t2, t1, t3, t4]) == f.apply([t1, t2, t3, t4])
    ensures Callables.Swap(Callables.Swap(f, 0), 0).apply([t1, t2, t3, t4]) == f.apply([t1, t2, t3, t4])
  {
    Callables.SwapLaw(f, 0, [t1, t2, t3, t4]);
    assert Input.Swapped([t1, t2, t3, t4], 0) == [t2, t1, t3, t4];
  }

  /** `swap2()`: the second and third arguments change places; doing it twice
      changes nothing. */
  lemma Swap2<R>(f: Callable<R>, t1: Val, t2: Val, t3: Val, t4: Val)
    requires f.arity == 4
    ensures Callables.Swap(f, 1).apply([t1, t3, t2, t4]) == f.apply([t1, t2, t3, t4])
    ensures Callables.Swap(Callables.Swap(f, 1), 1).apply([t1, t2, t3, t4]) == f.apply([t1, t2, t3, t4])
  {
    Callables.SwapLaw(f, 1, [t1, t2, t3, t4]);
    assert Input.Swapped([t1, t2, t3, t4], 1) == [t1, t3, t2, t4];
  }

  /** `swap3()`: the third and fourth arguments change places; doing it twice
      changes nothing. */
  lemma Swap3<R>(f: Callable<R>, t1: Val, t2: Val, t3: Val, t4: Val)
    requires f.arity == 4
    ensures Callables.Swap(f, 2).apply([t1, t2, t4, t3]) == f.apply([t1, t2, t3, t4])
    ensures Callables.Swap(Callables.Swap(f, 2), 2).apply([t1, t2, t3, t4]) == f.apply([t1, t2, t3, t4])
  {
    Callables.SwapLaw(f, 2, [t1, t2, t3, t4]);
    assert Input.Swapped([t1, t2, t3, t4], 2) == [t1, t2, t4, t3];
  }

  /** `partial1(t1)`: the first argument is fixed; the others keep their order. */
  lemma Partial1<R>(f: Callable<R>, t1: Val, t2: Val, t3: Val, t4: Val)
    requires f.arity == 4
    ensures Callables.Partial(f, 0, t1).arity == 3
    ensures Callables.Partial(f, 0, t1).apply([t2, t3, t4]) == f.apply([t1, t2, t3, t4])
  {
    Callables.PartialLaw(f, 0, [t1, t2, t3, t4]);
    assert Input.Removed([t1, t2, t3, t4], 0) == [t2, t3, t4];
  }

  /** `partial2(t2)`: the second argument is fixed; the others keep their order. */
  lemma Partial2<R>(f: Callable<R>, t1: Val, t2: Val, t3: Val, t4: Val)
    requires f.arity == 4
    ensures Callables.Partial(f, 1, t2).arity == 3
    ensures Callables.Partial(f, 1, t2).apply([t1, t3, t4]) == f.apply([t1, t2, t3, t4])
  {
    Callables.PartialLaw(f, 1, [t1, t2, t3, t4]);
    assert Input.Removed([t1, t2, t3, t4], 1) == [t1, t3, t4];
  }

  /** `partial3(t3)`: the third argument is fixed; the others keep their order. */
  lemma Partial3<R>(f: Callable<R>, t1: Val, t2: Val, t3: Val, t4: Val)
    requires f.arity == 4
    ensures Callables.Partial(f, 2, t3).arity == 3
    ensures Callables.Partial(f, 2, t3).apply([t1, t2, t4]) == f.apply([t1, t2, t3, t4])
  {
    Callables.PartialLaw(f, 2, [t1, t2, t3, t4]);
    assert Input.Removed([t1, t2, t3, t4], 2) == [t1, t2, t4];
  }

  /** `partial4(t4)`: the fourth argument is fixed; the others keep their order. */
  lemma Partial4<R>(f: Callable<R>, t1: Val, t2: Val, t3: Val, t4: Val)
    requires f.arity == 4
    ensures Callables.Partial(f, 3, t4).arity == 3
    ensures Callables.Partial(f, 3, t4).apply([t1, t2, t3]) == f.apply([t1, t2, t3, t4])
  {
    Callables.PartialLaw(f, 3, [t1, t2, t3, t4]);
    assert Input.Removed([t1, t2, t3, t4], 3) == [t1, t2, t3];
  }

  /** `curry()`: one single-argument stage per argument. */
  lemma Curry<R>(f: Callable<R>, t1: Val, t2: Val, t3: Val, t4: Val)
    requires f.arity == 4
    ensures Callables.Feed(Callables.Curry(f), [t1, t2, t3, t4]) == Some(f.apply([t1, t2, t3, t4]))
  {
    Callables.CurryLaw(f, [t1, t2, t3, t4]);
  }

  /** `curry1()`: the first 1 arguments, then the other 3. */
  lemma Curry1<R>(f: Callable<R>, t1: Val, t2: Val, t3: Val, t4: Val)
    requires f.arity == 4
    ensures Callables.CurryK(f, 1).apply([t1]).trace == []
    ensures Callables.Uncurry(Callables.CurryK(f, 1), [t1], [t2, t3, t4]) == f.apply([t1, t2, t3, t4])
  {
    Callables.CurryKLaw(f, 1, [t1, t2, t3, t4]);
    assert [t1, t2, t3, t4][..1] == [t1] && [t1, t2, t3, t4][1..] == [t2, t3, t4];
  }

  /** `curry2()`: the first 2 arguments, then the other 2. */
  lemma Curry2<R>(f: Callable<R>, t1: Val, t2: Val, t3: Val, t4: Val)
    requires f.arity == 4
    ensures Callables.CurryK(f, 2).apply([t1, t2]).trace == []
    ensures Callables.Uncurry(Callables.CurryK(f, 2), [t1, t2], [t3, t4]) == f.apply([t1, t2, t3, t4])
  {
    Callables.CurryKLaw(f, 2, [t1, t2, t3, t4]);
    assert [t1, t2, t3, t4][..2] == [t1, t2] && [t1, t2, t3, t4][2..] == [t3, t4];
  }

  /** `curry3()`: the first 3 arguments, then the other 1. */
  lemma Curry3<R>(f: Callable<R>, t1: Val, t2: Val, t3: Val, t4: Val)
    requires f.arity == 4
    ensures Callables.CurryK(f, 3).apply([t1, t2, t3]).trace == []
    ensures Callables.Uncurry(Callables.CurryK(f, 3), [t1, t2, t3], [t4]) == f.apply([t1, t2, t3, t4])
  {
    Callables.CurryKLaw(f, 3, [t1, t2, t3, t4]);
    assert [t1, t2, t3, t4][..3] == [t1, t2, t3] && [t1, t2, t3, t4][3..] == [t4];
  }

  /** `handle`: a completed call is returned unchanged; a throwing call keeps
      its effects and is followed by the `catch` block, which invokes the
      handler's fallback on the same arguments. */
  lemma Handle<R>(f: Callable<R>, h: Err -> Exec<Option<Callable<R>>>, t1: Val, t2: Val, t3: Val, t4: Val)
    requires f.arity == 4
    ensures f.apply([t1, t2, t3, t4]).out.Ok? ==> Callables.Handle(f, Some(h)).v.apply([t1, t2, t3, t4]) == f.apply([t1, t2, t3, t4])
    ensures f.apply([t1, t2, t3, t4]).out.Fault? ==>
      var body := f.apply([t1, t2, t3, t4]);
      var fallback := Callables.Fallback(h, body.out.e, [t1, t2, t3, t4]);
      Callables.Handle(f, Some(h)).v.apply([t1, t2, t3, t4]) == Exec(body.trace + fallback.trace, fallback.out)
  {
  }

  /** `andThen(after)`: `after` gets the result of `apply4`; it is not
      applied when `apply4` throws. */
  lemma AndThen<R, V>(f: Callable<R>, after: R -> Exec<V>, t1: Val, t2: Val, t3: Val, t4: Val)
    requires f.arity == 4
    ensures f.apply([t1, t2, t3, t4]).out.Fault? ==>
      Functions.AndThen(f, Some(after)).v.apply([t1, t2, t3, t4]) == Exec(f.apply([t1, t2, t3, t4]).trace, Fault(f.apply([t1, t2, t3, t4]).out.e))
    ensures f.apply([t1, t2, t3, t4]).out.Ok? ==>
      var post := after(f.apply([t1, t2, t3, t4]).out.v);
      Functions.AndThen(f, Some(after)).v.apply([t1, t2, t3, t4]) == Exec(f.apply([t1, t2, t3, t4]).trace + post.trace, post.out)
  {
    Functions.AndThenLaw(f, after, [t1, t2, t3, t4]);
  }

  /** `consume()`: a Runnable4 with the effects and the throwable of
      `apply4`, whose value it drops. */
  lemma Consume<R>(f: Callable<R>, t1: Val, t2: Val, t3: Val, t4: Val)
    requires f.arity == 4
    ensures Functions.Consume(f).arity == 4
    ensures Functions.Consume(f).apply([t1, t2, t3, t4]).trace == f.apply([t1, t2, t3, t4]).trace
    ensures Functions.Consume(f).apply([t1, t2, t3, t4]).out.Ok? <==> f.apply([t1, t2, t3, t4]).out.Ok?
    ensures f.apply([t1, t2, t3, t4]).out.Fault? ==> Functions.Consume(f).apply([t1, t2, t3, t4]).out == Fault(f.apply([t1, t2, t3, t4]).out.e)
  {
    Functions.ConsumeLaw(f, [t1, t2, t3, t4]);
  }

  /** `append(addend)`: the addend is applied to this Function4 at once and its
      answer, a Function5, is returned; a null addend is rejected. */
  lemma Append<R, T>(f: Callable<R>, addend: Callable<R> -> Exec<T>, t1: Val, t2: Val, t3: Val, t4: Val, o: Val)
    requires f.arity == 4
    ensures Callables.Append(f, Some(addend)) == addend(f)
    ensures Callables.Append(f, None) == Throw<T>(NullArg)
    ensures Callables.Append(f, Some((g: Callable<R>) => Return(IgnoreLast(g)))).out.v.apply([t1, t2, t3, t4, o]) == f.apply([t1, t2, t3, t4])
  {
    Callables.AppendIgnoringLast(f, [t1, t2, t3, t4], o);
    assert [t1, t2, t3, t4] + [o] == [t1, t2, t3, t4, o];
  }
}
