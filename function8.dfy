/** Function8.java: the combinators of a Function8, at their slot positions. */
module Function8 {
  import opened Base
  import Callables
  import Input
  import Functions

  /** `compose1(before)`: the first argument goes through `before` first. */
  lemma Compose1<R>(f: Callable<R>, b: Val -> Exec<Val>, v: Val, t2: Val, t3: Val, t4: Val, t5: Val, t6: Val, t7: Val, t8: Val)
    requires f.arity == 8
    ensures Callables.Compose(f, 0, Some(b)).v.apply([v, t2, t3, t4, t5, t6, t7, t8]) == Then(b(v), x => f.apply([x, t2, t3, t4, t5, t6, t7, t8]))
  {
    forall w ensures [v, t2, t3, t4, t5, t6, t7, t8][0 := w] == [w, t2, t3, t4, t5, t6, t7, t8] { }
    Callables.ComposeAt(f, 0, b, [v, t2, t3, t4, t5, t6, t7, t8], x => f.apply([x, t2, t3, t4, t5, t6, t7, t8]));
  }

  /** `compose2(before)`: the second argument goes through `before` first. */
  lemma Compose2<R>(f: Callable<R>, b: Val -> Exec<Val>, t1: Val, v: Val, t3: Val, t4: Val, t5: Val, t6: Val, t7: Val, t8: Val)
    requires f.arity == 8
    ensures Callables.Compose(f, 1, Some(b)).v.apply([t1, v, t3, t4, t5, t6, t7, t8]) == Then(b(v), x => f.apply([t1, x, t3, t4, t5, t6, t7, t8]))
  {
    forall w ensures [t1, v, t3, t4, t5, t6, t7, t8][1 := w] == [t1, w, t3, t4, t5, t6, t7, t8] { }
    Callables.ComposeAt(f, 1, b, [t1, v, t3, t4, t5, t6, t7, t8], x => f.apply([t1, x, t3, t4, t5, t6, t7, t8]));
  }

  /** `compose3(before)`: the third argument goes through `before` first. */
  lemma Compose3<R>(f: Callable<R>, b: Val -> Exec<Val>, t1: Val, t2: Val, v: Val, t4: Val, t5: Val, t6: Val, t7: Val, t8: Val)
    requires f.arity == 8
    ensures Callables.Compose(f, 2, Some(b)).v.apply([t1, t2, v, t4, t5, t6, t7, t8]) == Then(b(v), x => f.apply([t1, t2, x, t4, t5, t6, t7, t8]))
  {
    forall w ensures [t1, t2, v, t4, t5, t6, t7, t8][2 := w] == [t1, t2, w, t4, t5, t6, t7, t8] { }
    Callables.ComposeAt(f, 2, b, [t1, t2, v, t4, t5, t6, t7, t8], x => f.apply([t1, t2, x, t4, t5, t6, t7, t8]));
  }

  /** `compose4(before)`: the fourth argument goes through `before` first. */
  lemma Compose4<R>(f: Callable<R>, b: Val -> Exec<Val>, t1: Val, t2: Val, t3: Val, v: Val, t5: Val, t6: Val, t7: Val, t8: Val)
    requires f.arity == 8
    ensures Callables.Compose(f, 3, Some(b)).v.apply([t1, t2, t3, v, t5, t6, t7, t8]) == Then(b(v), x => f.apply([t1, t2, t3, x, t5, t6, t7, t8]))
  {
    forall w ensures [t1, t2, t3, v, t5, t6, t7, t8][3 := w] == [t1, t2, t3, w, t5, t6, t7, t8] { }
    Callables.ComposeAt(f, 3, b, [t1, t2, t3, v, t5, t6, t7, t8], x => f.apply([t1, t2, t3, x, t5, t6, t7, t8]));
  }

  /** `compose5(before)`: the fifth argument goes through `before` first. */
  lemma Compose5<R>(f: Callable<R>, b: Val -> Exec<Val>, t1: Val, t2: Val, t3: Val, t4: Val, v: Val, t6: Val, t7: Val, t8: Val)
    requires f.arity == 8
    ensures Callables.Compose(f, 4, Some(b)).v.apply([t1, t2, t3, t4, v, t6, t7, t8]) == Then(b(v), x => f.apply([t1, t2, t3, t4, x, t6, t7, t8]))
  {
    forall w ensures [t1, t2, t3, t4, v, t6, t7, t8][4 := w] == [t1, t2, t3, t4, w, t6, t7, t8] { }
    Callables.ComposeAt(f, 4, b, [t1, t2, t3, t4, v, t6, t7, t8], x => f.apply([t1, t2, t3, t4, x, t6, t7, t8]));
  }

  /** `compose6(before)`: the sixth argument goes through `before` first. */
  lemma Compose6<R>(f: Callable<R>, b: Val -> Exec<Val>, t1: Val, t2: Val, t3: Val, t4: Val, t5: Val, v: Val, t7: Val, t8: Val)
    requires f.arity == 8
    ensures Callables.Compose(f, 5, Some(b)).v.apply([t1, t2, t3, t4, t5, v, t7, t8]) == Then(b(v), x => f.apply([t1, t2, t3, t4, t5, x, t7, t8]))
  {
    forall w ensures [t1, t2, t3, t4, t5, v, t7, t8][5 := w] == [t1, t2, t3, t4, t5, w, t7, t8] { }
    Callables.ComposeAt(f, 5, b, [t1, t2, t3, t4, t5, v, t7, t8], x => f.apply([t1, t2, t3, t4, t5, x, t7, t8]));
  }

  /** `compose7(before)`: the seventh argument goes through `before` first. */
  lemma Compose7<R>(f: Callable<R>, b: Val -> Exec<Val>, t1: Val, t2: Val, t3: Val, t4: Val, t5: Val, t6: Val, v: Val, t8: Val)
    requires f.arity == 8
    ensures Callables.Compose(f, 6, Some(b)).v.apply([t1, t2, t3, t4, t5, t6, v, t8]) == Then(b(v), x => f.apply([t1, t2, t3, t4, t5, t6, x, t8]))
  {
    forall w ensures [t1, t2, t3, t4, t5, t6, v, t8][6 := w] == [t1, t2, t3, t4, t5, t6, w, t8] { }
    Callables.ComposeAt(f, 6, b, [t1, t2, t3, t4, t5, t6, v, t8], x => f.apply([t1, t2, t3, t4, t5, t6, x, t8]));
  }

  /** `compose8(before)`: the eighth argument goes through `before` first. */
  lemma Compose8<R>(f: Callable<R>, b: Val -> Exec<Val>, t1: Val, t2: Val, t3: Val, t4: Val, t5: Val, t6: Val, t7: Val, v: Val)
    requires f.arity == 8
    ensures Callables.Compose(f, 7, Some(b)).v.apply([t1, t2, t3, t4, t5, t6, t7, v]) == Then(b(v), x => f.apply([t1, t2, t3, t4, t5, t6, t7, x]))
  {
    forall w ensures [t1, t2, t3, t4, t5, t6, t7, v][7 := w] == [t1, t2, t3, t4, t5, t6, t7, w] { }
    Callables.ComposeAt(f, 7, b, [t1, t2, t3, t4, t5, t6, t7, v], x => f.apply([t1, t2, t3, t4, t5, t6, t7, x]));
  }

  /** `swap1()`: the first and second arguments change places; doing it twice
      changes nothing. */
  lemma Swap1<R>(f: Callable<R>, t1: Val, t2: Val, t3: Val, t4: Val, t5: Val, t6: Val, t7: Val, t8: Val)
    requires f.arity == 8
    ensures Callables.Swap(f, 0).apply([t2, t1, t3, t4, t5, t6, t7, t8]) == f.apply([t1, t2, t3, t4, t5, t6, t7, t8])
    ensures Callables.Swap(Callables.Swap(f, 0), 0).apply([t1, t2, t3, t4, t5, t6, t7, t8]) == f.apply([t1, t2, t3, t4, t5, t6, t7, t8])
  {
    Callables.SwapLaw(f, 0, [t1, t2, t3, t4, t5, t6, t7, t8]);
    assert Input.Swapped([t1, t2, t3, t4, t5, t6, t7, t8], 0) == [t2, t1, t3, t4, t5, t6, t7, t8];
  }

  /** `swap2()`: the second and third arguments change places; doing it twice
      changes nothing. */
  lemma Swap2<R>(f: Callable<R>, t1: Val, t2: Val, t3: Val, t4: Val, t5: Val, t6: Val, t7: Val, t8: Val)
    requires f.arity == 8
    ensures Callables.Swap(f, 1).apply([t1, t3, t2, t4, t5, t6, t7, t8]) == f.apply([t1, t2, t3, t4, t5, t6, t7, t8])
    ensures Callables.Swap(Callables.Swap(f, 1), 1).apply([t1, t2, t3, t4, t5, t6, t7, t8]) == f.apply([t1, t2, t3, t4, t5, t6, t7, t8])
  {
    Callables.SwapLaw(f, 1, [t1, t2, t3, t4, t5, t6, t7, t8]);
    assert Input.Swapped([t1, t2, t3, t4, t5, t6, t7, t8], 1) == [t1, t3, t2, t4, t5, t6, t7, t8];
  }

  /** `swap3()`: the third and fourth arguments change places; doing it twice
      changes nothing. */
  lemma Swap3<R>(f: Callable<R>, t1: Val, t2: Val, t3: Val, t4: Val, t5: Val, t6: Val, t7: Val, t8: Val)
    requires f.arity == 8
    ensures Callables.Swap(f, 2).apply([t1, t2, t4, t3, t5, t6, t7, t8]) == f.apply([t1, t2, t3, t4, t5, t6, t7, t8])
    ensures Callables.Swap(Callables.Swap(f, 2), 2).apply([t1, t2, t3, t4, t5, t6, t7, t8]) == f.apply([t1, t2, t3, t4, t5, t6, t7, t8])
  {
    Callables.SwapLaw(f, 2, [t1, t2, t3, t4, t5, t6, t7, t8]);
    assert Input.Swapped([t1, t2, t3, t4, t5, t6, t7, t8], 2) == [t1, t2, t4, t3, t5, t6, t7, t8];
  }

  /** `swap4()`: the fourth and fifth arguments change places; doing it twice
      changes nothing. */
  lemma Swap4<R>(f: Callable<R>, t1: Val, t2: Val, t3: Val, t4: Val, t5: Val, t6: Val, t7: Val, t8: Val)
    requires f.arity == 8
    ensures Callables.Swap(f, 3).apply([t1, t2, t3, t5, t4, t6, t7, t8]) == f.apply([t1, t2, t3, t4, t5, t6, t7, t8])
    ensures Callables.Swap(Callables.Swap(f, 3), 3).apply([t1, t2, t3, t4, t5, t6, t7, t8]) == f.apply([t1, t2, t3, t4, t5, t6, t7, t8])
  {
    Callables.SwapLaw(f, 3, [t1, t2, t3, t4, t5, t6, t7, t8]);
    assert Input.Swapped([t1, t2, t3, t4, t5, t6, t7, t8], 3) == [t1, t2, t3, t5, t4, t6, t7, t8];
  }

  /** `swap5()`: the fifth and sixth arguments change places; doing it twice
      changes nothing. */
  lemma Swap5<R>(f: Callable<R>, t1: Val, t2: Val, t3: Val, t4: Val, t5: Val, t6: Val, t7: Val, t8: Val)
    requires f.arity == 8
    ensures Callables.Swap(f, 4).apply([t1, t2, t3, t4, t6, t5, t7, t8]) == f.apply([t1, t2, t3, t4, t5, t6, t7, t8])
    ensures Callables.Swap(Callables.Swap(f, 4), 4).apply([t1, t2, t3, t4, t5, t6, t7, t8]) == f.apply([t1, t2, t3, t4, t5, t6, t7, t8])
  {
    Callables.SwapLaw(f, 4, [t1, t2, t3, t4, t5, t6, t7, t8]);
    assert Input.Swapped([t1, t2, t3, t4, t5, t6, t7, t8], 4) == [t1, t2, t3, t4, t6, t5, t7, t8];
  }

  /** `swap6()`: the sixth and seventh arguments change places; doing it twice
      changes nothing. */
  lemma Swap6<R>(f: Callable<R>, t1: Val, t2: Val, t3: Val, t4: Val, t5: Val, t6: Val, t7: Val, t8: Val)
    requires f.arity == 8
    ensures Callables.Swap(f, 5).apply([t1, t2, t3, t4, t5, t7, t6, t8]) == f.apply([t1, t2, t3, t4, t5, t6, t7, t8])
    ensures Callables.Swap(Callables.Swap(f, 5), 5).apply([t1, t2, t3, t4, t5, t6, t7, t8]) == f.apply([t1, t2, t3, t4, t5, t6, t7, t8])
  {
    Callables.SwapLaw(f, 5, [t1, t2, t3, t4, t5, t6, t7, t8]);
    assert Input.Swapped([t1, t2, t3, t4, t5, t6, t7, t8], 5) == [t1, t2, t3, t4, t5, t7, t6, t8];
  }

  /** `swap7()`: the seventh and eighth arguments change places; doing it twice
      changes nothing. */
  lemma Swap7<R>(f: Callable<R>, t1: Val, t2: Val, t3: Val, t4: Val, t5: Val, t6: Val, t7: Val, t8: Val)
    requires f.arity == 8
    ensures Callables.Swap(f, 6).apply([t1, t2, t3, t4, t5, t6, t8, t7]) == f.apply([t1, t2, t3, t4, t5, t6, t7, t8])
    ensures Callables.Swap(Callables.Swap(f, 6), 6).apply([t1, t2, t3, t4, t5, t6, t7, t8]) == f.apply([t1, t2, t3, t4, t5, t6, t7, t8])
  {
    Callables.SwapLaw(f, 6, [t1, t2, t3, t4, t5, t6, t7, t8]);
    assert Input.Swapped([t1, t2, t3, t4, t5, t6, t7, t8], 6) == [t1, t2, t3, t4, t5, t6, t8, t7];
  }

  /** `partial1(t1)`: the first argument is fixed; the others keep their order. */
  lemma Partial1<R>(f: Callable<R>, t1: Val, t2: Val, t3: Val, t4: Val, t5: Val, t6: Val, t7: Val, t8: Val)
    requires f.arity == 8
    ensures Callables.Partial(f, 0, t1).arity == 7
    ensures Callables.Partial(f, 0, t1).apply([t2, t3, t4, t5, t6, t7, t8]) == f.apply([t1, t2, t3, t4, t5, t6, t7, t8])
  {
    Callables.PartialLaw(f, 0, [t1, t2, t3, t4, t5, t6, t7, t8]);
    assert Input.Removed([t1, t2, t3, t4, t5, t6, t7, t8], 0) == [t2, t3, t4, t5, t6, t7, t8];
  }

  /** `partial2(t2)`: the second argument is fixed; the others keep their order. */
  lemma Partial2<R>(f: Callable<R>, t1: Val, t2: Val, t3: Val, t4: Val, t5: Val, t6: Val, t7: Val, t8: Val)
    requires f.arity == 8
    ensures Callables.Partial(f, 1, t2).arity == 7
    ensures Callables.Partial(f, 1, t2).apply([t1, t3, t4, t5, t6, t7, t8]) == f.apply([t1, t2, t3, t4, t5, t6, t7, t8])
  {
    Callables.PartialLaw(f, 1, [t1, t2, t3, t4, t5, t6, t7, t8]);
    assert Input.Removed([t1, t2, t3, t4, t5, t6, t7, t8], 1) == [t1, t3, t4, t5, t6, t7, t8];
  }

  /** `partial3(t3)`: the third argument is fixed; the others keep their order. */
  lemma Partial3<R>(f: Callable<R>, t1: Val, t2: Val, t3: Val, t4: Val, t5: Val, t6: Val, t7: Val, t8: Val)
    requires f.arity == 8
    ensures Callables.Partial(f, 2, t3).arity == 7
    ensures Callables.Partial(f, 2, t3).apply([t1, t2, t4, t5, t6, t7, t8]) == f.apply([t1, t2, t3, t4, t5, t6, t7, t8])
  {
    Callables.PartialLaw(f, 2, [t1, t2, t3, t4, t5, t6, t7, t8]);
    assert Input.Removed([t1, t2, t3, t4, t5, t6, t7, t8], 2) == [t1, t2, t4, t5, t6, t7, t8];
  }

  /** `partial4(t4)`: the fourth argument is fixed; the others keep their order. */
  lemma Partial4<R>(f: Callable<R>, t1: Val, t2: Val, t3: Val, t4: Val, t5: Val, t6: Val, t7: Val, t8: Val)
    requires f.arity == 8
    ensures Callables.Partial(f, 3, t4).arity == 7
    ensures Callables.Partial(f, 3, t4).apply([t1, t2, t3, t5, t6, t7, t8]) == f.apply([t1, t2, t3, t4, t5, t6, t7, t8])
  {
    Callables.PartialLaw(f, 3, [t1, t2, t3, t4, t5, t6, t7, t8]);
    assert Input.Removed([t1, t2, t3, t4, t5, t6, t7, t8], 3) == [t1, t2, t3, t5, t6, t7, t8];
  }

  /** `partial5(t5)`: the fifth argument is fixed; the others keep their order. */
  lemma Partial5<R>(f: Callable<R>, t1: Val, t2: Val, t3: Val, t4: Val, t5: Val, t6: Val, t7: Val, t8: Val)
    requires f.arity == 8
    ensures Callables.Partial(f, 4, t5).arity == 7
    ensures Callables.Partial(f, 4, t5).apply([t1, t2, t3, t4, t6, t7, t8]) == f.apply([t1, t2, t3, t4, t5, t6, t7, t8])
  {
    Callables.PartialLaw(f, 4, [t1, t2, t3, t4, t5, t6, t7, t8]);
    assert Input.Removed([t1, t2, t3, t4, t5, t6, t7, t8], 4) == [t1, t2, t3, t4, t6, t7, t8];
  }

  /** `partial6(t6)`: the sixth argument is fixed; the others keep their order. */
  lemma Partial6<R>(f: Callable<R>, t1: Val, t2: Val, t3: Val, t4: Val, t5: Val, t6: Val, t7: Val, t8: Val)
    requires f.arity == 8
    ensures Callables.Partial(f, 5, t6).arity == 7
    ensures Callables.Partial(f, 5, t6).apply([t1, t2, t3, t4, t5, t7, t8]) == f.apply([t1, t2, t3, t4, t5, t6, t7, t8])
  {
    Callables.PartialLaw(f, 5, [t1, t2, t3, t4, t5, t6, t7, t8]);
    assert Input.Removed([t1, t2, t3, t4, t5, t6, t7, t8], 5) == [t1, t2, t3, t4, t5, t7, t8];
  }

  /** `partial7(t7)`: the seventh argument is fixed; the others keep their order. */
  lemma Partial7<R>(f: Callable<R>, t1: Val, t2: Val, t3: Val, t4: Val, t5: Val, t6: Val, t7: Val, t8: Val)
    requires f.arity == 8
    ensures Callables.Partial(f, 6, t7).arity == 7
    ensures Callables.Partial(f, 6, t7).apply([t1, t2, t3, t4, t5, t6, t8]) == f.apply([t1, t2, t3, t4, t5, t6, t7, t8])
  {
    Callables.PartialLaw(f, 6, [t1, t2, t3, t4, t5, t6, t7, t8]);
    assert Input.Removed([t1, t2, t3, t4, t5, t6, t7, t8], 6) == [t1, t2, t3, t4, t5, t6, t8];
  }

  /** `partial8(t8)`: the eighth argument is fixed; the others keep their order. */
  lemma Partial8<R>(f: Callable<R>, t1: Val, t2: Val, t3: Val, t4: Val, t5: Val, t6: Val, t7: Val, t8: Val)
    requires f.arity == 8
    ensures Callables.Partial(f, 7, t8).arity == 7
    ensures Callables.Partial(f, 7, t8).apply([t1, t2, t3, t4, t5, t6, t7]) == f.apply([t1, t2, t3, t4, t5, t6, t7, t8])
  {
    Callables.PartialLaw(f, 7, [t1, t2, t3, t4, t5, t6, t7, t8]);
    assert Input.Removed([t1, t2, t3, t4, t5, t6, t7, t8], 7) == [t1, t2, t3, t4, t5, t6, t7];
  }

  /** `curry()`: one single-argument stage per argument. */
  lemma Curry<R>(f: Callable<R>, t1: Val, t2: Val, t3: Val, t4: Val, t5: Val, t6: Val, t7: Val, t8: Val)
    requires f.arity == 8
    ensures Callables.Feed(Callables.Curry(f), [t1, t2, t3, t4, t5, t6, t7, t8]) == Some(f.apply([t1, t2, t3, t4, t5, t6, t7, t8]))
  {
    Callables.CurryLaw(f, [t1, t2, t3, t4, t5, t6, t7, t8]);
  }

  /** `curry1()`: the first 1 arguments, then the other 7. */
  lemma Curry1<R>(f: Callable<R>, t1: Val, t2: Val, t3: Val, t4: Val, t5: Val, t6: Val, t7: Val, t8: Val)
    requires f.arity == 8
    ensures Callables.CurryK(f, 1).apply([t1]).trace == []
    ensures Callables.Uncurry(Callables.CurryK(f, 1), [t1], [t2, t3, t4, t5, t6, t7, t8]) == f.apply([t1, t2, t3, t4, t5, t6, t7, t8])
  {
    Callables.CurryKLaw(f, 1, [t1, t2, t3, t4, t5, t6, t7, t8]);
    assert [t1, t2, t3, t4, t5, t6, t7, t8][..1] == [t1] && [t1, t2, t3, t4, t5, t6, t7, t8][1..] == [t2, t3, t4, t5, t6, t7, t8];
  }

  /** `curry2()`: the first 2 arguments, then the other 6. */
  lemma Curry2<R>(f: Callable<R>, t1: Val, t2: Val, t3: Val, t4: Val, t5: Val, t6: Val, t7: Val, t8: Val)
    requires f.arity == 8
    ensures Callables.CurryK(f, 2).apply([t1, t2]).trace == []
    ensures Callables.Uncurry(Callables.CurryK(f, 2), [t1, t2], [t3, t4, t5, t6, t7, t8]) == f.apply([t1, t2, t3, t4, t5, t6, t7, t8])
  {
    Callables.CurryKLaw(f, 2, [t1, t2, t3, t4, t5, t6, t7, t8]);
    assert [t1, t2, t3, t4, t5, t6, t7, t8][..2] == [t1, t2] && [t1, t2, t3, t4, t5, t6, t7, t8][2..] == [t3, t4, t5, t6, t7, t8];
  }

  /** `curry3()`: the first 3 arguments, then the other 5. */
  lemma Curry3<R>(f: Callable<R>, t1: Val, t2: Val, t3: Val, t4: Val, t5: Val, t6: Val, t7: Val, t8: Val)
    requires f.arity == 8
    ensures Callables.CurryK(f, 3).apply([t1, t2, t3]).trace == []
    ensures Callables.Uncurry(Callables.CurryK(f, 3), [t1, t2, t3], [t4, t5, t6, t7, t8]) == f.apply([t1, t2, t3, t4, t5, t6, t7, t8])
  {
    Callables.CurryKLaw(f, 3, [t1, t2, t3, t4, t5, t6, t7, t8]);
    assert [t1, t2, t3, t4, t5, t6, t7, t8][..3] == [t1, t2, t3] && [t1, t2, t3, t4, t5, t6, t7, t8][3..] == [t4, t5, t6, t7, t8];
  }

  /** `curry4()`: the first 4 arguments, then the other 4. */
  lemma Curry4<R>(f: Callable<R>, t1: Val, t2: Val, t3: Val, t4: Val, t5: Val, t6: Val, t7: Val, t8: Val)
    requires f.arity == 8
    ensures Callables.CurryK(f, 4).apply([t1, t2, t3, t4]).trace == []
    ensures Callables.Uncurry(Callables.CurryK(f, 4), [t1, t2, t3, t4], [t5, t6, t7, t8]) == f.apply([t1, t2, t3, t4, t5, t6, t7, t8])
  {
    Callables.CurryKLaw(f, 4, [t1, t2, t3, t4, t5, t6, t7, t8]);
    assert [t1, t2, t3, t4, t5, t6, t7, t8][..4] == [t1, t2, t3, t4] && [t1, t2, t3, t4, t5, t6, t7, t8][4..] == [t5, t6, t7, t8];
  }

  /** `curry5()`: the first 5 arguments, then the other 3. */
  lemma Curry5<R>(f: Callable<R>, t1: Val, t2: Val, t3: Val, t4: Val, t5: Val, t6: Val, t7: Val, t8: Val)
    requires f.arity == 8
    ensures Callables.CurryK(f, 5).apply([t1, t2, t3, t4, t5]).trace == []
    ensures Callables.Uncurry(Callables.CurryK(f, 5), [t1, t2, t3, t4, t5], [t6, t7, t8]) == f.apply([t1, t2, t3, t4, t5, t6, t7, t8])
  {
    Callables.CurryKLaw(f, 5, [t1, t2, t3, t4, t5, t6, t7, t8]);
    assert [t1, t2, t3, t4, t5, t6, t7, t8][..5] == [t1, t2, t3, t4, t5] && [t1, t2, t3, t4, t5, t6, t7, t8][5..] == [t6, t7, t8];
  }

  /** `curry6()`: the first 6 arguments, then the other 2. */
  lemma Curry6<R>(f: Callable<R>, t1: Val, t2: Val, t3: Val, t4: Val, t5: Val, t6: Val, t7: Val, t8: Val)
    requires f.arity == 8
    ensures Callables.CurryK(f, 6).apply([t1, t2, t3, t4, t5, t6]).trace == []
    ensures Callables.Uncurry(Callables.CurryK(f, 6), [t1, t2, t3, t4, t5, t6], [t7, t8]) == f.apply([t1, t2, t3, t4, t5, t6, t7, t8])
  {
    Callables.CurryKLaw(f, 6, [t1, t2, t3, t4, t5, t6, t7, t8]);
    assert [t1, t2, t3, t4, t5, t6, t7, t8][..6] == [t1, t2, t3, t4, t5, t6] && [t1, t2, t3, t4, t5, t6, t7, t8][6..] == [t7, t8];
  }

  /** `curry7()`: the first 7 arguments, then the other 1. */
  lemma Curry7<R>(f: Callable<R>, t1: Val, t2: Val, t3: Val, t4: Val, t5: Val, t6: Val, t7: Val, t8: Val)
    requires f.arity == 8
    ensures Callables.CurryK(f, 7).apply([t1, t2, t3, t4, t5, t6, t7]).trace == []
    ensures Callables.Uncurry(Callables.CurryK(f, 7), [t1, t2, t3, t4, t5, t6, t7], [t8]) == f.apply([t1, t2, t3, t4, t5, t6, t7, t8])
  {
    Callables.CurryKLaw(f, 7, [t1, t2, t3, t4, t5, t6, t7, t8]);
    assert [t1, t2, t3, t4, t5, t6, t7, t8][..7] == [t1, t2, t3, t4, t5, t6, t7] && [t1, t2, t3, t4, t5, t6, t7, t8][7..] == [t8];
  }

  /** `handle`: a completed call is returned unchanged; a throwing call keeps
      its effects and is followed by the `catch` block, which invokes the
      handler's fallback on the same arguments. */
  lemma Handle<R>(f: Callable<R>, h: Err -> Exec<Option<Callable<R>>>, t1: Val, t2: Val, t3: Val, t4: Val, t5: Val, t6: Val, t7: Val, t8: Val)
    requires f.arity == 8
    ensures f.apply([t1, t2, t3, t4, t5, t6, t7, t8]).out.Ok? ==> Callables.Handle(f, Some(h)).v.apply([t1, t2, t3, t4, t5, t6, t7, t8]) == f.apply([t1, t2, t3, t4, t5, t6, t7, t8])
    ensures f.apply([t1, t2, t3, t4, t5, t6, t7, t8]).out.Fault? ==>
      var body := f.apply([t1, t2, t3, t4, t5, t6, t7, t8]);
      var fallback := Callables.Fallback(h, body.out.e, [t1, t2, t3, t4, t5, t6, t7, t8]);
      Callables.Handle(f, Some(h)).v.apply([t1, t2, t3, t4, t5, t6, t7, t8]) == Exec(body.trace + fallback.trace, fallback.out)
  {
  }

  /** `andThen(after)`: `after` gets the result of `apply8`; it is not
      applied when `apply8` throws. */
  lemma AndThen<R, V>(f: Callable<R>, after: R -> Exec<V>, t1: Val, t2: Val, t3: Val, t4: Val, t5: Val, t6: Val, t7: Val, t8: Val)
    requires f.arity == 8
    ensures f.apply([t1, t2, t3, t4, t5, t6, t7, t8]).out.Fault? ==>
      Functions.AndThen(f, Some(after)).v.apply([t1, t2, t3, t4, t5, t6, t7, t8]) == Exec(f.apply([t1, t2, t3, t4, t5, t6, t7, t8]).trace, Fault(f.apply([t1, t2, t3, t4, t5, t6, t7, t8]).out.e))
    ensures f.apply([t1, t2, t3, t4, t5, t6, t7, t8]).out.Ok? ==>
      var post := after(f.apply([t1, t2, t3, t4, t5, t6, t7, t8]).out.v);
      Functions.AndThen(f, Some(after)).v.apply([t1, t2, t3, t4, t5, t6, t7, t8]) == Exec(f.apply([t1, t2, t3, t4, t5, t6, t7, t8]).trace + post.trace, post.out)
  {
    Functions.AndThenLaw(f, after, [t1, t2, t3, t4, t5, t6, t7, t8]);
  }

  /** `consume()`: a Runnable8 with the effects and the throwable of
      `apply8`, whose value it drops. */
  lemma Consume<R>(f: Callable<R>, t1: Val, t2: Val, t3: Val, t4: Val, t5: Val, t6: Val, t7: Val, t8: Val)
    requires f.arity == 8
    ensures Functions.Consume(f).arity == 8
    ensures Functions.Consume(f).apply([t1, t2, t3, t4, t5, t6, t7, t8]).trace == f.apply([t1, t2, t3, t4, t5, t6, t7, t8]).trace
    ensures Functions.Consume(f).apply([t1, t2, t3, t4, t5, t6, t7, t8]).out.Ok? <==> f.apply([t1, t2, t3, t4, t5, t6, t7, t8]).out.Ok?
    ensures f.apply([t1, t2, t3, t4, t5, t6, t7, t8]).out.Fault? ==> Functions.Consume(f).apply([t1, t2, t3, t4, t5, t6, t7, t8]).out == Fault(f.apply([t1, t2, t3, t4, t5, t6, t7, t8]).out.e)
  {
    Functions.ConsumeLaw(f, [t1, t2, t3, t4, t5, t6, t7, t8]);
  }
}
