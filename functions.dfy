/** The result-side combinators of the Function family: `andThen`, which
    post-composes a transformer, and `consume`, which views a FunctionN as a
    RunnableN that discards the result. */
module Functions {
  import opened Base
  import Callables

  /** `andThen(after)`: `after` is applied to the result of each invocation;
      a null `after` is rejected at construction. */
  function AndThen<R, V>(f: Callable<R>, after: Option<R -> Exec<V>>): (r: Outcome<Callable<V>>)
    ensures r.Fault? <==> after.None?
    ensures r.Fault? ==> r.e == NullArg
    ensures r.Ok? ==> r.v.arity == f.arity
  {
    match after
    case None => Fault(NullArg)
    case Some(a) => Ok(Callable(f.arity, args => Then(f.apply(args), a)))
  }

  /** The body runs first; `after` sees its result, after its effects. When the
      body throws, `after` is never applied and the throwable propagates. */
  lemma AndThenLaw<R, V>(f: Callable<R>, a: R -> Exec<V>, args: seq<Val>)
    ensures f.apply(args).out.Fault? ==>
      AndThen(f, Some(a)).v.apply(args) == Exec(f.apply(args).trace, Fault(f.apply(args).out.e))
    ensures f.apply(args).out.Ok? ==>
      var post := a(f.apply(args).out.v);
      AndThen(f, Some(a)).v.apply(args) == Exec(f.apply(args).trace + post.trace, post.out)
  {
  }

  /** Post-composing a transformer that returns its argument changes nothing. */
  lemma AndThenReturn<R>(f: Callable<R>, args: seq<Val>)
    ensures AndThen(f, Some((x: R) => Return(x))).v.apply(args) == f.apply(args)
  {
    ThenReturn(f.apply(args));
  }

  /** Two `andThen`s in a row are one `andThen` with the transformers chained. */
  lemma AndThenTwice<R, U, V>(f: Callable<R>, a1: R -> Exec<U>, a2: U -> Exec<V>, args: seq<Val>)
    ensures AndThen(AndThen(f, Some(a1)).v, Some(a2)).v.apply(args)
         == AndThen(f, Some((x: R) => Then(a1(x), a2))).v.apply(args)
  {
    ThenAssoc(f.apply(args), a1, a2);
  }

  /** `andThen` acts on the result only, so it commutes with the argument
      combinators: fixing a slot before or after post-composing is the same. */
  lemma AndThenPartial<R, V>(f: Callable<R>, a: R -> Exec<V>, k: nat, x: Val, rest: seq<Val>)
    requires k < f.arity
    ensures Callables.Partial(AndThen(f, Some(a)).v, k, x).apply(rest)
         == AndThen(Callables.Partial(f, k, x), Some(a)).v.apply(rest)
  {
  }

  /** `consume()`: the RunnableN that invokes `applyN` and drops its value. */
  function Consume<R>(f: Callable<R>): (r: Callable<()>)
    ensures r.arity == f.arity
  {
    Callable(f.arity, args => Then(f.apply(args), _ => Return(())))
  }

  /** The consumer performs exactly the effects of one `applyN`, completes
      exactly when `applyN` does and rethrows its throwable. */
  lemma ConsumeLaw<R>(f: Callable<R>, args: seq<Val>)
    ensures Consume(f).apply(args).trace == f.apply(args).trace
    ensures Consume(f).apply(args).out.Ok? <==> f.apply(args).out.Ok?
    ensures f.apply(args).out.Fault? ==> Consume(f).apply(args).out == Fault(f.apply(args).out.e)
  {
    assert f.apply(args).trace + Return(()).trace == f.apply(args).trace;
  }

  /** Consuming forgets a post-composed transformer that, on the body's
      result, neither throws nor has effects. */
  lemma ConsumeAfterPure<R, V>(f: Callable<R>, a: R -> Exec<V>, args: seq<Val>)
    requires f.apply(args).out.Ok? ==> a(f.apply(args).out.v).trace == [] && a(f.apply(args).out.v).out.Ok?
    ensures Consume(AndThen(f, Some(a)).v).apply(args) == Consume(f).apply(args)
  {
    var body := f.apply(args);
    if body.out.Ok? {
      var post := a(body.out.v);
      assert body.trace + post.trace == body.trace;
      assert AndThen(f, Some(a)).v.apply(args) == Exec(body.trace, post.out);
      assert Consume(AndThen(f, Some(a)).v).apply(args) == Exec(body.trace + [], Ok(()));
      assert Consume(f).apply(args) == Exec(body.trace + [], Ok(()));
    } else {
      assert AndThen(f, Some(a)).v.apply(args) == Exec(body.trace, Fault(body.out.e));
    }
  }

  /** Consuming commutes with swapping: both act on different ends. */
  lemma ConsumeSwap<R>(f: Callable<R>, k: nat, args: seq<Val>)
    requires k + 1 < f.arity
    ensures Consume(Callables.Swap(f, k)).apply(args) == Callables.Swap(Consume(f), k).apply(args)
  {
  }
}
