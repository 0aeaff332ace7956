/** The sequencing combinators of the Runnable family: `andThen(Runnable)`,
    which runs a second operation on the same arguments, and
    `andThen(Transformer1)`, which turns a RunnableN into a FunctionN by
    feeding the `null` of `applyN` to a transformer. */
module Runnables {
  import opened Base
  import Task
  import Functions

  /** `andThen(after)`: run this operation, then `after`, on the same
      arguments; a null `after` is rejected at construction. */
  function Sequence(r: Callable<()>, after: Option<Callable<()>>): (s: Outcome<Callable<()>>)
    requires after.Some? ==> after.value.arity == r.arity
    ensures s.Fault? <==> after.None?
    ensures s.Fault? ==> s.e == NullArg
    ensures s.Ok? ==> s.v.arity == r.arity
  {
    match after
    case None => Fault(NullArg)
    case Some(a) => Ok(Callable(r.arity, args => Then(r.apply(args), _ => a.apply(args))))
  }

  /** The effects of `this` come before those of `after`; when `this` throws,
      `after` never runs and the throwable propagates; otherwise the sequence
      completes or throws as `after` does. */
  lemma SequenceLaw(r: Callable<()>, a: Callable<()>, args: seq<Val>)
    requires a.arity == r.arity
    ensures r.apply(args).out.Fault? ==>
      Sequence(r, Some(a)).v.apply(args) == Exec(r.apply(args).trace, Fault(r.apply(args).out.e))
    ensures r.apply(args).out.Ok? ==>
      Sequence(r, Some(a)).v.apply(args) == Exec(r.apply(args).trace + a.apply(args).trace, a.apply(args).out)
  {
  }

  /** Sequencing is associative: `(x.andThen(y)).andThen(z)` and
      `x.andThen(y.andThen(z))` perform the same effects and end the same way. */
  lemma SequenceAssoc(x: Callable<()>, y: Callable<()>, z: Callable<()>, args: seq<Val>)
    requires x.arity == y.arity == z.arity
    ensures Sequence(Sequence(x, Some(y)).v, Some(z)).v.apply(args)
         == Sequence(x, Some(Sequence(y, Some(z)).v)).v.apply(args)
  {
    ThenAssoc(x.apply(args), _ => y.apply(args), _ => z.apply(args));
  }

  /** `andThen(transformer)`: the FunctionN `transformer(applyN(...))`. */
  function Lift<V>(r: Callable<()>, after: Option<Val -> Exec<V>>): (f: Outcome<Callable<V>>)
    ensures f.Fault? <==> after.None?
    ensures f.Fault? ==> f.e == NullArg
    ensures f.Ok? ==> f.v.arity == r.arity
  {
    Functions.AndThen(Task.AsFunction(r), after)
  }

  /** The operation runs once, then the transformer receives `null`, the
      value of `applyN`; if the operation throws, the transformer is never
      applied. */
  lemma LiftLaw<V>(r: Callable<()>, a: Val -> Exec<V>, args: seq<Val>)
    ensures r.apply(args).out.Fault? ==>
      Lift(r, Some(a)).v.apply(args) == Exec(r.apply(args).trace, Fault(r.apply(args).out.e))
    ensures r.apply(args).out.Ok? ==>
      Lift(r, Some(a)).v.apply(args) == Exec(r.apply(args).trace + a(Null).trace, a(Null).out)
  {
    Task.AsFunctionLaw(r, args);
    var run := r.apply(args);
    if run.out.Ok? {
      assert Task.AsFunction(r).apply(args) == Exec(run.trace, Ok(Null));
    }
  }
}
