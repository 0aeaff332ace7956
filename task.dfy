/** The Task family: an N-ary computation run for its effects (`runN`) that is
    also a TransformerN returning `null` (`applyN`), and a Task(N+1) that drops
    its trailing argument (`run(N+1)`).

    A task is a `Callable<()>`: one invocation of `runN` performs effects and
    either completes or throws. Unlike the Transformer chain, the Task chain
    Task0 -> Task1 -> ... -> Task8 is unbroken. */
module Task {
  import opened Base
  import Transformer

  /** The arity of the Task interface that TaskN extends, if any. */
  function Super(n: nat): (s: Option<nat>)
    requires n <= MaxArity
    ensures s.Some? <==> n < MaxArity
    ensures s.Some? ==> s.value == n + 1
  {
    if n < MaxArity then Some(n + 1) else None
  }

  /** The inherited `run(N+1)` of a TaskN: `runN` on the first N arguments. */
  function RunWiden(task: Callable<()>): (w: Callable<()>)
    requires task.arity < MaxArity
    ensures w.arity == task.arity + 1
  {
    IgnoreLast(task)
  }

  /** `run(N+1)` runs `runN` exactly once on the first N arguments, with the
      same effects and the same throwable, whatever the dropped argument is. */
  lemma RunWidenLaw(task: Callable<()>, args: seq<Val>, o1: Val, o2: Val)
    requires |args| == task.arity < MaxArity
    ensures RunWiden(task).apply(args + [o1]) == task.apply(args)
    ensures RunWiden(task).apply(args + [o1]) == RunWiden(task).apply(args + [o2])
  {
    IgnoreLastLaw(task, args, o1);
    IgnoreLastLaw(task, args, o2);
  }

  /** `applyN` of a TaskN: run the task, then return `null`. */
  function AsFunction(task: Callable<()>): (f: Callable<Val>)
    ensures f.arity == task.arity
  {
    Callable(task.arity, args => Then(task.apply(args), _ => Return(Null)))
  }

  /** `applyN` performs exactly the effects of one `runN`; it returns `null`
      when the run completes and rethrows the run's throwable otherwise. */
  lemma AsFunctionLaw(task: Callable<()>, args: seq<Val>)
    ensures AsFunction(task).apply(args).trace == task.apply(args).trace
    ensures task.apply(args).out.Ok? <==> AsFunction(task).apply(args).out == Ok(Null)
    ensures task.apply(args).out.Fault? ==> AsFunction(task).apply(args).out == Fault(task.apply(args).out.e)
  {
    assert task.apply(args).trace + Return(Null).trace == task.apply(args).trace;
  }

  /** Dropping the last argument and then returning `null` is the same as
      returning `null` from the widened transformer: the two ways a TaskN can
      obtain `apply(N+1)` commute. */
  lemma WidenCommutes(task: Callable<()>, args: seq<Val>)
    requires task.arity < MaxArity && |args| == task.arity + 1
    ensures AsFunction(RunWiden(task)).apply(args) == IgnoreLast(AsFunction(task)).apply(args)
  {
    assert Take(args, task.arity) == args[..task.arity];
  }

  /** The inherited `apply(N+1)` of a TaskN. Task3 takes it from `Task4.super`
      (run the widened task, return `null`) because Transformer3 has no
      `apply4`; every other TaskN takes it from `TransformerN.super`. For Task6
      and Task7 the Transformer6 and Transformer7 defaults are assumed to have
      the same shape as Transformer5's. */
  function ApplyWidened(task: Callable<()>): (f: Callable<Val>)
    requires task.arity < MaxArity
    ensures f.arity == task.arity + 1
  {
    if task.arity == 3 then AsFunction(RunWiden(task))
    else Transformer.Widen(AsFunction(task))
  }

  /** Either way, `apply(N+1)` is `applyN` on the first N arguments: one run of
      `runN` and then `null`, or the run's throwable. */
  lemma {:induction false} ApplyWidenedLaw(task: Callable<()>, args: seq<Val>, o: Val)
    requires task.arity < MaxArity && |args| == task.arity
    ensures ApplyWidened(task).apply(args + [o]) == AsFunction(task).apply(args)
  {
    if task.arity == 3 {
      WidenCommutes(task, args + [o]);
      IgnoreLastLaw(AsFunction(task), args, o);
    } else {
      Transformer.WidenLaw(AsFunction(task), args, o, o);
    }
  }

  /** A TaskN used at arity `m`, through the chain of `run` defaults. */
  function RunTo(task: Callable<()>, m: nat): (w: Callable<()>)
    requires task.arity <= m <= MaxArity
    ensures w.arity == m
    decreases m
  {
    if m == task.arity then task else RunWiden(RunTo(task, m - 1))
  }

  /** Every TaskN can be run at every arity up to 8; it runs `runN` once on
      the first N arguments and ignores the rest. */
  lemma {:induction false} RunToLaw(task: Callable<()>, m: nat, args: seq<Val>)
    requires task.arity <= m <= MaxArity && |args| == m
    ensures RunTo(task, m).apply(args) == task.apply(args[..task.arity])
    decreases m
  {
    if m > task.arity {
      var init, last := args[..m - 1], args[m - 1];
      var w := RunTo(task, m - 1);
      assert args == init + [last];
      RunWidenLaw(w, init, last, last);
      RunToLaw(task, m - 1, init);
      assert init[..task.arity] == args[..task.arity];
      calc {
        RunTo(task, m).apply(args);
        RunWiden(w).apply(init + [last]);
        w.apply(init);
        task.apply(args[..task.arity]);
      }
    } else {
      assert args[..task.arity] == args;
    }
  }

  /** Task0.java: `run1(o)` and `apply0()` each run `run0()` once, the latter then
      returning `null`; `apply1(o)` reaches `apply0()` through Transformer0; and
      a Task0 can be run at every arity up to 8. */
  lemma Task0Defaults(task: Callable<()>, o: Val)
    requires task.arity == 0
    ensures RunWiden(task).apply([o]) == task.apply([])
    ensures AsFunction(task).apply([]).trace == task.apply([]).trace
    ensures task.apply([]).out.Ok? <==> AsFunction(task).apply([]).out == Ok(Null)
    ensures task.apply([]).out.Fault? ==> AsFunction(task).apply([]).out == Fault(task.apply([]).out.e)
    ensures ApplyWidened(task).apply([o]) == AsFunction(task).apply([])
    ensures RunTo(task, MaxArity).apply([o, o, o, o, o, o, o, o]) == task.apply([])
  {
    assert [] + [o] == [o];
    RunWidenLaw(task, [], o, o);
    ApplyWidenedLaw(task, [], o);
    AsFunctionLaw(task, []);
    RunToLaw(task, MaxArity, [o, o, o, o, o, o, o, o]);
  }

  /** Task1.java: `run2` drops its last argument; `apply1` runs `run1` and
      returns `null`; `apply2` goes through Transformer1's widening default. */
  lemma Task1Defaults(task: Callable<()>, t1: Val, o: Val)
    requires task.arity == 1
    ensures RunWiden(task).apply([t1, o]) == task.apply([t1])
    ensures AsFunction(task).apply([t1]).trace == task.apply([t1]).trace
    ensures task.apply([t1]).out.Ok? <==> AsFunction(task).apply([t1]).out == Ok(Null)
    ensures task.apply([t1]).out.Fault? ==> AsFunction(task).apply([t1]).out == Fault(task.apply([t1]).out.e)
    ensures ApplyWidened(task).apply([t1, o]) == AsFunction(task).apply([t1])
  {
    assert [t1] + [o] == [t1, o];
    RunWidenLaw(task, [t1], o, o);
    ApplyWidenedLaw(task, [t1], o);
    AsFunctionLaw(task, [t1]);
  }

  /** Task2.java: `run3` drops its last argument; `apply2` runs `run2` and
      returns `null`; `apply3` goes through Transformer2's widening default. */
  lemma Task2Defaults(task: Callable<()>, t1: Val, t2: Val, o: Val)
    requires task.arity == 2
    ensures RunWiden(task).apply([t1, t2, o]) == task.apply([t1, t2])
    ensures AsFunction(task).apply([t1, t2]).trace == task.apply([t1, t2]).trace
    ensures task.apply([t1, t2]).out.Ok? <==> AsFunction(task).apply([t1, t2]).out == Ok(Null)
    ensures task.apply([t1, t2]).out.Fault? ==> AsFunction(task).apply([t1, t2]).out == Fault(task.apply([t1, t2]).out.e)
    ensures ApplyWidened(task).apply([t1, t2, o]) == AsFunction(task).apply([t1, t2])
  {
    assert [t1, t2] + [o] == [t1, t2, o];
    RunWidenLaw(task, [t1, t2], o, o);
    ApplyWidenedLaw(task, [t1, t2], o);
    AsFunctionLaw(task, [t1, t2]);
  }

  /** Task3.java: `run4` drops its last argument; `apply3` runs `run3` and
      returns `null`; `apply4` goes through `Task4.super` to the same result. */
  lemma Task3Defaults(task: Callable<()>, t1: Val, t2: Val, t3: Val, o: Val)
    requires task.arity == 3
    ensures RunWiden(task).apply([t1, t2, t3, o]) == task.apply([t1, t2, t3])
    ensures AsFunction(task).apply([t1, t2, t3]).trace == task.apply([t1, t2, t3]).trace
    ensures task.apply([t1, t2, t3]).out.Ok? <==> AsFunction(task).apply([t1, t2, t3]).out == Ok(Null)
    ensures task.apply([t1, t2, t3]).out.Fault? ==> AsFunction(task).apply([t1, t2, t3]).out == Fault(task.apply([t1, t2, t3]).out.e)
    ensures ApplyWidened(task).apply([t1, t2, t3, o]) == AsFunction(task).apply([t1, t2, t3])
  {
    assert [t1, t2, t3] + [o] == [t1, t2, t3, o];
    RunWidenLaw(task, [t1, t2, t3], o, o);
    ApplyWidenedLaw(task, [t1, t2, t3], o);
    AsFunctionLaw(task, [t1, t2, t3]);
  }

  /** Task4.java: `run5` drops its last argument; `apply4` runs `run4` and
      returns `null`; `apply5` goes through Transformer4's widening default. */
  lemma Task4Defaults(task: Callable<()>, t1: Val, t2: Val, t3: Val, t4: Val, o: Val)
    requires task.arity == 4
    ensures RunWiden(task).apply([t1, t2, t3, t4, o]) == task.apply([t1, t2, t3, t4])
    ensures AsFunction(task).apply([t1, t2, t3, t4]).trace == task.apply([t1, t2, t3, t4]).trace
    ensures task.apply([t1, t2, t3, t4]).out.Ok? <==> AsFunction(task).apply([t1, t2, t3, t4]).out == Ok(Null)
    ensures task.apply([t1, t2, t3, t4]).out.Fault? ==> AsFunction(task).apply([t1, t2, t3, t4]).out == Fault(task.apply([t1, t2, t3, t4]).out.e)
    ensures ApplyWidened(task).apply([t1, t2, t3, t4, o]) == AsFunction(task).apply([t1, t2, t3, t4])
  {
    assert [t1, t2, t3, t4] + [o] == [t1, t2, t3, t4, o];
    RunWidenLaw(task, [t1, t2, t3, t4], o, o);
    ApplyWidenedLaw(task, [t1, t2, t3, t4], o);
    AsFunctionLaw(task, [t1, t2, t3, t4]);
  }

  /** Task5.java: `run6` drops its last argument; `apply5` runs `run5` and
      returns `null`; `apply6` goes through Transformer5's widening default. */
  lemma Task5Defaults(task: Callable<()>, t1: Val, t2: Val, t3: Val, t4: Val, t5: Val, o: Val)
    requires task.arity == 5
    ensures RunWiden(task).apply([t1, t2, t3, t4, t5, o]) == task.apply([t1, t2, t3, t4, t5])
    ensures AsFunction(task).apply([t1, t2, t3, t4, t5]).trace == task.apply([t1, t2, t3, t4, t5]).trace
    ensures task.apply([t1, t2, t3, t4, t5]).out.Ok? <==> AsFunction(task).apply([t1, t2, t3, t4, t5]).out == Ok(Null)
    ensures task.apply([t1, t2, t3, t4, t5]).out.Fault? ==> AsFunction(task).apply([t1, t2, t3, t4, t5]).out == Fault(task.apply([t1, t2, t3, t4, t5]).out.e)
    ensures ApplyWidened(task).apply([t1, t2, t3, t4, t5, o]) == AsFunction(task).apply([t1, t2, t3, t4, t5])
  {
    assert [t1, t2, t3, t4, t5] + [o] == [t1, t2, t3, t4, t5, o];
    RunWidenLaw(task, [t1, t2, t3, t4, t5], o, o);
    ApplyWidenedLaw(task, [t1, t2, t3, t4, t5], o);
    AsFunctionLaw(task, [t1, t2, t3, t4, t5]);
  }

  /** Task6.java: `run7` drops its last argument; `apply6` runs `run6` and
      returns `null`; `apply7` goes through Transformer6's widening default. */
  lemma Task6Defaults(task: Callable<()>, t1: Val, t2: Val, t3: Val, t4: Val, t5: Val, t6: Val, o: Val)
    requires task.arity == 6
    ensures RunWiden(task).apply([t1, t2, t3, t4, t5, t6, o]) == task.apply([t1, t2, t3, t4, t5, t6])
    ensures AsFunction(task).apply([t1, t2, t3, t4, t5, t6]).trace == task.apply([t1, t2, t3, t4, t5, t6]).trace
    ensures task.apply([t1, t2, t3, t4, t5, t6]).out.Ok? <==> AsFunction(task).apply([t1, t2, t3, t4, t5, t6]).out == Ok(Null)
    ensures task.apply([t1, t2, t3, t4, t5, t6]).out.Fault? ==> AsFunction(task).apply([t1, t2, t3, t4, t5, t6]).out == Fault(task.apply([t1, t2, t3, t4, t5, t6]).out.e)
    ensures ApplyWidened(task).apply([t1, t2, t3, t4, t5, t6, o]) == AsFunction(task).apply([t1, t2, t3, t4, t5, t6])
  {
    assert [t1, t2, t3, t4, t5, t6] + [o] == [t1, t2, t3, t4, t5, t6, o];
    RunWidenLaw(task, [t1, t2, t3, t4, t5, t6], o, o);
    ApplyWidenedLaw(task, [t1, t2, t3, t4, t5, t6], o);
    AsFunctionLaw(task, [t1, t2, t3, t4, t5, t6]);
  }

  /** Task7.java: `run8` drops its last argument; `apply7` runs `run7` and
      returns `null`; `apply8` goes through Transformer7's widening default. */
  lemma Task7Defaults(task: Callable<()>, t1: Val, t2: Val, t3: Val, t4: Val, t5: Val, t6: Val, t7: Val, o: Val)
    requires task.arity == 7
    ensures RunWiden(task).apply([t1, t2, t3, t4, t5, t6, t7, o]) == task.apply([t1, t2, t3, t4, t5, t6, t7])
    ensures AsFunction(task).apply([t1, t2, t3, t4, t5, t6, t7]).trace == task.apply([t1, t2, t3, t4, t5, t6, t7]).trace
    ensures task.apply([t1, t2, t3, t4, t5, t6, t7]).out.Ok? <==> AsFunction(task).apply([t1, t2, t3, t4, t5, t6, t7]).out == Ok(Null)
    ensures task.apply([t1, t2, t3, t4, t5, t6, t7]).out.Fault? ==> AsFunction(task).apply([t1, t2, t3, t4, t5, t6, t7]).out == Fault(task.apply([t1, t2, t3, t4, t5, t6, t7]).out.e)
    ensures ApplyWidened(task).apply([t1, t2, t3, t4, t5, t6, t7, o]) == AsFunction(task).apply([t1, t2, t3, t4, t5, t6, t7])
  {
    assert [t1, t2, t3, t4, t5, t6, t7] + [o] == [t1, t2, t3, t4, t5, t6, t7, o];
    RunWidenLaw(task, [t1, t2, t3, t4, t5, t6, t7], o, o);
    ApplyWidenedLaw(task, [t1, t2, t3, t4, t5, t6, t7], o);
    AsFunctionLaw(task, [t1, t2, t3, t4, t5, t6, t7]);
  }

  /** Task8.java: `apply8` runs `run8` once and returns `null`; Task8 is the top
      of the chain and widens no further. */
  lemma Task8Defaults(task: Callable<()>, t1: Val, t2: Val, t3: Val, t4: Val, t5: Val, t6: Val, t7: Val, t8: Val)
    requires task.arity == 8
    ensures AsFunction(task).apply([t1, t2, t3, t4, t5, t6, t7, t8]).trace == task.apply([t1, t2, t3, t4, t5, t6, t7, t8]).trace
    ensures task.apply([t1, t2, t3, t4, t5, t6, t7, t8]).out.Ok? <==> AsFunction(task).apply([t1, t2, t3, t4, t5, t6, t7, t8]).out == Ok(Null)
    ensures task.apply([t1, t2, t3, t4, t5, t6, t7, t8]).out.Fault? ==> AsFunction(task).apply([t1, t2, t3, t4, t5, t6, t7, t8]).out == Fault(task.apply([t1, t2, t3, t4, t5, t6, t7, t8]).out.e)
    ensures Super(task.arity).None?
  {
    AsFunctionLaw(task, [t1, t2, t3, t4, t5, t6, t7, t8]);
  }
}
