/** The argument and recovery combinators shared, method for method, by the
    Function and Runnable families: `composeK`, `swapK`, `partialK`,
    `handle`, `curry` / `curryK` and `append`.

    Each is defined once for every arity; slot numbers are 0-based, so the
    Java `compose2` is `Compose(f, 1, ...)`. A combinator that null-checks an
    argument yields an `Outcome`: `Fault(NullArg)` when the argument is
    absent, otherwise the new callable. Building the callable runs nothing. */
module Callables {
  import opened Base
  import Input

  /*** composeK ***/

  /** `composeK(before)`: slot `k` is first passed through `before`, lazily,
      at each invocation; a null `before` is rejected at construction. */
  function Compose<R>(f: Callable<R>, k: nat, before: Option<Val -> Exec<Val>>): (r: Outcome<Callable<R>>)
    requires k < f.arity
    ensures r.Fault? <==> before.None?
    ensures r.Fault? ==> r.e == NullArg
    ensures r.Ok? ==> r.v.arity == f.arity
  {
    match before
    case None => Fault(NullArg)
    case Some(b) =>
      Ok(Callable(f.arity, args =>
        if k < |args| then Then(b(args[k]), v => f.apply(args[k := v])) else f.apply(args)))
  }

  /** `before` runs first, on slot `k` only. If it throws, the body never runs
      and that throwable propagates; otherwise the body runs on the same
      arguments with slot `k` replaced by `before`'s result. */
  lemma ComposeLaw<R>(f: Callable<R>, k: nat, b: Val -> Exec<Val>, args: seq<Val>)
    requires k < f.arity == |args|
    ensures b(args[k]).out.Fault? ==>
      Compose(f, k, Some(b)).v.apply(args) == Exec(b(args[k]).trace, Fault(b(args[k]).out.e))
    ensures b(args[k]).out.Ok? ==>
      var body := f.apply(args[k := b(args[k]).out.v]);
      Compose(f, k, Some(b)).v.apply(args) == Exec(b(args[k]).trace + body.trace, body.out)
  {
  }

  /** Composing with a `before` that returns its argument changes nothing. */
  lemma ComposeReturn<R>(f: Callable<R>, k: nat, args: seq<Val>)
    requires k < f.arity == |args|
    ensures Compose(f, k, Some(v => Return(v))).v.apply(args) == f.apply(args)
  {
    assert args[k := args[k]] == args;
    ReturnThen(args[k], v => f.apply(args[k := v]));
  }

  /** Composing twice on the same slot is composing once with the two
      `before`s chained: the later-added one runs first. */
  lemma {:induction false} ComposeTwice<R>(f: Callable<R>, k: nat, b1: Val -> Exec<Val>, b2: Val -> Exec<Val>, args: seq<Val>)
    requires k < f.arity == |args|
    ensures Compose(Compose(f, k, Some(b1)).v, k, Some(b2)).v.apply(args)
         == Compose(f, k, Some(v => Then(b2(v), b1))).v.apply(args)
  {
    var g := Compose(f, k, Some(b1)).v;
    var x := b2(args[k]);
    assert Compose(f, k, Some(v => Then(b2(v), b1))).v.apply(args) == Then(Then(x, b1), v => f.apply(args[k := v]));
    match x.out
    case Fault(e) =>
    case Ok(w) =>
      assert args[k := w][k] == w;
      var y := b1(w);
      match y.out
      case Fault(e) =>
        assert g.apply(args[k := w]) == Exec(y.trace, Fault(e));
        assert Then(x, b1) == Exec(x.trace + y.trace, Fault(e));
      case Ok(u) =>
        assert args[k := w][k := u] == args[k := u];
        var z := f.apply(args[k := u]);
        assert g.apply(args[k := w]) == Exec(y.trace + z.trace, z.out);
        assert x.trace + (y.trace + z.trace) == x.trace + y.trace + z.trace;
        assert Then(x, b1) == Exec(x.trace + y.trace, Ok(u));
        assert Compose(g, k, Some(b2)).v.apply(args) == Exec(x.trace + y.trace + z.trace, z.out);
  }

  /** The shape of one Java `composeK` lambda: `body` is the original callable
      with every slot but `k` held at its value in `args`. */
  lemma ComposeAt<R>(f: Callable<R>, k: nat, b: Val -> Exec<Val>, args: seq<Val>, body: Val -> Exec<R>)
    requires k < f.arity == |args|
    requires forall w :: body(w) == f.apply(args[k := w])
    ensures Compose(f, k, Some(b)).v.apply(args) == Then(b(args[k]), body)
  {
    ComposeLaw(f, k, b, args);
  }

  /*** swapK ***/

  /** `swapK()`: the callable taking slots `k` and `k + 1` in the opposite
      order. */
  function Swap<R>(f: Callable<R>, k: nat): (r: Callable<R>)
    requires k + 1 < f.arity
    ensures r.arity == f.arity
  {
    Callable(f.arity, args => if k + 1 < |args| then f.apply(Input.Swapped(args, k)) else f.apply(args))
  }

  /** `swapK()` called with slots `k` and `k + 1` exchanged is the original
      call, and swapping the same pair twice gives back the original on every
      input. */
  lemma SwapLaw<R>(f: Callable<R>, k: nat, args: seq<Val>)
    requires k + 1 < f.arity == |args|
    ensures Swap(f, k).apply(Input.Swapped(args, k)) == f.apply(args)
    ensures Swap(Swap(f, k), k).apply(args) == f.apply(args)
  {
    Input.SwappedTwice(args, k);
  }

  /*** partialK ***/

  /** `partialK(x)`: slot `k` is fixed to `x`; the remaining slots keep their
      order, so the arity drops by one. */
  function Partial<R>(f: Callable<R>, k: nat, x: Val): (r: Callable<R>)
    requires k < f.arity
    ensures r.arity == f.arity - 1
  {
    Callable(f.arity - 1, rest => if k <= |rest| then f.apply(Input.Inserted(rest, k, x)) else f.apply(rest))
  }

  /** The partial application, called with the other slots, is the original
      call: nothing is lost, reordered or run early. */
  lemma PartialLaw<R>(f: Callable<R>, k: nat, args: seq<Val>)
    requires k < f.arity == |args|
    ensures Partial(f, k, args[k]).apply(Input.Removed(args, k)) == f.apply(args)
  {
    Input.InsertedRemoved(args, k);
  }

  /** Fixing slot `k` of the swapped callable fixes slot `k + 1` of the
      original, e.g. `swap1().partial1(x)` behaves as `partial2(x)`. */
  lemma PartialOfSwap<R>(f: Callable<R>, k: nat, x: Val, rest: seq<Val>)
    requires k + 1 < f.arity && |rest| == f.arity - 1
    ensures Partial(Swap(f, k), k, x).apply(rest) == Partial(f, k + 1, x).apply(rest)
  {
    Input.SwappedInserted(rest, k, x);
  }

  /*** handle ***/

  /** The `catch` block of a handled callable: `handler` gets the throwable
      and must return a non-null fallback, which is invoked on the arguments. */
  function Fallback<R>(handler: Err -> Exec<Option<Callable<R>>>, e: Err, args: seq<Val>): (r: Exec<R>)
    ensures handler(e).trace <= r.trace
    ensures handler(e).out.Fault? ==> r.out == Fault(handler(e).out.e)
    ensures handler(e).out == Ok(None) ==> r.out == Fault(NullArg)
    ensures handler(e).out.Ok? && handler(e).out.v.Some? ==> r.out == handler(e).out.v.value.apply(args).out
    ensures r.out.Ok? ==> handler(e).out.Ok? && handler(e).out.v.Some?
  {
    var k := (fallback: Option<Callable<R>>) =>
      match fallback
      case None => Throw(NullArg)
      case Some(g) => g.apply(args);
    assert k(None) == Throw(NullArg);
    Then(handler(e), k)
  }

  /** Nothing in the `catch` block is protected: the handler's throwable, the
      null check on the fallback and the fallback's own throwable all escape. */
  lemma FallbackLaw<R>(h: Err -> Exec<Option<Callable<R>>>, e: Err, args: seq<Val>)
    ensures h(e).out.Fault? ==> Fallback(h, e, args) == Exec(h(e).trace, Fault(h(e).out.e))
    ensures h(e).out == Ok(None) ==> Fallback(h, e, args) == Exec(h(e).trace, Fault(NullArg))
    ensures h(e).out.Ok? && h(e).out.v.Some? ==>
      var fb := h(e).out.v.value.apply(args);
      Fallback(h, e, args) == Exec(h(e).trace + fb.trace, fb.out)
  {
    if h(e).out == Ok(None) {
      assert h(e).trace + Throw<R>(NullArg).trace == h(e).trace;
    }
  }

  /** The body of a handled callable. Only the attempt sits inside the `try`. */
  function Recover<R>(attempt: Exec<R>, handler: Err -> Exec<Option<Callable<R>>>, args: seq<Val>): (r: Exec<R>)
    ensures attempt.trace <= r.trace
    ensures attempt.out.Ok? ==> r == attempt
    ensures attempt.out.Fault? ==> r.out == Fallback(handler, attempt.out.e, args).out
  {
    Catch(attempt, e => Fallback(handler, e, args))
  }

  /** `handle(handler)`; a null handler is rejected at construction. */
  function Handle<R>(f: Callable<R>, handler: Option<Err -> Exec<Option<Callable<R>>>>): (r: Outcome<Callable<R>>)
    ensures r.Fault? <==> handler.None?
    ensures r.Fault? ==> r.e == NullArg
    ensures r.Ok? ==> r.v.arity == f.arity
  {
    match handler
    case None => Fault(NullArg)
    case Some(h) => Ok(Callable(f.arity, args => Recover(f.apply(args), h, args)))
  }

  /** When the body completes, the handled callable does exactly what the body
      does, whatever the handler is: the handler is never called. */
  lemma HandleOk<R>(f: Callable<R>, h1: Err -> Exec<Option<Callable<R>>>, h2: Err -> Exec<Option<Callable<R>>>, args: seq<Val>)
    requires f.apply(args).out.Ok?
    ensures Handle(f, Some(h1)).v.apply(args) == f.apply(args)
    ensures Handle(f, Some(h1)).v.apply(args) == Handle(f, Some(h2)).v.apply(args)
  {
  }

  /** When the body throws, its effects stay, then the handler runs on that
      throwable. Recovery is single-level: a throwable from the handler, a
      null fallback, and a throwable from the fallback (invoked on the same
      arguments) all propagate. */
  lemma HandleFault<R>(f: Callable<R>, h: Err -> Exec<Option<Callable<R>>>, args: seq<Val>)
    requires f.apply(args).out.Fault?
    ensures var body, hx := f.apply(args), h(f.apply(args).out.e);
      hx.out.Fault? ==> Handle(f, Some(h)).v.apply(args) == Exec(body.trace + hx.trace, Fault(hx.out.e))
    ensures var body, hx := f.apply(args), h(f.apply(args).out.e);
      hx.out == Ok(None) ==> Handle(f, Some(h)).v.apply(args) == Exec(body.trace + hx.trace, Fault(NullArg))
    ensures var body, hx := f.apply(args), h(f.apply(args).out.e);
      hx.out.Ok? && hx.out.v.Some? ==>
        var fb := hx.out.v.value.apply(args);
        Handle(f, Some(h)).v.apply(args) == Exec(body.trace + hx.trace + fb.trace, fb.out)
  {
    var body, hx := f.apply(args), h(f.apply(args).out.e);
    FallbackLaw(h, body.out.e, args);
    if hx.out.Ok? && hx.out.v.Some? {
      var fb := hx.out.v.value.apply(args);
      assert body.trace + (hx.trace + fb.trace) == body.trace + hx.trace + fb.trace;
    }
  }

  /*** curry ***/

  /** A curried callable: either the final invocation, or a stage that takes
      one more argument and returns the next stage without running anything. */
  datatype Curried<+R> = Done(result: Exec<R>) | Stage(next: Val -> Curried<R>)

  /** Passes `args` one at a time; `None` when their number does not match the
      number of stages. */
  function Feed<R>(c: Curried<R>, args: seq<Val>): (r: Option<Exec<R>>)
    ensures c.Done? && args == [] ==> r == Some(c.result)
    ensures c.Done? != (args == []) ==> r == None
    decreases |args|
  {
    match c
    case Done(x) => if args == [] then Some(x) else None
    case Stage(next) => if args == [] then None else Feed(next(args[0]), args[1..])
  }

  /** The stages still to come once `prefix` has been supplied. */
  function CurryFrom<R>(f: Callable<R>, prefix: seq<Val>, remaining: nat): (c: Curried<R>)
    ensures remaining == 0 <==> c.Done?
    decreases remaining
  {
    if remaining == 0 then Done(f.apply(prefix))
    else Stage(v => CurryFrom(f, prefix + [v], remaining - 1))
  }

  /** `curry()`: one single-argument stage per slot. */
  function Curry<R>(f: Callable<R>): (c: Curried<R>)
    requires 2 <= f.arity
    ensures c.Stage?
  {
    CurryFrom(f, [], f.arity)
  }

  lemma {:induction false} CurryFromLaw<R>(f: Callable<R>, prefix: seq<Val>, rest: seq<Val>)
    ensures Feed(CurryFrom(f, prefix, |rest|), rest) == Some(f.apply(prefix + rest))
    decreases |rest|
  {
    if rest == [] {
      assert prefix + rest == prefix;
    } else {
      CurryFromLaw(f, prefix + [rest[0]], rest[1..]);
      assert prefix + [rest[0]] + rest[1..] == prefix + rest;
    }
  }

  /** Feeding all the arguments one by one to `curry()` is the original call,
      with the same effects and the same result or throwable. */
  lemma CurryLaw<R>(f: Callable<R>, args: seq<Val>)
    requires 2 <= f.arity == |args|
    ensures Feed(Curry(f), args) == Some(f.apply(args))
  {
    CurryFromLaw(f, [], args);
    assert [] + args == args;
  }

  /** Feeding fewer or more arguments than there are stages still to come
      gives no result: the body is never reached. */
  lemma {:induction false} CurryFromMismatch<R>(f: Callable<R>, prefix: seq<Val>, remaining: nat, args: seq<Val>)
    requires |args| != remaining
    ensures Feed(CurryFrom(f, prefix, remaining), args) == None
    decreases remaining
  {
    if remaining != 0 && args != [] {
      CurryFromMismatch(f, prefix + [args[0]], remaining - 1, args[1..]);
    }
  }

  /** `curry()` fed a number of arguments other than the arity never calls
      the original. */
  lemma CurryMismatch<R>(f: Callable<R>, args: seq<Val>)
    requires 2 <= f.arity && |args| != f.arity
    ensures Feed(Curry(f), args) == None
  {
    CurryFromMismatch(f, [], f.arity, args);
  }

  /** `curryK()`: the first `k` slots, then the remaining ones. The first
      stage only builds the second; nothing runs until both are supplied. */
  function CurryK<R>(f: Callable<R>, k: nat): (c: Callable<Callable<R>>)
    requires 1 <= k < f.arity
    ensures c.arity == k
  {
    Callable(k, firsts => Return(Callable(f.arity - k, rest => f.apply(firsts + rest))))
  }

  /** Invoking a two-stage callable: the first stage on `firsts`, then its
      result on `rest`. */
  function Uncurry<R>(c: Callable<Callable<R>>, firsts: seq<Val>, rest: seq<Val>): (r: Exec<R>)
    ensures c.apply(firsts).trace <= r.trace
    ensures c.apply(firsts).out.Fault? ==> r == Exec(c.apply(firsts).trace, Fault(c.apply(firsts).out.e))
    ensures c.apply(firsts).out.Ok? && c.apply(firsts).trace == [] ==> r == c.apply(firsts).out.v.apply(rest)
  {
    Then(c.apply(firsts), (g: Callable<R>) => g.apply(rest))
  }

  /** The first stage of `curryK()` runs nothing and yields a callable of the
      remaining arity; supplying the two groups is the original call. */
  lemma CurryKLaw<R>(f: Callable<R>, k: nat, args: seq<Val>)
    requires 1 <= k < f.arity == |args|
    ensures CurryK(f, k).apply(args[..k]).trace == []
    ensures CurryK(f, k).apply(args[..k]).out.Ok?
    ensures CurryK(f, k).apply(args[..k]).out.v.arity == f.arity - k
    ensures Uncurry(CurryK(f, k), args[..k], args[k..]) == f.apply(args)
  {
    assert args[..k] + args[k..] == args;
    ReturnThen(Callable(f.arity - k, rest => f.apply(args[..k] + rest)), (g: Callable<R>) => g.apply(args[k..]));
  }

  /** `curry1()` with its first argument supplied behaves as `partial1` of it. */
  lemma CurryOneIsPartial<R>(f: Callable<R>, x: Val, rest: seq<Val>)
    requires 1 < f.arity && |rest| == f.arity - 1
    ensures CurryK(f, 1).apply([x]).out.v.apply(rest) == Partial(f, 0, x).apply(rest)
  {
    assert [x] + rest == Input.Inserted(rest, 0, x);
  }

  /*** append ***/

  /** `append(addend)`: the addend is applied to this callable immediately,
      when `append` is called, and whatever it does and returns is the result;
      a null addend is rejected. Arity 8 has no `append`. */
  function Append<R, T>(f: Callable<R>, addend: Option<Callable<R> -> Exec<T>>): (r: Exec<T>)
    requires f.arity < MaxArity
    ensures addend.None? ==> r == Throw(NullArg)
    ensures addend.Some? ==> r == addend.value(f)
  {
    match addend
    case None => Throw(NullArg)
    case Some(a) => a(f)
  }

  /** The typical addend, one that widens by an ignored trailing argument,
      yields a callable of arity N + 1 that agrees with this one. */
  lemma AppendIgnoringLast<R>(f: Callable<R>, args: seq<Val>, o: Val)
    requires |args| == f.arity < MaxArity
    ensures Append(f, Some((g: Callable<R>) => Return(IgnoreLast(g)))).trace == []
    ensures Append(f, Some((g: Callable<R>) => Return(IgnoreLast(g)))).out.v.arity == f.arity + 1
    ensures Append(f, Some((g: Callable<R>) => Return(IgnoreLast(g)))).out.v.apply(args + [o]) == f.apply(args)
  {
    IgnoreLastLaw(f, args, o);
  }
}
