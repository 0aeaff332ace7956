/** Values, faults and invocations shared by every callable family of the library.

    A Java callable of arity N is modelled as a `Callable<R>`: its arity (the
    per-type constant returned by `arity()`) and a total function from the N
    arguments, as a sequence, to what one invocation does (`Exec`): the side
    effects it performs, in order, and then either its result or the
    throwable it raises. */
module Base {

  /** The library is bounded to arities 0 through 8. */
  const MaxArity: nat := 8

  /** A Java argument or result: `null`, or some object (abstracted to an integer). */
  datatype Val = Null | Int(i: int)

  /** A throwable: one raised by user code, or the NullPointerException raised
      by `Objects.requireNonNull` on an absent argument or fallback. */
  datatype Err = User(id: nat) | NullArg

  datatype Option<+T> = None | Some(value: T)

  /** Normal completion with a value, or abrupt completion with a throwable. */
  datatype Outcome<+T> = Ok(v: T) | Fault(e: Err)

  /** One observable side effect performed by user code. */
  datatype Event = Effect(id: nat)

  /** What one invocation does: its effects in order, then how it completes. */
  datatype Exec<+T> = Exec(trace: seq<Event>, out: Outcome<T>)

  /** Returning `x` without doing anything else. */
  function Return<T>(x: T): Exec<T>
  {
    Exec([], Ok(x))
  }

  /** Throwing `e` without doing anything else. */
  function Throw<T>(e: Err): Exec<T>
  {
    Exec([], Fault(e))
  }

  /** Java statement sequencing: run `x`; if it completes normally, continue
      with `k` on its result; if it throws, nothing after it runs. */
  function Then<A, B>(x: Exec<A>, k: A -> Exec<B>): Exec<B>
  {
    match x.out
    case Fault(e) => Exec(x.trace, Fault(e))
    case Ok(a) => Exec(x.trace + k(a).trace, k(a).out)
  }

  /** Java `try { x } catch (Throwable t) { h(t) }`: when `x` throws, `h` runs
      after the effects `x` had already performed; a throwable from `h` itself
      is not caught again. */
  function Catch<T>(x: Exec<T>, h: Err -> Exec<T>): Exec<T>
  {
    match x.out
    case Ok(_) => x
    case Fault(e) => Exec(x.trace + h(e).trace, h(e).out)
  }

  lemma ReturnThen<A, B>(a: A, k: A -> Exec<B>)
    ensures Then(Return(a), k) == k(a)
  {
    assert [] + k(a).trace == k(a).trace;
  }

  lemma ThenReturn<A>(x: Exec<A>)
    ensures Then(x, a => Return(a)) == x
  {
  }

  /** Sequencing is associative: the effects and the first throwable are the
      same however the three steps are grouped. */
  lemma ThenAssoc<A, B, C>(x: Exec<A>, k: A -> Exec<B>, m: B -> Exec<C>)
    ensures Then(Then(x, k), m) == Then(x, a => Then(k(a), m))
  {
    match x.out
    case Fault(e) =>
    case Ok(a) =>
      match k(a).out
      case Fault(e) =>
      case Ok(b) =>
        assert x.trace + k(a).trace + m(b).trace == x.trace + (k(a).trace + m(b).trace);
  }

  /** A Java callable of a fixed arity. Only argument lists of length `arity`
      are well-typed in Java; what `apply` does on other lengths is irrelevant. */
  datatype Callable<+R> = Callable(arity: nat, apply: seq<Val> -> Exec<R>)

  /** The first `n` elements of `s`, or `s` itself when it is shorter. */
  function Take<T>(s: seq<T>, n: nat): (r: seq<T>)
    ensures n <= |s| ==> r == s[..n]
  {
    if n <= |s| then s[..n] else s
  }

  /** `g` used at one arity higher: the trailing argument is ignored. This is
      the shape of every `applyN+1` / `runN+1` default over `applyN` / `runN`. */
  function IgnoreLast<R>(g: Callable<R>): (w: Callable<R>)
    ensures w.arity == g.arity + 1
  {
    Callable(g.arity + 1, args => g.apply(Take(args, g.arity)))
  }

  lemma IgnoreLastLaw<R>(g: Callable<R>, args: seq<Val>, o: Val)
    requires |args| == g.arity
    ensures IgnoreLast(g).apply(args + [o]) == g.apply(args)
  {
    assert Take(args + [o], g.arity) == args;
  }
}
