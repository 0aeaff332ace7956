/** The Transformer family: the primitive N-ary computation, and the default
    by which a TransformerN is also a Transformer(N+1) that ignores its
    trailing argument.

    The Java interfaces form two widening chains, not one:
    Transformer0 -> 1 -> 2 -> 3 and Transformer4 -> 5 -> 6 -> 7 -> 8.
    Transformer3 and Transformer8 extend nothing. */
module Transformer {
  import opened Base

  /** The arity of the interface that TransformerN extends, if any. */
  function Super(n: nat): (s: Option<nat>)
    requires n <= MaxArity
    ensures s.Some? ==> s.value == n + 1 && s.value <= MaxArity
    ensures s.None? <==> n == 3 || n == MaxArity
  {
    if n == 3 || n == MaxArity then None else Some(n + 1)
  }

  /** The highest arity a TransformerN can be used at through its defaults. */
  function Top(n: nat): (m: nat)
    requires n <= MaxArity
    ensures n <= m <= MaxArity
    ensures n <= 3 ==> m == 3
    ensures 3 < n ==> m == MaxArity
    ensures Super(m).None?
    ensures forall j :: n <= j < m ==> Super(j).Some?
  {
    if n <= 3 then 3 else MaxArity
  }

  /** The inherited `apply(N+1)` of a TransformerN: it calls `applyN` on the
      first N arguments and ignores the trailing one, which may be anything,
      `null` included. */
  function Widen<R>(t: Callable<R>): (w: Callable<R>)
    requires t.arity <= MaxArity && Super(t.arity).Some?
    ensures w.arity == t.arity + 1
  {
    IgnoreLast(t)
  }

  /** `apply(N+1)` returns exactly what `applyN` does, throwable included
      (there is no catch), whatever the ignored argument is. */
  lemma WidenLaw<R>(t: Callable<R>, args: seq<Val>, o1: Val, o2: Val)
    requires |args| == t.arity <= MaxArity && Super(t.arity).Some?
    ensures Widen(t).apply(args + [o1]) == t.apply(args)
    ensures Widen(t).apply(args + [o1]) == Widen(t).apply(args + [o2])
  {
    IgnoreLastLaw(t, args, o1);
    IgnoreLastLaw(t, args, o2);
  }

  /** A TransformerN used at arity `m`, through the chain of defaults. */
  function WidenTo<R>(t: Callable<R>, m: nat): (w: Callable<R>)
    requires t.arity <= m <= MaxArity && m <= Top(t.arity)
    ensures w.arity == m
    decreases m
  {
    if m == t.arity then t else Widen(WidenTo(t, m - 1))
  }

  /** Every arity the chain reaches still computes `applyN` on the first N
      arguments; all the trailing ones are ignored. */
  lemma {:induction false} WidenToLaw<R>(t: Callable<R>, m: nat, args: seq<Val>)
    requires t.arity <= m <= MaxArity && m <= Top(t.arity) && |args| == m
    ensures WidenTo(t, m).apply(args) == t.apply(args[..t.arity])
    decreases m
  {
    if m > t.arity {
      var init, last := args[..m - 1], args[m - 1];
      var w := WidenTo(t, m - 1);
      assert args == init + [last];
      WidenLaw(w, init, last, last);
      WidenToLaw(t, m - 1, init);
      assert init[..t.arity] == args[..t.arity];
      calc {
        WidenTo(t, m).apply(args);
        Widen(w).apply(init + [last]);
        w.apply(init);
        t.apply(args[..t.arity]);
      }
    } else {
      assert args[..t.arity] == args;
    }
  }

  /** Transformer0.java: `apply1(o)` is `apply0()`; through Transformer1 and
      Transformer2 so are `apply2` and `apply3`, and the chain stops at 3. */
  lemma Transformer0Defaults<R>(t: Callable<R>, o1: Val, o2: Val, o3: Val)
    requires t.arity == 0
    ensures Widen(t).apply([o1]) == t.apply([])
    ensures WidenTo(t, 2).apply([o1, o2]) == t.apply([])
    ensures WidenTo(t, 3).apply([o1, o2, o3]) == t.apply([])
    ensures Top(t.arity) == 3 && Super(3).None?
  {
    WidenLaw(t, [], o1, o1);
    assert [] + [o1] == [o1];
    WidenToLaw(t, 2, [o1, o2]);
    WidenToLaw(t, 3, [o1, o2, o3]);
  }

  /** Transformer1.java: `apply2(t1, o)` is `apply1(t1)`, and `apply3(t1, o1, o2)`
      reaches `apply1(t1)` through Transformer2. */
  lemma Transformer1Defaults<R>(t: Callable<R>, t1: Val, o1: Val, o2: Val)
    requires t.arity == 1
    ensures Widen(t).apply([t1, o1]) == t.apply([t1])
    ensures WidenTo(t, 3).apply([t1, o1, o2]) == t.apply([t1])
  {
    WidenLaw(t, [t1], o1, o1);
    assert [t1] + [o1] == [t1, o1];
    WidenToLaw(t, 3, [t1, o1, o2]);
    assert [t1, o1, o2][..1] == [t1];
  }

  /** Transformer2.java: `apply3(t1, t2, o)` is `apply2(t1, t2)`; Transformer3
      extends nothing, so the widening ends there. */
  lemma Transformer2Defaults<R>(t: Callable<R>, t1: Val, t2: Val, o: Val)
    requires t.arity == 2
    ensures Widen(t).apply([t1, t2, o]) == t.apply([t1, t2])
    ensures Super(3).None? && Top(t.arity) == 3
  {
    WidenLaw(t, [t1, t2], o, o);
    assert [t1, t2] + [o] == [t1, t2, o];
  }

  /** Transformer4.java: `apply5(t1..t4, o)` is `apply4(t1..t4)`; through
      Transformer5 (and, by the same shape, Transformer6 and 7) the chain
      reaches arity 8 and stops there. */
  lemma Transformer4Defaults<R>(t: Callable<R>, t1: Val, t2: Val, t3: Val, t4: Val, o1: Val, o2: Val, o3: Val, o4: Val)
    requires t.arity == 4
    ensures Widen(t).apply([t1, t2, t3, t4, o1]) == t.apply([t1, t2, t3, t4])
    ensures WidenTo(t, 6).apply([t1, t2, t3, t4, o1, o2]) == t.apply([t1, t2, t3, t4])
    ensures WidenTo(t, 8).apply([t1, t2, t3, t4, o1, o2, o3, o4]) == t.apply([t1, t2, t3, t4])
    ensures Super(MaxArity).None? && Top(t.arity) == MaxArity
  {
    WidenLaw(t, [t1, t2, t3, t4], o1, o1);
    assert [t1, t2, t3, t4] + [o1] == [t1, t2, t3, t4, o1];
    WidenToLaw(t, 6, [t1, t2, t3, t4, o1, o2]);
    assert [t1, t2, t3, t4, o1, o2][..4] == [t1, t2, t3, t4];
    WidenToLaw(t, 8, [t1, t2, t3, t4, o1, o2, o3, o4]);
    assert [t1, t2, t3, t4, o1, o2, o3, o4][..4] == [t1, t2, t3, t4];
  }

  /** Transformer5.java: `apply6(t1..t5, o)` is `apply5(t1..t5)`. */
  lemma Transformer5Defaults<R>(t: Callable<R>, t1: Val, t2: Val, t3: Val, t4: Val, t5: Val, o: Val)
    requires t.arity == 5
    ensures Widen(t).apply([t1, t2, t3, t4, t5, o]) == t.apply([t1, t2, t3, t4, t5])
  {
    WidenLaw(t, [t1, t2, t3, t4, t5], o, o);
    assert [t1, t2, t3, t4, t5] + [o] == [t1, t2, t3, t4, t5, o];
  }
}
