/** The Input capability: how the N input slots of a callable are manipulated.

    The same three sequence operations describe both the declared slot types
    of `InputN` (a signature, one type name per slot) and, in the callable
    families, the argument lists that reach the original body. Slot K of the
    Java names is index K-1 here. */
module Input {

  /** The value of `arity()` for a callable whose slots are `slots`. */
  function Arity<T>(slots: seq<T>): (n: nat)
    ensures n == |slots|
  {
    |slots|
  }

  /** `slots` with the adjacent slots `k` and `k+1` exchanged (`swapK`, K = k+1). */
  function Swapped<T>(slots: seq<T>, k: nat): (r: seq<T>)
    requires k + 1 < |slots|
    ensures |r| == |slots|
    ensures r[k] == slots[k + 1] && r[k + 1] == slots[k]
    ensures forall i :: 0 <= i < |slots| && i != k && i != k + 1 ==> r[i] == slots[i]
  {
    slots[k := slots[k + 1]][k + 1 := slots[k]]
  }

  /** `slots` without slot `k`, the others in their original order (`partialK` on a signature). */
  function Removed<T>(slots: seq<T>, k: nat): (r: seq<T>)
    requires k < |slots|
    ensures |r| == |slots| - 1
    ensures forall i :: 0 <= i < k ==> r[i] == slots[i]
    ensures forall i :: k <= i < |r| ==> r[i] == slots[i + 1]
  {
    slots[..k] + slots[k + 1..]
  }

  /** The full argument list seen by the body of `partialK(x)` when it is
      called with the remaining arguments `rest`: `x` goes back into slot `k`. */
  function Inserted<T>(rest: seq<T>, k: nat, x: T): (r: seq<T>)
    requires k <= |rest|
    ensures |r| == |rest| + 1 && r[k] == x
    ensures forall i :: 0 <= i < k ==> r[i] == rest[i]
    ensures forall i :: k < i < |r| ==> r[i] == rest[i - 1]
  {
    rest[..k] + [x] + rest[k..]
  }

  /** `swapK` keeps the arity, `partialK` lowers it by one, and supplying
      the slot back restores it. */
  lemma ArityLaws<T>(slots: seq<T>, k: nat, x: T)
    requires k + 1 < |slots|
    ensures Arity(Swapped(slots, k)) == Arity(slots)
    ensures Arity(Removed(slots, k)) == Arity(slots) - 1
    ensures Arity(Inserted(Removed(slots, k), k, x)) == Arity(slots)
  {
  }

  /** Swapping the same adjacent pair twice restores every slot. */
  lemma SwappedTwice<T>(slots: seq<T>, k: nat)
    requires k + 1 < |slots|
    ensures Swapped(Swapped(slots, k), k) == slots
  {
    var twice := Swapped(Swapped(slots, k), k);
    assert forall i :: 0 <= i < |slots| ==> twice[i] == slots[i];
  }

  /** A swap is a permutation: no slot is lost or duplicated. */
  lemma SwappedPermutes<T>(slots: seq<T>, k: nat)
    requires k + 1 < |slots|
    ensures multiset(Swapped(slots, k)) == multiset(slots)
  {
    var r := Swapped(slots, k);
    assert r == slots[..k] + [slots[k + 1], slots[k]] + slots[k + 2..];
    assert slots == slots[..k] + [slots[k], slots[k + 1]] + slots[k + 2..];
  }

  /** Putting slot `k` back into the remaining slots rebuilds the original list. */
  lemma InsertedRemoved<T>(slots: seq<T>, k: nat)
    requires k < |slots|
    ensures Inserted(Removed(slots, k), k, slots[k]) == slots
  {
    var r := Inserted(Removed(slots, k), k, slots[k]);
    assert forall i :: 0 <= i < |slots| ==> r[i] == slots[i];
  }

  /** Removing the slot that was inserted gives back the remaining slots. */
  lemma RemovedInserted<T>(rest: seq<T>, k: nat, x: T)
    requires k <= |rest|
    ensures Removed(Inserted(rest, k, x), k) == rest
  {
    var r := Removed(Inserted(rest, k, x), k);
    assert forall i :: 0 <= i < |rest| ==> r[i] == rest[i];
  }

  /** Fixing slot `k` and then swapping slots `k` and `k+1` is the same as
      fixing slot `k+1`: the fixed value moves one place right. */
  lemma SwappedInserted<T>(rest: seq<T>, k: nat, x: T)
    requires k < |rest|
    ensures Swapped(Inserted(rest, k, x), k) == Inserted(rest, k + 1, x)
  {
    var a, b := Swapped(Inserted(rest, k, x), k), Inserted(rest, k + 1, x);
    assert forall i :: 0 <= i < |a| ==> a[i] == b[i];
  }

  /** Input1 (Input1.java): arity 1; `partial1` leaves an Input0 (arity 0). A single slot has no swap. */
  lemma Input1Signatures<T>(t1: T)
    ensures Arity([t1]) == 1
    ensures Removed([t1], 0) == []
  {
  }

  /** Input2 (Input2.java): arity 2; `swapK` exchanges slots K and K+1 only; `partialK` leaves an Input1 over the other slots in their original order. */
  lemma Input2Signatures<T>(t1: T, t2: T)
    ensures Arity([t1, t2]) == 2
    ensures Swapped([t1, t2], 0) == [t2, t1]
    ensures Removed([t1, t2], 1) == [t1]
    ensures Removed([t1, t2], 0) == [t2]
  {
  }

  /** Input4 (Input4.java): arity 4; `swapK` exchanges slots K and K+1 only; `partialK` leaves an Input3 over the other slots in their original order. */
  lemma Input4Signatures<T>(t1: T, t2: T, t3: T, t4: T)
    ensures Arity([t1, t2, t3, t4]) == 4
    ensures Swapped([t1, t2, t3, t4], 2) == [t1, t2, t4, t3]
    ensures Swapped([t1, t2, t3, t4], 1) == [t1, t3, t2, t4]
    ensures Swapped([t1, t2, t3, t4], 0) == [t2, t1, t3, t4]
    ensures Removed([t1, t2, t3, t4], 3) == [t1, t2, t3]
    ensures Removed([t1, t2, t3, t4], 2) == [t1, t2, t4]
    ensures Removed([t1, t2, t3, t4], 1) == [t1, t3, t4]
    ensures Removed([t1, t2, t3, t4], 0) == [t2, t3, t4]
  {
  }

  /** Input5 (Input5.java): arity 5; `swapK` exchanges slots K and K+1 only; `partialK` leaves an Input4 over the other slots in their original order. */
  lemma Input5Signatures<T>(t1: T, t2: T, t3: T, t4: T, t5: T)
    ensures Arity([t1, t2, t3, t4, t5]) == 5
    ensures Swapped([t1, t2, t3, t4, t5], 3) == [t1, t2, t3, t5, t4]
    ensures Swapped([t1, t2, t3, t4, t5], 2) == [t1, t2, t4, t3, t5]
    ensures Swapped([t1, t2, t3, t4, t5], 1) == [t1, t3, t2, t4, t5]
    ensures Swapped([t1, t2, t3, t4, t5], 0) == [t2, t1, t3, t4, t5]
    ensures Removed([t1, t2, t3, t4, t5], 4) == [t1, t2, t3, t4]
    ensures Removed([t1, t2, t3, t4, t5], 3) == [t1, t2, t3, t5]
    ensures Removed([t1, t2, t3, t4, t5], 2) == [t1, t2, t4, t5]
    ensures Removed([t1, t2, t3, t4, t5], 1) == [t1, t3, t4, t5]
    ensures Removed([t1, t2, t3, t4, t5], 0) == [t2, t3, t4, t5]
  {
  }

  /** Input6 (Input6.java): arity 6; `swapK` exchanges slots K and K+1 only; `partialK` leaves an Input5 over the other slots in their original order. */
  lemma Input6Signatures<T>(t1: T, t2: T, t3: T, t4: T, t5: T, t6: T)
    ensures Arity([t1, t2, t3, t4, t5, t6]) == 6
    ensures Swapped([t1, t2, t3, t4, t5, t6], 4) == [t1, t2, t3, t4, t6, t5]
    ensures Swapped([t1, t2, t3, t4, t5, t6], 3) == [t1, t2, t3, t5, t4, t6]
    ensures Swapped([t1, t2, t3, t4, t5, t6], 2) == [t1, t2, t4, t3, t5, t6]
    ensures Swapped([t1, t2, t3, t4, t5, t6], 1) == [t1, t3, t2, t4, t5, t6]
    ensures Swapped([t1, t2, t3, t4, t5, t6], 0) == [t2, t1, t3, t4, t5, t6]
    ensures Removed([t1, t2, t3, t4, t5, t6], 5) == [t1, t2, t3, t4, t5]
    ensures Removed([t1, t2, t3, t4, t5, t6], 4) == [t1, t2, t3, t4, t6]
    ensures Removed([t1, t2, t3, t4, t5, t6], 3) == [t1, t2, t3, t5, t6]
    ensures Removed([t1, t2, t3, t4, t5, t6], 2) == [t1, t2, t4, t5, t6]
    ensures Removed([t1, t2, t3, t4, t5, t6], 1) == [t1, t3, t4, t5, t6]
    ensures Removed([t1, t2, t3, t4, t5, t6], 0) == [t2, t3, t4, t5, t6]
  {
  }

  /** Input7 (Input7.java): arity 7; `swapK` exchanges slots K and K+1 only; `partialK` leaves an Input6 over the other slots in their original order. */
  lemma Input7Signatures<T>(t1: T, t2: T, t3: T, t4: T, t5: T, t6: T, t7: T)
    ensures Arity([t1, t2, t3, t4, t5, t6, t7]) == 7
    ensures Swapped([t1, t2, t3, t4, t5, t6, t7], 5) == [t1, t2, t3, t4, t5, t7, t6]
    ensures Swapped([t1, t2, t3, t4, t5, t6, t7], 4) == [t1, t2, t3, t4, t6, t5, t7]
    ensures Swapped([t1, t2, t3, t4, t5, t6, t7], 3) == [t1, t2, t3, t5, t4, t6, t7]
    ensures Swapped([t1, t2, t3, t4, t5, t6, t7], 2) == [t1, t2, t4, t3, t5, t6, t7]
    ensures Swapped([t1, t2, t3, t4, t5, t6, t7], 1) == [t1, t3, t2, t4, t5, t6, t7]
    ensures Swapped([t1, t2, t3, t4, t5, t6, t7], 0) == [t2, t1, t3, t4, t5, t6, t7]
    ensures Removed([t1, t2, t3, t4, t5, t6, t7], 6) == [t1, t2, t3, t4, t5, t6]
    ensures Removed([t1, t2, t3, t4, t5, t6, t7], 5) == [t1, t2, t3, t4, t5, t7]
    ensures Removed([t1, t2, t3, t4, t5, t6, t7], 4) == [t1, t2, t3, t4, t6, t7]
    ensures Removed([t1, t2, t3, t4, t5, t6, t7], 3) == [t1, t2, t3, t5, t6, t7]
    ensures Removed([t1, t2, t3, t4, t5, t6, t7], 2) == [t1, t2, t4, t5, t6, t7]
    ensures Removed([t1, t2, t3, t4, t5, t6, t7], 1) == [t1, t3, t4, t5, t6, t7]
    ensures Removed([t1, t2, t3, t4, t5, t6, t7], 0) == [t2, t3, t4, t5, t6, t7]
  {
  }

  /** Input8 (Input8.java): arity 8; `swapK` exchanges slots K and K+1 only; `partialK` leaves an Input7 over the other slots in their original order. */
  lemma Input8Signatures<T>(t1: T, t2: T, t3: T, t4: T, t5: T, t6: T, t7: T, t8: T)
    ensures Arity([t1, t2, t3, t4, t5, t6, t7, t8]) == 8
    ensures Swapped([t1, t2, t3, t4, t5, t6, t7, t8], 6) == [t1, t2, t3, t4, t5, t6, t8, t7]
    ensures Swapped([t1, t2, t3, t4, t5, t6, t7, t8], 5) == [t1, t2, t3, t4, t5, t7, t6, t8]
    ensures Swapped([t1, t2, t3, t4, t5, t6, t7, t8], 4) == [t1, t2, t3, t4, t6, t5, t7, t8]
    ensures Swapped([t1, t2, t3, t4, t5, t6, t7, t8], 3) == [t1, t2, t3, t5, t4, t6, t7, t8]
    ensures Swapped([t1, t2, t3, t4, t5, t6, t7, t8], 2) == [t1, t2, t4, t3, t5, t6, t7, t8]
    ensures Swapped([t1, t2, t3, t4, t5, t6, t7, t8], 1) == [t1, t3, t2, t4, t5, t6, t7, t8]
    ensures Swapped([t1, t2, t3, t4, t5, t6, t7, t8], 0) == [t2, t1, t3, t4, t5, t6, t7, t8]
    ensures Removed([t1, t2, t3, t4, t5, t6, t7, t8], 7) == [t1, t2, t3, t4, t5, t6, t7]
    ensures Removed([t1, t2, t3, t4, t5, t6, t7, t8], 6) == [t1, t2, t3, t4, t5, t6, t8]
    ensures Removed([t1, t2, t3, t4, t5, t6, t7, t8], 5) == [t1, t2, t3, t4, t5, t7, t8]
    ensures Removed([t1, t2, t3, t4, t5, t6, t7, t8], 4) == [t1, t2, t3, t4, t6, t7, t8]
    ensures Removed([t1, t2, t3, t4, t5, t6, t7, t8], 3) == [t1, t2, t3, t5, t6, t7, t8]
    ensures Removed([t1, t2, t3, t4, t5, t6, t7, t8], 2) == [t1, t2, t4, t5, t6, t7, t8]
    ensures Removed([t1, t2, t3, t4, t5, t6, t7, t8], 1) == [t1, t3, t4, t5, t6, t7, t8]
    ensures Removed([t1, t2, t3, t4, t5, t6, t7, t8], 0) == [t2, t3, t4, t5, t6, t7, t8]
  {
  }
}
