/**
 * The wrap-around image index of the carousel and of the detail view's
 * gallery: `(i + 1) % n` forward and `(i - 1 + n) % n` back.
 */
module CyclicIndex {

  import opened JsMath

  /** `(i + 1) % n`. */
  function NextIndex(i: int, n: int): (r: int)
    requires n > 0
    ensures 0 <= i < n ==> 0 <= r < n
    ensures 0 <= i < n - 1 ==> r == i + 1
    ensures i == n - 1 ==> r == 0
  {
    JsRem(i + 1, n)
  }

  /** `(i - 1 + n) % n`. */
  function PrevIndex(i: int, n: int): (r: int)
    requires n > 0
    ensures 0 <= i < n ==> 0 <= r < n
    ensures 0 < i < n ==> r == i - 1
    ensures i == 0 ==> r == n - 1
  {
    JsRem(i - 1 + n, n)
  }

  /** Back after forward, and forward after back, return to the start. */
  lemma PrevUndoesNext(i: int, n: int)
    requires 0 <= i < n
    ensures PrevIndex(NextIndex(i, n), n) == i
    ensures NextIndex(PrevIndex(i, n), n) == i
  {
  }

  /** `k` forward steps, as the auto-advance timer takes them. */
  function Advance(i: int, n: int, k: nat): int
    requires n > 0
    decreases k
  {
    if k == 0 then i else Advance(NextIndex(i, n), n, k - 1)
  }

  /** Forward steps that do not reach the end move by one each. */
  lemma {:induction false} AdvanceWithoutWrap(i: int, n: int, k: nat)
    requires 0 <= i && i + k < n
    ensures Advance(i, n, k) == i + k
    decreases k
  {
    if k > 0 {
      AdvanceWithoutWrap(i + 1, n, k - 1);
    }
  }

  lemma {:induction false} AdvanceSplit(i: int, n: int, a: nat, b: nat)
    requires n > 0
    ensures Advance(i, n, a + b) == Advance(Advance(i, n, a), n, b)
    decreases a
  {
    if a > 0 {
      AdvanceSplit(NextIndex(i, n), n, a - 1, b);
    }
  }

  /** `n` forward steps from any valid index come back to it. */
  lemma FullCycle(i: int, n: int)
    requires 0 <= i < n
    ensures Advance(i, n, n) == i
  {
    AdvanceSplit(i, n, n - 1 - i, i + 1);
    AdvanceWithoutWrap(i, n, n - 1 - i);
    assert Advance(n - 1, n, i + 1) == Advance(0, n, i);
    AdvanceWithoutWrap(0, n, i);
  }

}
