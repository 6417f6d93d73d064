/** The slider index of frontend/src/components/landing/TestimonialsSection.tsx.
    The page shows three testimonials; the index arithmetic is stated for
    any positive count. Both operands of `%` are non-negative here, so
    JavaScript's remainder and Dafny's agree. */
module Testimonials {

  /** `testimonials.length`. */
  const Count: nat := 3

  function NextIndex(i: nat, n: nat): (j: nat)
    requires i < n
    ensures j < n
    ensures i + 1 < n ==> j == i + 1
    ensures i + 1 == n ==> j == 0
  {
    (i + 1) % n
  }

  function PrevIndex(i: nat, n: nat): (j: nat)
    requires i < n
    ensures j < n
    ensures i > 0 ==> j == i - 1
    ensures i == 0 ==> j == n - 1
  {
    (i - 1 + n) % n
  }

  /** prev undoes next and next undoes prev. */
  lemma PrevUndoesNext(i: nat, n: nat)
    requires i < n
    ensures PrevIndex(NextIndex(i, n), n) == i
    ensures NextIndex(PrevIndex(i, n), n) == i
  {
  }

  /** k successive next calls. */
  function Advance(i: nat, n: nat, k: nat): (j: nat)
    requires i < n
    ensures j < n
    decreases k
  {
    if k == 0 then i else NextIndex(Advance(i, n, k - 1), n)
  }

  /** The remainder is determined by any quotient-remainder split. */
  lemma ModUnique(a: int, n: int, q: int, r: int)
    requires 0 <= r < n && a == q * n + r
    ensures a % n == r
  {
    var d := q - a / n;
    assert d * n == a % n - r;
  }

  /** The remainder of a successor. */
  lemma ModSucc(m: nat, n: nat)
    requires n > 0
    ensures (m + 1) % n == if m % n + 1 < n then m % n + 1 else 0
  {
    var q, j := m / n, m % n;
    if j + 1 < n {
      ModUnique(m + 1, n, q, j + 1);
    } else {
      ModUnique(m + 1, n, q + 1, 0);
    }
  }

  lemma {:induction false} AdvanceIsModulo(i: nat, n: nat, k: nat)
    requires i < n
    ensures Advance(i, n, k) == (i + k) % n
    decreases k
  {
    if k > 0 {
      AdvanceIsModulo(i, n, k - 1);
      ModSucc(i + k - 1, n);
    }
  }

  /** n successive next calls come back to the starting index. */
  lemma FullCycle(i: nat, n: nat)
    requires i < n
    ensures Advance(i, n, n) == i
  {
    AdvanceIsModulo(i, n, n);
    ModUnique(i + n, n, 1, i);
  }

  class Slider {
    var currentIndex: nat

    ghost predicate Valid()
      reads this
    {
      currentIndex < Count
    }

    constructor ()
      ensures Valid() && currentIndex == 0
    {
      currentIndex := 0;
    }

    method Next()
      requires Valid()
      modifies this
      ensures Valid() && currentIndex == NextIndex(old(currentIndex), Count)
    {
      currentIndex := (currentIndex + 1) % Count;
    }

    method Prev()
      requires Valid()
      modifies this
      ensures Valid() && currentIndex == PrevIndex(old(currentIndex), Count)
    {
      currentIndex := (currentIndex - 1 + Count) % Count;
    }

    /** One of the dots under the slider. */
    method Select(index: nat)
      requires index < Count
      modifies this
      ensures Valid() && currentIndex == index
    {
      currentIndex := index;
    }
  }
}
