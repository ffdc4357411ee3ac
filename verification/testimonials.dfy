/** The testimonial carousel: an index into three testimonials that the
    arrows, the dots and a five-second auto-advance move. */
module Testimonials {

  const Count := 3

  /** `(prev + 1) % testimonials.length`. */
  function NextIndex(i: int): (r: int)
    requires 0 <= i < Count
    ensures 0 <= r < Count
    ensures i < Count - 1 ==> r == i + 1
    ensures i == Count - 1 ==> r == 0
  {
    (i + 1) % Count
  }

  /** `(prev - 1 + testimonials.length) % testimonials.length`. */
  function PrevIndex(i: int): (r: int)
    requires 0 <= i < Count
    ensures 0 <= r < Count
    ensures i > 0 ==> r == i - 1
    ensures i == 0 ==> r == Count - 1
  {
    (i - 1 + Count) % Count
  }

  /** The arrows undo each other. */
  lemma PrevUndoesNext(i: int)
    requires 0 <= i < Count
    ensures PrevIndex(NextIndex(i)) == i && NextIndex(PrevIndex(i)) == i
  {
  }

  /** `k` auto-advances from `i`. */
  function Advance(i: int, k: nat): (r: int)
    requires 0 <= i < Count
    ensures 0 <= r < Count
  {
    if k == 0 then i else NextIndex(Advance(i, k - 1))
  }

  /** `k` advances land on `(i + k) mod 3`. */
  lemma {:induction false} AdvanceIsModular(i: int, k: nat)
    requires 0 <= i < Count
    ensures Advance(i, k) == (i + k) % Count
  {
    if k > 0 {
      AdvanceIsModular(i, k - 1);
      var j := (i + k - 1) % Count;
      assert (i + k - 1) == ((i + k - 1) / Count) * Count + j;
      assert NextIndex(j) == (j + 1) % Count;
    }
  }

  /** Three advances bring the carousel back to where it started. */
  lemma FullCycle(i: int)
    requires 0 <= i < Count
    ensures Advance(i, Count) == i
  {
    AdvanceIsModular(i, Count);
  }

  class Carousel {
    var currentIndex: int

    predicate Valid()
      reads this
    {
      0 <= currentIndex < Count
    }

    constructor ()
      ensures currentIndex == 0 && Valid()
    {
      currentIndex := 0;
    }

    /** The right arrow, and each firing of the interval timer. */
    method Next()
      requires Valid()
      modifies this
      ensures currentIndex == NextIndex(old(currentIndex)) && Valid()
    {
      currentIndex := NextIndex(currentIndex);
    }

    method Prev()
      requires Valid()
      modifies this
      ensures currentIndex == PrevIndex(old(currentIndex)) && Valid()
    {
      currentIndex := PrevIndex(currentIndex);
    }

    /** Clicking dot `k`. */
    method SelectDot(k: int)
      requires 0 <= k < Count
      modifies this
      ensures currentIndex == k && Valid()
    {
      currentIndex := k;
    }

    /** Dot `k` is highlighted exactly when it is the current index. */
    function DotActive(k: int): bool
      reads this
    {
      k == currentIndex
    }
  }
}
