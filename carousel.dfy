/**
 * The review carousel on the home page (src/components/Carousel.tsx): a
 * cursor `currentIndex` over `n = reviews.length` slides that the two arrow
 * buttons move with wrap-around, using JavaScript's `%`.
 */
module Carousel {
  import Js

  /** `nextSlide`: `(prevIndex + 1) % reviews.length`. */
  function NextIndex(i: int, n: int): int
    requires n > 0
  {
    Js.Rem(i + 1, n)
  }

  /** `prevSlide`: `(prevIndex - 1 + reviews.length) % reviews.length`. */
  function PreviousIndex(i: int, n: int): int
    requires n > 0
  {
    Js.Rem(i - 1 + n, n)
  }

  /** On a valid cursor both buttons step to the neighbouring slide: past
      the last slide "next" wraps to the first, before the first "previous"
      wraps to the last, and the cursor never leaves [0, n). */
  lemma StepValues(i: int, n: int)
    requires 0 <= i < n
    ensures NextIndex(i, n) == (if i + 1 < n then i + 1 else 0)
    ensures PreviousIndex(i, n) == (if i > 0 then i - 1 else n - 1)
    ensures 0 <= NextIndex(i, n) < n && 0 <= PreviousIndex(i, n) < n
  {
    if i + 1 < n {
      Js.ModUnique(i + 1, n, 0, i + 1);
    } else {
      Js.ModUnique(i + 1, n, 1, 0);
    }
    if i > 0 {
      Js.ModUnique(i - 1 + n, n, 1, i - 1);
    } else {
      Js.ModUnique(i - 1 + n, n, 0, n - 1);
    }
  }

  /** "Previous" undoes "next" and "next" undoes "previous". */
  lemma NextPreviousInverse(i: int, n: int)
    requires 0 <= i < n
    ensures PreviousIndex(NextIndex(i, n), n) == i
    ensures NextIndex(PreviousIndex(i, n), n) == i
  {
    StepValues(i, n);
    StepValues(NextIndex(i, n), n);
    StepValues(PreviousIndex(i, n), n);
  }

  /** The cursor after `k` clicks on "next". */
  function Advance(i: int, k: nat, n: int): int
    requires n > 0
  {
    if k == 0 then i else NextIndex(Advance(i, k - 1, n), n)
  }

  lemma ModSucc(a: int, n: int)
    requires a >= 0 && n > 0
    ensures (a % n + 1) % n == (a + 1) % n
  {
    var q, r := a / n, a % n;
    assert a == q * n + r;
    if r + 1 < n {
      Js.ModUnique(r + 1, n, 0, r + 1);
      Js.ModUnique(a + 1, n, q, r + 1);
    } else {
      Js.ModUnique(r + 1, n, 1, 0);
      Js.ModUnique(a + 1, n, q + 1, 0);
    }
  }

  /** `k` clicks on "next" move the cursor `k` slides on, modulo `n`. */
  lemma {:induction false} AdvanceIsShift(i: int, k: nat, n: int)
    requires 0 <= i < n
    ensures Advance(i, k, n) == (i + k) % n
  {
    if k == 0 {
      Js.ModUnique(i, n, 0, i);
    } else {
      var x := Advance(i, k - 1, n);
      AdvanceIsShift(i, k - 1, n);
      assert x == (i + k - 1) % n && x >= 0;
      assert Advance(i, k, n) == (x + 1) % n;
      ModSucc(i + k - 1, n);
    }
  }

  /** `n` clicks on "next" bring the cursor back to where it started. */
  lemma FullCycle(i: int, n: int)
    requires 0 <= i < n
    ensures Advance(i, n, n) == i
  {
    AdvanceIsShift(i, n, n);
    Js.ModUnique(i + n, n, 1, i);
  }

  /** One mounted carousel. HomePage mounts it only for a non-empty list of
      reviews, so `slides > 0`. */
  class CarouselState {
    const slides: int
    var currentIndex: int

    ghost predicate Valid()
      reads this
    {
      0 <= currentIndex < slides
    }

    constructor (n: int)
      requires n > 0
      ensures Valid() && slides == n && currentIndex == 0
    {
      slides := n;
      currentIndex := 0;
    }

    method NextSlide()
      requires Valid()
      modifies this
      ensures Valid()
      ensures currentIndex == NextIndex(old(currentIndex), slides)
    {
      StepValues(currentIndex, slides);
      currentIndex := Js.Rem(currentIndex + 1, slides);
    }

    method PrevSlide()
      requires Valid()
      modifies this
      ensures Valid()
      ensures currentIndex == PreviousIndex(old(currentIndex), slides)
    {
      StepValues(currentIndex, slides);
      currentIndex := Js.Rem(currentIndex - 1 + slides, slides);
    }
  }
}
